/**
 * The games the test suite plays. Each is described by the rolls its
 * frames hold (any well-formed game holding them is that game, and
 * Frames.ValidIsReachable replays them from the empty frames); the lemmas
 * give the frame totals, the game total and the game-over state the tests
 * expect.
 */
module Scenarios {
  import opened Results
  import opened Frames
  import opened Games

  /** Frames from..9 hold no rolls yet. */
  predicate UntouchedFrom(fs: seq<Frame>, from: int)
  {
    forall k :: 0 <= from <= k < |fs| ==> Recorded(fs[k]) == []
  }

  /** Game total of the first n frames, built up one frame at a time. */
  lemma SumStep(fs: seq<Frame>, n: nat, t: int)
    requires Indexed(fs) && 0 < n <= |fs|
    requires SumTotals(fs, n - 1) + (if CanTotal(fs, n - 1) then Total(fs, n - 1).value else 0) == t
    ensures SumTotals(fs, n) == t
  {
  }

  // ---------------------------------------------------------------------
  // The three full games
  // ---------------------------------------------------------------------

  /** "10|10|10|10|10|10|10|10|10|10,10,10": twelve strikes. */
  predicate PerfectGame(fs: seq<Frame>)
  {
    && WellFormed(fs)
    && (forall k :: 0 <= k < LastFrame ==> Recorded(fs[k]) == [10])
    && Recorded(fs[LastFrame]) == [10, 10, 10]
  }

  /** Every frame of the perfect game scores 30, the game 300, and the game is over. */
  lemma PerfectGameScores(fs: seq<Frame>)
    requires PerfectGame(fs)
    ensures forall i :: 0 <= i < |fs| ==> Total(fs, i) == Some(30)
    ensures GameScore(fs) == 300
    ensures Sequenced(GameState(fs, LastFrame)) && IsOver(GameState(fs, LastFrame))
  {
    forall k | 0 <= k < LastFrame
      ensures fs[k].rolls == 1 && IsStrike(fs[k])
    {
      assert Recorded(fs[k])[0] == 10;
    }
    assert Recorded(fs[LastFrame])[1] == 10 && Recorded(fs[LastFrame])[2] == 10;
    forall i | 0 <= i < |fs|
      ensures Total(fs, i) == Some(30)
    {
      if i < LastFrame {
        assert IsStrike(fs[i + 1]);
      }
      if i < 8 {
        assert IsStrike(fs[i + 2]);
      }
    }
    ScoreOfStrikes(fs, |fs|);
  }

  /** When every frame total is 30, the first n frames sum to 30 n. */
  lemma {:induction false} ScoreOfStrikes(fs: seq<Frame>, n: nat)
    requires Indexed(fs) && n <= |fs|
    requires forall i :: 0 <= i < |fs| ==> Total(fs, i) == Some(30)
    ensures SumTotals(fs, n) == 30 * n
  {
    if n > 0 {
      ScoreOfStrikes(fs, n - 1);
    }
  }

  /** The first six frames of the second and third test games: "5,4|9,1|5,5|6,3|0,1|0,0". */
  predicate CommonStart(fs: seq<Frame>)
  {
    && WellFormed(fs)
    && Recorded(fs[0]) == [5, 4] && Recorded(fs[1]) == [9, 1] && Recorded(fs[2]) == [5, 5]
    && Recorded(fs[3]) == [6, 3] && Recorded(fs[4]) == [0, 1] && Recorded(fs[5]) == [0, 0]
  }

  /** The common start scores 9, 15, 16, 9, 1, 0; 50 in all. */
  lemma CommonStartScores(fs: seq<Frame>)
    requires CommonStart(fs)
    ensures Total(fs, 0) == Some(9) && Total(fs, 1) == Some(15) && Total(fs, 2) == Some(16)
    ensures Total(fs, 3) == Some(9) && Total(fs, 4) == Some(1) && Total(fs, 5) == Some(0)
    ensures SumTotals(fs, 6) == 50
  {
    forall k | 0 <= k < 6
      ensures fs[k].rolls == 2 && fs[k].firstRoll == Recorded(fs[k])[0] && fs[k].secondRoll == Recorded(fs[k])[1]
    {
      assert ValidFrame(fs[k]);
    }
    assert fs[2].firstRoll == 5;
    assert SumTotals(fs, 1) == 9;
    assert SumTotals(fs, 2) == 24;
    assert SumTotals(fs, 3) == 40;
    assert SumTotals(fs, 4) == 49;
    assert SumTotals(fs, 5) == 50;
  }

  /** "5,4|9,1|5,5|6,3|0,1|0,0|10|10|10|5,5,7". */
  predicate SpareFinishGame(fs: seq<Frame>)
  {
    && CommonStart(fs)
    && Recorded(fs[6]) == [10] && Recorded(fs[7]) == [10] && Recorded(fs[8]) == [10]
    && Recorded(fs[9]) == [5, 5, 7]
  }

  /** Frame totals 9, 15, 16, 9, 1, 0, 30, 25, 20, 17. */
  lemma SpareFinishTotals(fs: seq<Frame>)
    requires SpareFinishGame(fs)
    ensures Total(fs, 0) == Some(9) && Total(fs, 1) == Some(15) && Total(fs, 2) == Some(16)
    ensures Total(fs, 3) == Some(9) && Total(fs, 4) == Some(1) && Total(fs, 5) == Some(0)
    ensures Total(fs, 6) == Some(30) && Total(fs, 7) == Some(25) && Total(fs, 8) == Some(20)
    ensures Total(fs, 9) == Some(17)
  {
    assert Recorded(fs[6])[0] == 10 && Recorded(fs[7])[0] == 10 && Recorded(fs[8])[0] == 10;
    var r9 := Recorded(fs[9]);
    assert r9[0] == 5 && r9[1] == 5 && r9[2] == 7;
    CommonStartScores(fs);
  }

  /** Game total 142, and the game is over. */
  lemma SpareFinishGameScores(fs: seq<Frame>)
    requires SpareFinishGame(fs)
    ensures GameScore(fs) == 142
    ensures Sequenced(GameState(fs, LastFrame)) && IsOver(GameState(fs, LastFrame))
  {
    SpareFinishTotals(fs);
    CommonStartScores(fs);
    SumStep(fs, 7, 80);
    SumStep(fs, 8, 105);
    SumStep(fs, 9, 125);
    SumStep(fs, 10, 142);
    forall k | 0 <= k < 6
      ensures !CanRoll(fs[k])
    {
      assert ValidFrame(fs[k]);
    }
  }

  /** "5,4|9,1|5,5|6,3|0,1|0,0|10|10|7,2|5,4". */
  predicate OpenFinishGame(fs: seq<Frame>)
  {
    && CommonStart(fs)
    && Recorded(fs[6]) == [10] && Recorded(fs[7]) == [10]
    && Recorded(fs[8]) == [7, 2] && Recorded(fs[9]) == [5, 4]
  }

  /** Frame totals 9, 15, 16, 9, 1, 0, 27, 19, 9, 9. */
  lemma OpenFinishTotals(fs: seq<Frame>)
    requires OpenFinishGame(fs)
    ensures Total(fs, 0) == Some(9) && Total(fs, 1) == Some(15) && Total(fs, 2) == Some(16)
    ensures Total(fs, 3) == Some(9) && Total(fs, 4) == Some(1) && Total(fs, 5) == Some(0)
    ensures Total(fs, 6) == Some(27) && Total(fs, 7) == Some(19) && Total(fs, 8) == Some(9)
    ensures Total(fs, 9) == Some(9)
  {
    assert Recorded(fs[6])[0] == 10 && Recorded(fs[7])[0] == 10;
    var r8, r9 := Recorded(fs[8]), Recorded(fs[9]);
    assert r8[0] == 7 && r8[1] == 2 && r9[0] == 5 && r9[1] == 4;
    CommonStartScores(fs);
  }

  /** Game total 114, and the game is over. */
  lemma OpenFinishGameScores(fs: seq<Frame>)
    requires OpenFinishGame(fs)
    ensures GameScore(fs) == 114
    ensures Sequenced(GameState(fs, LastFrame)) && IsOver(GameState(fs, LastFrame))
  {
    OpenFinishTotals(fs);
    CommonStartScores(fs);
    SumStep(fs, 7, 77);
    SumStep(fs, 8, 96);
    SumStep(fs, 9, 105);
    SumStep(fs, 10, 114);
    forall k | 0 <= k < 6
      ensures !CanRoll(fs[k])
    {
      assert ValidFrame(fs[k]);
    }
  }

  // ---------------------------------------------------------------------
  // Games in progress
  // ---------------------------------------------------------------------

  /** Three strikes bowled, the cursor still on frame 2. */
  predicate ThreeStrikes(fs: seq<Frame>)
  {
    && WellFormed(fs)
    && Recorded(fs[0]) == [10] && Recorded(fs[1]) == [10] && Recorded(fs[2]) == [10]
    && UntouchedFrom(fs, 3)
  }

  /** After three strikes only the first frame is determined: 30, and the game total is 30. */
  lemma ThreeStrikesScores(fs: seq<Frame>)
    requires ThreeStrikes(fs)
    ensures Sequenced(GameState(fs, 2))
    ensures Total(fs, 0) == Some(30) && Total(fs, 1) == None && Total(fs, 2) == None
    ensures GameScore(fs) == 30
  {
    assert Recorded(fs[0])[0] == 10 && Recorded(fs[1])[0] == 10 && Recorded(fs[2])[0] == 10;
    UntouchedTotals(fs, 3);
    assert SumTotals(fs, 1) == 30;
    SumStep(fs, 2, 30);
    SumStep(fs, 3, 30);
    UntouchedSum(fs, 3, |fs|);
  }

  /** Then a spare, 5 and 5, in frame 3. */
  predicate StrikesThenSpare(fs: seq<Frame>)
  {
    && WellFormed(fs)
    && Recorded(fs[0]) == [10] && Recorded(fs[1]) == [10] && Recorded(fs[2]) == [10]
    && Recorded(fs[3]) == [5, 5]
    && UntouchedFrom(fs, 4)
  }

  /** Frames 0..2 total 30, 25 and 20; the spare waits for its bonus; the game total is 75. */
  lemma StrikesThenSpareScores(fs: seq<Frame>)
    requires StrikesThenSpare(fs)
    ensures Sequenced(GameState(fs, 3))
    ensures Total(fs, 0) == Some(30) && Total(fs, 1) == Some(25) && Total(fs, 2) == Some(20)
    ensures Total(fs, 3) == None
    ensures GameScore(fs) == 75
  {
    assert Recorded(fs[0])[0] == 10 && Recorded(fs[1])[0] == 10 && Recorded(fs[2])[0] == 10;
    var r3 := Recorded(fs[3]);
    assert r3[0] == 5 && r3[1] == 5;
    UntouchedTotals(fs, 4);
    assert SumTotals(fs, 1) == 30;
    SumStep(fs, 2, 55);
    SumStep(fs, 3, 75);
    SumStep(fs, 4, 75);
    UntouchedSum(fs, 4, |fs|);
  }

  /** A spare, 3 and 7, then a 6 in frame 1. */
  predicate SpareThenSix(fs: seq<Frame>)
  {
    && WellFormed(fs)
    && Recorded(fs[0]) == [3, 7] && Recorded(fs[1]) == [6]
    && UntouchedFrom(fs, 2)
  }

  /** The spare is closed and scores 16 once the 6 is rolled, not before; frame 1 is not determined yet. */
  lemma SpareThenSixScores(fs: seq<Frame>)
    requires SpareThenSix(fs)
    ensures Sequenced(GameState(fs, 1))
    ensures IsSpare(fs[0]) && !IsStrike(fs[0]) && !CanRoll(fs[0])
    ensures Total(fs, 0) == Some(16) && Total(fs, 1) == None
    ensures Total(fs[1 := Reset(fs[1])], 0) == None
    ensures GameScore(fs) == 16
  {
    var r0 := Recorded(fs[0]);
    assert r0[0] == 3 && r0[1] == 7;
    assert Recorded(fs[1])[0] == 6;
    UntouchedTotals(fs, 2);
    assert SumTotals(fs, 1) == 16;
    SumStep(fs, 2, 16);
    UntouchedSum(fs, 2, |fs|);
  }

  /**
   * The first half of the spare test, played through the game object: open
   * frame 0 and roll 3 and 7. The frame is a closed spare whose total waits
   * for the next roll.
   */
  method PlaySpare() returns (g: Game)
    ensures fresh(g) && fresh(g.frames) && g.Valid() && g.frameIdx == 0
    ensures g.frames[..] == NewGame().frames[0 := Frame(0, 2, 3, 7, 0)]
    ensures IsSpare(g.frames[0]) && !IsStrike(g.frames[0]) && !CanRoll(g.frames[0])
    ensures !CanTotal(g.frames[..], 0)
  {
    g := new Game();
    var r := g.NextFrame();
    var o := g.Roll(3);
    assert o == Pass && g.frames[..] == NewGame().frames[0 := Frame(0, 1, 3, 0, 0)];
    o := g.Roll(7);
    assert o == Pass;
  }

  /** Then open frame 1 and roll 6: the spare scores 16, and so does the game. */
  method PlaySpareThenSix() returns (g: Game, t: int)
    ensures g.Valid() && SpareThenSix(g.frames[..]) && g.frameIdx == 1
    ensures t == 16
  {
    g := PlaySpare();
    ghost var before := g.frames[..];
    AdvanceKeepsSequenced(g.State());
    var r := g.NextFrame();
    var o := g.Roll(6);
    assert o == Pass && g.frames[..] == before[1 := Frame(1, 1, 6, 0, 0)];
    assert UntouchedFrom(g.frames[..], 2);
    SpareThenSixScores(g.frames[..]);
    t := g.GameTotal();
  }

  /** Frames that hold no rolls are open and have no total. */
  lemma UntouchedTotals(fs: seq<Frame>, from: int)
    requires WellFormed(fs) && 0 <= from <= |fs|
    requires UntouchedFrom(fs, from)
    ensures forall k :: from <= k < |fs| ==> fs[k].rolls == 0 && CanRoll(fs[k]) && Total(fs, k) == None
  {
    forall k | from <= k < |fs|
      ensures fs[k].rolls == 0
    {
      assert ValidFrame(fs[k]);
    }
  }

  /** Frames from..n-1 that hold no rolls add nothing to the game total. */
  lemma {:induction false} UntouchedSum(fs: seq<Frame>, from: nat, n: nat)
    requires WellFormed(fs) && from <= n <= |fs|
    requires UntouchedFrom(fs, from)
    ensures SumTotals(fs, n) == SumTotals(fs, from)
  {
    if n > from {
      UntouchedSum(fs, from, n - 1);
      UntouchedTotals(fs, from);
    }
  }
}
