/**
 * Standard ten-pin scoring stated on the sequence of rolls as bowled, with no
 * reference to frames beyond where each frame's rolls start: an open frame
 * scores its two rolls, a strike or a spare scores the three rolls starting
 * with its own first roll. The frame-by-frame look-ahead of Frames.Total
 * agrees with it on every game played in turn order.
 */
module StandardScoring {
  import opened Results
  import opened Frames
  import opened Games

  /** All recorded rolls of the frames, in the order they were bowled. */
  function Flatten(fs: seq<Frame>): seq<int>
    decreases |fs|
  {
    if fs == [] then [] else Recorded(fs[0]) + Flatten(fs[1..])
  }

  /**
   * The score of frame i read off the roll sequence: None while the frame is
   * open or the rolls it needs have not been bowled.
   */
  function ReferenceTotal(fs: seq<Frame>, i: int): Option<int>
    requires 0 <= i < |fs|
  {
    var f := fs[i];
    var rest := Recorded(f) + Flatten(fs[i + 1..]);
    if CanRoll(f) then None
    else if IsStrike(f) || IsSpare(f) then
      if |rest| >= 3 then Some(rest[0] + rest[1] + rest[2]) else None
    else if |rest| >= 2 then Some(rest[0] + rest[1])
    else None
  }

  /** The sum of the reference totals of frames 0..n-1 that are determined. */
  function ReferenceSum(fs: seq<Frame>, n: nat): int
    requires n <= |fs|
  {
    if n == 0 then 0
    else ReferenceSum(fs, n - 1) + (match ReferenceTotal(fs, n - 1) case Some(t) => t case None => 0)
  }

  lemma FlattenFrom(fs: seq<Frame>, i: int)
    requires 0 <= i < |fs|
    ensures Flatten(fs[i..]) == Recorded(fs[i]) + Flatten(fs[i + 1..])
  {
    assert fs[i..][0] == fs[i];
    assert fs[i..][1..] == fs[i + 1..];
  }

  /** Frames that hold no rolls contribute nothing to the roll sequence. */
  lemma {:induction false} FlattenUntouched(fs: seq<Frame>, j: int)
    requires 0 <= j <= |fs|
    requires forall k :: j <= k < |fs| ==> fs[k].rolls == 0
    ensures Flatten(fs[j..]) == []
    decreases |fs| - j
  {
    if j < |fs| {
      FlattenFrom(fs, j);
      FlattenUntouched(fs, j + 1);
    }
  }

  /** A closed frame holds at least one roll, and lies at or before the cursor. */
  lemma ClosedFrame(g: GameState, k: int)
    requires Sequenced(g)
    requires 0 <= k < |g.frames|
    requires !CanRoll(g.frames[k])
    ensures g.frames[k].rolls >= 1 && k <= g.frameIdx
  {
  }

  /** The last frame scores its own rolls only. */
  lemma LastFrameMatches(g: GameState)
    requires Sequenced(g)
    requires !CanRoll(g.frames[LastFrame])
    ensures Total(g.frames, LastFrame) == ReferenceTotal(g.frames, LastFrame)
  {
    var fs := g.frames;
    var f := fs[LastFrame];
    assert ValidFrame(f) && f.frameIdx == LastFrame;
    assert fs[LastFrame + 1..] == [];
    assert f.rolls == 3 || !(IsStrike(f) || IsSpare(f));
  }

  /** A strike in frame 8 takes its bonus from the first two rolls of the last frame. */
  lemma StrikeAtEightMatches(g: GameState)
    requires Sequenced(g)
    requires !CanRoll(g.frames[8]) && IsStrike(g.frames[8])
    ensures Total(g.frames, 8) == ReferenceTotal(g.frames, 8)
  {
    var fs := g.frames;
    var f := fs[8];
    assert ValidFrame(f) && f.frameIdx == 8;
    assert f.rolls == 1 && Recorded(f) == [AllPins];
    FlattenFrom(fs, LastFrame);
    assert fs[LastFrame + 1..] == [];
    assert Recorded(f) + Flatten(fs[LastFrame..]) == [AllPins] + Recorded(fs[LastFrame]);
  }

  /** The rolls after frame i are those of frames i+1 and i+2, then the rest. */
  lemma RollsAfter(fs: seq<Frame>, i: int)
    requires 0 <= i && i + 2 < |fs|
    ensures Flatten(fs[i + 1..]) == Recorded(fs[i + 1]) + Recorded(fs[i + 2]) + Flatten(fs[i + 3..])
  {
    FlattenFrom(fs, i + 1);
    FlattenFrom(fs, i + 2);
  }

  /** The frame's total when the roll sequence has the shape the look-ahead expects. */
  lemma StrikeTotal(fs: seq<Frame>, i: int)
    requires Indexed(fs) && 0 <= i < 8
    requires ValidFrame(fs[i]) && ValidFrame(fs[i + 1]) && ValidFrame(fs[i + 2])
    requires !CanRoll(fs[i]) && IsStrike(fs[i])
    requires fs[i + 1].rolls + fs[i + 2].rolls < 2 ==> Flatten(fs[i + 3..]) == []
    requires fs[i + 1].rolls + fs[i + 2].rolls >= 2 && !IsStrike(fs[i + 1]) ==> fs[i + 1].rolls == 2
    ensures Total(fs, i) == ReferenceTotal(fs, i)
  {
    var f, n1, n2 := fs[i], fs[i + 1], fs[i + 2];
    assert Recorded(f) == [AllPins];
    RollsAfter(fs, i);
    var tail := Flatten(fs[i + 1..]);
    var r1, r2 := Recorded(n1), Recorded(n2);
    assert |tail| == n1.rolls + n2.rolls + |Flatten(fs[i + 3..])|;
    if n1.rolls + n2.rolls < 2 {
      assert |tail| < 2;
    } else if IsStrike(n1) {
      assert r1 == [AllPins] && n2.rolls >= 1;
      assert tail[0] == r1[0] && tail[1] == r2[0];
    } else {
      assert r1 == [n1.firstRoll, n1.secondRoll];
      assert tail[0] == r1[0] && tail[1] == r1[1];
    }
    assert Recorded(f) + tail == [AllPins] + tail;
  }

  /** A strike before frame 8 takes its bonus from the next two rolls, over one or two frames. */
  lemma StrikeMatches(g: GameState, i: int)
    requires Sequenced(g)
    requires 0 <= i < 8
    requires !CanRoll(g.frames[i]) && IsStrike(g.frames[i])
    ensures Total(g.frames, i) == ReferenceTotal(g.frames, i)
  {
    var fs := g.frames;
    var c := g.frameIdx;
    var n1, n2 := fs[i + 1], fs[i + 2];
    assert ValidFrame(fs[i]) && ValidFrame(n1) && ValidFrame(n2);
    if i + 1 < c {
      ClosedFrame(g, i + 1);
    }
    if i + 2 < c {
      ClosedFrame(g, i + 2);
    }
    if n1.rolls + n2.rolls < 2 {
      FlattenUntouched(fs, i + 3);
    }
    StrikeTotal(fs, i);
  }

  /** A spare before the last frame takes its bonus from the next frame's first roll. */
  lemma SpareMatches(g: GameState, i: int)
    requires Sequenced(g)
    requires 0 <= i < LastFrame
    requires !CanRoll(g.frames[i]) && IsSpare(g.frames[i])
    ensures Total(g.frames, i) == ReferenceTotal(g.frames, i)
  {
    var fs := g.frames;
    var f := fs[i];
    assert ValidFrame(f) && f.frameIdx == i;
    assert f.rolls == 2 && Recorded(f) == [f.firstRoll, f.secondRoll];
    var n1 := fs[i + 1];
    assert ValidFrame(n1) && n1.frameIdx == i + 1;
    FlattenFrom(fs, i + 1);
    if n1.rolls == 0 {
      if i + 1 < g.frameIdx {
        ClosedFrame(g, i + 1);
      }
      FlattenUntouched(fs, i + 2);
    }
  }

  /**
   * In a game played in turn order, the look-ahead total of every frame is
   * the standard score read off the roll sequence.
   */
  lemma TotalMatchesStandard(g: GameState, i: int)
    requires Sequenced(g)
    requires 0 <= i < |g.frames|
    ensures Total(g.frames, i) == ReferenceTotal(g.frames, i)
  {
    var f := g.frames[i];
    assert ValidFrame(f) && f.frameIdx == i;
    if CanRoll(f) {
    } else if i == LastFrame {
      LastFrameMatches(g);
    } else if IsStrike(f) && i == 8 {
      StrikeAtEightMatches(g);
    } else if IsStrike(f) {
      StrikeMatches(g, i);
    } else if IsSpare(f) {
      SpareMatches(g, i);
    } else {
      assert f.rolls == 2 && Recorded(f) == [f.firstRoll, f.secondRoll];
    }
  }

  /** In a game played in turn order, the game total is the standard score of the rolls so far. */
  lemma {:induction false} GameScoreMatchesStandard(g: GameState, n: nat)
    requires Sequenced(g)
    requires n <= |g.frames|
    ensures SumTotals(g.frames, n) == ReferenceSum(g.frames, n)
  {
    if n > 0 {
      GameScoreMatchesStandard(g, n - 1);
      TotalMatchesStandard(g, n - 1);
    }
  }
}
