/**
 * One frame of a ten-pin bowling game: which rolls it may still take, how a
 * roll is recorded, and what it scores (with the strike and spare look-ahead
 * into the next two frames).
 *
 * A frame is a value; the game keeps its ten frames in an array and a frame
 * reaches its neighbours through that array and its own index.
 */
module Frames {
  import opened Results

  const LastFrame := 9
  const AllPins := 10

  /** The exceptions a roll or a frame change can raise, with their messages. */
  datatype Thrown = IllegalState(message: string) | IllegalArgument(message: string)

  const NoMoreRolls := "No more rolls allowed in this frame"
  const InvalidScore := "Invalid score"

  /**
   * The state of one frame: its position in the game, how many rolls are
   * recorded, and the three roll slots (0 until written).
   */
  datatype Frame = Frame(frameIdx: int, rolls: int, firstRoll: int, secondRoll: int, extraRoll: int)

  /** A frame as the game creates it: nothing rolled yet. */
  function EmptyFrame(frameIdx: int): (r: Frame)
    ensures r.frameIdx == frameIdx && Recorded(r) == [] && Slots(r) == [0, 0, 0]
    ensures 0 <= frameIdx <= LastFrame ==> ValidFrame(r) && CanRoll(r)
  {
    Frame(frameIdx, 0, 0, 0, 0)
  }

  predicate IsPins(n: int)
  {
    0 <= n <= AllPins
  }

  predicate IsStrike(f: Frame)
  {
    f.firstRoll == AllPins
  }

  predicate IsSpare(f: Frame)
  {
    !IsStrike(f) && f.firstRoll + f.secondRoll == AllPins
  }

  /** Whether the frame may take another roll. */
  predicate CanRoll(f: Frame)
  {
    if f.rolls == 0 then true
    else if f.rolls == 1 then !IsStrike(f) || f.frameIdx == LastFrame
    else f.frameIdx == LastFrame && (IsStrike(f) || IsSpare(f)) && f.rolls == 2
  }

  /** The three roll slots, in the order they are written. */
  function Slots(f: Frame): seq<int>
  {
    [f.firstRoll, f.secondRoll, f.extraRoll]
  }

  /** The rolls recorded so far, in order. */
  function Recorded(f: Frame): (r: seq<int>)
    ensures 0 <= f.rolls <= 3 ==> |r| == f.rolls && r == Slots(f)[..f.rolls]
  {
    if f.rolls <= 0 then []
    else if f.rolls == 1 then [f.firstRoll]
    else if f.rolls == 2 then [f.firstRoll, f.secondRoll]
    else [f.firstRoll, f.secondRoll, f.extraRoll]
  }

  /** The most rolls a frame at this position can ever hold. */
  function MaxRolls(frameIdx: int): nat
  {
    if frameIdx == LastFrame then 3 else 2
  }

  /**
   * The states a frame can reach from the empty frame by successful rolls
   * (ScoreKeepsValid and ValidIsReachable prove that these are exactly them).
   */
  predicate ValidFrame(f: Frame)
  {
    && 0 <= f.frameIdx <= LastFrame
    && 0 <= f.rolls <= MaxRolls(f.frameIdx)
    && IsPins(f.firstRoll) && IsPins(f.secondRoll) && IsPins(f.extraRoll)
    && (f.rolls < 1 ==> f.firstRoll == 0)
    && (f.rolls < 2 ==> f.secondRoll == 0)
    && (f.rolls < 3 ==> f.extraRoll == 0)
    // the second roll is taken from the pins the first one left, except after
    // a strike in the last frame, which brings a fresh rack
    && (f.rolls >= 2 && !(f.frameIdx == LastFrame && IsStrike(f)) ==> f.firstRoll + f.secondRoll <= AllPins)
    && (f.frameIdx < LastFrame && IsStrike(f) ==> f.rolls == 1)
    && (f.rolls == 3 ==> IsStrike(f) || IsSpare(f))
  }

  /** The second roll would knock down more pins than the first one left standing. */
  predicate Overfills(f: Frame, pins: int)
  {
    f.rolls == 1 && f.firstRoll + pins > AllPins && (f.frameIdx != LastFrame || !IsStrike(f))
  }

  /**
   * Records a roll of `pins`, or reports why it is refused; a refused roll
   * leaves the frame as it was. (ScoreAsWritten is Bowling.java's own order of
   * effects, which differs on the over-full second roll.)
   */
  function Score(f: Frame, pins: int): (r: Result<Frame, Thrown>)
    ensures !CanRoll(f) ==> r == Failure(IllegalState(NoMoreRolls))
    ensures CanRoll(f) && !IsPins(pins) ==> r == Failure(IllegalArgument(InvalidScore))
    ensures CanRoll(f) && IsPins(pins) && Overfills(f, pins) ==> r == Failure(IllegalState(InvalidScore))
    ensures r.Success? <==> CanRoll(f) && IsPins(pins) && !Overfills(f, pins)
    ensures r.Success? ==>
      && r.value.frameIdx == f.frameIdx
      && r.value.rolls == f.rolls + 1
      && Recorded(r.value) == Recorded(f) + [pins]
      && Slots(r.value) == Slots(f)[f.rolls := pins]
  {
    if !CanRoll(f) then Failure(IllegalState(NoMoreRolls))
    else if pins < 0 || pins > AllPins then Failure(IllegalArgument(InvalidScore))
    else if f.rolls == 0 then Success(f.(rolls := 1, firstRoll := pins))
    else if f.rolls == 1 then
      if f.firstRoll + pins > AllPins && (f.frameIdx != LastFrame || !IsStrike(f)) then
        Failure(IllegalState(InvalidScore))
      else
        Success(f.(rolls := 2, secondRoll := pins))
    else Success(f.(rolls := 3, extraRoll := pins))
  }

  /**
   * The roll exactly as Bowling.java orders its effects: the roll count is
   * incremented before the over-full second roll is refused, so that refusal
   * still leaves the frame with two rolls.
   */
  function ScoreAsWritten(f: Frame, pins: int): (Frame, Outcome<Thrown>)
  {
    if !CanRoll(f) then (f, Fail(IllegalState(NoMoreRolls)))
    else if pins < 0 || pins > AllPins then (f, Fail(IllegalArgument(InvalidScore)))
    else
      var counted := f.(rolls := f.rolls + 1);
      if f.rolls == 0 then (counted.(firstRoll := pins), Pass)
      else if f.rolls == 1 then
        if f.firstRoll + pins > AllPins && (f.frameIdx != LastFrame || !IsStrike(f)) then
          (counted, Fail(IllegalState(InvalidScore)))
        else
          (counted.(secondRoll := pins), Pass)
      else (counted.(extraRoll := pins), Pass)
  }

  /** Back to the empty frame at the same position. */
  function Reset(f: Frame): (r: Frame)
    ensures r.frameIdx == f.frameIdx && Recorded(r) == [] && Slots(r) == [0, 0, 0]
    ensures ValidFrame(f) ==> ValidFrame(r) && CanRoll(r)
  {
    f.(rolls := 0, firstRoll := 0, secondRoll := 0, extraRoll := 0)
  }

  /** Applies the rolls one by one, stopping at the first refusal. */
  function Rolled(f: Frame, pins: seq<int>): Result<Frame, Thrown>
    decreases |pins|
  {
    if pins == [] then Success(f)
    else
      match Score(f, pins[0])
      case Failure(e) => Failure(e)
      case Success(g) => Rolled(g, pins[1..])
  }

  /** How many rolls complete the frame, judged from the rolls it holds. */
  function RollsNeeded(f: Frame): nat
  {
    if f.frameIdx < LastFrame then (if IsStrike(f) then 1 else 2)
    else if IsStrike(f) || IsSpare(f) then 3 else 2
  }

  // ---------------------------------------------------------------------
  // Properties of a single frame
  // ---------------------------------------------------------------------

  /** A valid frame can roll exactly while it holds fewer rolls than it needs. */
  lemma CanRollTable(f: Frame)
    requires ValidFrame(f)
    ensures CanRoll(f) <==> f.rolls < RollsNeeded(f)
    ensures f.rolls <= RollsNeeded(f) <= MaxRolls(f.frameIdx)
  {
  }

  /** A successful roll keeps the frame valid, so the roll count never exceeds 2 (or 3 on the last frame). */
  lemma ScoreKeepsValid(f: Frame, pins: int)
    requires ValidFrame(f)
    requires Score(f, pins).Success?
    ensures ValidFrame(Score(f, pins).value)
    ensures Score(f, pins).value.rolls <= MaxRolls(f.frameIdx)
    ensures Score(f, pins).value.extraRoll != 0 ==> f.frameIdx == LastFrame
  {
  }

  /** Every sequence of accepted rolls from a valid frame ends in a valid frame. */
  lemma {:induction false} RolledIsValid(f: Frame, pins: seq<int>)
    requires ValidFrame(f)
    requires Rolled(f, pins).Success?
    ensures ValidFrame(Rolled(f, pins).value)
    decreases |pins|
  {
    if pins != [] {
      ScoreKeepsValid(f, pins[0]);
      RolledIsValid(Score(f, pins[0]).value, pins[1..]);
    }
  }

  /** Accepted rolls are recorded in the order they were bowled. */
  lemma {:induction false} RolledRecords(f: Frame, pins: seq<int>)
    requires Rolled(f, pins).Success?
    ensures Recorded(Rolled(f, pins).value) == Recorded(f) + pins
    decreases |pins|
  {
    if pins != [] {
      var g := Score(f, pins[0]).value;
      RolledRecords(g, pins[1..]);
      assert [pins[0]] + pins[1..] == pins;
    }
  }

  /** Conversely, every valid frame is reached by replaying its own recorded rolls. */
  lemma ValidIsReachable(f: Frame)
    requires ValidFrame(f)
    ensures Rolled(EmptyFrame(f.frameIdx), Recorded(f)) == Success(f)
  {
    var e := EmptyFrame(f.frameIdx);
    var s := Recorded(f);
    if f.rolls >= 1 {
      var g1 := e.(rolls := 1, firstRoll := f.firstRoll);
      assert Score(e, s[0]) == Success(g1);
      if f.rolls >= 2 {
        var g2 := g1.(rolls := 2, secondRoll := f.secondRoll);
        assert Score(g1, s[1]) == Success(g2);
        if f.rolls == 3 {
          assert Score(g2, s[2]) == Success(f);
          assert Rolled(f, s[3..]) == Success(f);
        } else {
          assert g2 == f;
        }
        assert Rolled(g2, s[2..]) == Success(f);
      } else {
        assert g1 == f;
      }
      assert Rolled(g1, s[1..]) == Success(f);
    }
  }

  /** On every input the Java and the corrected roll agree, except the refused over-full second roll. */
  lemma ScoreAsWrittenAgrees(f: Frame, pins: int)
    ensures ScoreAsWritten(f, pins).1.Pass? <==> Score(f, pins).Success?
    ensures Score(f, pins).Success? ==> ScoreAsWritten(f, pins).0 == Score(f, pins).value
    ensures Score(f, pins).Failure? ==> ScoreAsWritten(f, pins).1 == Fail(Score(f, pins).error)
    ensures Score(f, pins).Failure? && !(CanRoll(f) && IsPins(pins) && Overfills(f, pins)) ==>
      ScoreAsWritten(f, pins).0 == f
    ensures CanRoll(f) && IsPins(pins) && Overfills(f, pins) ==>
      ScoreAsWritten(f, pins).0 == f.(rolls := 2)
  {
  }

  /** The discrepancy: a refused 5-then-6 leaves the Java frame closed on rolls 5 and 0. */
  lemma RefusedSecondRollClosesFrame()
    ensures var before := Frame(0, 1, 5, 0, 0);
      && Score(before, 6) == Failure(IllegalState(InvalidScore))
      && ScoreAsWritten(before, 6).1 == Fail(IllegalState(InvalidScore))
      && ScoreAsWritten(before, 6).0 == Frame(0, 2, 5, 0, 0)
      && Recorded(ScoreAsWritten(before, 6).0) == [5, 0]
      && CanRoll(before)
      && !CanRoll(ScoreAsWritten(before, 6).0)
  {
  }

  /** The tenth frame accepts a strike, a second ten on the fresh rack, and a third ten. */
  lemma TenthFrameThreeStrikes()
    ensures Rolled(EmptyFrame(LastFrame), [10, 10, 10]) == Success(Frame(LastFrame, 3, 10, 10, 10))
    ensures Rolled(EmptyFrame(8), [10, 10]) == Failure(IllegalState(NoMoreRolls))
    ensures Rolled(EmptyFrame(LastFrame), [5, 6]) == Failure(IllegalState(InvalidScore))
  {
    var e := EmptyFrame(LastFrame);
    assert Score(e, 10) == Success(Frame(LastFrame, 1, 10, 0, 0));
    assert Score(Frame(LastFrame, 1, 10, 0, 0), 10) == Success(Frame(LastFrame, 2, 10, 10, 0));
    assert Score(Frame(LastFrame, 2, 10, 10, 0), 10) == Success(Frame(LastFrame, 3, 10, 10, 10));
    assert Score(EmptyFrame(8), 10) == Success(Frame(8, 1, 10, 0, 0));
    assert Score(e, 5) == Success(Frame(LastFrame, 1, 5, 0, 0));
  }

  // ---------------------------------------------------------------------
  // Totals, with the look-ahead into the following frames
  // ---------------------------------------------------------------------

  /** The ten frames in game order, each knowing its own position. */
  predicate Indexed(fs: seq<Frame>)
  {
    |fs| == LastFrame + 1 && forall k :: 0 <= k < |fs| ==> fs[k].frameIdx == k
  }

  /** Indexed, and every frame in a state that rolling can reach. */
  predicate WellFormed(fs: seq<Frame>)
  {
    Indexed(fs) && forall k :: 0 <= k < |fs| ==> ValidFrame(fs[k])
  }

  /** The frame after frame i; it exists only while i is not the last frame. */
  function NextFrame(fs: seq<Frame>, i: int): (r: Frame)
    requires Indexed(fs)
    requires 0 <= i < LastFrame
    ensures r.frameIdx == i + 1
  {
    fs[i + 1]
  }

  /**
   * The score of frame i, or None (the Java -1) while it cannot be
   * determined yet: the frame is still open, or the bonus rolls of a strike or
   * spare have not been rolled in the following frames. The look-ahead never
   * reaches past the last frame.
   */
  function Total(fs: seq<Frame>, i: int): (r: Option<int>)
    requires Indexed(fs)
    requires 0 <= i < |fs|
    ensures CanRoll(fs[i]) ==> r.None?
  {
    var f := fs[i];
    if CanRoll(f) then None
    else if IsStrike(f) then
      if f.frameIdx < 8 then
        if NextFrame(fs, i).rolls + NextFrame(fs, i + 1).rolls < 2 then None
        else if IsStrike(NextFrame(fs, i)) then Some(AllPins + AllPins + NextFrame(fs, i + 1).firstRoll)
        else Some(AllPins + NextFrame(fs, i).firstRoll + NextFrame(fs, i).secondRoll)
      else if f.frameIdx == 8 then
        if NextFrame(fs, i).rolls < 2 then None
        else Some(AllPins + NextFrame(fs, i).firstRoll + NextFrame(fs, i).secondRoll)
      else Some(AllPins + f.secondRoll + f.extraRoll)
    else if IsSpare(f) then
      if f.frameIdx < LastFrame then
        if NextFrame(fs, i).rolls < 1 then None
        else Some(AllPins + NextFrame(fs, i).firstRoll)
      else Some(AllPins + f.extraRoll)
    else Some(f.firstRoll + f.secondRoll)
  }

  predicate CanTotal(fs: seq<Frame>, i: int)
    requires Indexed(fs)
    requires 0 <= i < |fs|
  {
    Total(fs, i).Some?
  }

  /** Total as the Java returns it, with -1 for "not determinable yet". */
  function SentinelTotal(fs: seq<Frame>, i: int): int
    requires Indexed(fs)
    requires 0 <= i < |fs|
  {
    match Total(fs, i)
    case None => -1
    case Some(t) => t
  }

  /** A determined frame total of a well-formed game lies in 0..30. */
  lemma TotalBounds(fs: seq<Frame>, i: int)
    requires WellFormed(fs)
    requires 0 <= i < |fs|
    ensures CanTotal(fs, i) ==> 0 <= Total(fs, i).value <= 30
  {
    assert ValidFrame(fs[i]);
    if i < LastFrame {
      assert ValidFrame(fs[i + 1]);
    }
    if i < 8 {
      assert ValidFrame(fs[i + 2]);
    }
  }

  /** The -1 sentinel never collides with a real total, so canTotal is exactly "total() != -1". */
  lemma SentinelMeansUndetermined(fs: seq<Frame>, i: int)
    requires WellFormed(fs)
    requires 0 <= i < |fs|
    ensures CanTotal(fs, i) <==> SentinelTotal(fs, i) != -1
    ensures CanRoll(fs[i]) ==> SentinelTotal(fs, i) == -1
  {
    TotalBounds(fs, i);
  }

  /** The sum of the determined totals of frames 0..n-1; undetermined frames are skipped. */
  function SumTotals(fs: seq<Frame>, n: nat): int
    requires Indexed(fs)
    requires n <= |fs|
  {
    if n == 0 then 0
    else SumTotals(fs, n - 1) + (if CanTotal(fs, n - 1) then Total(fs, n - 1).value else 0)
  }

  /** The running game score: the determined frame totals summed. */
  function GameScore(fs: seq<Frame>): int
    requires Indexed(fs)
  {
    SumTotals(fs, |fs|)
  }

  lemma {:induction false} SumTotalsBounds(fs: seq<Frame>, n: nat)
    requires WellFormed(fs)
    requires n <= |fs|
    ensures 0 <= SumTotals(fs, n) <= 30 * n
  {
    if n > 0 {
      SumTotalsBounds(fs, n - 1);
      TotalBounds(fs, n - 1);
    }
  }

  /** A game score lies in 0..300. */
  lemma GameScoreBounds(fs: seq<Frame>)
    requires WellFormed(fs)
    ensures 0 <= GameScore(fs) <= 300
  {
    SumTotalsBounds(fs, |fs|);
  }
}
