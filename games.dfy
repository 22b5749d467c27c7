/**
 * A game: ten frames created once, a cursor on the frame open for rolling
 * that only moves forward, the game-over test and the running game total.
 *
 * GameState is the game as a value; the class Game keeps the frames in an
 * array and updates them in place, each method specified by the functions
 * on GameState.
 */
module Games {
  import opened Results
  import opened Frames

  const GameOverMessage := "Game is over"

  /** The frames of a game and its cursor, -1 before the first frame. */
  datatype GameState = GameState(frames: seq<Frame>, frameIdx: int)

  predicate ValidState(g: GameState)
  {
    WellFormed(g.frames) && -1 <= g.frameIdx <= LastFrame
  }

  /** The game as the constructor leaves it: ten empty frames, no frame open yet. */
  function NewGame(): (g: GameState)
    ensures ValidState(g) && Sequenced(g)
    ensures g.frameIdx == -1
    ensures forall k :: 0 <= k < |g.frames| ==> g.frames[k] == EmptyFrame(k)
    ensures forall k :: 0 <= k < |g.frames| ==> Recorded(g.frames[k]) == [] && CanRoll(g.frames[k])
  {
    GameState(seq(LastFrame + 1, k => EmptyFrame(k)), -1)
  }

  /** The cursor is on the last frame and that frame takes no more rolls. */
  predicate IsOver(g: GameState)
    requires ValidState(g)
  {
    g.frameIdx == LastFrame && !CanRoll(g.frames[LastFrame])
  }

  /**
   * The order the turn loop keeps: every frame before the cursor is closed
   * and every frame after it is untouched.
   */
  predicate Sequenced(g: GameState)
  {
    && ValidState(g)
    && (forall k :: 0 <= k < g.frameIdx ==> !CanRoll(g.frames[k]))
    && (forall k :: g.frameIdx < k < |g.frames| ==> g.frames[k].rolls == 0)
  }

  /**
   * Moves the cursor to the next frame, or refuses once the game is over.
   * The caller must not advance from an open last frame: the cursor would
   * leave the array.
   */
  function Advance(g: GameState): (r: Result<GameState, Thrown>)
    requires ValidState(g)
    requires g.frameIdx < LastFrame || !CanRoll(g.frames[LastFrame])
    ensures r.Failure? <==> IsOver(g)
    ensures r.Failure? ==> r.error == IllegalState(GameOverMessage)
    ensures r.Success? ==> ValidState(r.value) && r.value.frames == g.frames && r.value.frameIdx == g.frameIdx + 1
  {
    if IsOver(g) then Failure(IllegalState(GameOverMessage))
    else Success(g.(frameIdx := g.frameIdx + 1))
  }

  /** Records a roll on frame i; only that frame can change. */
  function ScoreAt(g: GameState, i: int, pins: int): (r: Result<GameState, Thrown>)
    requires ValidState(g)
    requires 0 <= i < |g.frames|
    ensures r.Success? <==> Score(g.frames[i], pins).Success?
    ensures r.Failure? ==> r.error == Score(g.frames[i], pins).error
    ensures r.Success? ==>
      && ValidState(r.value)
      && r.value.frameIdx == g.frameIdx
      && r.value.frames == g.frames[i := Score(g.frames[i], pins).value]
  {
    match Score(g.frames[i], pins)
    case Failure(e) => Failure(e)
    case Success(f) =>
      ScoreKeepsValid(g.frames[i], pins);
      Success(g.(frames := g.frames[i := f]))
  }

  // ---------------------------------------------------------------------
  // The turn order and what it guarantees
  // ---------------------------------------------------------------------

  /** Advancing past a closed frame keeps the turn order and opens an empty frame. */
  lemma AdvanceKeepsSequenced(g: GameState)
    requires Sequenced(g)
    requires g.frameIdx == -1 || !CanRoll(g.frames[g.frameIdx])
    requires !IsOver(g)
    ensures g.frameIdx < LastFrame
    ensures Advance(g).Success? && Sequenced(Advance(g).value)
    ensures Recorded(g.frames[g.frameIdx + 1]) == [] && CanRoll(g.frames[g.frameIdx + 1])
  {
  }

  /** Rolling on the open frame keeps the turn order. */
  lemma RollKeepsSequenced(g: GameState, pins: int)
    requires Sequenced(g)
    requires 0 <= g.frameIdx
    requires ScoreAt(g, g.frameIdx, pins).Success?
    ensures Sequenced(ScoreAt(g, g.frameIdx, pins).value)
  {
    var h := ScoreAt(g, g.frameIdx, pins).value;
    forall k | 0 <= k < h.frameIdx
      ensures !CanRoll(h.frames[k])
    {
      assert h.frames[k] == g.frames[k];
    }
  }

  /** In turn order, the game is over exactly when every frame is closed. */
  lemma OverMeansAllClosed(g: GameState)
    requires Sequenced(g)
    ensures IsOver(g) <==> forall k :: 0 <= k < |g.frames| ==> !CanRoll(g.frames[k])
  {
    if !IsOver(g) && g.frameIdx < LastFrame {
      assert g.frames[LastFrame].rolls == 0;
    }
  }

  /** When the game is over, every frame total is determined. */
  lemma OverMeansAllTotalled(g: GameState)
    requires Sequenced(g)
    requires IsOver(g)
    ensures forall i :: 0 <= i < |g.frames| ==> CanTotal(g.frames, i)
  {
    OverMeansAllClosed(g);
    forall i | 0 <= i < |g.frames|
      ensures CanTotal(g.frames, i)
    {
      var fs := g.frames;
      assert ValidFrame(fs[i]) && !CanRoll(fs[i]);
      if i < LastFrame {
        assert !CanRoll(fs[i + 1]) && ValidFrame(fs[i + 1]);
      }
      if i < 8 {
        assert !CanRoll(fs[i + 2]);
      }
    }
  }

  /** The game as an object: the frame array it owns and the cursor. */
  class Game {
    var frameIdx: int
    const frames: array<Frame>

    ghost predicate Valid()
      reads this, frames
    {
      frames.Length == LastFrame + 1 && ValidState(State())
    }

    function State(): GameState
      reads this, frames
    {
      GameState(frames[..], frameIdx)
    }

    constructor ()
      ensures Valid() && fresh(frames)
      ensures State() == NewGame()
    {
      frameIdx := -1;
      var fs := new Frame[LastFrame + 1];
      var i := 0;
      while i < fs.Length
        invariant 0 <= i <= fs.Length
        invariant forall k :: 0 <= k < i ==> fs[k] == EmptyFrame(k)
      {
        fs[i] := EmptyFrame(i);
        i := i + 1;
      }
      frames := fs;
      new;
      assert frames[..] == NewGame().frames;
    }

    /** The frame open for rolling. */
    method CurrentFrame() returns (f: Frame)
      requires Valid()
      requires 0 <= frameIdx
      ensures f == frames[frameIdx] && f.frameIdx == frameIdx && ValidFrame(f)
    {
      f := frames[frameIdx];
      assert f == State().frames[frameIdx];
    }

    predicate IsGameOver()
      requires Valid()
      reads this, frames
    {
      IsOver(State())
    }

    /** Opens the next frame and returns its index, or fails once the game is over. */
    method NextFrame() returns (r: Result<int, Thrown>)
      requires Valid()
      requires frameIdx < LastFrame || !CanRoll(frames[LastFrame])
      modifies this
      ensures Valid()
      ensures Advance(old(State())).Failure? ==> r == Failure(Advance(old(State())).error) && State() == old(State())
      ensures Advance(old(State())).Success? ==> r == Success(frameIdx) && State() == Advance(old(State())).value
    {
      if frameIdx == LastFrame && !CanRoll(frames[frameIdx]) {
        return Failure(IllegalState(GameOverMessage));
      }
      frameIdx := frameIdx + 1;
      r := Success(frameIdx);
    }

    /** Records a roll on frame i, in place; a refused roll changes nothing. */
    method ScoreFrame(i: int, pins: int) returns (o: Outcome<Thrown>)
      requires Valid()
      requires 0 <= i < frames.Length
      modifies frames
      ensures Valid()
      ensures ScoreAt(old(State()), i, pins).Failure? ==>
        o == Fail(ScoreAt(old(State()), i, pins).error) && State() == old(State())
      ensures ScoreAt(old(State()), i, pins).Success? ==>
        o == Pass && State() == ScoreAt(old(State()), i, pins).value
    {
      var f := frames[i];
      assert f == State().frames[i];
      if !CanRoll(f) {
        return Fail(IllegalState(NoMoreRolls));
      }
      if pins < 0 || pins > AllPins {
        return Fail(IllegalArgument(InvalidScore));
      }
      if f.rolls == 0 {
        frames[i] := f.(rolls := 1, firstRoll := pins);
      } else if f.rolls == 1 {
        if f.firstRoll + pins > AllPins && (f.frameIdx != LastFrame || !IsStrike(f)) {
          return Fail(IllegalState(InvalidScore));
        }
        frames[i] := f.(rolls := 2, secondRoll := pins);
      } else {
        frames[i] := f.(rolls := 3, extraRoll := pins);
      }
      o := Pass;
    }

    /** A roll on the open frame, as the turn loop makes it: the turn order is kept. */
    method Roll(pins: int) returns (o: Outcome<Thrown>)
      requires Valid() && Sequenced(State())
      requires 0 <= frameIdx
      requires CanRoll(frames[frameIdx])
      modifies frames
      ensures Valid() && Sequenced(State())
      ensures ScoreAt(old(State()), frameIdx, pins).Failure? ==>
        o == Fail(ScoreAt(old(State()), frameIdx, pins).error) && State() == old(State())
      ensures ScoreAt(old(State()), frameIdx, pins).Success? ==>
        o == Pass && State() == ScoreAt(old(State()), frameIdx, pins).value
    {
      o := ScoreFrame(frameIdx, pins);
      if o.Pass? {
        RollKeepsSequenced(old(State()), pins);
      }
    }

    /** The running game total: the determined frame totals summed. */
    method GameTotal() returns (t: int)
      requires Valid()
      ensures t == GameScore(frames[..])
      ensures 0 <= t <= 300
    {
      var fs := frames[..];
      t := 0;
      var i := 0;
      while i < frames.Length
        invariant 0 <= i <= frames.Length
        invariant t == SumTotals(fs, i)
      {
        if CanTotal(fs, i) {
          t := t + Total(fs, i).value;
        }
        i := i + 1;
      }
      GameScoreBounds(fs);
    }
  }
}
