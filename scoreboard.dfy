/**
 * The scoreboard: a fixed-width text table with a header, and for each
 * player a row of rolls and a row of running totals.
 *
 * Every cell is specified by a function on values; the methods build the
 * text on a TextBuilder, appending and padding in loops.
 */
module Scoreboard {
  import opened Frames
  import opened Games

  const NameColW := 10
  const ScoreColW := 6

  const Header := "|Player    |  1   |  2   |  3   |  4   |  5   |  6   |  7   |  8   |  9   |  10  |Total |\n"
  const Divider := "|----------|------|------|------|------|------|------|------|------|------|------|------|\n"

  /** The length of one line of the table, its newline included. */
  const LineLength := 90

  function Min(a: int, b: int): int
  {
    if a < b then a else b
  }

  /** n spaces; none when n is not positive. */
  function Spaces(n: int): (r: string)
    ensures |r| == if n < 0 then 0 else n
  {
    seq(if n < 0 then 0 else n, _ => ' ')
  }

  /** s cut or padded with spaces to exactly len characters. */
  function Cell(s: string, len: int): (r: string)
    requires len >= 0
    ensures |r| == len
    ensures forall k :: 0 <= k < len ==> r[k] == if k < |s| then s[k] else ' '
  {
    s[..Min(len, |s|)] + Spaces(len - |s|)
  }

  function DigitChar(d: int): char
    requires 0 <= d <= 9
  {
    "0123456789"[d]
  }

  /** The decimal digits of n, most significant first. */
  function Digits(n: nat): (r: string)
    ensures 1 <= |r|
    ensures forall k :: 0 <= k < |r| ==> '0' <= r[k] <= '9'
  {
    if n < 10 then [DigitChar(n)] else Digits(n / 10) + [DigitChar(n % 10)]
  }

  /** An integer in decimal, with a leading '-' when negative. */
  function Decimal(t: int): string
  {
    if t < 0 then "-" + Digits(-t) else Digits(t)
  }

  /** Reads back a string of decimal digits. */
  function ParseDigits(s: string): int
  {
    if s == [] then 0 else ParseDigits(s[..|s| - 1]) * 10 + (s[|s| - 1] as int - '0' as int)
  }

  /** A frame or game total, padded by its own digit count. */
  function TotalCell(t: int, len: int): string
  {
    var pad := if t >= 100 then len - 3 else if t >= 10 then len - 2 else len - 1;
    Decimal(t) + Spaces(pad)
  }

  /** A roll: its pin count, or X for ten, then len-1 spaces. */
  function RollCell(r: int, len: int): string
  {
    (if r < 10 then Decimal(r) else "X") + Spaces(len - 1)
  }

  /**
   * The rolls of a frame: blank, one roll, two rolls in two-character
   * columns (the second as / for a spare), or all three rolls of the last
   * frame.
   */
  function FrameCell(f: Frame, width: int): string
    requires f.rolls == 0 ==> width >= 0
    requires f.rolls == 2 ==> width >= 4
  {
    if f.rolls == 0 then Cell("", width)
    else if f.rolls == 1 then RollCell(f.firstRoll, width)
    else if f.rolls == 2 then FirstTwo(f) + Cell("", width - 4)
    else if f.rolls == 3 then FirstTwo(f) + RollCell(f.extraRoll, 2)
    else ""
  }

  /** The first two rolls in two-character columns. */
  function FirstTwo(f: Frame): string
  {
    RollCell(f.firstRoll, 2) + SecondMark(f)
  }

  /** The second roll in a two-character column: / when it makes a spare. */
  function SecondMark(f: Frame): string
  {
    if IsSpare(f) then Cell("/", 2) else RollCell(f.secondRoll, 2)
  }

  /** What the table shows of one player: the name and the frames of the game. */
  datatype Sheet = Sheet(name: string, frames: seq<Frame>)

  /** The text acc followed by the frame cells of frames 0..n-1, each followed by a separator. */
  function RollCells(acc: string, fs: seq<Frame>, n: nat): string
    requires n <= |fs|
  {
    if n == 0 then acc else RollCells(acc, fs, n - 1) + FrameCell(fs[n - 1], ScoreColW) + "|"
  }

  /** The text acc followed by the total cells of frames 0..n-1, each followed by a separator. */
  function TotalCells(acc: string, fs: seq<Frame>, n: nat): string
    requires Indexed(fs)
    requires n <= |fs|
  {
    if n == 0 then acc else TotalCells(acc, fs, n - 1) + TotalColumn(fs, n - 1) + "|"
  }

  /** The total cell of frame i: its total once determined, blank before. */
  function TotalColumn(fs: seq<Frame>, i: nat): string
    requires Indexed(fs)
    requires i < |fs|
  {
    if CanTotal(fs, i) then TotalCell(Total(fs, i).value, ScoreColW) else Cell("", ScoreColW)
  }

  /** The text acc followed by the row of rolls: the name, the frame cells and a blank total column. */
  function RollsRow(acc: string, name: string, fs: seq<Frame>): string
  {
    RollCells(acc + "|" + Cell(name, NameColW) + "|", fs, |fs|) + Cell("", ScoreColW) + "|" + "\n"
  }

  /** The text acc followed by the row of totals: a blank name, the frame totals and the game total. */
  function TotalsRow(acc: string, fs: seq<Frame>): string
    requires Indexed(fs)
  {
    TotalCells(acc + "|" + Cell("", NameColW) + "|", fs, |fs|) + TotalCell(GameScore(fs), ScoreColW) + "|\n"
  }

  /** The text acc followed by a player's two rows and the divider under them. */
  function PlayerBlock(acc: string, s: Sheet): string
    requires Indexed(s.frames)
  {
    TotalsRow(RollsRow(acc, s.name, s.frames), s.frames) + Divider
  }

  /** The text acc followed by the rows of the first n players. */
  function PlayerRows(acc: string, sheets: seq<Sheet>, n: nat): string
    requires n <= |sheets|
    requires forall p :: 0 <= p < |sheets| ==> WellFormed(sheets[p].frames)
  {
    if n == 0 then acc else PlayerBlock(PlayerRows(acc, sheets, n - 1), sheets[n - 1])
  }

  /** The whole table: header and divider once, then each player's rows. */
  function Board(sheets: seq<Sheet>): string
    requires forall p :: 0 <= p < |sheets| ==> WellFormed(sheets[p].frames)
  {
    PlayerRows(Header + Divider, sheets, |sheets|)
  }


  // ---------------------------------------------------------------------
  // Widths and contents of the cells
  // ---------------------------------------------------------------------

  /** Reading the digits back gives the number: the digits are its decimal form. */
  lemma {:induction false} DigitsRoundTrip(n: nat)
    ensures ParseDigits(Digits(n)) == n
  {
    var s := Digits(n);
    if n < 10 {
      assert s[..|s| - 1] == [];
    } else {
      DigitsRoundTrip(n / 10);
      assert s[..|s| - 1] == Digits(n / 10);
    }
  }

  /** A number below 1000 has as many digits as the padding rule assumes. */
  lemma DigitsWidth(n: nat)
    requires n < 1000
    ensures |Digits(n)| == if n >= 100 then 3 else if n >= 10 then 2 else 1
  {
    if n >= 10 {
      assert |Digits(n)| == |Digits(n / 10)| + 1;
    }
  }

  /** A total of 0..999 fills its column exactly. */
  lemma TotalCellWidth(t: int, len: int)
    requires 0 <= t <= 999
    requires len >= 3
    ensures |TotalCell(t, len)| == len
    ensures TotalCell(t, len)[..|Decimal(t)|] == Decimal(t)
    ensures ParseDigits(TotalCell(t, len)[..|Decimal(t)|]) == t
  {
    DigitsWidth(t);
    DigitsRoundTrip(t);
  }

  /** A roll of 0..10 fills its column exactly, and shows X exactly for ten. */
  lemma RollCellShape(r: int, len: int)
    requires IsPins(r)
    requires len >= 1
    ensures |RollCell(r, len)| == len
    ensures RollCell(r, len)[0] == 'X' <==> r == AllPins
    ensures r < AllPins ==> RollCell(r, len)[0] == DigitChar(r)
  {
  }

  /** The rolls cell of a frame in any reachable state is exactly six characters wide. */
  lemma FrameCellWidth(f: Frame)
    requires ValidFrame(f)
    ensures |FrameCell(f, ScoreColW)| == ScoreColW
  {
    RollCellShape(f.firstRoll, ScoreColW);
    RollCellShape(f.firstRoll, 2);
    RollCellShape(f.secondRoll, 2);
    RollCellShape(f.extraRoll, 2);
  }

  /** A strike shows X first; a spare shows / for its second roll. */
  lemma FrameCellMarks(f: Frame)
    requires ValidFrame(f)
    requires f.rolls >= 1
    ensures FrameCell(f, ScoreColW)[0] == 'X' <==> IsStrike(f)
    ensures f.rolls >= 2 ==> (FrameCell(f, ScoreColW)[2] == '/' <==> IsSpare(f))
  {
    RollCellShape(f.firstRoll, ScoreColW);
    RollCellShape(f.firstRoll, 2);
    RollCellShape(f.secondRoll, 2);
    RollCellShape(f.extraRoll, 2);
    if f.rolls >= 2 {
      assert FrameCell(f, ScoreColW)[2] == SecondMark(f)[0];
    }
  }

  lemma {:induction false} RollCellsWidth(acc: string, fs: seq<Frame>, n: nat)
    requires n <= |fs|
    requires forall k :: 0 <= k < |fs| ==> ValidFrame(fs[k])
    ensures |RollCells(acc, fs, n)| == |acc| + 7 * n
  {
    if n > 0 {
      RollCellsWidth(acc, fs, n - 1);
      FrameCellWidth(fs[n - 1]);
    }
  }

  lemma {:induction false} TotalCellsWidth(acc: string, fs: seq<Frame>, n: nat)
    requires WellFormed(fs)
    requires n <= |fs|
    ensures |TotalCells(acc, fs, n)| == |acc| + 7 * n
  {
    if n > 0 {
      TotalCellsWidth(acc, fs, n - 1);
      TotalBounds(fs, n - 1);
      if CanTotal(fs, n - 1) {
        TotalCellWidth(Total(fs, n - 1).value, ScoreColW);
      }
      assert |TotalColumn(fs, n - 1)| == ScoreColW;
    }
  }

  /** Each of a player's rows adds one table line, newline last, as long as the header. */
  lemma RowsWidth(acc: string, name: string, fs: seq<Frame>)
    requires WellFormed(fs)
    ensures |RollsRow(acc, name, fs)| == |acc| + LineLength && |TotalsRow(acc, fs)| == |acc| + LineLength
    ensures RollsRow(acc, name, fs)[|acc| + LineLength - 1] == '\n'
    ensures TotalsRow(acc, fs)[|acc| + LineLength - 1] == '\n'
    ensures |Header| == LineLength && |Divider| == LineLength
  {
    RollCellsWidth(acc + "|" + Cell(name, NameColW) + "|", fs, |fs|);
    TotalCellsWidth(acc + "|" + Cell("", NameColW) + "|", fs, |fs|);
    GameScoreBounds(fs);
    TotalCellWidth(GameScore(fs), ScoreColW);
  }

  /** A player's block is three table lines. */
  lemma PlayerBlockWidth(acc: string, s: Sheet)
    requires WellFormed(s.frames)
    ensures |PlayerBlock(acc, s)| == |acc| + 3 * LineLength
  {
    RowsWidth(acc, s.name, s.frames);
    RowsWidth(RollsRow(acc, s.name, s.frames), s.name, s.frames);
  }

  lemma {:induction false} PlayerRowsWidth(acc: string, sheets: seq<Sheet>, n: nat)
    requires n <= |sheets|
    requires forall p :: 0 <= p < |sheets| ==> WellFormed(sheets[p].frames)
    ensures |PlayerRows(acc, sheets, n)| == |acc| + 270 * n
  {
    if n > 0 {
      PlayerRowsWidth(acc, sheets, n - 1);
      PlayerBlockWidth(PlayerRows(acc, sheets, n - 1), sheets[n - 1]);
    }
  }

  /** The table is the header and divider plus three full lines per player. */
  lemma BoardWidth(sheets: seq<Sheet>)
    requires forall p :: 0 <= p < |sheets| ==> WellFormed(sheets[p].frames)
    ensures |Board(sheets)| == 180 + 270 * |sheets|
  {
    PlayerRowsWidth(Header + Divider, sheets, |sheets|);
    assert |Header| == LineLength && |Divider| == LineLength;
  }


  // ---------------------------------------------------------------------
  // Building the text
  // ---------------------------------------------------------------------

  /** Appending piece by piece builds the same text as appending the pieces joined. */
  lemma Extend(x: string, a: string, b: string)
    ensures x + a + b == x + (a + b)
  {
  }

  /** The text under construction, appended to in place. */
  class TextBuilder {
    var text: string

    constructor ()
      ensures text == ""
    {
      text := "";
    }

    method Append(s: string)
      modifies this
      ensures text == old(text) + s
    {
      text := text + s;
    }
  }

  method AppendSpaces(sb: TextBuilder, n: int)
    modifies sb
    ensures sb.text == old(sb.text) + Spaces(n)
  {
    var i := 0;
    while i < n
      invariant 0 <= i && (n >= 0 ==> i <= n) && (n < 0 ==> i == 0)
      invariant sb.text == old(sb.text) + Spaces(i)
    {
      sb.Append(" ");
      assert Spaces(i) + " " == Spaces(i + 1);
      i := i + 1;
    }
  }

  /** Appends s cut or padded to exactly len characters. */
  method AppendCell(sb: TextBuilder, s: string, len: int)
    requires len >= 0
    modifies sb
    ensures sb.text == old(sb.text) + Cell(s, len)
  {
    sb.Append(s[..Min(len, |s|)]);
    AppendSpaces(sb, len - |s|);
  }

  /** Appends a total padded by its own digit count. */
  method AppendTotal(sb: TextBuilder, t: int, len: int)
    modifies sb
    ensures sb.text == old(sb.text) + TotalCell(t, len)
  {
    sb.Append(Decimal(t));
    var pad := if t >= 100 then len - 3 else if t >= 10 then len - 2 else len - 1;
    AppendSpaces(sb, pad);
  }

  /** Appends a roll, X for ten. */
  method AppendRoll(sb: TextBuilder, r: int, len: int)
    modifies sb
    ensures sb.text == old(sb.text) + RollCell(r, len)
  {
    if r < 10 {
      sb.Append(Decimal(r));
    } else {
      sb.Append("X");
    }
    AppendSpaces(sb, len - 1);
  }

  /** Appends the first two rolls of a frame, the second as / for a spare. */
  method AppendFirstTwo(sb: TextBuilder, f: Frame)
    modifies sb
    ensures sb.text == old(sb.text) + FirstTwo(f)
  {
    AppendRoll(sb, f.firstRoll, 2);
    if IsSpare(f) {
      AppendCell(sb, "/", 2);
    } else {
      AppendRoll(sb, f.secondRoll, 2);
    }
    Extend(old(sb.text), RollCell(f.firstRoll, 2), SecondMark(f));
  }

  /** Appends the rolls cell of a frame. */
  method AppendFrame(sb: TextBuilder, f: Frame, width: int)
    requires f.rolls == 0 ==> width >= 0
    requires f.rolls == 2 ==> width >= 4
    modifies sb
    ensures sb.text == old(sb.text) + FrameCell(f, width)
  {
    if f.rolls == 0 {
      AppendCell(sb, "", width);
    } else if f.rolls == 1 {
      AppendRoll(sb, f.firstRoll, width);
    } else if f.rolls == 2 {
      AppendFirstTwo(sb, f);
      AppendCell(sb, "", width - 4);
      Extend(old(sb.text), FirstTwo(f), Cell("", width - 4));
    } else if f.rolls == 3 {
      AppendFirstTwo(sb, f);
      AppendRoll(sb, f.extraRoll, 2);
      Extend(old(sb.text), FirstTwo(f), RollCell(f.extraRoll, 2));
    } else {
      assert sb.text == old(sb.text) + "";
    }
  }

  /** A player: a name bound to one game. */
  class Player {
    const name: string
    const game: Game

    constructor (name: string)
      ensures this.name == name && fresh(game) && game.Valid() && game.State() == NewGame()
    {
      this.name := name;
      this.game := new Game();
    }
  }

  /** What the table shows of a player's game now. */
  ghost function SheetOf(p: Player): Sheet
    reads p.game.frames
  {
    Sheet(p.name, p.game.frames[..])
  }

  /** Appends a player's row of rolls. */
  method AppendRollsRow(sb: TextBuilder, name: string, fs: seq<Frame>)
    modifies sb
    ensures sb.text == RollsRow(old(sb.text), name, fs)
  {
    sb.Append("|");
    AppendCell(sb, name, NameColW);
    sb.Append("|");
    ghost var head := sb.text;
    var j := 0;
    while j < |fs|
      invariant 0 <= j <= |fs|
      invariant sb.text == RollCells(head, fs, j)
    {
      AppendFrame(sb, fs[j], ScoreColW);
      sb.Append("|");
      j := j + 1;
    }
    AppendCell(sb, "", ScoreColW);
    sb.Append("|");
    sb.Append("\n");
  }

  /** Appends a player's row of totals, the game total last. */
  method AppendTotalsRow(sb: TextBuilder, fs: seq<Frame>, gameTotal: int)
    requires Indexed(fs) && gameTotal == GameScore(fs)
    modifies sb
    ensures sb.text == TotalsRow(old(sb.text), fs)
  {
    sb.Append("|");
    AppendCell(sb, "", NameColW);
    sb.Append("|");
    ghost var head := sb.text;
    var j := 0;
    while j < |fs|
      invariant 0 <= j <= |fs|
      invariant sb.text == TotalCells(head, fs, j)
    {
      AppendTotalColumn(sb, fs, j);
      sb.Append("|");
      j := j + 1;
    }
    AppendTotal(sb, gameTotal, ScoreColW);
    sb.Append("|\n");
  }

  /** Appends the total cell of frame i: the total once determined, blank before. */
  method AppendTotalColumn(sb: TextBuilder, fs: seq<Frame>, i: nat)
    requires Indexed(fs) && i < |fs|
    modifies sb
    ensures sb.text == old(sb.text) + TotalColumn(fs, i)
  {
    if CanTotal(fs, i) {
      AppendTotal(sb, Total(fs, i).value, ScoreColW);
    } else {
      AppendCell(sb, "", ScoreColW);
    }
  }

  /** Appends a player's two rows and the divider under them. */
  method AppendPlayer(sb: TextBuilder, p: Player, ghost s: Sheet)
    requires s == SheetOf(p) && p.game.Valid()
    modifies sb
    ensures WellFormed(s.frames)
    ensures sb.text == PlayerBlock(old(sb.text), s)
  {
    var fs := p.game.frames[..];
    AppendRollsRow(sb, p.name, fs);
    var gameTotal := p.game.GameTotal();
    AppendTotalsRow(sb, fs, gameTotal);
    sb.Append(Divider);
  }

  /** What the table shows of each player's game now. */
  ghost function Sheets(players: seq<Player>): (r: seq<Sheet>)
    reads set p | p in players :: p.game.frames
    ensures |r| == |players|
    ensures forall k :: 0 <= k < |r| ==> r[k] == SheetOf(players[k])
  {
    if players == [] then []
    else Sheets(players[..|players| - 1]) + [SheetOf(players[|players| - 1])]
  }

  /** Appends the rows of every player, in order. */
  method AppendPlayers(sb: TextBuilder, players: seq<Player>, ghost sheets: seq<Sheet>)
    requires |sheets| == |players|
    requires forall p :: 0 <= p < |players| ==> sheets[p] == SheetOf(players[p]) && players[p].game.Valid()
    requires forall p :: 0 <= p < |players| ==> WellFormed(sheets[p].frames)
    modifies sb
    ensures sb.text == PlayerRows(old(sb.text), sheets, |sheets|)
  {
    for i := 0 to |players|
      invariant sb.text == PlayerRows(old(sb.text), sheets, i)
    {
      AppendPlayer(sb, players[i], sheets[i]);
    }
  }

  /** Renders the table for the players' games as they stand. */
  method PrintScore(players: seq<Player>) returns (out: string, ghost sheets: seq<Sheet>)
    requires forall p :: 0 <= p < |players| ==> players[p].game.Valid()
    ensures |sheets| == |players|
    ensures forall p :: 0 <= p < |players| ==> sheets[p] == SheetOf(players[p]) && WellFormed(sheets[p].frames)
    ensures out == Board(sheets)
    ensures |out| == 180 + 270 * |players|
  {
    sheets := Sheets(players);
    var sb := new TextBuilder();
    sb.Append(Header);
    assert sb.text == Header;
    sb.Append(Divider);
    AppendPlayers(sb, players, sheets);
    out := sb.text;
    BoardWidth(sheets);
  }
}
