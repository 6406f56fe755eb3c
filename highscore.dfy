/** The screen layout of the high-score table (GameDatabase._prefix and
    GameDatabase.get_highscore_list in killerasteroids/display.py). The rows
    come from the database query `ORDER BY score DESC LIMIT 10`; here they are
    an input. */
module Highscore {
  /** One database row (score, player, date); the date is not shown. */
  datatype Row = Row(score: int, player: string)

  /** A GenericText line: its text and its top-left corner. */
  datatype Line = Line(text: string, x: int, y: int)

  const HIGHSCORE_X := 210
  const HIGHSCORE_TOP := 140
  const LINE_HEIGHT := 15
  const MAX_SCORES := 10

  function DigitChar(d: int): char
    requires 0 <= d < 10
  {
    "0123456789"[d]
  }

  /** Python's str(n) for a non-negative integer. */
  function NatToString(n: nat): (s: string)
    ensures |s| >= 1
    decreases n
  {
    if n < 10 then [DigitChar(n)] else NatToString(n / 10) + [DigitChar(n % 10)]
  }

  /** Python's str(n). */
  function IntToString(n: int): string {
    if n < 0 then "-" + NatToString(-n) else NatToString(n)
  }

  predicate IsDigit(c: char) {
    '0' <= c <= '9'
  }

  /** The value of a string of decimal digits, read left to right. */
  function Decimal(s: string): int
    decreases |s|
  {
    if s == [] then 0 else Decimal(s[..|s| - 1]) * 10 + (s[|s| - 1] as int - '0' as int)
  }

  /** The digits of str(n) read back as n. */
  lemma {:induction false} NatToStringReadsBack(n: nat)
    ensures forall i :: 0 <= i < |NatToString(n)| ==> IsDigit(NatToString(n)[i])
    ensures Decimal(NatToString(n)) == n
    decreases n
  {
    if n >= 10 {
      NatToStringReadsBack(n / 10);
      var s := NatToString(n);
      assert s[..|s| - 1] == NatToString(n / 10);
    }
  }

  /** GameDatabase._prefix(num): numbers below 10 get a leading zero. */
  function Prefix(num: int): (r: string)
    ensures |r| >= 2 && (num < 10 ==> r[0] == '0')
  {
    if num < 10 then "0" + IntToString(num) else IntToString(num)
  }

  /** Every place of the table, 1 to 99, is written as exactly two digits
      that read back as the place. */
  lemma {:induction false} PrefixReadsBack(num: int)
    requires 0 <= num < 100
    ensures var r := Prefix(num);
      |r| == 2 && IsDigit(r[0]) && IsDigit(r[1]) && Decimal(r) == num && (r[0] == '0' <==> num < 10)
  {
    NatToStringReadsBack(num);
    var r := Prefix(num);
    if num < 10 {
      assert r == ['0', DigitChar(num)];
      assert r[..1] == ['0'];
    } else {
      NatToStringReadsBack(num / 10);
      assert r == [DigitChar(num / 10), DigitChar(num % 10)];
    }
  }

  /** The text of the line for the row ranked `num`. */
  function ScoreText(num: int, row: Row): string {
    Prefix(num) + ". " + IntToString(row.score) + " " + row.player
  }

  /** The text of an empty place `num` in a table with fewer than ten rows. */
  function PlaceholderText(num: int): string {
    Prefix(num) + "."
  }

  /** A row's line is its place, ". ", its score, a space and the player's
      name, and the score can be read back off the line. */
  lemma ScoreTextLayout(num: int, row: Row)
    ensures var r, p := ScoreText(num, row), |Prefix(num)|;
      && |r| >= p + 4 + |row.player|
      && r[..p] == Prefix(num) && r[p..p + 2] == ". " && r[|r| - |row.player|..] == row.player
      && r[|r| - |row.player| - 1] == ' '
      && (row.score >= 0 ==> Decimal(r[p + 2..|r| - |row.player| - 1]) == row.score)
  {
    var head, digits, tail := Prefix(num) + ". ", IntToString(row.score), " " + row.player;
    var r := ScoreText(num, row);
    assert r == head + digits + tail;
    ThreeParts(head, digits, tail);
    assert head[..|head| - 2] == Prefix(num) && head[|head| - 2..] == ". ";
    assert tail[1..] == row.player && tail[0] == ' ';
    if row.score >= 0 {
      NatToStringReadsBack(row.score);
    }
  }

  /** Where the three parts of a concatenation sit in it. */
  lemma ThreeParts(a: string, b: string, c: string)
    ensures var s := a + b + c;
      s[..|a|] == a && s[|a|..|a| + |b|] == b && s[|a| + |b|..] == c
  {
  }

  /** An empty place is its number and a dot; places 1 to 99 read back. */
  lemma PlaceholderLayout(num: int)
    ensures var r := PlaceholderText(num);
      |r| == |Prefix(num)| + 1 && r[..|r| - 1] == Prefix(num) && r[|r| - 1] == '.'
    ensures 0 <= num < 100 ==> |PlaceholderText(num)| == 3 && Decimal(PlaceholderText(num)[..2]) == num
  {
    if 0 <= num < 100 {
      PrefixReadsBack(num);
      assert PlaceholderText(num)[..2] == Prefix(num);
    }
  }

  /** GameDatabase.get_highscore_list: a line per row, then placeholders up
      to ten lines, numbered from 1 and stacked 15 pixels apart from y = 140.
      Both calls to get_highscores() in the source are taken to return the
      same rows. */
  method GetHighscoreList(rows: seq<Row>) returns (lines: seq<Line>)
    ensures |lines| == if |rows| < MAX_SCORES then MAX_SCORES else |rows|
    ensures forall k :: 0 <= k < |lines| ==>
      lines[k].x == HIGHSCORE_X && lines[k].y == HIGHSCORE_TOP + LINE_HEIGHT * k
    ensures forall k :: 0 <= k < |rows| ==> lines[k].text == ScoreText(k + 1, rows[k])
    ensures forall k :: |rows| <= k < |lines| ==> lines[k].text == PlaceholderText(k + 1)
  {
    var num := 1;
    var x, y := HIGHSCORE_X, HIGHSCORE_TOP;
    lines := [];
    for i := 0 to |rows|
      invariant |lines| == i && num == i + 1 && x == HIGHSCORE_X && y == HIGHSCORE_TOP + LINE_HEIGHT * i
      invariant forall k :: 0 <= k < i ==>
        lines[k] == Line(ScoreText(k + 1, rows[k]), HIGHSCORE_X, HIGHSCORE_TOP + LINE_HEIGHT * k)
    {
      lines := lines + [Line(ScoreText(num, rows[i]), x, y)];
      num := num + 1;
      y := y + LINE_HEIGHT;
    }
    var scoreList := |rows|;
    if scoreList < MAX_SCORES {
      var missing := MAX_SCORES - scoreList;
      for j := 0 to missing
        invariant |lines| == scoreList + j && num == |lines| + 1
        invariant x == HIGHSCORE_X && y == HIGHSCORE_TOP + LINE_HEIGHT * |lines|
        invariant forall k :: 0 <= k < scoreList ==>
          lines[k] == Line(ScoreText(k + 1, rows[k]), HIGHSCORE_X, HIGHSCORE_TOP + LINE_HEIGHT * k)
        invariant forall k :: scoreList <= k < |lines| ==>
          lines[k] == Line(PlaceholderText(k + 1), HIGHSCORE_X, HIGHSCORE_TOP + LINE_HEIGHT * k)
      {
        lines := lines + [Line(PlaceholderText(num), x, y)];
        num := num + 1;
        y := y + LINE_HEIGHT;
      }
    }
  }
}
