/**
 * The console's text-layout helpers: a rule as wide as the terminal, a centred
 * title, blank lines, and the two-column `label / value` row of the help and
 * statistics pages. The terminal width (`process.stdout.columns`) is a parameter,
 * and each helper returns the lines it writes to standard output, in order.
 */
module Layout {
  import opened Text

  /** ANSI escape that turns the foreground yellow; labels start with it. */
  const Yellow: string := "\U{1B}[33m"

  /** ANSI escape that restores the default colours. */
  const Reset: string := "\U{1B}[0m"

  function Max(a: int, b: int): int
  {
    if a < b then b else a
  }

  /** The text of a horizontal rule. */
  function Rule(width: nat): string
  {
    Repeat('-', width)
  }

  /** `cli.horizontalLine`: one line made of exactly `width` dashes. */
  method HorizontalLine(width: nat) returns (out: seq<string>)
    ensures out == [Rule(width)]
  {
    var line := "";
    for i := 0 to width
      invariant line == Repeat('-', i)
    {
      line := line + "-";
    }
    out := [line];
  }

  /**
   * `Math.floor((width - len) / 2)` spaces, none when that is negative: the text
   * then has as many free columns on its right as on its left, or one more.
   */
  function LeftPadding(width: nat, len: nat): (n: nat)
    ensures len <= width ==> 2 * n + len <= width <= 2 * n + len + 1
    ensures width <= len ==> n == 0
  {
    if width > len then (width - len) / 2 else 0
  }

  /** The line `cli.centered` writes: the trimmed text after its left padding. */
  function CenteredText(s: string, width: nat): string
  {
    var t := Trim(s);
    Repeat(' ', LeftPadding(width, |t|)) + t
  }

  /**
   * The centred line is the trimmed text preceded by `LeftPadding` spaces; when
   * the text fits, the columns left free on its right number as many as those on
   * its left, or one more.
   */
  lemma CenteredLayout(s: string, width: nat)
    ensures var t := Trim(s);
      var r := CenteredText(s, width);
      var left := |r| - |t|;
      left == LeftPadding(width, |t|) &&
      r[left..] == t &&
      (forall k :: 0 <= k < left ==> r[k] == ' ') &&
      (|t| <= width ==> left <= width - |r| <= left + 1)
  {
  }

  /** `cli.centered`: trims its argument and writes it after the left padding. */
  method Centered(s: string, width: nat) returns (out: seq<string>)
    ensures out == [CenteredText(s, width)]
  {
    var str := Trim(s);
    var leftPadding := (width - |str|) / 2;
    var line := "";
    var i := 0;
    while i < leftPadding
      invariant 0 <= i
      invariant leftPadding <= 0 ==> i == 0
      invariant 0 < leftPadding ==> i <= leftPadding
      invariant line == Repeat(' ', i)
    {
      line := line + " ";
      i := i + 1;
    }
    assert i == LeftPadding(width, |str|);
    line := line + str;
    out := [line];
  }

  /** Whitespace-only text is centred as the empty string: `width / 2` spaces and nothing else. */
  lemma CenteredBlank(s: string, width: nat)
    requires AllSpace(s)
    ensures CenteredText(s, width) == Repeat(' ', width / 2)
  {
    assert Trim(s) == [];
  }

  /**
   * `cli.verticalSpace`: `lines` empty lines when `lines` is positive, and
   * exactly one otherwise.
   */
  method VerticalSpace(lines: int) returns (out: seq<string>)
    ensures |out| == (if lines > 0 then lines else 1)
    ensures forall k :: 0 <= k < |out| ==> out[k] == ""
  {
    var n := if lines > 0 then lines else 1;
    out := [];
    var i := 0;
    while i < n
      invariant 0 <= i <= n
      invariant |out| == i
      invariant forall k :: 0 <= k < i ==> out[k] == ""
    {
      out := out + [""];
      i := i + 1;
    }
  }

  /** A row label: the key wrapped in colour escapes, which add nine characters. */
  function Label(key: string): (r: string)
    ensures |r| == |key| + 9
    ensures r[..5] == Yellow && r[|r| - 4..] == Reset
    ensures r[5..|r| - 4] == key
  {
    Yellow + key + Reset
  }

  /**
   * One `label / value` row padded to `column`: the label, then spaces up to the
   * column (none when the label is already wider), then the value.
   */
  function Row(key: string, value: string, column: int): string
  {
    var head := Label(key);
    head + Repeat(' ', Max(column, |head|) - |head|) + value
  }

  /**
   * A row is as long as the wider of the column and the label, plus the value:
   * the label comes first, the value starts at that width, and only spaces lie
   * between them.
   */
  lemma RowLayout(key: string, value: string, column: int)
    ensures var r := Row(key, value, column);
      var start := Max(column, |key| + 9);
      |r| == start + |value| &&
      r[..|key| + 9] == Label(key) &&
      (forall k :: |key| + 9 <= k < start ==> r[k] == ' ') &&
      r[start..] == value
  {
    var head := Label(key);
    var r := Row(key, value, column);
    assert r[..|head|] == head;
  }

  /** The padding loop of the help and statistics responders. */
  method PadRow(key: string, value: string, column: int) returns (line: string)
    ensures line == Row(key, value, column)
  {
    line := Label(key);
    var padding := column - |line|;
    var i := 0;
    while i < padding
      invariant 0 <= i
      invariant padding <= 0 ==> i == 0
      invariant 0 < padding ==> i <= padding
      invariant line == Label(key) + Repeat(' ', i)
    {
      line := line + " ";
      i := i + 1;
    }
    line := line + value;
  }
}
