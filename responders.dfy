/**
 * The three responders the console's commands run: the manual page, the system
 * statistics page, and the exit notice. Both pages share one layout (a banner
 * between two rules, blank lines, one padded row per entry each followed by a
 * blank line, a blank line and a closing rule); only the title, the entries and
 * the column of the values differ.
 */
module Responders {
  import opened Text
  import opened Layout

  /** The responders a keyword can trigger. */
  datatype Command = Help | Exit | Stats

  /**
   * What the host reports for `stats`, each value already rendered as text:
   * the load averages joined by spaces, the number of logical CPUs, the free
   * memory in bytes and the uptime in seconds.
   */
  datatype HostStats = HostStats(loadAverage: string, cpuCount: string, freeMemory: string, uptimeSeconds: string)

  /** ANSI escape that turns the foreground blue; status notices use it. */
  const Blue: string := "\U{1B}[34m"

  /** The one line the exit responder writes before the process ends. */
  const ExitNotice: string := Blue + "Exitting CLI" + Reset

  /** The manual's entries, in declaration order; `help` itself is not among them. */
  const HelpEntries: seq<(string, string)> := [
    ("man", "Show this help page"),
    ("exit", "Kill the CLI (and the rest of the application)"),
    ("stats", "Get statistics on the underlying operating system and resource utilization")
  ]

  const HelpTitle: string := "CLI MANUAL"
  const HelpColumn: int := 20

  const StatsTitle: string := "SYSTEM STATISTICS"
  const StatsColumn: int := 40

  /** The statistics page's entries, in declaration order. */
  function StatsEntries(host: HostStats): (entries: seq<(string, string)>)
    ensures |entries| == 4
    ensures entries[3].1 == host.uptimeSeconds + " seconds"
  {
    [
      ("Load Average", host.loadAverage),
      ("CPU Count", host.cpuCount),
      ("Free Memory", host.freeMemory),
      ("Uptime", host.uptimeSeconds + " seconds")
    ]
  }

  /** The body of a page: each entry's row, each followed by one blank line. */
  function Rows(entries: seq<(string, string)>, column: int): (r: seq<string>)
    ensures |r| == 2 * |entries|
  {
    if entries == [] then []
    else
      var last := entries[|entries| - 1];
      Rows(entries[..|entries| - 1], column) + [Row(last.0, last.1, column), ""]
  }

  /** Entry `i` of a page body is written as its padded row and then one blank line. */
  lemma {:induction false} RowsAt(entries: seq<(string, string)>, column: int, i: nat)
    requires i < |entries|
    ensures Rows(entries, column)[2 * i] == Row(entries[i].0, entries[i].1, column)
    ensures Rows(entries, column)[2 * i + 1] == ""
  {
    var init := entries[..|entries| - 1];
    if i < |entries| - 1 {
      RowsAt(init, column, i);
      assert init[i] == entries[i];
    }
  }

  /** Everything a page writes, line by line: the banner, the body, a blank line and a rule. */
  function Page(title: string, entries: seq<(string, string)>, column: int, width: nat): (r: seq<string>)
    ensures |r| == 2 * |entries| + 7
  {
    [Rule(width), CenteredText(title, width), Rule(width), "", ""] + Rows(entries, column) + ["", Rule(width)]
  }

  /**
   * A page opens with the title centred between two rules and two blank lines,
   * and closes with a blank line and a rule.
   */
  lemma PageFrame(title: string, entries: seq<(string, string)>, column: int, width: nat)
    ensures var r := Page(title, entries, column, width);
      |r| == 2 * |entries| + 7 &&
      r[0] == Rule(width) && r[1] == CenteredText(title, width) && r[2] == Rule(width) &&
      r[3] == "" && r[4] == "" &&
      r[|r| - 2] == "" && r[|r| - 1] == Rule(width)
  {
  }

  /** Entry `i` of a page is on line `5 + 2 * i`, followed by a blank line. */
  lemma PageRowAt(title: string, entries: seq<(string, string)>, column: int, width: nat, i: nat)
    requires i < |entries|
    ensures Page(title, entries, column, width)[5 + 2 * i] == Row(entries[i].0, entries[i].1, column)
    ensures Page(title, entries, column, width)[6 + 2 * i] == ""
  {
    var rows := Rows(entries, column);
    var upper := [Rule(width), CenteredText(title, width), Rule(width), "", ""] + rows;
    RowsAt(entries, column, i);
    assert upper[5 + 2 * i] == rows[2 * i] && upper[6 + 2 * i] == rows[2 * i + 1];
  }

  /** The `for (let key in ...)` loop of both responders: one padded row and one blank line per entry. */
  method WriteRows(entries: seq<(string, string)>, column: int) returns (out: seq<string>)
    ensures out == Rows(entries, column)
  {
    out := [];
    for i := 0 to |entries|
      invariant out == Rows(entries[..i], column)
    {
      var line := PadRow(entries[i].0, entries[i].1, column);
      // `cli.verticalSpace()` is called without an argument, which is not a positive number.
      var blank := VerticalSpace(0);
      assert blank == [""];
      assert entries[..i + 1][..i] == entries[..i];
      out := out + [line] + blank;
    }
    assert entries[..|entries|] == entries;
  }

  /** The shared body of `responders.help` and `responders.stats`. */
  method Report(title: string, entries: seq<(string, string)>, column: int, width: nat) returns (out: seq<string>)
    ensures out == Page(title, entries, column, width)
  {
    var rule := HorizontalLine(width);
    var banner := Centered(title, width);
    var rule2 := HorizontalLine(width);
    var gap := VerticalSpace(2);
    assert gap == ["", ""];
    var top := rule + banner + rule2 + gap;
    assert top == [Rule(width), CenteredText(title, width), Rule(width), "", ""];
    var rows := WriteRows(entries, column);
    var tail := VerticalSpace(1);
    assert tail == [""];
    var closing := HorizontalLine(width);
    out := top + rows + (tail + closing);
  }

  /** The manual page for a terminal `width` columns wide. */
  function HelpPage(width: nat): seq<string>
  {
    Page(HelpTitle, HelpEntries, HelpColumn, width)
  }

  /** The statistics page for a terminal `width` columns wide. */
  function StatsPage(width: nat, host: HostStats): seq<string>
  {
    Page(StatsTitle, StatsEntries(host), StatsColumn, width)
  }

  /** `cli.responders.help`. */
  method ShowHelp(width: nat) returns (out: seq<string>)
    ensures out == HelpPage(width)
  {
    out := Report(HelpTitle, HelpEntries, HelpColumn, width);
  }

  /** `cli.responders.stats`, with the host's figures passed in. */
  method ShowStats(width: nat, host: HostStats) returns (out: seq<string>)
    ensures out == StatsPage(width, host)
  {
    out := Report(StatsTitle, StatsEntries(host), StatsColumn, width);
  }

  /** What a responder writes. */
  function Response(cmd: Command, width: nat, host: HostStats): seq<string>
  {
    match cmd
    case Help => HelpPage(width)
    case Exit => [ExitNotice]
    case Stats => StatsPage(width, host)
  }

  /** Runs the responder `cmd` names; after `Exit` the process ends. */
  method Respond(cmd: Command, width: nat, host: HostStats) returns (out: seq<string>)
    ensures out == Response(cmd, width, host)
  {
    match cmd
    case Help =>
      out := ShowHelp(width);
    case Exit =>
      out := [ExitNotice];
    case Stats =>
      out := ShowStats(width, host);
  }

  /**
   * When no key is wider than the column, every value of a page starts exactly
   * at that column and the padding between label and value is all spaces.
   */
  lemma {:induction false} PageAligned(title: string, entries: seq<(string, string)>, column: int, width: nat)
    requires forall i :: 0 <= i < |entries| ==> |entries[i].0| + 9 <= column
    ensures var p := Page(title, entries, column, width);
      forall i :: 0 <= i < |entries| ==>
        Label(entries[i].0) <= p[5 + 2 * i] &&
        |p[5 + 2 * i]| == column + |entries[i].1| &&
        p[5 + 2 * i][column..] == entries[i].1
  {
    var p := Page(title, entries, column, width);
    forall i | 0 <= i < |entries|
      ensures Label(entries[i].0) <= p[5 + 2 * i]
      ensures |p[5 + 2 * i]| == column + |entries[i].1|
      ensures p[5 + 2 * i][column..] == entries[i].1
    {
      PageRowAt(title, entries, column, width, i);
      RowLayout(entries[i].0, entries[i].1, column);
    }
  }

  /** The keys of a page's entries, in order. */
  function Keys(entries: seq<(string, string)>): (keys: seq<string>)
    ensures |keys| == |entries|
    ensures forall i :: 0 <= i < |entries| ==> keys[i] == entries[i].0
  {
    seq(|entries|, i requires 0 <= i < |entries| => entries[i].0)
  }

  /** The manual lists the commands `man`, `exit` and `stats`, in that order; `help` is not among them. */
  lemma HelpCommands()
    ensures Keys(HelpEntries) == ["man", "exit", "stats"]
    ensures "help" !in Keys(HelpEntries)
  {
  }

  /** Every row of the manual starts with its command's label and has its description starting at column 20. */
  lemma HelpRowsAligned(width: nat)
    ensures var p := HelpPage(width);
      forall i :: 0 <= i < |HelpEntries| ==>
        Label(HelpEntries[i].0) <= p[5 + 2 * i] &&
        |p[5 + 2 * i]| == 20 + |HelpEntries[i].1| &&
        p[5 + 2 * i][20..] == HelpEntries[i].1
  {
    PageAligned(HelpTitle, HelpEntries, HelpColumn, width);
  }

  /** The statistics page has exactly four rows: Load Average, CPU Count, Free Memory and Uptime, in that order. */
  lemma StatsRows(host: HostStats)
    ensures Keys(StatsEntries(host)) == ["Load Average", "CPU Count", "Free Memory", "Uptime"]
  {
  }

  /**
   * Every row of the statistics page starts with its figure's label and has its
   * value starting at column 40.
   */
  lemma StatsRowsAligned(width: nat, host: HostStats)
    ensures var p := StatsPage(width, host);
      forall i :: 0 <= i < 4 ==>
        Label(StatsEntries(host)[i].0) <= p[5 + 2 * i] &&
        |p[5 + 2 * i]| == 40 + |StatsEntries(host)[i].1| &&
        p[5 + 2 * i][40..] == StatsEntries(host)[i].1
  {
    var entries := StatsEntries(host);
    assert forall i :: 0 <= i < |entries| ==> |entries[i].0| <= 12;
    PageAligned(StatsTitle, entries, StatsColumn, width);
  }
}
