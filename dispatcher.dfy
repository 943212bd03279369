/**
 * `cli.processInput` and its event table: a typed line is trimmed; a blank line
 * is ignored; otherwise the lower-cased line is searched for the keywords `man`,
 * `help`, `exit` and `stats`, in that order, as substrings, and the first one
 * found runs its responder. When none is found, one error line naming the
 * trimmed input is written.
 */
module Dispatcher {
  import opened Wrappers
  import opened Text
  import opened Layout
  import opened Responders

  /** The keywords `processInput` looks for, in the order it looks for them. */
  const Keywords: seq<string> := ["man", "help", "exit", "stats"]

  /** The listeners registered on the event emitter: the responder each keyword's event runs. */
  const EventTable: map<string, Command> := map["man" := Help, "help" := Help, "exit" := Exit, "stats" := Stats]

  /** ANSI escape that turns the foreground red; the error line uses it. */
  const Red: string := "\U{1B}[31m"

  const ErrorPrefix: string := "Sorry, I don't understand the command: "

  /** The line written for an input that names no command: the fixed message, then the trimmed input, in red. */
  function ErrorLine(input: string): (r: string)
    ensures |r| == |Red| + |ErrorPrefix| + |input| + |Reset|
    ensures r[..|Red|] == Red
    ensures r[|Red|..|Red| + |ErrorPrefix|] == ErrorPrefix
    ensures r[|Red| + |ErrorPrefix|..|r| - |Reset|] == input
    ensures r[|r| - |Reset|..] == Reset
  {
    var r := Red + ErrorPrefix + input + Reset;
    assert r[|Red| + |ErrorPrefix|..|r| - |Reset|] == input;
    r
  }

  /**
   * The first of `keywords`, in their order, that occurs in `text`; `None` when
   * none does. Whatever it returns is a keyword that occurs in `text`.
   */
  function FirstMatch(text: string, keywords: seq<string>): (r: Option<string>)
    ensures r.Some? ==> r.value in keywords && Contains(text, r.value)
    ensures r.None? <==> forall j :: 0 <= j < |keywords| ==> !Contains(text, keywords[j])
  {
    if keywords == [] then None
    else if Contains(text, keywords[0]) then Some(keywords[0])
    else FirstMatch(text, keywords[1..])
  }

  /** A keyword that occurs, with no earlier keyword occurring, is the one chosen. */
  lemma {:induction false} FirstMatchIsFirst(text: string, keywords: seq<string>, i: nat)
    requires i < |keywords| && Contains(text, keywords[i])
    requires forall j :: 0 <= j < i ==> !Contains(text, keywords[j])
    ensures FirstMatch(text, keywords) == Some(keywords[i])
  {
    if i > 0 {
      FirstMatchIsFirst(text, keywords[1..], i - 1);
    }
  }

  /** Once a keyword has matched, the keywords after it are never looked at. */
  lemma {:induction false} FirstMatchIgnoresLater(text: string, keywords: seq<string>, later: seq<string>)
    requires FirstMatch(text, keywords).Some?
    ensures FirstMatch(text, keywords + later) == FirstMatch(text, keywords)
  {
    assert (keywords + later)[0] == keywords[0];
    if !Contains(text, keywords[0]) {
      assert (keywords + later)[1..] == keywords[1..] + later;
      FirstMatchIgnoresLater(text, keywords[1..], later);
    }
  }

  /** The responder a typed line selects; `None` for a blank line and for one that names no command. */
  function Dispatch(raw: string): Option<Command>
  {
    var str := Trim(raw);
    if str == [] then None
    else
      match FirstMatch(ToLower(str), Keywords)
      case None => None
      case Some(keyword) => Some(EventTable[keyword])
  }

  /** Everything `processInput` writes for one typed line. */
  function ProcessOutput(raw: string, width: nat, host: HostStats): seq<string>
  {
    var str := Trim(raw);
    if str == [] then []
    else
      match Dispatch(raw)
      case None => [ErrorLine(str)]
      case Some(cmd) => Response(cmd, width, host)
  }

  /**
   * `cli.processInput`: the `some` scan over the keywords with its `matchFound`
   * flag, stopping at the first keyword found.
   */
  method ProcessInput(raw: string, width: nat, host: HostStats) returns (cmd: Option<Command>, out: seq<string>)
    ensures cmd == Dispatch(raw)
    ensures out == ProcessOutput(raw, width, host)
  {
    cmd, out := None, [];
    var str := Trim(raw);
    if str != [] {
      var lower := ToLower(str);
      var matchFound := false;
      var i := 0;
      while i < |Keywords| && !matchFound
        invariant 0 <= i <= |Keywords|
        invariant !matchFound ==>
          cmd == None && out == [] && FirstMatch(lower, Keywords) == FirstMatch(lower, Keywords[i..])
        invariant matchFound ==>
          0 < i && FirstMatch(lower, Keywords) == Some(Keywords[i - 1]) &&
          cmd == Some(EventTable[Keywords[i - 1]]) && out == Response(cmd.value, width, host)
      {
        if Contains(lower, Keywords[i]) {
          matchFound := true;
          cmd := Some(EventTable[Keywords[i]]);
          out := Respond(cmd.value, width, host);
        }
        i := i + 1;
      }
      if !matchFound {
        out := [ErrorLine(str)];
      }
    }
  }

  /** A line that selects `exit` writes the exit notice and nothing else. */
  lemma ExitWritesNotice(raw: string, width: nat, host: HostStats)
    requires Dispatch(raw) == Some(Exit)
    ensures ProcessOutput(raw, width, host) == [ExitNotice]
  {
  }

  /** Every keyword has a listener, and every listener belongs to a keyword. */
  lemma EventTableCoversKeywords()
    ensures forall k :: k in EventTable <==> k in Keywords
  {
  }

  /** Which keyword, if any, the scan settles on, spelled out for the four keywords. */
  lemma {:induction false} FirstKeyword(text: string)
    ensures FirstMatch(text, Keywords) ==
      if Contains(text, "man") then Some("man")
      else if Contains(text, "help") then Some("help")
      else if Contains(text, "exit") then Some("exit")
      else if Contains(text, "stats") then Some("stats")
      else None
  {
    var k1: seq<string> := ["help", "exit", "stats"];
    var k2: seq<string> := ["exit", "stats"];
    var k3: seq<string> := ["stats"];
    assert Keywords[1..] == k1 && k1[1..] == k2 && k2[1..] == k3 && k3[1..] == [];
    assert FirstMatch(text, k3) == if Contains(text, "stats") then Some("stats") else None;
    assert FirstMatch(text, k2) == if Contains(text, "exit") then Some("exit") else FirstMatch(text, k3);
    assert FirstMatch(text, k1) == if Contains(text, "help") then Some("help") else FirstMatch(text, k2);
    assert FirstMatch(text, Keywords) == if Contains(text, "man") then Some("man") else FirstMatch(text, k1);
  }

  /**
   * Dispatch in full: blank lines select nothing; otherwise `man` or `help`
   * anywhere in the lower-cased line selects the manual, even when a later
   * keyword occurs too; failing those `exit`, then `stats`; failing all four,
   * nothing.
   */
  lemma DispatchCases(raw: string)
    ensures AllSpace(raw) ==> Dispatch(raw) == None
    ensures var text := ToLower(Trim(raw));
      !AllSpace(raw) ==>
        Dispatch(raw) ==
          if Contains(text, "man") || Contains(text, "help") then Some(Help)
          else if Contains(text, "exit") then Some(Exit)
          else if Contains(text, "stats") then Some(Stats)
          else None
  {
    if !AllSpace(raw) {
      FirstKeyword(ToLower(Trim(raw)));
    }
  }

  /** Matching is by substring: `command` opens the manual because it contains `man`. */
  lemma CommandOpensManual()
    ensures Dispatch("command") == Some(Help)
  {
    var s := "command";
    TrimUnchanged(s);
    assert ToLower(s) == s;
    assert OccursAt(s, "man", 3);
    DispatchCases(s);
  }

  /** `help exit` opens the manual: `help` is looked for before `exit`, and `exit` is never reached. */
  lemma HelpExitOpensManual()
    ensures Dispatch("help exit") == Some(Help)
  {
    var s := "help exit";
    TrimUnchanged(s);
    assert ToLower(s) == s;
    assert OccursAt(s, "help", 0);
    DispatchCases(s);
  }

  /** A blank line selects nothing and writes nothing. */
  lemma BlankLineIgnored(raw: string, width: nat, host: HostStats)
    requires AllSpace(raw)
    ensures Dispatch(raw) == None && ProcessOutput(raw, width, host) == []
  {
  }

  /**
   * A line that is not blank and contains none of the keywords writes exactly
   * one line: the error message followed by the trimmed input; no responder runs.
   */
  lemma UnknownCommandReported(raw: string, width: nat, host: HostStats)
    requires !AllSpace(raw)
    requires forall j :: 0 <= j < |Keywords| ==> !Contains(ToLower(Trim(raw)), Keywords[j])
    ensures Dispatch(raw) == None
    ensures ProcessOutput(raw, width, host) == [ErrorLine(Trim(raw))]
  {
  }

  /** Case does not matter to dispatch: a line selects what its lower-cased form selects. */
  lemma {:induction false} DispatchIgnoresCase(raw: string)
    ensures Dispatch(ToLower(raw)) == Dispatch(raw)
  {
    var str := Trim(raw);
    TrimToLower(raw);
    ToLowerIdempotent(str);
    assert Trim(ToLower(raw)) == ToLower(str);
  }
}
