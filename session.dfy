/**
 * `cli.init`: a startup notice, then every line typed is handed to
 * `processInput`; the `exit` responder ends the process, and so does the end
 * of the input, whose close handler runs the same responder. A session is
 * modelled as the finite list of lines the operator types before the input ends.
 */
module Session {
  import opened Wrappers
  import opened Layout
  import opened Responders
  import opened Dispatcher

  /** The notice written when the console starts. */
  const StartupNotice: string := Blue + "CLI is running" + Reset

  /**
   * A typed line, with the terminal width and the host's figures as they are
   * when `processInput` handles it: both are read afresh for every line.
   */
  datatype Input = Input(text: string, width: nat, host: HostStats)

  /** What one typed line does: the lines `processInput` writes for it, and whether it ends the process. */
  datatype Effect = Effect(output: seq<string>, exits: bool)

  function LineEffect(line: Input): Effect
  {
    Effect(ProcessOutput(line.text, line.width, line.host), Dispatch(line.text) == Some(Exit))
  }

  /** The effect of each typed line, in order. */
  function Effects(inputs: seq<Input>): (effects: seq<Effect>)
    ensures |effects| == |inputs|
  {
    if inputs == [] then [] else [LineEffect(inputs[0])] + Effects(inputs[1..])
  }

  /** The effect at position `i` is the effect of the line at position `i`. */
  lemma {:induction false} EffectsAt(inputs: seq<Input>, i: nat)
    requires i < |inputs|
    ensures Effects(inputs)[i] == LineEffect(inputs[i])
  {
    if i > 0 {
      EffectsAt(inputs[1..], i - 1);
    }
  }

  /** The effects of consecutive runs of lines are the consecutive runs of their effects. */
  lemma {:induction false} EffectsConcat(a: seq<Input>, b: seq<Input>)
    ensures Effects(a + b) == Effects(a) + Effects(b)
  {
    if a == [] {
      assert a + b == b;
    } else {
      assert (a + b)[0] == a[0];
      assert (a + b)[1..] == a[1..] + b;
      EffectsConcat(a[1..], b);
    }
  }

  /**
   * What the console writes from the first of `effects` on until the process
   * ends: a line that exits is the last one read, and when the input runs out
   * the close handler writes the exit notice.
   */
  function Run(effects: seq<Effect>): seq<string>
  {
    if effects == [] then [ExitNotice]
    else if effects[0].exits then effects[0].output
    else effects[0].output + Run(effects[1..])
  }

  /** Everything a session writes to standard output. */
  function Trace(inputs: seq<Input>): seq<string>
  {
    [StartupNotice] + Run(Effects(inputs))
  }

  /** The lines written for each of `effects`, one after another. */
  function Outputs(effects: seq<Effect>): seq<string>
  {
    if effects == [] then [] else effects[0].output + Outputs(effects[1..])
  }

  /** The position of the first line that ends the process, or the number of lines when none does. */
  function ExitIndex(effects: seq<Effect>): (k: nat)
    ensures k <= |effects|
    ensures forall j :: 0 <= j < k ==> !effects[j].exits
    ensures k < |effects| ==> effects[k].exits
  {
    if effects == [] then 0
    else if effects[0].exits then 0
    else 1 + ExitIndex(effects[1..])
  }

  /** Every line that ends the process writes the exit notice and nothing else. */
  predicate ExitsWithNotice(effects: seq<Effect>)
  {
    forall i :: 0 <= i < |effects| && effects[i].exits ==> effects[i].output == [ExitNotice]
  }

  lemma {:induction false} EffectsExitWithNotice(inputs: seq<Input>)
    ensures ExitsWithNotice(Effects(inputs))
  {
    var effects := Effects(inputs);
    forall i | 0 <= i < |effects| && effects[i].exits
      ensures effects[i].output == [ExitNotice]
    {
      EffectsAt(inputs, i);
      ExitWritesNotice(inputs[i].text, inputs[i].width, inputs[i].host);
    }
  }

  /**
   * A run writes the output of every line before the first one that exits,
   * then exactly one exit notice: that line's own, or the close handler's when
   * no line exits.
   */
  lemma {:induction false} RunShape(effects: seq<Effect>)
    requires ExitsWithNotice(effects)
    ensures Run(effects) == Outputs(effects[..ExitIndex(effects)]) + [ExitNotice]
  {
    if effects != [] {
      if effects[0].exits {
        assert effects[..0] == [];
      } else {
        var rest := effects[1..];
        var k := ExitIndex(rest);
        assert ExitsWithNotice(rest) by {
          forall i | 0 <= i < |rest| && rest[i].exits
            ensures rest[i].output == [ExitNotice]
          {
            assert rest[i] == effects[i + 1];
          }
        }
        RunShape(rest);
        assert effects[..k + 1][1..] == rest[..k];
      }
    }
  }

  /**
   * A session writes the startup notice, then the output of every line before
   * the first `exit`, then exactly one exit notice: the `exit` line's own, or
   * the close handler's when no line selects `exit`.
   */
  lemma {:induction false} TraceShape(inputs: seq<Input>)
    ensures var effects := Effects(inputs);
      var k := ExitIndex(effects);
      (forall j :: 0 <= j < k ==> Dispatch(inputs[j].text) != Some(Exit)) &&
      (k < |inputs| ==> Dispatch(inputs[k].text) == Some(Exit)) &&
      Trace(inputs) == [StartupNotice] + Outputs(effects[..k]) + [ExitNotice]
  {
    EffectsExitWithNotice(inputs);
    RunShape(Effects(inputs));
    FirstExitLine(inputs);
  }

  /** The first line whose effect ends the process is the first line that selects `exit`. */
  lemma {:induction false} FirstExitLine(inputs: seq<Input>)
    ensures var k := ExitIndex(Effects(inputs));
      (forall j :: 0 <= j < k ==> Dispatch(inputs[j].text) != Some(Exit)) &&
      (k < |inputs| ==> Dispatch(inputs[k].text) == Some(Exit))
  {
    var effects := Effects(inputs);
    forall j | 0 <= j < |inputs|
      ensures effects[j].exits == (Dispatch(inputs[j].text) == Some(Exit))
    {
      EffectsAt(inputs, j);
    }
  }

  /** Once a line has exited, whatever follows it is never read. */
  lemma {:induction false} RunStopsAtExit(before: seq<Effect>, exit: Effect, after: seq<Effect>)
    requires forall j :: 0 <= j < |before| ==> !before[j].exits
    requires exit.exits && exit.output == [ExitNotice]
    ensures Run(before + [exit] + after) == Run(before)
  {
    if before == [] {
      assert ([exit] + after)[0] == exit;
    } else {
      var rest := before[1..];
      assert (before + [exit] + after)[0] == before[0];
      assert (before + [exit] + after)[1..] == rest + [exit] + after;
      assert forall j :: 0 <= j < |rest| ==> rest[j] == before[j + 1];
      RunStopsAtExit(rest, exit, after);
    }
  }

  /**
   * Typing `exit` ends the session exactly as closing the input there would:
   * the lines after it are never read, and the trace is the one the close
   * handler produces.
   */
  lemma {:induction false} ExitLikeClose(before: seq<Input>, exitLine: Input, after: seq<Input>)
    requires forall j :: 0 <= j < |before| ==> Dispatch(before[j].text) != Some(Exit)
    requires Dispatch(exitLine.text) == Some(Exit)
    ensures Trace(before + [exitLine] + after) == Trace(before)
  {
    var pre := Effects(before);
    var exit := LineEffect(exitLine);
    var post := Effects(after);
    ExitWritesNotice(exitLine.text, exitLine.width, exitLine.host);
    EffectsConcat(before + [exitLine], after);
    EffectsConcat(before, [exitLine]);
    assert Effects([exitLine]) == [exit];
    forall j | 0 <= j < |pre|
      ensures !pre[j].exits
    {
      EffectsAt(before, j);
    }
    RunStopsAtExit(pre, exit, post);
  }
}
