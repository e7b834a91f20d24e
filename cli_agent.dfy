/** cli-agent.js's interactive loop. Each line read from the prompt is
    lower-cased and compared exactly with the five meta-commands; anything
    else goes to the agent. The conversation memory is the only state that
    the loop changes (`BASE_DIR` is a constant there), and the listener
    count stands for the SIGINT handler registered around each agent call. */
module CliAgent {
  import opened Common
  import opened Text
  import opened PathSandbox
  import opened Timestamps
  import opened Conversation

  datatype MetaCommand = ExitCommand | ClearCommand | ChatHelp | SaveCommand | ListCommand | AgentTurn

  /** The text that selects a meta-command, after lower-casing. */
  function MetaName(c: MetaCommand): string
    requires c != AgentTurn
  {
    match c
    case ExitCommand => "/exit"
    case ClearCommand => "/clear"
    case ChatHelp => "/chat"
    case SaveCommand => "/save"
    case ListCommand => "/list"
  }

  /** The `if … else if` chain on `userInput.toLowerCase()`: a meta-command
      exactly when the lower-cased line is its name, the agent otherwise. */
  function Dispatch(input: string): (c: MetaCommand)
    ensures c != AgentTurn ==> ToLower(input) == MetaName(c)
    ensures c == AgentTurn ==> forall m: MetaCommand :: m != AgentTurn ==> ToLower(input) != MetaName(m)
  {
    var lower := ToLower(input);
    if lower == "/exit" then ExitCommand
    else if lower == "/clear" then ClearCommand
    else if lower == "/chat" then ChatHelp
    else if lower == "/save" then SaveCommand
    else if lower == "/list" then ListCommand
    else AgentTurn
  }

  /** Each name selects its own command. */
  lemma DispatchName(c: MetaCommand)
    requires c != AgentTurn
    ensures Dispatch(MetaName(c)) == c
  {
    var n := MetaName(c);
    assert ToLower(n) == n;
  }

  /** The comparison ignores ASCII case but not surrounding spaces: a line
      that starts with a space is never a meta-command. */
  lemma LeadingSpaceGoesToAgent(input: string)
    requires |input| > 0 && input[0] == ' '
    ensures Dispatch(input) == AgentTurn
  {
    assert ToLower(input)[0] == ' ';
  }

  lemma DispatchExamples(upper: string, spaced: string)
    requires upper == "/EXIT" && spaced == " /exit"
    ensures Dispatch(upper) == ExitCommand && Dispatch(spaced) == AgentTurn
  {
    assert ToLower(upper) == "/exit";
    LeadingSpaceGoesToAgent(spaced);
  }

  // ---------------------------------------------------------------
  // one turn of the loop
  // ---------------------------------------------------------------

  /** What the loop reads in one round: a typed line, together with the
      clock reading `/save` would take, whether its `fs.writeFile` would
      succeed and the outcome the agent would produce, or Ctrl+C at the
      prompt followed by the exit confirmation. */
  datatype Interaction =
    | Typed(input: string, clock: LocalTime, writeOk: bool, outcome: InvokeOutcome)
    | Interrupted(confirmExit: bool)

  /** What one round did besides changing the memory. */
  datatype Effect =
    | Exited
    | Cleared
    | Helped
    | SaveDone(save: SaveOutcome)
    | Listed(lines: seq<string>)
    | Asked(outcome: InvokeOutcome)
    | Resumed

  /** The round ends the program: `/exit`, or a confirmed Ctrl+C. */
  predicate Stops(it: Interaction)
  {
    match it
    case Interrupted(confirmExit) => confirmExit
    case Typed(input, _, _, _) => Dispatch(input) == ExitCommand
  }

  /** The memory after one round. */
  function StepTurns(turns: seq<Turn>, it: Interaction): (r: seq<Turn>)
    ensures it.Interrupted? ==> r == turns
    ensures it.Typed? && Dispatch(it.input) == ClearCommand ==> r == []
    ensures it.Typed? && Dispatch(it.input) == AgentTurn ==> r == CommitTurn(turns, it.input, it.outcome)
    ensures it.Typed? && Dispatch(it.input) !in {ClearCommand, AgentTurn} ==> r == turns
  {
    match it
    case Interrupted(_) => turns
    case Typed(input, _, _, outcome) =>
      match Dispatch(input)
      case ClearCommand => []
      case AgentTurn => CommitTurn(turns, input, outcome)
      case _ => turns
  }

  /** What one round reports or writes, given the memory before it. */
  function StepEffect(base: string, turns: seq<Turn>, it: Interaction): Effect
  {
    match it
    case Interrupted(confirmExit) => if confirmExit then Exited else Resumed
    case Typed(input, clock, writeOk, outcome) =>
      match Dispatch(input)
      case ExitCommand => Exited
      case ClearCommand => Cleared
      case ChatHelp => Helped
      case SaveCommand => SaveDone(SaveTranscript(base, CompactTimestamp(clock), MessagesOf(turns), writeOk))
      case ListCommand => Listed(ListOutput(MessagesOf(turns)))
      case AgentTurn => Asked(outcome)
  }

  /** The memory after a sequence of rounds, none of which stopped the program. */
  function Replay(turns: seq<Turn>, script: seq<Interaction>): seq<Turn>
  {
    if |script| == 0 then turns
    else StepTurns(Replay(turns, script[..|script| - 1]), script[|script| - 1])
  }

  /** What each round of a script reports, each given the memory the rounds
      before it left. */
  function Reports(base: string, turns: seq<Turn>, script: seq<Interaction>): (es: seq<Effect>)
    ensures |es| == |script|
  {
    if |script| == 0 then []
    else
      var init := script[..|script| - 1];
      Reports(base, turns, init) + [StepEffect(base, Replay(turns, init), script[|script| - 1])]
  }

  lemma ReportsSnoc(base: string, turns: seq<Turn>, script: seq<Interaction>, i: nat)
    requires i < |script|
    ensures Reports(base, turns, script[..i + 1])
      == Reports(base, turns, script[..i]) + [StepEffect(base, Replay(turns, script[..i]), script[i])]
  {
    assert script[..i + 1][..i] == script[..i];
  }

  /** The report of round `k` is that round's effect on the memory the earlier rounds left. */
  lemma {:induction false} ReportsAt(base: string, turns: seq<Turn>, script: seq<Interaction>, k: nat)
    requires k < |script|
    ensures Reports(base, turns, script)[k] == StepEffect(base, Replay(turns, script[..k]), script[k])
    decreases |script|
  {
    var init := script[..|script| - 1];
    if k < |script| - 1 {
      ReportsAt(base, turns, init, k);
      assert init[..k] == script[..k] && init[k] == script[k];
    } else {
      assert init == script[..k];
    }
  }

  /** The number of rounds read before the program ends: up to and including
      the first stopping round, or all of them. */
  function RoundsRead(script: seq<Interaction>): (n: nat)
    ensures n <= |script|
    ensures forall k :: 0 <= k < n - 1 ==> !Stops(script[k])
    ensures n < |script| ==> n > 0 && Stops(script[n - 1])
    ensures n == |script| && n > 0 && !Stops(script[n - 1]) ==> forall k :: 0 <= k < n ==> !Stops(script[k])
  {
    if |script| == 0 then 0
    else if Stops(script[0]) then 1
    else 1 + RoundsRead(script[1..])
  }

  // ---------------------------------------------------------------
  // the loop itself
  // ---------------------------------------------------------------

  class AgentSession {
    const baseDir: string
    var turns: seq<Turn>
    var sigintListeners: nat

    constructor(cwd: string)
      ensures baseDir == cwd && turns == [] && sigintListeners == 0
    {
      baseDir := cwd;
      turns := [];
      sigintListeners := 0;
    }

    /** One round of `while (true)`. */
    method Step(it: Interaction) returns (e: Effect)
      modifies this
      ensures turns == StepTurns(old(turns), it)
      ensures e == StepEffect(baseDir, old(turns), it)
      ensures sigintListeners == old(sigintListeners)
    {
      match it
      case Interrupted(confirmExit) =>
        e := if confirmExit then Exited else Resumed;
      case Typed(input, clock, writeOk, outcome) =>
        match Dispatch(input)
        case ExitCommand =>
          e := Exited;
        case ClearCommand =>
          turns := [];
          e := Cleared;
        case ChatHelp =>
          e := Helped;
        case SaveCommand =>
          var stamp := CompactTimestamp(clock);
          var ms := MessagesOf(turns);
          if |ms| == 0 {
            e := SaveDone(NoHistory);
          } else {
            var text := FormatTranscript(stamp, ms);
            match GetSafePath(baseDir, SaveFileName(stamp))
            case Ok(path) => e := SaveDone(if writeOk then Saved(path, text) else WriteFailed(path));
            case Err(message) => e := SaveDone(SaveRefused(message));
          }
        case ListCommand =>
          e := Listed(ListOutput(MessagesOf(turns)));
        case AgentTurn =>
          sigintListeners := sigintListeners + 1;
          turns := CommitTurn(turns, input, outcome);
          sigintListeners := sigintListeners - 1;
          e := Asked(outcome);
    }

    /** Reads rounds from `script` until one stops the program or the script
        runs out; `effects` holds what each round read did. */
    method Run(script: seq<Interaction>) returns (effects: seq<Effect>)
      modifies this
      ensures |effects| == RoundsRead(script)
      ensures turns == Replay(old(turns), script[..|effects|])
      ensures forall k :: 0 <= k < |effects| ==>
        effects[k] == StepEffect(baseDir, Replay(old(turns), script[..k]), script[k])
      ensures sigintListeners == old(sigintListeners)
    {
      effects := [];
      var n := RoundsRead(script);
      var stopped := false;
      ghost var start := turns;
      while !stopped && |effects| < |script|
        invariant |effects| <= |script|
        invariant stopped ==> |effects| == n
        invariant !stopped ==> |effects| <= n && forall k :: 0 <= k < |effects| ==> !Stops(script[k])
        invariant turns == Replay(start, script[..|effects|])
        invariant effects == Reports(baseDir, start, script[..|effects|])
        invariant sigintListeners == old(sigintListeners)
        decreases |script| - |effects|, if stopped then 0 else 1
      {
        var i := |effects|;
        RoundsReadStops(script, i);
        ReplaySnoc(start, script, i);
        ReportsSnoc(baseDir, start, script, i);
        var e := Step(script[i]);
        effects := effects + [e];
        stopped := Stops(script[i]);
      }
      if !stopped {
        RoundsReadAll(script);
      }
      forall k | 0 <= k < |effects|
        ensures effects[k] == StepEffect(baseDir, Replay(start, script[..k]), script[k])
      {
        ReportsAt(baseDir, start, script[..|effects|], k);
        assert script[..|effects|][..k] == script[..k];
      }
    }
  }

  lemma ReplaySnoc(turns: seq<Turn>, script: seq<Interaction>, i: nat)
    requires i < |script|
    ensures Replay(turns, script[..i + 1]) == StepTurns(Replay(turns, script[..i]), script[i])
  {
    assert script[..i + 1][..i] == script[..i];
  }

  /** Before the first stopping round, every round is read. */
  lemma {:induction false} RoundsReadStops(script: seq<Interaction>, i: nat)
    requires i < |script| && forall k :: 0 <= k < i ==> !Stops(script[k])
    ensures i < RoundsRead(script)
    ensures Stops(script[i]) ==> RoundsRead(script) == i + 1
    decreases i
  {
    if i > 0 {
      assert !Stops(script[0]);
      RoundsReadStops(script[1..], i - 1);
    }
  }

  lemma {:induction false} RoundsReadAll(script: seq<Interaction>)
    requires forall k :: 0 <= k < |script| ==> !Stops(script[k])
    ensures RoundsRead(script) == |script|
    decreases |script|
  {
    if |script| > 0 {
      RoundsReadAll(script[1..]);
    }
  }

  // ---------------------------------------------------------------
  // properties of the memory over a session
  // ---------------------------------------------------------------

  lemma {:induction false} ReplayAppend(turns: seq<Turn>, a: seq<Interaction>, b: seq<Interaction>)
    ensures Replay(turns, a + b) == Replay(Replay(turns, a), b)
    decreases |b|
  {
    if |b| > 0 {
      var b' := b[..|b| - 1];
      assert (a + b)[..|a + b| - 1] == a + b';
      ReplayAppend(turns, a, b');
    } else {
      assert a + b == a;
    }
  }

  /** `/clear` forgets everything before it: what follows starts from an
      empty memory. */
  lemma ClearForgets(turns: seq<Turn>, before: seq<Interaction>, clear: Interaction, after: seq<Interaction>)
    requires clear.Typed? && Dispatch(clear.input) == ClearCommand
    ensures Replay(turns, before + [clear] + after) == Replay([], after)
  {
    ReplayAppend(turns, before + [clear], after);
    ReplayAppend(turns, before, [clear]);
    assert [clear][..0] == [];
  }

  /** The turns a sequence of rounds answers, as an independent definition:
      one pair per agent round whose invocation returned. */
  function AnsweredTurns(script: seq<Interaction>): (r: seq<Turn>)
    ensures |r| <= |script|
  {
    if |script| == 0 then []
    else
      var it := script[|script| - 1];
      AnsweredTurns(script[..|script| - 1])
        + (if it.Typed? && Dispatch(it.input) == AgentTurn && it.outcome.Answered?
           then [Turn(it.input, it.outcome.output)] else [])
  }

  predicate NoClear(script: seq<Interaction>)
  {
    forall k :: 0 <= k < |script| && script[k].Typed? ==> Dispatch(script[k].input) != ClearCommand
  }

  /** Without `/clear`, the memory only grows, by exactly the answered agent
      rounds, in order; failed and cancelled rounds and the other
      meta-commands leave it alone. */
  lemma {:induction false} ReplayWithoutClear(turns: seq<Turn>, script: seq<Interaction>)
    requires NoClear(script)
    ensures Replay(turns, script) == turns + AnsweredTurns(script)
    decreases |script|
  {
    if |script| > 0 {
      var init := script[..|script| - 1];
      assert NoClear(init) by {
        forall k | 0 <= k < |init| && init[k].Typed? ensures Dispatch(init[k].input) != ClearCommand {
          assert init[k] == script[k];
        }
      }
      ReplayWithoutClear(turns, init);
    }
  }

  /** Right after `/clear`, or before anything was answered, `/save` and
      `/list` report that there is no history and nothing is written. */
  lemma EmptyMemoryWritesNothing(base: string, it: Interaction)
    requires it.Typed? && Dispatch(it.input) in {SaveCommand, ListCommand}
    ensures Dispatch(it.input) == SaveCommand ==> StepEffect(base, [], it) == SaveDone(NoHistory)
    ensures Dispatch(it.input) == ListCommand ==> StepEffect(base, [], it) == Listed([NoHistoryMessage])
  {
  }

  /** The compact timestamp never holds `/`, so with a canonical base `/save`
      of a non-empty memory always goes to `chathistory_<stamp>.md` in the
      base: the transcript is written there, or the failed write is reported. */
  lemma SaveTargetsBase(base: string, turns: seq<Turn>, it: Interaction)
    requires IsCanonical(base) && |turns| > 0
    requires it.Typed? && Dispatch(it.input) == SaveCommand
    ensures var stamp := CompactTimestamp(it.clock);
      var path := Render(Segments(base) + [SaveFileName(stamp)]);
      StepEffect(base, turns, it)
        == SaveDone(if it.writeOk then Saved(path, Transcript(stamp, MessagesOf(turns))) else WriteFailed(path))
  {
    var stamp := CompactTimestamp(it.clock);
    CompactStampChars(it.clock);
    SavePathAccepted(base, stamp);
  }
}
