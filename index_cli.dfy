/** index.js's prompt loop. Each line is trimmed and split on spaces; a first
    word starting with `/` goes to the commander program (`/clear`,
    `/basedir <path>`, `/save`, `/list`, `/exit`), one starting with `@` to the
    attachment flow, and everything else to the chat handler. Unlike
    cli-agent.js, `BASE_DIR` can change here, and every command except
    `/clear` and `/exit` is recorded in the command history. */
module IndexCli {
  import opened Common
  import opened Text
  import opened PathSandbox
  import opened Timestamps
  import opened Conversation
  import opened History
  import opened Attach

  // ---------------------------------------------------------------
  // routing a line
  // ---------------------------------------------------------------

  datatype Route = CommandLine(args: seq<string>) | AttachLine | ChatLine

  /** The route of the trimmed line `t`. The source tests whether `args[0]`
      starts with `/` or `@`; since neither is a space, that is the same as
      testing the first character of `t` (see FirstWordTest). */
  function RouteTrimmed(t: string): Route
  {
    if |t| > 0 && t[0] == '/' then CommandLine(Split(t, ' '))
    else if |t| > 0 && t[0] == '@' then AttachLine
    else ChatLine
  }

  /** `args = userInput.trim().split(' ')`, then the test on `args[0]`. */
  function RouteOf(line: string): Route
  {
    RouteTrimmed(Trim(line))
  }

  /** The first word starts with a non-space character `c` exactly when the
      text does. */
  lemma FirstWordTest(t: string, c: char)
    requires c != ' '
    ensures StartsWith(Split(t, ' ')[0], [c]) <==> |t| > 0 && t[0] == c
  {
    var f := FirstToken(t, ' ');
    if |t| > 0 && t[0] == c {
      assert |f| > 0;
    }
  }

  /** The route is decided by the first word of the trimmed line, as the
      source writes it, and the commander sees the whole trimmed line split
      on spaces. */
  lemma RouteByFirstWord(line: string)
    ensures var args := Split(Trim(line), ' ');
      (RouteOf(line).CommandLine? <==> StartsWith(args[0], "/"))
      && (RouteOf(line).AttachLine? <==> StartsWith(args[0], "@"))
      && (RouteOf(line).CommandLine? ==> RouteOf(line).args == args)
  {
    FirstWordTest(Trim(line), '/');
    FirstWordTest(Trim(line), '@');
  }

  // ---------------------------------------------------------------
  // the commander program
  // ---------------------------------------------------------------

  datatype Command =
    | ClearCmd
    | BaseDirCmd(path: string)
    | MissingPath
    | SaveCmd
    | ListCmd
    | ExitCmd
    | UnknownCmd(name: string)

  const CommandNames: set<string> := {"/clear", "/basedir", "/save", "/list", "/exit"}

  /** The registered command whose name is exactly the first word; `/basedir`
      takes the second word as its `<path>` argument and fails without one. */
  function CommandOf(args: seq<string>): (c: Command)
    requires |args| >= 1
    ensures c.UnknownCmd? <==> args[0] !in CommandNames
    ensures c.UnknownCmd? ==> c.name == args[0]
    ensures c.BaseDirCmd? ==> args[0] == "/basedir" && |args| >= 2 && c.path == args[1]
    ensures c.MissingPath? <==> args[0] == "/basedir" && |args| < 2
    ensures c == ClearCmd <==> args[0] == "/clear"
    ensures c == SaveCmd <==> args[0] == "/save"
    ensures c == ListCmd <==> args[0] == "/list"
    ensures c == ExitCmd <==> args[0] == "/exit"
  {
    var name := args[0];
    if name == "/clear" then ClearCmd
    else if name == "/basedir" then (if |args| >= 2 then BaseDirCmd(args[1]) else MissingPath)
    else if name == "/save" then SaveCmd
    else if name == "/list" then ListCmd
    else if name == "/exit" then ExitCmd
    else UnknownCmd(name)
  }

  /** `/basedir` records the path exactly as it was typed. */
  function BaseDirEntry(path: string): string
  {
    "/basedir " + path
  }

  // ---------------------------------------------------------------
  // the outside world, as seen in one round
  // ---------------------------------------------------------------

  /** What `fs.stat` and `fs.readFile` find at a resolved path. */
  datatype Entry = Directory | RegularFile(content: string)

  /** The answers one round can get from outside: the ISO time `/save` reads
      and whether its `fs.writeFile` succeeds, the file system, the picker's
      choice, the question typed after it, what `executor.invoke` does, and
      whether appending to the history file succeeds. */
  datatype World = World(
    isoNow: string,
    writeOk: bool,
    fs: map<string, Entry>,
    pick: Option<string>,
    question: string,
    outcome: InvokeOutcome,
    appendOk: bool)

  /** One prompt: a typed line, or Ctrl+C followed by the exit confirmation. */
  datatype Round = Line(line: string, world: World) | Interrupted(confirmExit: bool)

  /** The values that outlive a round: `BASE_DIR`, `commandHistory`, the
      history file's text and the conversation memory. */
  datatype State = State(baseDir: string, history: seq<string>, historyFile: string, turns: seq<Turn>)

  // ---------------------------------------------------------------
  // what each handler does to the state
  // ---------------------------------------------------------------

  /** `saveHistory(command)`. */
  function Record(s: State, command: string, appendOk: bool): State
  {
    s.(history := PushBounded(s.history, command),
       historyFile := if appendOk then AppendLine(s.historyFile, command) else s.historyFile)
  }

  /** `handleChat`: a blank input is dropped; any other is recorded and then
      committed to memory if the agent answers. */
  function ChatState(s: State, input: string, w: World): State
  {
    if !NonBlank(input) then s
    else Record(s, input, w.appendOk).(turns := CommitTurn(s.turns, input, w.outcome))
  }

  /** `/basedir <path>`: the path is resolved against the current base (with
      no sandbox check); the base moves only if a directory is there, and the
      command is recorded either way. */
  function BaseDirState(s: State, path: string, w: World): State
  {
    var target := Resolve(s.baseDir, path);
    var moved := if target in w.fs && w.fs[target].Directory? then s.(baseDir := target) else s;
    Record(moved, BaseDirEntry(path), w.appendOk)
  }

  datatype BaseDirReport = MovedTo(dir: string) | NotADirectory(target: string) | NotFound(target: string)

  function BaseDirReportOf(base: string, path: string, fs: map<string, Entry>): BaseDirReport
  {
    var target := Resolve(base, path);
    if target !in fs then NotFound(target)
    else if fs[target].Directory? then MovedTo(target)
    else NotADirectory(target)
  }

  /** How `handleAttach` goes after the pick: nothing picked, the file cannot
      be read (the sandbox refuses it, or there is no regular file), no
      question typed, or the prompt handed to the chat handler. */
  datatype AttachStatus =
    | NoFileSelected
    | Unreadable(file: string)
    | NoQuestion(file: string)
    | PromptReady(path: string, prompt: string)

  function AttachStatusOf(base: string, w: World): (st: AttachStatus)
    ensures st.PromptReady? ==>
      w.pick.Some? && st.path == Resolve(base, w.pick.value) && StartsWith(st.path, base)
      && NonBlank(st.prompt) && '\n' in st.prompt
  {
    match w.pick
    case None => NoFileSelected
    case Some(file) =>
      match GetSafePath(base, file)
      case Err(_) => Unreadable(file)
      case Ok(path) =>
        if path !in w.fs || !w.fs[path].RegularFile? then Unreadable(file)
        else if w.question == "" then NoQuestion(file)
        else
          var content := Truncate(w.fs[path].content);
          CombinedInputNonBlank(file, content, w.question);
          CombinedInputMultiLine(file, content, w.question);
          NonBlankIsTrim(CombinedInput(file, content, w.question));
          PromptReady(path, CombinedInput(file, content, w.question))
  }

  /** `handleAttach(rawInput)`: the raw line is recorded first; a ready prompt
      then goes through `handleChat`, which records it again. */
  function AttachState(s: State, raw: string, w: World): State
  {
    var s1 := Record(s, raw, w.appendOk);
    match AttachStatusOf(s.baseDir, w)
    case PromptReady(_, prompt) => ChatState(s1, prompt, w)
    case _ => s1
  }

  /** The state after a commander command. */
  function CommandState(s: State, c: Command, w: World): State
  {
    match c
    case ClearCmd => s.(turns := [])
    case BaseDirCmd(path) => BaseDirState(s, path, w)
    case SaveCmd => Record(s, "/save", w.appendOk)
    case ListCmd => Record(s, "/list", w.appendOk)
    case _ => s
  }

  /** The state after a typed line. */
  function LineState(s: State, line: string, w: World): State
  {
    match RouteOf(line)
    case ChatLine => ChatState(s, line, w)
    case AttachLine => AttachState(s, line, w)
    case CommandLine(args) => CommandState(s, CommandOf(args), w)
  }

  /** The state after one round. */
  function NextState(s: State, r: Round): State
  {
    match r
    case Interrupted(_) => s
    case Line(line, w) => LineState(s, line, w)
  }

  /** What a round reports or writes besides the state. */
  datatype Effect =
    | Chatted(outcome: InvokeOutcome)
    | SkippedBlank
    | Cleared
    | BaseDirChecked(report: BaseDirReport)
    | MissingArgument
    | SaveDone(save: SaveOutcome)
    | Listed(lines: seq<string>)
    | Attached(status: AttachStatus)
    | Exited
    | Unrecognised(name: string)
    | Resumed

  function CommandEffect(s: State, c: Command, w: World): Effect
  {
    match c
    case ClearCmd => Cleared
    case BaseDirCmd(path) => BaseDirChecked(BaseDirReportOf(s.baseDir, path, w.fs))
    case MissingPath => MissingArgument
    case SaveCmd => SaveDone(SaveTranscript(s.baseDir, IsoFileStamp(w.isoNow), MessagesOf(s.turns), w.writeOk))
    case ListCmd => Listed(ListOutput(MessagesOf(s.turns)))
    case ExitCmd => Exited
    case UnknownCmd(name) => Unrecognised(name)
  }

  function LineEffect(s: State, line: string, w: World): Effect
  {
    match RouteOf(line)
    case ChatLine => if !NonBlank(line) then SkippedBlank else Chatted(w.outcome)
    case AttachLine => Attached(AttachStatusOf(s.baseDir, w))
    case CommandLine(args) => CommandEffect(s, CommandOf(args), w)
  }

  function RoundEffect(s: State, r: Round): Effect
  {
    match r
    case Interrupted(confirmExit) => if confirmExit then Exited else Resumed
    case Line(line, w) => LineEffect(s, line, w)
  }

  /** The prompt is not shown again: after `/exit`, after a confirmed Ctrl+C,
      and after a command commander does not know (its error is swallowed
      without calling `askQuestion`). */
  predicate Stops(r: Round)
  {
    match r
    case Interrupted(confirmExit) => confirmExit
    case Line(line, _) =>
      match RouteOf(line)
      case CommandLine(args) => CommandOf(args) == ExitCmd || CommandOf(args).UnknownCmd?
      case _ => false
  }

  function Replay(s: State, script: seq<Round>): State
  {
    if |script| == 0 then s
    else NextState(Replay(s, script[..|script| - 1]), script[|script| - 1])
  }

  /** What each round of a script reports, each given the state the rounds
      before it left. */
  function Reports(s: State, script: seq<Round>): (es: seq<Effect>)
    ensures |es| == |script|
  {
    if |script| == 0 then []
    else
      var init := script[..|script| - 1];
      Reports(s, init) + [RoundEffect(Replay(s, init), script[|script| - 1])]
  }

  lemma ReportsSnoc(s: State, script: seq<Round>, i: nat)
    requires i < |script|
    ensures Reports(s, script[..i + 1]) == Reports(s, script[..i]) + [RoundEffect(Replay(s, script[..i]), script[i])]
  {
    assert script[..i + 1][..i] == script[..i];
  }

  /** The report of round `k` is that round's effect on the state the earlier rounds produced. */
  lemma {:induction false} ReportsAt(s: State, script: seq<Round>, k: nat)
    requires k < |script|
    ensures Reports(s, script)[k] == RoundEffect(Replay(s, script[..k]), script[k])
    decreases |script|
  {
    var init := script[..|script| - 1];
    var pre := Reports(s, init);
    var last := RoundEffect(Replay(s, init), script[|script| - 1]);
    assert Reports(s, script) == pre + [last];
    if k < |init| {
      ReportsAt(s, init, k);
      assert (pre + [last])[k] == pre[k];
      assert init[..k] == script[..k] && init[k] == script[k];
    } else {
      assert (pre + [last])[k] == last;
      assert init == script[..k];
    }
  }

  /** Rounds read before the prompt stops: up to and including the first
      stopping round, or all of them. */
  function RoundsRead(script: seq<Round>): (n: nat)
    ensures n <= |script|
    ensures forall k :: 0 <= k < n - 1 ==> !Stops(script[k])
    ensures n < |script| ==> n > 0 && Stops(script[n - 1])
  {
    if |script| == 0 then 0
    else if Stops(script[0]) then 1
    else 1 + RoundsRead(script[1..])
  }

  lemma ReplaySnoc(s: State, script: seq<Round>, i: nat)
    requires i < |script|
    ensures Replay(s, script[..i + 1]) == NextState(Replay(s, script[..i]), script[i])
  {
    assert script[..i + 1][..i] == script[..i];
  }

  lemma {:induction false} RoundsReadStops(script: seq<Round>, i: nat)
    requires i < |script| && forall k :: 0 <= k < i ==> !Stops(script[k])
    ensures i < RoundsRead(script)
    ensures Stops(script[i]) ==> RoundsRead(script) == i + 1
    decreases i
  {
    if i > 0 {
      assert !Stops(script[0]);
      RoundsReadStops(script[1..], i - 1);
    }
  }

  lemma {:induction false} RoundsReadAll(script: seq<Round>)
    requires forall k :: 0 <= k < |script| ==> !Stops(script[k])
    ensures RoundsRead(script) == |script|
    decreases |script|
  {
    if |script| > 0 {
      RoundsReadAll(script[1..]);
    }
  }

  // ---------------------------------------------------------------
  // the mutable session
  // ---------------------------------------------------------------

  class Session {
    var baseDir: string
    var history: seq<string>
    var historyFile: string
    var turns: seq<Turn>
    var sigintListeners: nat

    function Snapshot(): State
      reads this
    {
      State(baseDir, history, historyFile, turns)
    }

    /** Start-up: `BASE_DIR = process.cwd()` and `loadHistory()`, given what
        reading the history file returned (nothing when it is missing). */
    constructor(cwd: string, historyData: Option<string>)
      ensures Snapshot() == State(cwd, LoadHistory(historyData), historyData.GetOr(""), [])
      ensures sigintListeners == 0
    {
      baseDir := cwd;
      history := LoadHistory(historyData);
      historyFile := historyData.GetOr("");
      turns := [];
      sigintListeners := 0;
    }

    /** `commandHistory.push`, `shift` past the limit, then `appendFile`. */
    method SaveHistory(command: string, appendOk: bool)
      modifies this
      ensures Snapshot() == Record(old(Snapshot()), command, appendOk)
      ensures sigintListeners == old(sigintListeners)
    {
      history := history + [command];
      if |history| > HistoryLimit {
        history := history[1..];
      }
      if appendOk {
        historyFile := historyFile + command + "\n";
      }
    }

    /** `handleChat`, with the SIGINT listener registered around the call to
        the agent and removed in `finally`. */
    method HandleChat(input: string, w: World) returns (asked: bool)
      modifies this
      ensures asked <==> NonBlank(input)
      ensures Snapshot() == ChatState(old(Snapshot()), input, w)
      ensures sigintListeners == old(sigintListeners)
    {
      if !NonBlank(input) {
        return false;
      }
      SaveHistory(input, w.appendOk);
      sigintListeners := sigintListeners + 1;
      turns := CommitTurn(turns, input, w.outcome);
      sigintListeners := sigintListeners - 1;
      return true;
    }

    method ChangeBaseDir(path: string, w: World) returns (report: BaseDirReport)
      modifies this
      ensures Snapshot() == BaseDirState(old(Snapshot()), path, w)
      ensures report == BaseDirReportOf(old(baseDir), path, w.fs)
      ensures sigintListeners == old(sigintListeners)
    {
      var target := Resolve(baseDir, path);
      if target !in w.fs {
        report := NotFound(target);
      } else if w.fs[target].Directory? {
        baseDir := target;
        report := MovedTo(target);
      } else {
        report := NotADirectory(target);
      }
      SaveHistory(BaseDirEntry(path), w.appendOk);
    }

    /** The `/save` action: the transcript is built by the `+=` loop. */
    method Save(w: World) returns (o: SaveOutcome)
      modifies this
      ensures o == SaveTranscript(old(baseDir), IsoFileStamp(w.isoNow), MessagesOf(old(turns)), w.writeOk)
      ensures Snapshot() == Record(old(Snapshot()), "/save", w.appendOk)
      ensures sigintListeners == old(sigintListeners)
    {
      var stamp := IsoFileStamp(w.isoNow);
      var ms := MessagesOf(turns);
      if |ms| == 0 {
        o := NoHistory;
      } else {
        var text := FormatTranscript(stamp, ms);
        match GetSafePath(baseDir, SaveFileName(stamp))
        case Ok(path) => o := if w.writeOk then Saved(path, text) else WriteFailed(path);
        case Err(message) => o := SaveRefused(message);
      }
      SaveHistory("/save", w.appendOk);
    }

    method HandleAttach(raw: string, w: World) returns (status: AttachStatus)
      modifies this
      ensures status == AttachStatusOf(old(baseDir), w)
      ensures Snapshot() == AttachState(old(Snapshot()), raw, w)
      ensures sigintListeners == old(sigintListeners)
    {
      var base := baseDir;
      SaveHistory(raw, w.appendOk);
      status := AttachStatusOf(base, w);
      match status
      case PromptReady(_, prompt) =>
        var _ := HandleChat(prompt, w);
      case _ =>
    }

    /** A command handed to the commander program. */
    method RunCommand(c: Command, w: World) returns (e: Effect)
      modifies this
      ensures Snapshot() == CommandState(old(Snapshot()), c, w)
      ensures e == CommandEffect(old(Snapshot()), c, w)
      ensures sigintListeners == old(sigintListeners)
    {
      match c
      case ClearCmd =>
        turns := [];
        e := Cleared;
      case BaseDirCmd(path) =>
        var report := ChangeBaseDir(path, w);
        e := BaseDirChecked(report);
      case MissingPath =>
        e := MissingArgument;
      case SaveCmd =>
        var o := Save(w);
        e := SaveDone(o);
      case ListCmd =>
        var lines := ListOutput(MessagesOf(turns));
        SaveHistory("/list", w.appendOk);
        e := Listed(lines);
      case ExitCmd =>
        e := Exited;
      case UnknownCmd(name) =>
        e := Unrecognised(name);
    }

    /** The dispatch in `askQuestion` of one typed line. */
    method HandleLine(line: string, w: World) returns (e: Effect)
      modifies this
      ensures Snapshot() == LineState(old(Snapshot()), line, w)
      ensures e == LineEffect(old(Snapshot()), line, w)
      ensures sigintListeners == old(sigintListeners)
    {
      ghost var s0 := Snapshot();
      match RouteOf(line)
      case ChatLine =>
        ChatRound(s0, line, w);
        ChatReport(s0, line, w);
        var asked := HandleChat(line, w);
        e := if asked then Chatted(w.outcome) else SkippedBlank;
      case AttachLine =>
        AttachRound(s0, line, w);
        AttachReport(s0, line, w);
        var status := HandleAttach(line, w);
        e := Attached(status);
      case CommandLine(args) =>
        CommandRound(s0, line, w, args);
        CommandReport(s0, line, w, args);
        e := RunCommand(CommandOf(args), w);
    }

    /** One call of `askQuestion`, up to the point where it prompts again. */
    method Step(r: Round) returns (e: Effect)
      modifies this
      ensures Snapshot() == NextState(old(Snapshot()), r)
      ensures e == RoundEffect(old(Snapshot()), r)
      ensures sigintListeners == old(sigintListeners)
    {
      match r
      case Interrupted(confirmExit) =>
        e := if confirmExit then Exited else Resumed;
      case Line(line, w) =>
        e := HandleLine(line, w);
    }

    /** The chain of `askQuestion` calls over a script of rounds. */
    method Run(script: seq<Round>) returns (effects: seq<Effect>)
      modifies this
      ensures |effects| == RoundsRead(script)
      ensures Snapshot() == Replay(old(Snapshot()), script[..|effects|])
      ensures forall k :: 0 <= k < |effects| ==>
        effects[k] == RoundEffect(Replay(old(Snapshot()), script[..k]), script[k])
      ensures sigintListeners == old(sigintListeners)
    {
      effects := [];
      var n := RoundsRead(script);
      var stopped := false;
      ghost var start := Snapshot();
      while !stopped && |effects| < |script|
        invariant |effects| <= |script|
        invariant stopped ==> |effects| == n
        invariant !stopped ==> |effects| <= n && forall k :: 0 <= k < |effects| ==> !Stops(script[k])
        invariant Snapshot() == Replay(start, script[..|effects|])
        invariant effects == Reports(start, script[..|effects|])
        invariant sigintListeners == old(sigintListeners)
        decreases |script| - |effects|, if stopped then 0 else 1
      {
        var i := |effects|;
        RoundsReadStops(script, i);
        ReplaySnoc(start, script, i);
        ReportsSnoc(start, script, i);
        var e := Step(script[i]);
        effects := effects + [e];
        stopped := Stops(script[i]);
      }
      if !stopped {
        RoundsReadAll(script);
      }
      forall k | 0 <= k < |effects|
        ensures effects[k] == RoundEffect(Replay(start, script[..k]), script[k])
      {
        ReportsAt(start, script[..|effects|], k);
        assert script[..|effects|][..k] == script[..k];
      }
    }
  }

  // ---------------------------------------------------------------
  // properties of a round
  // ---------------------------------------------------------------

  predicate NoSpace(w: string)
  {
    forall k :: 0 <= k < |w| ==> !IsJsSpace(w[k])
  }


  lemma TrimTwoWords(name: string, arg: string)
    requires |name| > 0 && name[0] == '/'
    requires |arg| > 0 && !IsJsSpace(arg[|arg| - 1])
    ensures Trim(name + " " + arg) == name + " " + arg
  {
    var line := name + " " + arg;
    assert line[0] == '/' && line[|line| - 1] == arg[|arg| - 1];
    TrimUnchanged(line);
  }

  lemma SplitTwoWords(name: string, arg: string)
    requires ' ' !in name && ' ' !in arg
    ensures Split(name + " " + arg, ' ') == [name, arg]
  {
    assert name + " " + arg == name + [' '] + arg;
    SplitCons(name, arg, ' ');
    SplitWithoutSep(arg, ' ');
  }

  lemma RouteOfTrimmedCommand(line: string)
    requires Trim(line) == line && |line| > 0 && line[0] == '/'
    ensures RouteOf(line) == CommandLine(Split(line, ' '))
  {
  }

  /** A one-word command line reaches the commander as that word alone. */
  lemma OneWordCommand(name: string)
    requires |name| > 0 && name[0] == '/' && ' ' !in name && !IsJsSpace(name[|name| - 1])
    ensures RouteOf(name) == CommandLine([name])
  {
    TrimUnchanged(name);
    SplitWithoutSep(name, ' ');
    RouteOfTrimmedCommand(name);
  }

  /** `name arg` reaches the commander as the two words. */
  lemma TwoWordCommand(name: string, arg: string)
    requires |name| > 0 && name[0] == '/' && ' ' !in name
    requires |arg| > 0 && ' ' !in arg && !IsJsSpace(arg[|arg| - 1])
    ensures RouteOf(name + " " + arg) == CommandLine([name, arg])
  {
    TrimTwoWords(name, arg);
    SplitTwoWords(name, arg);
    RouteOfTrimmedCommand(name + " " + arg);
  }

  /** A round of a chat line is the chat handler's. */
  lemma ChatRound(s: State, line: string, w: World)
    requires RouteOf(line) == ChatLine
    ensures LineState(s, line, w) == ChatState(s, line, w)
    ensures NextState(s, Line(line, w)) == ChatState(s, line, w)
  {
  }

  lemma ChatReport(s: State, line: string, w: World)
    requires RouteOf(line) == ChatLine
    ensures LineEffect(s, line, w) == if NonBlank(line) then Chatted(w.outcome) else SkippedBlank
    ensures !Stops(Line(line, w))
  {
  }

  /** A round of an `@` line is the attachment flow's. */
  lemma AttachRound(s: State, line: string, w: World)
    requires RouteOf(line) == AttachLine
    ensures LineState(s, line, w) == AttachState(s, line, w)
    ensures NextState(s, Line(line, w)) == AttachState(s, line, w)
  {
  }

  lemma AttachReport(s: State, line: string, w: World)
    requires RouteOf(line) == AttachLine
    ensures LineEffect(s, line, w) == Attached(AttachStatusOf(s.baseDir, w))
    ensures !Stops(Line(line, w))
  {
  }

  /** The commander sees the trimmed line split on spaces. */
  lemma CommandArgs(line: string)
    requires RouteOf(line).CommandLine?
    ensures RouteOf(line).args == Split(Trim(line), ' ')
  {
  }

  /** A round of a command line is the commander's handling of its words. */
  lemma CommandRound(s: State, line: string, w: World, args: seq<string>)
    requires RouteOf(line) == CommandLine(args)
    ensures LineState(s, line, w) == CommandState(s, CommandOf(args), w)
    ensures NextState(s, Line(line, w)) == CommandState(s, CommandOf(args), w)
  {
  }

  lemma CommandReport(s: State, line: string, w: World, args: seq<string>)
    requires RouteOf(line) == CommandLine(args)
    ensures LineEffect(s, line, w) == CommandEffect(s, CommandOf(args), w)
    ensures RoundEffect(s, Line(line, w)) == CommandEffect(s, CommandOf(args), w)
    ensures Stops(Line(line, w)) <==> CommandOf(args) == ExitCmd || CommandOf(args).UnknownCmd?
  {
  }

  /** A blank line is dropped: nothing is recorded, and the prompt returns. */
  lemma BlankLineSkipped(s: State, line: string, w: World)
    requires !NonBlank(line)
    ensures NextState(s, Line(line, w)) == s
    ensures RoundEffect(s, Line(line, w)) == SkippedBlank
    ensures !Stops(Line(line, w))
  {
    assert Trim(line) == "";
    assert Split("", ' ') == [""];
  }

  /** A word that commander does not know ends the prompt loop: its error is
      swallowed without calling `askQuestion` again, and nothing is recorded. */
  lemma UnregisteredCommandStops(s: State, name: string, w: World)
    requires |name| > 0 && name[0] == '/' && ' ' !in name && !IsJsSpace(name[|name| - 1])
    requires name !in CommandNames
    ensures Stops(Line(name, w)) && RoundEffect(s, Line(name, w)) == Unrecognised(name)
    ensures NextState(s, Line(name, w)) == s
  {
    OneWordCommand(name);
    CommandRound(s, name, w, [name]);
    CommandReport(s, name, w, [name]);
  }

  /** Names are matched exactly and case-sensitively, so `/CLEAR` is not
      `/clear`, and `/help`, which the banner advertises, is not registered. */
  lemma HelpAndUpperCaseStop(s: State, help: string, upper: string, w: World)
    requires help == "/help" && upper == "/CLEAR"
    ensures Stops(Line(help, w)) && NextState(s, Line(help, w)) == s
    ensures Stops(Line(upper, w)) && NextState(s, Line(upper, w)) == s
  {
    assert help !in CommandNames && upper !in CommandNames;
    assert ' ' !in help && ' ' !in upper;
    assert !IsJsSpace(help[|help| - 1]) && !IsJsSpace(upper[|upper| - 1]);
    UnregisteredCommandStops(s, help, w);
    UnregisteredCommandStops(s, upper, w);
  }

  /** The in-memory history bound is kept by every round, including an
      attachment, which records two entries. */
  lemma ChatKeepsHistoryBound(s: State, input: string, w: World)
    requires |s.history| <= HistoryLimit
    ensures |ChatState(s, input, w).history| <= HistoryLimit
  {
    PushKeepsBound(s.history, input);
  }

  lemma AttachKeepsHistoryBound(s: State, raw: string, w: World)
    requires |s.history| <= HistoryLimit
    ensures |AttachState(s, raw, w).history| <= HistoryLimit
  {
    var s1 := Record(s, raw, w.appendOk);
    PushKeepsBound(s.history, raw);
    match AttachStatusOf(s.baseDir, w)
    case PromptReady(_, prompt) => ChatKeepsHistoryBound(s1, prompt, w);
    case _ =>
  }

  lemma CommandKeepsHistoryBound(s: State, c: Command, w: World)
    requires |s.history| <= HistoryLimit
    ensures |CommandState(s, c, w).history| <= HistoryLimit
  {
    match c
    case BaseDirCmd(path) => PushKeepsBound(s.history, BaseDirEntry(path));
    case SaveCmd => PushKeepsBound(s.history, "/save");
    case ListCmd => PushKeepsBound(s.history, "/list");
    case _ =>
  }

  /** The in-memory history bound is kept by every round, including an
      attachment, which records two entries. */
  lemma RoundKeepsHistoryBound(s: State, r: Round)
    requires |s.history| <= HistoryLimit
    ensures |NextState(s, r).history| <= HistoryLimit
  {
    match r
    case Interrupted(_) =>
    case Line(line, w) =>
      match RouteOf(line)
      case ChatLine => ChatRound(s, line, w); ChatKeepsHistoryBound(s, line, w);
      case AttachLine => AttachRound(s, line, w); AttachKeepsHistoryBound(s, line, w);
      case CommandLine(args) => CommandRound(s, line, w, args); CommandKeepsHistoryBound(s, CommandOf(args), w);
  }

  lemma ChatKeepsBase(s: State, input: string, w: World)
    ensures ChatState(s, input, w).baseDir == s.baseDir
  {
  }

  lemma AttachKeepsBase(s: State, raw: string, w: World)
    ensures AttachState(s, raw, w).baseDir == s.baseDir
  {
    match AttachStatusOf(s.baseDir, w)
    case PromptReady(_, prompt) => ChatKeepsBase(Record(s, raw, w.appendOk), prompt, w);
    case _ =>
  }

  /** The directory a `/basedir` line asks for, resolved against `base`. */
  function BaseDirTarget(base: string, line: string): Option<string>
  {
    match RouteOf(line)
    case CommandLine(args) =>
      (match CommandOf(args)
       case BaseDirCmd(path) => Some(Resolve(base, path))
       case _ => None)
    case _ => None
  }

  /** A directory found where `/basedir` points becomes the base. */
  lemma BaseDirMoves(s: State, path: string, w: World)
    requires Resolve(s.baseDir, path) in w.fs && w.fs[Resolve(s.baseDir, path)] == Directory
    ensures BaseDirState(s, path, w).baseDir == Resolve(s.baseDir, path)
    ensures BaseDirReportOf(s.baseDir, path, w.fs) == MovedTo(Resolve(s.baseDir, path))
  {
  }

  lemma CommandKeepsBase(s: State, c: Command, w: World)
    requires IsCanonical(s.baseDir)
    ensures IsCanonical(CommandState(s, c, w).baseDir)
    ensures CommandState(s, c, w).baseDir != s.baseDir ==>
      c.BaseDirCmd? && var target := Resolve(s.baseDir, c.path);
      CommandState(s, c, w).baseDir == target && target in w.fs && w.fs[target] == Directory
  {
  }

  lemma LineBase(s: State, line: string, w: World)
    requires IsCanonical(s.baseDir)
    ensures IsCanonical(LineState(s, line, w).baseDir)
    ensures LineState(s, line, w).baseDir != s.baseDir ==>
      BaseDirTarget(s.baseDir, line) == Some(LineState(s, line, w).baseDir)
      && LineState(s, line, w).baseDir in w.fs && w.fs[LineState(s, line, w).baseDir] == Directory
  {
    match RouteOf(line)
    case ChatLine => ChatRound(s, line, w); ChatKeepsBase(s, line, w);
    case AttachLine => AttachRound(s, line, w); AttachKeepsBase(s, line, w);
    case CommandLine(args) => CommandRound(s, line, w, args); CommandKeepsBase(s, CommandOf(args), w);
  }

  /** `BASE_DIR` changes only on `/basedir`, only to the resolved path, and
      only when that path is a directory; it is always a canonical path when
      it started as one. */
  lemma BaseDirRule(s: State, r: Round)
    requires IsCanonical(s.baseDir)
    ensures IsCanonical(NextState(s, r).baseDir)
    ensures NextState(s, r).baseDir != s.baseDir ==>
      r.Line? && BaseDirTarget(s.baseDir, r.line) == Some(NextState(s, r).baseDir)
      && NextState(s, r).baseDir in r.world.fs && r.world.fs[NextState(s, r).baseDir] == Directory
  {
    match r
    case Interrupted(_) =>
    case Line(line, w) => LineBase(s, line, w);
  }

  /** A canonical path renders its own segments. */
  lemma ResolveCanonical(base: string, dir: string)
    requires IsCanonical(dir)
    ensures Resolve(base, dir) == dir
  {
    CanonicalShape(dir);
  }

  /** `/basedir` is not sandboxed: any existing directory, inside the current
      base or not, becomes the new base, and from then on `getSafePath`
      measures against it. */
  lemma BaseDirGoesAnywhere(s: State, dir: string, w: World)
    requires IsCanonical(dir) && NoSpace(dir)
    requires dir in w.fs && w.fs[dir] == Directory
    ensures NextState(s, Line("/basedir " + dir, w)).baseDir == dir
    ensures RoundEffect(s, Line("/basedir " + dir, w)) == BaseDirChecked(MovedTo(dir))
  {
    var line := "/basedir " + dir;
    BaseDirLine(dir);
    CommandRound(s, line, w, ["/basedir", dir]);
    CommandReport(s, line, w, ["/basedir", dir]);
    ResolveCanonical(s.baseDir, dir);
    BaseDirMoves(s, dir, w);
  }

  /** `/basedir <dir>` for a canonical directory without spaces reaches the
      commander as that command with that path. */
  lemma BaseDirLine(dir: string)
    requires IsCanonical(dir) && NoSpace(dir)
    ensures RouteOf("/basedir " + dir) == CommandLine(["/basedir", dir])
    ensures CommandOf(["/basedir", dir]) == BaseDirCmd(dir)
  {
    var name := "/basedir";
    assert |name| > 0 && name[0] == '/' && ' ' !in name;
    assert dir == Render(Segments(dir));
    assert |dir| > 0 && ' ' !in dir && !IsJsSpace(dir[|dir| - 1]);
    TwoWordCommand(name, dir);
    assert "/basedir " + dir == name + " " + dir;
  }

  /** The text a round hands to the agent: a non-blank chat line, or the
      prompt an attachment builds. */
  function AskedInput(s: State, r: Round): Option<string>
  {
    match r
    case Interrupted(_) => None
    case Line(line, w) =>
      match RouteOf(line)
      case ChatLine => if NonBlank(line) then Some(line) else None
      case AttachLine =>
        (match AttachStatusOf(s.baseDir, w)
         case PromptReady(_, prompt) => Some(prompt)
         case _ => None)
      case CommandLine(_) => None
  }

  predicate Clears(r: Round)
  {
    r.Line? && RouteOf(r.line).CommandLine? && CommandOf(RouteOf(r.line).args) == ClearCmd
  }

  /** The agent never sees a blank input. */
  lemma AskedNeverBlank(s: State, r: Round)
    ensures AskedInput(s, r).Some? ==> NonBlank(AskedInput(s, r).value)
  {
  }

  lemma ChatMemory(s: State, input: string, w: World)
    ensures ChatState(s, input, w).turns == if NonBlank(input) then CommitTurn(s.turns, input, w.outcome) else s.turns
  {
  }

  lemma AttachMemory(s: State, raw: string, w: World)
    ensures AttachState(s, raw, w).turns ==
      match AttachStatusOf(s.baseDir, w)
      case PromptReady(_, prompt) => CommitTurn(s.turns, prompt, w.outcome)
      case _ => s.turns
  {
    match AttachStatusOf(s.baseDir, w)
    case PromptReady(_, prompt) => ChatMemory(Record(s, raw, w.appendOk), prompt, w);
    case _ =>
  }

  lemma CommandMemory(s: State, c: Command, w: World)
    ensures CommandState(s, c, w).turns == if c == ClearCmd then [] else s.turns
  {
  }

  /** The memory changes only by `/clear`, which empties it, and by the one
      input a round hands to the agent, which is committed only if the agent
      answers. */
  lemma MemoryRule(s: State, r: Round)
    ensures NextState(s, r).turns ==
      if Clears(r) then []
      else match AskedInput(s, r)
        case Some(input) => CommitTurn(s.turns, input, r.world.outcome)
        case None => s.turns
  {
    match r
    case Interrupted(_) =>
    case Line(line, w) =>
      match RouteOf(line)
      case ChatLine => ChatRound(s, line, w); ChatMemory(s, line, w);
      case AttachLine => AttachRound(s, line, w); AttachMemory(s, line, w);
      case CommandLine(args) => CommandRound(s, line, w, args); CommandMemory(s, CommandOf(args), w);
  }

  /** The file an attachment reads is the picked name resolved against the
      current base, and it has that base as a prefix. */
  lemma AttachReadsInsideBase(base: string, w: World)
    requires AttachStatusOf(base, w).PromptReady?
    ensures w.pick.Some? && AttachStatusOf(base, w).path == Resolve(base, w.pick.value)
    ensures StartsWith(AttachStatusOf(base, w).path, base)
  {
  }

  lemma ChatHistory(s: State, input: string, w: World)
    requires NonBlank(input)
    ensures ChatState(s, input, w).history == PushBounded(s.history, input)
  {
  }

  lemma AttachHistory(s: State, raw: string, w: World)
    requires AttachStatusOf(s.baseDir, w).PromptReady?
    ensures AttachState(s, raw, w).history
      == PushBounded(PushBounded(s.history, raw), AttachStatusOf(s.baseDir, w).prompt)
  {
    var prompt := AttachStatusOf(s.baseDir, w).prompt;
    ChatHistory(Record(s, raw, w.appendOk), prompt, w);
  }

  /** A completed attachment records the raw line and then the whole prompt. */
  lemma AttachRecordsTwice(s: State, line: string, w: World)
    requires RouteOf(line).AttachLine? && AttachStatusOf(s.baseDir, w).PromptReady?
    ensures NextState(s, Line(line, w)).history
      == PushBounded(PushBounded(s.history, line), AttachStatusOf(s.baseDir, w).prompt)
  {
    AttachRound(s, line, w);
    AttachHistory(s, line, w);
  }

  // ---------------------------------------------------------------
  // the history list against the history file
  // ---------------------------------------------------------------

  /** The in-memory list is the latest part of what the file would load to. */
  predicate Synced(s: State)
  {
    LineTerminated(s.historyFile) && IsSuffix(s.history, LoadHistory(Some(s.historyFile)))
  }

  /** At start-up the list is exactly what the file loads to. */
  lemma StartSynced(cwd: string, file: string)
    requires LineTerminated(file)
    ensures Synced(State(cwd, LoadHistory(Some(file)), file, []))
  {
  }

  lemma RecordKeepsSynced(s: State, command: string)
    requires Synced(s) && NonBlank(command) && '\n' !in command
    ensures Synced(Record(s, command, true))
  {
    SaveKeepsSuffix(s.history, s.historyFile, command);
  }

  lemma LiteralCommand(c: string)
    requires c == "/save" || c == "/list"
    ensures NonBlank(c) && '\n' !in c
  {
    assert !IsJsSpace(c[0]);
  }

  lemma NoBreakInTrim(line: string)
    requires '\n' !in line
    ensures '\n' !in Trim(line)
  {
    var t := Trim(line);
    TrimChars(line);
    forall k | 0 <= k < |t| ensures t[k] != '\n' {
      assert t[k] in line;
    }
  }

  lemma NoBreakInParts(t: string)
    requires '\n' !in t
    ensures forall k :: 0 <= k < |Split(t, ' ')| ==> '\n' !in Split(t, ' ')[k]
  {
    SplitPartsFrom(t, ' ');
  }

  lemma EntryOneLine(path: string)
    requires '\n' !in path
    ensures NonBlank(BaseDirEntry(path)) && '\n' !in BaseDirEntry(path)
  {
    var e := BaseDirEntry(path);
    assert !IsJsSpace(e[0]);
    forall k | 0 <= k < |e| ensures e[k] != '\n' {
      if k >= 9 { assert e[k] == path[k - 9]; }
    }
  }

  /** The words of a command line hold no line break if the line holds none. */
  lemma NoBreakInArgs(line: string)
    requires '\n' !in line && RouteOf(line).CommandLine?
    ensures var args := RouteOf(line).args; forall k :: 0 <= k < |args| ==> '\n' !in args[k]
  {
    CommandArgs(line);
    NoBreakInTrim(line);
    NoBreakInParts(Trim(line));
  }

  lemma ChatKeepsSynced(s: State, input: string, w: World)
    requires Synced(s) && w.appendOk && '\n' !in input
    ensures Synced(ChatState(s, input, w))
  {
    if NonBlank(input) {
      RecordKeepsSynced(s, input);
    }
  }

  lemma CommandKeepsSynced(s: State, c: Command, w: World)
    requires Synced(s) && w.appendOk
    requires c.BaseDirCmd? ==> '\n' !in c.path
    ensures Synced(CommandState(s, c, w))
  {
    match c
    case BaseDirCmd(path) =>
      EntryOneLine(path);
      var target := Resolve(s.baseDir, path);
      var moved := if target in w.fs && w.fs[target].Directory? then s.(baseDir := target) else s;
      RecordKeepsSynced(moved, BaseDirEntry(path));
    case SaveCmd =>
      LiteralCommand("/save");
      RecordKeepsSynced(s, "/save");
    case ListCmd =>
      LiteralCommand("/list");
      RecordKeepsSynced(s, "/list");
    case _ =>
  }

  /** While every append succeeds and every recorded command is a single
      line, the list stays the latest part of the file. */
  lemma RoundKeepsSynced(s: State, r: Round)
    requires Synced(s)
    requires r.Line? && r.world.appendOk && '\n' !in r.line && !RouteOf(r.line).AttachLine?
    ensures Synced(NextState(s, r))
  {
    var line, w := r.line, r.world;
    match RouteOf(line)
    case ChatLine =>
      ChatRound(s, line, w);
      ChatKeepsSynced(s, line, w);
    case CommandLine(args) =>
      CommandRound(s, line, w, args);
      NoBreakInArgs(line);
      CommandKeepsSynced(s, CommandOf(args), w);
  }

  /** A list ending with a multi-line entry is no suffix of a list of single lines. */
  lemma MultiLineNotSuffix(h: seq<string>, loaded: seq<string>)
    requires |h| > 0 && '\n' in h[|h| - 1]
    requires forall k :: 0 <= k < |loaded| ==> '\n' !in loaded[k]
    ensures !IsSuffix(h, loaded)
  {
    if |h| <= |loaded| {
      var tail := loaded[|loaded| - |h|..];
      assert tail[|h| - 1] == loaded[|loaded| - 1];
      assert tail[|h| - 1] != h[|h| - 1];
    }
  }

  /** An attachment breaks that: the list ends with the multi-line prompt,
      which the file can only give back as several lines. */
  lemma AttachBreaksSync(s: State, line: string, w: World)
    requires RouteOf(line).AttachLine? && AttachStatusOf(s.baseDir, w).PromptReady?
    ensures !Synced(NextState(s, Line(line, w)))
  {
    AttachRecordsTwice(s, line, w);
    var n := NextState(s, Line(line, w));
    MultiLineNotSuffix(n.history, LoadHistory(Some(n.historyFile)));
  }

  // ---------------------------------------------------------------
  // properties of a whole session
  // ---------------------------------------------------------------

  lemma {:induction false} SessionKeepsHistoryBound(s: State, script: seq<Round>)
    requires |s.history| <= HistoryLimit
    ensures |Replay(s, script).history| <= HistoryLimit
    decreases |script|
  {
    if |script| > 0 {
      SessionKeepsHistoryBound(s, script[..|script| - 1]);
      RoundKeepsHistoryBound(Replay(s, script[..|script| - 1]), script[|script| - 1]);
    }
  }

  lemma {:induction false} SessionKeepsBaseCanonical(s: State, script: seq<Round>)
    requires IsCanonical(s.baseDir)
    ensures IsCanonical(Replay(s, script).baseDir)
    decreases |script|
  {
    if |script| > 0 {
      SessionKeepsBaseCanonical(s, script[..|script| - 1]);
      BaseDirRule(Replay(s, script[..|script| - 1]), script[|script| - 1]);
    }
  }
}
