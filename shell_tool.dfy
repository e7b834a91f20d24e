/** The `execute_shell_command` tool of both command-line tools: the
    blocklist gate on the first space-separated token, the two output
    buffers filled by the child's `data` events, and the result text built
    when the child closes. `IndexJs` and `CliAgentJs` select the variant of
    index.js and of cli-agent.js where they differ. */
module ShellTool {
  import opened Common
  import opened Text

  datatype Variant = IndexJs | CliAgentJs

  /** The commands each variant refuses to run; cli-agent.js adds `mkdir` and `touch`. */
  function Blocklist(v: Variant): seq<string>
  {
    match v
    case IndexJs => ["rm", "del", "sudo", "su", "shutdown", "reboot"]
    case CliAgentJs => ["rm", "del", "sudo", "su", "shutdown", "reboot", "mkdir", "touch"]
  }

  /** `command.split(" ")[0]`: the text before the first space. */
  function CommandBase(command: string): (name: string)
    ensures StartsWith(command, name) && ' ' !in name
    ensures |name| == |command| || command[|name|] == ' '
  {
    FirstToken(command, ' ')
  }

  /** Exact, case-sensitive membership of the first token in the blocklist. */
  predicate IsBlocked(v: Variant, command: string)
  {
    CommandBase(command) in Blocklist(v)
  }

  function BlockMessage(name: string): string
  {
    "에러: 보안상의 이유로 '" + name + "' 명령어는 실행할 수 없습니다."
  }

  // ---------------------------------------------------------------
  // the child process as seen by the tool
  // ---------------------------------------------------------------

  /** The exit code passed to `close`; `null` when the child was ended by a signal. */
  datatype ExitCode = Code(n: int) | NoCode

  datatype Stream = Stdout | Stderr

  /** One `data` event, already decoded to text. */
  datatype Chunk = Chunk(stream: Stream, data: string)

  /** What the spawned child did: it produced chunks and closed, or it failed to start. */
  datatype ProcessRun = Exited(chunks: seq<Chunk>, code: ExitCode) | LaunchFailed(message: string)

  /** The `spawn` call: command, shell and working directory. */
  datatype Spawn = Spawn(command: string, shell: string, cwd: Option<string>)

  /** The tool's observable effect: the process it started, if any, and the text it returns. */
  datatype ShellCall = ShellCall(spawned: Option<Spawn>, result: string)

  /** The two accumulators `stdout += data` and `stderr += data`. */
  class OutputBuffers {
    var stdout: string
    var stderr: string

    constructor ()
      ensures stdout == "" && stderr == ""
    {
      stdout, stderr := "", "";
    }

    /** A `data` event appends to its own stream's buffer and leaves the other alone. */
    method Append(chunk: Chunk)
      modifies this
      ensures chunk.stream == Stdout ==> stdout == old(stdout) + chunk.data && stderr == old(stderr)
      ensures chunk.stream == Stderr ==> stderr == old(stderr) + chunk.data && stdout == old(stdout)
    {
      if chunk.stream == Stdout {
        stdout := stdout + chunk.data;
      } else {
        stderr := stderr + chunk.data;
      }
    }
  }

  /** The text one stream has accumulated after the given events, in arrival order. */
  function StreamText(chunks: seq<Chunk>, s: Stream): string
  {
    if |chunks| == 0 then ""
    else
      var last := chunks[|chunks| - 1];
      StreamText(chunks[..|chunks| - 1], s) + (if last.stream == s then last.data else "")
  }

  /** Feed the events to a fresh pair of buffers, as the `data` listeners do. */
  method Collect(chunks: seq<Chunk>) returns (stdout: string, stderr: string)
    ensures stdout == StreamText(chunks, Stdout)
    ensures stderr == StreamText(chunks, Stderr)
  {
    var buffers := new OutputBuffers();
    for i := 0 to |chunks|
      invariant buffers.stdout == StreamText(chunks[..i], Stdout)
      invariant buffers.stderr == StreamText(chunks[..i], Stderr)
    {
      buffers.Append(chunks[i]);
      assert chunks[..i + 1][..i] == chunks[..i];
    }
    assert chunks[..|chunks|] == chunks;
    stdout, stderr := buffers.stdout, buffers.stderr;
  }

  /** Each stream's text over a concatenation of event runs is the concatenation of its texts. */
  lemma {:induction false} StreamTextAppend(a: seq<Chunk>, b: seq<Chunk>, s: Stream)
    ensures StreamText(a + b, s) == StreamText(a, s) + StreamText(b, s)
    decreases |b|
  {
    if |b| == 0 {
      assert a + b == a;
    } else {
      assert (a + b)[..|a + b| - 1] == a + b[..|b| - 1];
      StreamTextAppend(a, b[..|b| - 1], s);
    }
  }

  /** The buffers are independent: swapping two adjacent events of different
      streams changes neither stream's text. */
  lemma InterleavingIrrelevant(a: seq<Chunk>, x: Chunk, y: Chunk, b: seq<Chunk>, s: Stream)
    requires x.stream != y.stream
    ensures StreamText(a + [x, y] + b, s) == StreamText(a + [y, x] + b, s)
  {
    StreamTextAppend(a + [x, y], b, s);
    StreamTextAppend(a + [y, x], b, s);
    StreamTextAppend(a, [x, y], s);
    StreamTextAppend(a, [y, x], s);
    assert [x, y][..1] == [x] && [y, x][..1] == [y];
  }

  // ---------------------------------------------------------------
  // the `close` handlers
  // ---------------------------------------------------------------

  /** `${code}` in a template literal. */
  function CodeText(code: ExitCode): (t: string)
    ensures |t| >= 1 && t[|t| - 1] != '\n'
  {
    match code
    case Code(n) => IntToString(n)
    case NoCode => "null"
  }

  const IndexSuccessHead := "명령어 실행 성공:\n"
  const IndexErrorHead := "명령어 실행 중 에러 발생:\n"

  function ExitLine(code: ExitCode): string
  {
    "종료 코드: " + CodeText(code) + "\n"
  }

  /** A labelled block: the heading, a colon, a line break, the text and a line break. */
  function SectionText(heading: string, t: string): string
  {
    heading + ":\n" + t + "\n"
  }

  /** The block for the trimmed text, or nothing when that is empty. */
  function Section(heading: string, text: string): string
  {
    if Trim(text) == "" then "" else SectionText(heading, Trim(text))
  }

  /** index.js's heading: success exactly when the exit code is 0. */
  function IndexHead(code: ExitCode): string
  {
    if code == Code(0) then IndexSuccessHead else IndexErrorHead
  }

  /** index.js: the exit-code line, then the trimmed STDOUT and STDERR sections
      when non-empty, under the success heading exactly when the code is 0. */
  function IndexCloseResult(code: ExitCode, stdout: string, stderr: string): string
  {
    IndexHead(code) + ExitLine(code) + Section("STDOUT", stdout) + Section("STDERR", stderr)
  }

  const CliErrorHead := "명령어 실행 중 에러 발생 (종료 코드: "
  const CliOkHead := "명령어 실행 결과:\n"

  /** cli-agent.js: the raw stderr with the exit code whenever stderr is non-empty,
      otherwise the raw stdout. */
  function CliCloseResult(code: ExitCode, stdout: string, stderr: string): string
  {
    if stderr != "" then CliErrorHead + CodeText(code) + "):\n" + stderr
    else CliOkHead + stdout
  }

  function CloseResult(v: Variant, code: ExitCode, stdout: string, stderr: string): string
  {
    match v
    case IndexJs => IndexCloseResult(code, stdout, stderr)
    case CliAgentJs => CliCloseResult(code, stdout, stderr)
  }

  function LaunchFailure(message: string): string
  {
    "명령어 실행 실패: " + message
  }

  /** The child index.js starts runs in the current base directory; cli-agent.js's inherits the process's. */
  function SpawnFor(v: Variant, base: string, command: string): Spawn
  {
    Spawn(command, "powershell.exe", if v == IndexJs then Some(base) else None)
  }

  /** The whole tool call. A blocked command returns the block message and
      starts nothing; any other starts exactly one child. */
  function ShellOutcome(v: Variant, base: string, command: string, run: ProcessRun): (call: ShellCall)
    ensures call.spawned.None? <==> IsBlocked(v, command)
    ensures IsBlocked(v, command) ==> call.result == BlockMessage(CommandBase(command))
    ensures call.spawned.Some? ==> call.spawned.value.command == command
    ensures call.spawned.Some? ==> (call.spawned.value.cwd == Some(base) <==> v == IndexJs)
  {
    if IsBlocked(v, command) then ShellCall(None, BlockMessage(CommandBase(command)))
    else
      var text := match run
        case Exited(chunks, code) => CloseResult(v, code, StreamText(chunks, Stdout), StreamText(chunks, Stderr))
        case LaunchFailed(message) => LaunchFailure(message);
      ShellCall(Some(SpawnFor(v, base, command)), text)
  }

  /** `execute_shell_command`: gate, then accumulate the child's output and format it at close. */
  method ExecuteShellCommand(v: Variant, base: string, command: string, run: ProcessRun) returns (call: ShellCall)
    ensures call == ShellOutcome(v, base, command, run)
  {
    var name := CommandBase(command);
    if name in Blocklist(v) {
      return ShellCall(None, BlockMessage(name));
    }
    var text: string;
    match run {
      case LaunchFailed(message) =>
        text := LaunchFailure(message);
      case Exited(chunks, code) =>
        var stdout, stderr := Collect(chunks);
        text := CloseResult(v, code, stdout, stderr);
    }
    call := ShellCall(Some(SpawnFor(v, base, command)), text);
  }

  // ---------------------------------------------------------------
  // lemmas: the gate
  // ---------------------------------------------------------------

  /** The first token of `name` followed by a space (or nothing) is `name`. */
  lemma CommandBaseOf(name: string, rest: string)
    requires ' ' !in name
    ensures CommandBase(name) == name
    ensures CommandBase(name + " " + rest) == name
  {
    FirstTokenUnique(name, ' ', name);
    var c := name + " " + rest;
    assert c[..|name|] == name && c[|name|] == ' ';
    FirstTokenUnique(c, ' ', name);
  }

  /** Every listed name is refused by itself or followed by arguments, in both
      variants. */
  lemma ListedNamesBlocked(name: string, rest: string)
    requires name in Blocklist(IndexJs)
    ensures IsBlocked(IndexJs, name) && IsBlocked(CliAgentJs, name)
    ensures IsBlocked(IndexJs, name + " " + rest) && IsBlocked(CliAgentJs, name + " " + rest)
  {
    CommandBaseOf(name, rest);
  }

  /** `mkdir` and `touch` are refused only by cli-agent.js. */
  lemma CreationBlockedOnlyByCli(name: string, rest: string)
    requires name == "mkdir" || name == "touch"
    ensures !IsBlocked(IndexJs, name + " " + rest) && IsBlocked(CliAgentJs, name + " " + rest)
  {
    assert ' ' !in name;
    CommandBaseOf(name, rest);
    assert name !in Blocklist(IndexJs) && name in Blocklist(CliAgentJs);
  }

  /** A first token outside both lists is let through, whatever follows it. */
  lemma UnlistedAllowed(v: Variant, name: string, rest: string)
    requires ' ' !in name && name !in Blocklist(CliAgentJs)
    ensures !IsBlocked(v, name + " " + rest)
  {
    CommandBaseOf(name, rest);
  }

  /** Matching is case-sensitive: `RM -rf .` passes. */
  lemma UpperCaseAllowed(v: Variant, command: string)
    requires command == "RM -rf ."
    ensures !IsBlocked(v, command)
  {
    assert command == "RM" + " " + "-rf .";
    UnlistedAllowed(v, "RM", "-rf .");
  }

  /** A leading space makes the first token empty: ` rm -rf .` passes. */
  lemma LeadingSpaceAllowed(v: Variant, command: string)
    requires command == " rm -rf ."
    ensures !IsBlocked(v, command)
  {
    assert command == "" + " " + "rm -rf .";
    UnlistedAllowed(v, "", "rm -rf .");
  }

  /** Only the first token is checked: `ls && rm -rf .` passes. */
  lemma ChainedAllowed(v: Variant, command: string)
    requires command == "ls && rm -rf ."
    ensures !IsBlocked(v, command)
  {
    assert command == "ls" + " " + "&& rm -rf .";
    UnlistedAllowed(v, "ls", "&& rm -rf .");
  }

  /** cli-agent.js's gate is the stricter one: it refuses everything index.js
      refuses, and exactly `mkdir` and `touch` besides. */
  lemma CliGateIsStricter(command: string)
    ensures IsBlocked(IndexJs, command) ==> IsBlocked(CliAgentJs, command)
    ensures IsBlocked(CliAgentJs, command) && !IsBlocked(IndexJs, command)
            <==> CommandBase(command) == "mkdir" || CommandBase(command) == "touch"
  {
  }

  /** A blocked command never reaches `spawn`, and the message names the token. */
  lemma BlockedNeverSpawns(v: Variant, base: string, command: string, run: ProcessRun)
    requires IsBlocked(v, command)
    ensures ShellOutcome(v, base, command, run) == ShellCall(None, BlockMessage(CommandBase(command)))
  {
  }

  // ---------------------------------------------------------------
  // lemmas: the close handlers
  // ---------------------------------------------------------------

  /** A string that starts with `a` cannot start with a `b` that differs from `a` at `i`. */
  lemma PrefixExcludes(r: string, a: string, b: string, i: nat)
    requires i < |a| && i < |b| && a[i] != b[i] && StartsWith(r, a)
    ensures !StartsWith(r, b)
  {
    assert r[i] == a[i];
  }

  lemma HeadsDiffer()
    ensures |IndexSuccessHead| == 11 && |IndexErrorHead| == 16 && IndexSuccessHead[7] != IndexErrorHead[7]
    ensures |CliErrorHead| == 23 && |CliOkHead| == 11 && CliErrorHead[7] != CliOkHead[7]
  {
  }

  /** A string whose second-to-last character differs from that of `pat` does not end with `pat`. */
  lemma SuffixExcludes(r: string, pat: string)
    requires 2 <= |pat| && 2 <= |r| && r[|r| - 2] != pat[|pat| - 2]
    ensures !EndsWith(r, pat)
  {
    assert |r| < |pat| || r[|r| - |pat|..][|pat| - 2] == r[|r| - 2];
  }

  lemma SectionTextFacts(heading: string, t: string)
    ensures var b := SectionText(heading, t);
      |b| == |heading| + |t| + 3 && b[..|heading|] == heading
      && b[|b| - 2] == (if t == "" then '\n' else t[|t| - 1])
  {
    var b := SectionText(heading, t);
    assert b[..|heading|] == heading;
  }

  /** The second-to-last character of the exit-code line is the code's last character. */
  lemma ExitLineEnd(code: ExitCode)
    ensures var line := ExitLine(code); var c := CodeText(code);
      |line| >= 2 && line[|line| - 2] == c[|c| - 1]
  {
  }

  /** Where the four parts of a concatenation sit in it. */
  lemma Layout(head: string, line: string, o: string, e: string)
    ensures var r := head + line + o + e;
      r[..|head|] == head && r[|head|..] == line + o + e
      && (line + o + e)[..|line|] == line
      && r[|head| + |line|..] == o + e && (o + e)[..|o|] == o
      && r[|r| - |e|..] == e
      && (e == "" ==> r == head + line + o)
      && (o == "" ==> head + line + o == head + line)
  {
    var r := head + line + o + e;
    assert r[..|head|] == head;
    assert r[|head|..] == line + o + e;
    assert r[|head| + |line|..] == o + e;
  }

  /** index.js: the success heading appears exactly when the code is 0 (a
      signal's `null` code counts as failure), and the exit-code line follows it. */
  lemma IndexHeadingAndCode(code: ExitCode, stdout: string, stderr: string)
    ensures var r := IndexCloseResult(code, stdout, stderr);
      (StartsWith(r, IndexSuccessHead) <==> code == Code(0))
      && (StartsWith(r, IndexErrorHead) <==> code != Code(0))
    ensures var r := IndexCloseResult(code, stdout, stderr);
      StartsWith(r[|IndexHead(code)|..], ExitLine(code))
  {
    var r := IndexCloseResult(code, stdout, stderr);
    var head, line := IndexHead(code), ExitLine(code);
    Layout(head, line, Section("STDOUT", stdout), Section("STDERR", stderr));
    HeadsDiffer();
    if code == Code(0) {
      PrefixExcludes(r, IndexSuccessHead, IndexErrorHead, 7);
    } else {
      PrefixExcludes(r, IndexErrorHead, IndexSuccessHead, 7);
    }
  }

  /** Two optional sections whose headings differ at index 4: the text after
      the exit-code line starts with the first block exactly when it is present. */
  lemma FirstSectionPresent(o: string, e: string, ho: string, he: string, to: string, te: string)
    requires o == (if to == "" then "" else SectionText(ho, to))
    requires e == (if te == "" then "" else SectionText(he, te))
    requires 4 < |ho| && 4 < |he| && ho[4] != he[4]
    ensures to != "" <==> StartsWith(o + e, SectionText(ho, to))
  {
    var pat := SectionText(ho, to);
    SectionTextFacts(ho, to);
    if to != "" {
      assert (o + e)[..|o|] == o;
    } else if te != "" {
      SectionTextFacts(he, te);
      assert e[4] == he[4] && pat[4] == ho[4];
      PrefixExcludes(o + e, e, pat, 4);
    }
  }

  /** The text ends with the last optional section exactly when it is present,
      provided what precedes it never has a line break second to last. */
  lemma LastSectionPresent(x: string, o: string, e: string, ho: string, he: string, to: string, te: string)
    requires 2 <= |x| && x[|x| - 2] != '\n'
    requires to == "" || to[|to| - 1] != '\n'
    requires o == (if to == "" then "" else SectionText(ho, to))
    requires e == (if te == "" then "" else SectionText(he, te))
    ensures te != "" <==> EndsWith(x + o + e, SectionText(he, te))
  {
    var r := x + o + e;
    var pat := SectionText(he, te);
    if te != "" {
      assert r[|r| - |e|..] == e;
    } else {
      SectionTextFacts(he, te);
      if o != "" {
        SectionTextFacts(ho, to);
        assert r == x + o;
        assert r[|r| - 2] == o[|o| - 2];
      } else {
        assert r == x;
      }
      SuffixExcludes(r, pat);
    }
  }

  lemma DropTwo(a: string, b: string, c: string, d: string)
    ensures (a + b + c + d)[|a| + |b|..] == c + d
  {
    assert (a + b + c + d)[|a| + |b|..] == c + d;
  }

  lemma StdoutBeforeStderr(stdout: string, stderr: string)
    ensures var body := Section("STDOUT", stdout) + Section("STDERR", stderr);
      Trim(stdout) != "" <==> StartsWith(body, SectionText("STDOUT", Trim(stdout)))
  {
    assert "STDOUT"[4] != "STDERR"[4];
    FirstSectionPresent(Section("STDOUT", stdout), Section("STDERR", stderr), "STDOUT", "STDERR", Trim(stdout), Trim(stderr));
  }

  lemma StderrLast(x: string, stdout: string, stderr: string)
    requires 2 <= |x| && x[|x| - 2] != '\n'
    ensures var r := x + Section("STDOUT", stdout) + Section("STDERR", stderr);
      Trim(stderr) != "" <==> EndsWith(r, SectionText("STDERR", Trim(stderr)))
  {
    LastSectionPresent(x, Section("STDOUT", stdout), Section("STDERR", stderr), "STDOUT", "STDERR", Trim(stdout), Trim(stderr));
  }

  /** What follows the heading and the exit-code line. */
  lemma IndexBody(code: ExitCode, stdout: string, stderr: string)
    ensures IndexCloseResult(code, stdout, stderr)[|IndexHead(code)| + |ExitLine(code)|..]
      == Section("STDOUT", stdout) + Section("STDERR", stderr)
  {
    DropTwo(IndexHead(code), ExitLine(code), Section("STDOUT", stdout), Section("STDERR", stderr));
  }

  /** index.js: the STDOUT section with the trimmed stdout follows the exit-code
      line exactly when the trimmed stdout is non-empty. */
  lemma IndexStdoutSection(code: ExitCode, stdout: string, stderr: string)
    ensures var r := IndexCloseResult(code, stdout, stderr);
      var body := r[|IndexHead(code)| + |ExitLine(code)|..];
      Trim(stdout) != "" <==> StartsWith(body, SectionText("STDOUT", Trim(stdout)))
  {
    IndexBody(code, stdout, stderr);
    StdoutBeforeStderr(stdout, stderr);
  }

  /** index.js: the result ends with the STDERR section with the trimmed stderr
      exactly when the trimmed stderr is non-empty. */
  lemma IndexStderrSection(code: ExitCode, stdout: string, stderr: string)
    ensures var r := IndexCloseResult(code, stdout, stderr);
      Trim(stderr) != "" <==> EndsWith(r, SectionText("STDERR", Trim(stderr)))
  {
    var line := ExitLine(code);
    ExitLineEnd(code);
    var x := IndexHead(code) + line;
    assert x[|x| - 2] == line[|line| - 2];
    StderrLast(x, stdout, stderr);
  }

  /** cli-agent.js: the error form, with the exit code and the raw stderr,
      exactly when stderr is non-empty; otherwise the raw stdout. */
  lemma CliForms(code: ExitCode, stdout: string, stderr: string)
    ensures var r := CliCloseResult(code, stdout, stderr);
      (StartsWith(r, CliErrorHead) <==> stderr != "") && (StartsWith(r, CliOkHead) <==> stderr == "")
    ensures var r := CliCloseResult(code, stdout, stderr);
      stderr != "" ==> StartsWith(r[|CliErrorHead|..], CodeText(code) + "):\n") && EndsWith(r, stderr)
    ensures var r := CliCloseResult(code, stdout, stderr);
      stderr == "" ==> EndsWith(r, stdout) && |r| == |CliOkHead| + |stdout|
  {
    var r := CliCloseResult(code, stdout, stderr);
    HeadsDiffer();
    if stderr != "" {
      var tail := CodeText(code) + "):\n" + stderr;
      assert r == CliErrorHead + tail;
      assert r[..|CliErrorHead|] == CliErrorHead && r[|CliErrorHead|..] == tail;
      PrefixExcludes(r, CliErrorHead, CliOkHead, 7);
    } else {
      assert r[..|CliOkHead|] == CliOkHead;
      PrefixExcludes(r, CliOkHead, CliErrorHead, 7);
    }
  }

  /** cli-agent.js ignores the exit code when stderr is empty, and stdout when it is not. */
  lemma CliIgnores(c1: ExitCode, c2: ExitCode, o1: string, o2: string, stderr: string)
    ensures stderr == "" ==> CliCloseResult(c1, o1, stderr) == CliCloseResult(c2, o1, stderr)
    ensures stderr != "" ==> CliCloseResult(c1, o1, stderr) == CliCloseResult(c1, o2, stderr)
  {
  }

  /** The two variants disagree: a zero exit with warnings on stderr is a success
      for index.js and an error for cli-agent.js; a non-zero exit with nothing
      on stderr is the reverse. */
  lemma VariantsDisagree(stdout: string, stderr: string, n: int)
    requires Trim(stderr) != "" && n != 0
    ensures StartsWith(IndexCloseResult(Code(0), stdout, stderr), IndexSuccessHead)
    ensures StartsWith(CliCloseResult(Code(0), stdout, stderr), CliErrorHead)
    ensures StartsWith(IndexCloseResult(Code(n), stdout, ""), IndexErrorHead)
    ensures StartsWith(CliCloseResult(Code(n), stdout, ""), CliOkHead)
  {
    IndexHeadingAndCode(Code(0), stdout, stderr);
    IndexHeadingAndCode(Code(n), stdout, "");
    CliForms(Code(0), stdout, stderr);
    CliForms(Code(n), stdout, "");
  }

  /** The formatted result depends on the streams only through their texts, so
      reordering events of different streams never changes it. */
  lemma CloseIgnoresInterleaving(v: Variant, code: ExitCode, a: seq<Chunk>, x: Chunk, y: Chunk, b: seq<Chunk>)
    requires x.stream != y.stream
    ensures var c1, c2 := a + [x, y] + b, a + [y, x] + b;
      CloseResult(v, code, StreamText(c1, Stdout), StreamText(c1, Stderr))
      == CloseResult(v, code, StreamText(c2, Stdout), StreamText(c2, Stderr))
  {
    InterleavingIrrelevant(a, x, y, b, Stdout);
    InterleavingIrrelevant(a, x, y, b, Stderr);
  }
}
