# KYJ_CLI — a Dafny model of the two chat front ends

KYJ_CLI is a terminal assistant that ships as two scripts. Each script runs a
prompt loop around a tool-using chat agent.

- **index.js** routes each trimmed line in one of three ways:
  - a line whose first word starts with `/` goes to a small command set (`/clear`, `/basedir <path>`, `/save`, `/list`, `/exit`);
  - a line starting with `@` attaches a file picked from the working directory;
  - anything else is sent to the agent.

  It keeps a command history in memory and appends every entry to a history file. Each entry pushed onto a list of 100 or more drops the oldest one, so a list that starts within 100 entries stays within 100. A history file with more lines loads uncapped and stays that long.
- **cli-agent.js** compares the lower-cased raw input with `/exit`, `/clear`, `/chat`, `/save` and `/list`. Anything else goes to the agent.

Both scripts share these pieces:

- a base directory that every file path must stay inside (`getSafePath`);
- a shell tool with a blocklist of command names;
- a conversation memory that records a turn only when the agent answered;
- `/save` and `/list` over that memory.

The model covers each piece in its own module:

| module | file | models |
|---|---|---|
| `Common` | common.dfy | `Option`, `Result` and a specified `Filter` |
| `Text` | text.dfy | the JavaScript string operations the code relies on: `split`, `join`, `trim`, `startsWith`/`endsWith`/`includes`, ASCII `toLowerCase`, decimal rendering |
| `PathSandbox` | path_sandbox.dfy | `path.resolve` as POSIX lexical normalisation, and `getSafePath` |
| `ShellTool` | shell_tool.dfy | the blocklist gate, the spawned call, the output buffers as a class, and both formats of the `close` message |
| `Timestamps` | timestamps.dfy | the two `getTimestamp` helpers; the clock is a parameter |
| `Conversation` | conversation.dfy | the memory, the `/save` transcript (a loop-built string), its file name and sandboxing, and the `/list` output |
| `History` | history.dfy | `loadHistory`, `saveHistory` and the history file |
| `Attach` | attach.dfy | the `@` flow pieces: the search query, the picker filter, the 1 000 000-character cap and the combined prompt |
| `IndexCli` | index_cli.dfy | index.js's routing, its commands and handlers; its session is a class whose methods update the base directory, history, history file and memory in place |
| `CliAgent` | cli_agent.dfy | cli-agent.js's dispatch and its session class |

Some things each round depends on are parameters of that round (a `World` in
index.js, an `Interaction` in cli-agent.js):

- the file system;
- the picker's choice and the typed question;
- the clock;
- whether `executor.invoke` answers, throws or is aborted;
- whether a history append and the `/save` write succeed.

The two scripts differ in details that the model makes explicit:

- The CLI agent blocks `mkdir` and `touch` as well (`ShellTool.CliGateIsStricter`).
- The CLI agent's shell runs without a `cwd`.
- The two scripts decide success differently when the shell process closes. index.js uses the exit code. cli-agent.js uses only whether stderr is empty (`ShellTool.VariantsDisagree`).

## Model

| member | source | states |
|---|---|---|
| `Common.Filter` | index.js:47 | keeps exactly the elements satisfying the predicate, all of them from the input |
| `Common.FilterAppend` | index.js:47 | filtering distributes over concatenation |
| `Text.Split` | index.js:403 | `split` yields at least one part and no part contains the separator |
| `Text.JoinSplit` | index.js:403 | joining the parts of a split with the separator gives the original string back |
| `Text.SplitJoin` | index.js:403 | splitting a join of separator-free parts gives the parts back |
| `Text.SplitConcat` | index.js:47 | splitting `a + sep + b` is splitting `a` followed by splitting `b` |
| `Text.FirstToken` | index.js:114 | `split(' ')[0]`: the longest space-free prefix, ended by a space or the end of the string |
| `Text.FirstTokenUnique` | index.js:114 | any space-free prefix ended by a space or the end is that first word |
| `Text.Trim` | index.js:403 | `trim` is empty exactly when the string is all whitespace, and otherwise neither begins nor ends with whitespace |
| `Text.TrimChars` | index.js:403 | trimming introduces no character that was not in the string |
| `Text.TrimIdempotent` | index.js:403 | trimming twice is trimming once |
| `Text.ToLower` | cli-agent.js:234 | lower-casing keeps the length and maps each character on its own |
| `Text.ParseNatToString` | cli-agent.js:34-38 | the decimal text of a number reads back as that number |
| `PathSandbox.Resolve` | index.js:28 | `path.resolve(BASE_DIR, target)`: always canonical; an absolute target is normalised on its own, a relative one is walked from the base |
| `PathSandbox.GetSafePath` | index.js:27-33 | a path is accepted exactly when the resolved path starts with the base directory as a string; it is then the resolved path, and otherwise the sandbox error message |
| `PathSandbox.WalkAppend` | index.js:28 | walking two segment lists is walking the first and then the second |
| `PathSandbox.WalkKeepsPrefix` | index.js:28 | without `..`, a walk never leaves the directories it started from |
| `PathSandbox.SegmentsRender` | index.js:28 | rendering names and reading the segments back is the identity, and the rendering is canonical |
| `PathSandbox.NormalizeIdempotent` | index.js:28 | normalising gives a canonical path with the same segments |
| `PathSandbox.CanonicalShape` | index.js:28 | a canonical path is absolute, has no trailing slash (except `/`) and splits into `""` followed by its names |
| `PathSandbox.DotDotAtRoot` | index.js:28 | `..` at the root stays at the root |
| `PathSandbox.RenderPrefix` | index.js:29 | a path below a directory starts with that directory's text |
| `PathSandbox.WithinAccepted` | index.js:29-32 | every path that lies component-wise inside a canonical base is accepted |
| `PathSandbox.RelativeWithoutDotDotAccepted` | cli-agent.js:22-28 | a relative target with no `..` stays inside the base and is accepted |
| `PathSandbox.SiblingAccepted` | index.js:29 | the string-prefix test also accepts a sibling such as `base + "-evil"`, which is not inside the base |
| `PathSandbox.RootAcceptsAll` | index.js:27-33 | with the base at the root, every target is accepted |
| `PathSandbox.EscapeRefused` | index.js:27-33 | from `/home/u/proj`, `../../etc/passwd` resolves to `/home/etc/passwd` and is refused |
| `PathSandbox.AbsoluteIgnoresBase` | index.js:28 | an absolute target resolves independently of the base; acceptance then only asks whether its normal form starts with the base |
| `PathSandbox.ProjSiblingAccepted` | cli-agent.js:22-28 | from `/home/u/proj`, the absolute `/home/u/proj-evil` is accepted although it lies outside |
| `ShellTool.CommandBase` | index.js:114 | the command's first word: a space-free prefix ended by a space or the end |
| `ShellTool.CommandBaseOf` | cli-agent.js:93 | the first word of `name` and of `name + " " + rest` is `name` |
| `ShellTool.ListedNamesBlocked` | index.js:113-117 | each name of the shared list is refused by both scripts, alone or with arguments |
| `ShellTool.CreationBlockedOnlyByCli` | cli-agent.js:92-96 | `mkdir` and `touch` are refused by the CLI agent only |
| `ShellTool.UnlistedAllowed` | cli-agent.js:92-96 | a first word outside both lists is never refused |
| `ShellTool.UpperCaseAllowed` | index.js:113-115 | the exact-match test lets `RM -rf .` through |
| `ShellTool.LeadingSpaceAllowed` | index.js:113-115 | a leading space makes the first word empty, so ` rm -rf .` passes |
| `ShellTool.ChainedAllowed` | index.js:113-115 | only the first word is checked, so `ls && rm -rf .` passes |
| `ShellTool.CliGateIsStricter` | cli-agent.js:92-96 | whatever index.js refuses the CLI agent refuses; they differ exactly on `mkdir` and `touch` |
| `ShellTool.ShellOutcome` | index.js:112-145 | nothing is spawned exactly when the command is blocked, in which case the result is the block message for its first word; otherwise the command is spawned unchanged, with the base directory as `cwd` exactly in index.js |
| `ShellTool.BlockedNeverSpawns` | cli-agent.js:94-96 | a blocked command spawns nothing and returns only the block message |
| `ShellTool.ExecuteShellCommand` | index.js:112-145 | the tool call returns the outcome that `ShellOutcome` specifies |
| `ShellTool.OutputBuffers.constructor` | index.js:125-126 | both buffers start empty |
| `ShellTool.OutputBuffers.Append` | index.js:127-128 | a chunk extends the buffer of its own stream and leaves the other unchanged |
| `ShellTool.Collect` | cli-agent.js:106-115 | the collected buffers are the concatenation of each stream's chunks in arrival order |
| `ShellTool.StreamTextAppend` | index.js:127-128 | collecting two batches is collecting each and concatenating |
| `ShellTool.InterleavingIrrelevant` | index.js:127-128 | swapping two adjacent chunks of different streams changes neither buffer |
| `ShellTool.CodeText` | index.js:130 | the printed code is non-empty and does not end with a line break |
| `ShellTool.IndexHeadingAndCode` | index.js:129-143 | the message has the success heading exactly when the exit code is 0 and the error heading otherwise, and the exit-code line follows the heading |
| `ShellTool.IndexBody` | index.js:129-143 | after the heading and the exit-code line comes exactly the STDOUT section followed by the STDERR section |
| `ShellTool.IndexStdoutSection` | index.js:131-133 | the trimmed stdout is the first section exactly when it is not blank |
| `ShellTool.IndexStderrSection` | index.js:134-136 | the message ends with the trimmed stderr section exactly when stderr is not blank |
| `ShellTool.CliForms` | cli-agent.js:117-123 | with stderr present, the message is the error heading, the code and the raw stderr; otherwise it is the result heading followed by the raw stdout |
| `ShellTool.CliIgnores` | cli-agent.js:117-123 | without stderr the exit code does not matter; with stderr the stdout does not matter |
| `ShellTool.VariantsDisagree` | cli-agent.js:117-123 | exit 0 with stderr is a success for index.js and an error for the CLI agent; a failing code without stderr is the reverse |
| `ShellTool.CloseIgnoresInterleaving` | index.js:125-143 | the close message depends only on each stream's own chunk order |
| `Timestamps.PadStart2` | cli-agent.js:34 | `padStart(2, '0')`: strings of two or more characters are unchanged, shorter ones are left-filled with `0` to two |
| `Timestamps.Two` | cli-agent.js:34-38 | a field below 100 becomes exactly two digits that read back as the field |
| `Timestamps.CompactShape` | cli-agent.js:31-40 | for a valid clock with a four-digit year, the stamp is 14 digits and each field reads back from its position |
| `Timestamps.CompactInjective` | cli-agent.js:31-40 | distinct valid clock readings give distinct stamps |
| `Timestamps.CompactStampChars` | cli-agent.js:39 | for any clock the stamp has only digits and `-`, so never a `/` |
| `Timestamps.IsoFileStamp` | index.js:35-38 | every `:` and `.` of the ISO text becomes `-` and every other character stays in place |
| `Timestamps.IsoFileStampClean` | index.js:37 | the stamp has no `:` or `.`, and has a `/` only if the ISO text had one |
| `Timestamps.IsoFileStampIdempotent` | index.js:37 | replacing twice is replacing once |
| `Timestamps.IsoFileStampAlphabet` | index.js:37 | on ISO text the stamp uses only digits, `-`, `T` and `Z` |
| `Conversation.CommitTurn` | index.js:243-245 | the memory grows by one turn exactly when `invoke` answered; it keeps the old turns, and the new turn pairs the input with the answer |
| `Conversation.MessagesOf` | cli-agent.js:255 | the memory's messages are each turn's human message followed by its AI message |
| `Conversation.CommitMessages` | cli-agent.js:313-320 | an answer appends exactly its question and its answer to the messages; a failure or an abort appends nothing |
| `Conversation.Sections` | index.js:299-305 | one formatted section per message, in order |
| `Conversation.RenderAppend` | index.js:299-305 | rendering is compositional over concatenated messages |
| `Conversation.FormatTranscript` | cli-agent.js:263-271 | the loop builds exactly the header followed by each message's section |
| `Conversation.RenderSkipsOther` | index.js:299-305 | messages that are neither human nor AI contribute nothing |
| `Conversation.CommitExtendsTranscript` | index.js:245 | after an answered turn, the transcript is the old one followed by the question's and the answer's sections |
| `Conversation.UncommittedTranscript` | index.js:243-254 | a failed or aborted turn leaves the transcript unchanged |
| `Conversation.SaveTranscript` | index.js:287-317 | nothing is attempted exactly when there are no messages. The transcript is written exactly when there are messages, `getSafePath` accepts the file name and `fs.writeFile` succeeds; it then goes to the accepted path. A failed write is reported at that path. A refused name gives the sandbox message |
| `Conversation.SavePathAccepted` | cli-agent.js:272-276 | inside a canonical base, a stamp without `/` gives a file name directly under the base, which is accepted |
| `Conversation.SaveWritesIffHistory` | cli-agent.js:258-278 | with such a stamp the sandbox never refuses, so `/save` writes exactly when the memory holds messages and the write succeeds |
| `Conversation.ListEntries` | index.js:330-334 | one line per human or AI message, in order |
| `Conversation.ListOutput` | cli-agent.js:281-300 | empty memory prints only the no-history message; otherwise a header, the entries and a footer |
| `History.NonBlankIsTrim` | index.js:47 | the non-blank test is `trim() !== ''` |
| `History.LoadHistory` | index.js:44-54 | the loaded list holds the file's non-blank lines, none containing a line break; an unreadable file gives an empty list |
| `History.AppendLine` | index.js:62 | appending keeps the old text as a prefix and ends in a line break |
| `History.PushBounded` | index.js:57-60 | `push` then `shift` beyond 100: the command becomes the last entry; below the limit nothing is lost, at the limit only the oldest entry is dropped |
| `History.PushKeepsBound` | index.js:57-60 | a list within 100 entries stays within 100 |
| `History.PushOverLimit` | index.js:57-60 | a list already over the limit (a long file loads uncapped) is not shortened |
| `History.PushIsSuffix` | index.js:57-60 | the new list is a suffix of old list plus command, losing at most one entry |
| `History.LoadAfterAppend` | index.js:47 | after appending one single-line, non-blank command, the file loads to the old list plus that command |
| `History.SaveKeepsSuffix` | index.js:56-66 | if the in-memory list is a suffix of what the file loads to, it still is after `saveHistory` |
| `History.MultiLineEntrySplits` | index.js:47 | an entry holding a line break comes back from the file as two entries |
| `Attach.AttachQuery` | index.js:353-357 | the search is the trimmed first word without its first character, or empty when that word has at most one character |
| `Attach.AttachQueryOf` | index.js:353-357 | `@q` and `@q rest` both search for `trim(q)` |
| `Attach.LeadingSpaceQuery` | index.js:354 | a raw line starting with a space has an empty query |
| `Attach.Truncate` | index.js:369-373 | content within 1 000 000 characters is unchanged; longer content is cut to that length and marked |
| `Attach.TruncateBounds` | index.js:369-373 | the result never exceeds the limit plus the marker, and starts with as much content as fits |
| `Attach.TruncateIdempotent` | index.js:369-373 | cutting twice is cutting once |
| `Attach.CombinedInputLayout` | index.js:383 | the head, the file name, the content and the question each sit whole at their fixed place |
| `Attach.CombinedInputNonBlank` | index.js:383-384 | the combined prompt is never blank, so the chat handler never skips it |
| `Attach.CombinedInputMultiLine` | index.js:383 | the combined prompt always contains a line break |
| `Attach.FilterFiles` | index.js:468 | keeps exactly the files whose lower-cased name contains the lower-cased query |
| `Attach.FilterEmptyKeepsAll` | index.js:461 | the empty query keeps every file |
| `Attach.FilterCaseInsensitive` | index.js:468 | queries equal up to ASCII case select the same files |
| `Attach.SearchSourceIsFilter` | index.js:461-469 | every branch of the picker's source callback is the one filter applied to the text in effect |
| `IndexCli.RouteByFirstWord` | index.js:403-431 | a line is a command exactly when its trimmed first word starts with `/`, an attachment exactly when it starts with `@`, and a command's arguments are the trimmed line split on spaces |
| `IndexCli.FirstWordTest` | index.js:404-406 | the first word starts with a non-space character exactly when the trimmed line does |
| `IndexCli.CommandOf` | index.js:257-349 | the five registered names select their commands; `/basedir` without a path is an argument error; any other word is unknown |
| `IndexCli.OneWordCommand` | index.js:403-406 | a lone `/word` routes as a one-argument command |
| `IndexCli.TwoWordCommand` | index.js:403-406 | `/word arg` routes as a two-argument command |
| `IndexCli.ChatRound` | index.js:429-431 | a chat line changes the state as the chat handler does |
| `IndexCli.ChatReport` | index.js:228-232 | a chat line is sent exactly when it is not blank, and the prompt continues |
| `IndexCli.AttachRound` | index.js:416-418 | an `@` line changes the state as the attachment handler does |
| `IndexCli.AttachReport` | index.js:351-390 | an `@` line reports the attachment status, and the prompt continues |
| `IndexCli.CommandRound` | index.js:406-414 | a command line changes the state as commander's action for its command does |
| `IndexCli.CommandReport` | index.js:406-414 | a command line reports its command's effect; the prompt stops exactly on `/exit` or an unknown command |
| `IndexCli.BlankLineSkipped` | index.js:229-232 | a blank line changes nothing, reports the skip, and the prompt continues |
| `IndexCli.UnregisteredCommandStops` | index.js:409-413 | an unregistered `/word` changes nothing and ends the prompt loop |
| `IndexCli.HelpAndUpperCaseStop` | index.js:409-413 | `/help` and `/CLEAR` are unknown commands and end the prompt loop |
| `IndexCli.AttachStatusOf` | index.js:359-389 | a ready prompt means a file was picked, read at its resolved path inside the base, and combined into a non-blank, multi-line prompt |
| `IndexCli.AttachReadsInsideBase` | index.js:367-368 | a file is read only at a path `getSafePath` accepted |
| `IndexCli.RoundKeepsHistoryBound` | index.js:57-60 | no round takes the in-memory history past 100 entries once within it |
| `IndexCli.SessionKeepsHistoryBound` | index.js:57-60 | the bound holds over a whole session |
| `IndexCli.BaseDirMoves` | index.js:272-279 | `/basedir` to an existing directory moves the base to its resolved path and reports the move |
| `IndexCli.CommandKeepsBase` | index.js:267-285 | commands keep the base canonical, and only `/basedir` to an existing directory changes it |
| `IndexCli.BaseDirRule` | index.js:267-285 | every round keeps the base canonical; when it changes, the line was `/basedir` naming an existing directory and the base is its resolved path |
| `IndexCli.SessionKeepsBaseCanonical` | index.js:267-285 | the base stays canonical over a whole session |
| `IndexCli.BaseDirGoesAnywhere` | index.js:272-279 | `/basedir` moves the base to any existing directory, inside the old base or not: it is not sandboxed |
| `IndexCli.ChatMemory` | index.js:233-245 | a chat line adds a turn only when it is not blank and the agent answered |
| `IndexCli.AttachMemory` | index.js:383-384 | an attachment adds the combined prompt's turn only when the prompt was built |
| `IndexCli.CommandMemory` | index.js:257-265 | only `/clear` changes the memory, and it empties it |
| `IndexCli.MemoryRule` | index.js:228-390 | in every round the memory is emptied by `/clear`, extended by the asked input's committed turn, or kept |
| `IndexCli.ChatHistory` | index.js:233 | a non-blank chat line is pushed to the history as typed |
| `IndexCli.AttachHistory` | index.js:352 | an attachment pushes the raw line and then the combined prompt |
| `IndexCli.AttachRecordsTwice` | index.js:352-384 | a round with a ready attachment records two history entries |
| `IndexCli.StartSynced` | index.js:44-54 | a freshly loaded history matches its file |
| `IndexCli.RecordKeepsSynced` | index.js:56-66 | a successful save of a single-line, non-blank entry keeps memory and file in step |
| `IndexCli.RoundKeepsSynced` | index.js:56-66 | chat and command rounds with successful appends keep memory and file in step |
| `IndexCli.AttachBreaksSync` | index.js:352-384 | a ready attachment records a multi-line entry, after which the in-memory history no longer matches the file |
| `IndexCli.Session.constructor` | index.js:213 | the session starts in the working directory, with the loaded history, the file's text and an empty memory |
| `IndexCli.Session.SaveHistory` | index.js:56-66 | the state becomes the recorded one: list pushed and bounded, line appended when the append succeeds |
| `IndexCli.Session.HandleChat` | index.js:228-255 | asks the agent exactly when the input is not blank; the state follows the chat handler, and the SIGINT listener count is restored |
| `IndexCli.Session.ChangeBaseDir` | index.js:267-285 | the state and the report follow the `/basedir` rule |
| `IndexCli.Session.Save` | index.js:287-317 | returns the save outcome for the current memory and the write result, then records `/save` whether or not the write failed |
| `IndexCli.Session.HandleAttach` | index.js:351-390 | returns the attachment status; the state follows the attachment handler |
| `IndexCli.Session.RunCommand` | index.js:257-349 | the state and the effect follow the chosen command |
| `IndexCli.Session.HandleLine` | index.js:398-431 | the state and the effect follow the line's route |
| `IndexCli.Session.Step` | index.js:392-447 | one prompt round, including Ctrl+C, changes the state and reports as the round specifies |
| `IndexCli.Session.Run` | index.js:392-447 | reads rounds up to the first that stops the prompt, and ends in the replayed state; the k-th report is round k's effect on the state the earlier rounds left |
| `IndexCli.Reports` | index.js:392-447 | one report per round of a script |
| `IndexCli.ReportsAt` | index.js:392-447 | the report of round k is that round's effect on the state the rounds before it produced |
| `IndexCli.RoundsRead` | index.js:392-447 | the rounds read end at the first stopping round, or run to the end of the script |
| `IndexCli.RoundsReadAll` | index.js:392-447 | without a stopping round every round is read |
| `CliAgent.Dispatch` | cli-agent.js:234-303 | a meta command is chosen exactly when the lower-cased input equals its name; otherwise it is an agent turn |
| `CliAgent.DispatchName` | cli-agent.js:234-281 | each meta command's name selects that command |
| `CliAgent.LeadingSpaceGoesToAgent` | cli-agent.js:234 | an input with a leading space is never a meta command |
| `CliAgent.DispatchExamples` | cli-agent.js:234 | `/EXIT` exits, while ` /exit` goes to the agent |
| `CliAgent.StepTurns` | cli-agent.js:206-329 | Ctrl+C and the other meta commands keep the memory; `/clear` empties it; an agent turn commits its answer |
| `CliAgent.AgentSession.constructor` | cli-agent.js:20 | the session starts in the working directory with an empty memory |
| `CliAgent.AgentSession.Step` | cli-agent.js:206-329 | one interaction updates the memory and reports as specified; the SIGINT listener count is restored |
| `CliAgent.AgentSession.Run` | cli-agent.js:203-330 | reads interactions up to the first that stops, ending with the replayed memory; the k-th report is interaction k's effect on the memory the earlier interactions left |
| `CliAgent.Reports` | cli-agent.js:203-330 | one report per interaction of a script |
| `CliAgent.ReportsAt` | cli-agent.js:203-330 | the report of interaction k is its effect on the memory the interactions before it left |
| `CliAgent.RoundsRead` | cli-agent.js:203-237 | the interactions read end at the first exit, or run to the end of the script |
| `CliAgent.RoundsReadStops` | cli-agent.js:234-237 | the first stopping interaction is the last one read |
| `CliAgent.ReplayAppend` | cli-agent.js:203-330 | replaying two scripts is replaying the first and then the second |
| `CliAgent.ClearForgets` | cli-agent.js:239-242 | after `/clear`, the memory depends only on what came after it |
| `CliAgent.ReplayWithoutClear` | cli-agent.js:313-320 | without `/clear`, the memory is the old turns followed by every answered turn, in order |
| `CliAgent.AnsweredTurns` | cli-agent.js:320 | there is at most one turn per interaction |
| `CliAgent.EmptyMemoryWritesNothing` | cli-agent.js:258-261 | with an empty memory, `/save` writes nothing and `/list` prints only the no-history message |
| `CliAgent.SaveTargetsBase` | cli-agent.js:252-280 | with a canonical base and some history, `/save` writes the transcript to the stamped file directly under the base when the write succeeds, and otherwise reports the failed write at that path |

## Left out

- `read_file` and `write_file` in both scripts (index.js:73-105, cli-agent.js:47-81). Their path check is `getSafePath`, which is modelled. Left out are the reads and writes themselves and the text these tools return: the file content, the success notice, and the failure message built from the I/O error.
- The file system, `fs.stat`, `readFile`, `appendFile`, `writeFile` and `glob`: they are modelled only as the answers each round receives (`IndexCli.World`, `CliAgent.Interaction`). A failed `writeFile` is the `WriteFailed` outcome; the error's own message is not modelled.
- Prompt failures other than Ctrl+C: index.js logs them and prompts again (index.js:442-445), and cli-agent.js rethrows them out of its loop (cli-agent.js:231). The model's rounds are typed lines and Ctrl+C only.
- `inquirer` and the search picker's interactive UI. The picker's choice is a parameter; its filtering is modelled (`Attach.SearchSource`).
- commander's internals: option parsing, excess-argument checks, help output and `exitOverride`. Only exact lookup of the registered names is modelled, plus the two facts the loop depends on:
  - a command without its `<path>` argument is an error;
  - an unknown command's error is swallowed without prompting again.
- `process.argv` parsing at start-up (index.js:449-453) and `process.exit`: the model's session simply stops.
- Concurrency: the SIGINT handler and `AbortController` run concurrently with `invoke`. An abort is modelled as an `Aborted` outcome. The listener is a counter that is raised before the call and lowered after it. Dafny has no exceptions, so this does not model the `finally` that removes the listener on every path.
- The LangChain executor, the model factory, the prompt template and the banner. `invoke` is reduced to its outcome.
- Console colours and log-only messages. These are the `chalk` output that neither returns nor stores anything.
- JavaScript strings are UTF-16. Lengths in the model count Unicode scalar values, so `Attach.Truncate`'s limit is in those units.
- `Text.ToLower`: lowers ASCII letters only, because full Unicode case mapping is not modelled.
- `PathSandbox.Resolve`: follows POSIX `path.resolve` only, because win32 drive letters and backslashes are not modelled. The base directory is always absolute in the source.
- The shell process: the PowerShell executable, the process itself, and the UTF-8 decoding of each chunk (a chunk is already text). Formatting and the order in which chunks arrive are modelled.
- Non-string message content (cli-agent.js's `JSON.stringify` of AI content): message contents are strings in the model.
- Errors other than a missing file when reading the history file: they all give an empty history, as `loadHistory` does.
- `IndexCli.Record`: one append-success flag per round governs both history appends of an attachment, because the model has one `appendOk` per round.
- `Date` and `toISOString`: their text is a parameter; the compact stamp's fields are parameters.

## Notes on the code

- `getSafePath` compares strings, not path components. A sibling such as `/home/u/proj-evil` is therefore accepted from `/home/u/proj` (`PathSandbox.SiblingAccepted`).
- From `/home/u/proj`, the target `../../etc/passwd` resolves to `/home/etc/passwd`, which is refused (`PathSandbox.EscapeRefused`).
- The history file is never capped. Loading also does not cap the list, so a long file loads uncapped (`History.PushOverLimit`). The in-memory list is kept to 100 entries only once it is within that bound (`History.PushKeepsBound`, `IndexCli.SessionKeepsHistoryBound`).
- `/basedir` is not sandboxed: it moves to any existing directory (`IndexCli.BaseDirGoesAnywhere`).
- `/help` appears in the banner but is not a registered command. It is an unknown command and ends the prompt loop (`IndexCli.HelpAndUpperCaseStop`).
- An attachment records the multi-line combined prompt in the history. Once that entry is appended, the file no longer loads back to the in-memory list (`IndexCli.AttachBreaksSync`, `History.MultiLineEntrySplits`).
