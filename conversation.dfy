/** The conversation memory both tools keep, and what `/save` and `/list`
    make of it. The memory is an ordered sequence of (input, output) turns;
    a turn is added only after the agent returned an answer, and the
    memory's messages alternate human and AI entries. */
module Conversation {
  import opened Common
  import opened Text
  import opened PathSandbox

  datatype Turn = Turn(input: string, output: string)

  /** How one `executor.invoke` call ends: it returns an answer, throws, or is
      cancelled by the SIGINT handler (an `AbortError`). */
  datatype InvokeOutcome = Answered(output: string) | Failed(message: string) | Aborted

  /** `memory.saveContext` runs only when `invoke` returned normally. */
  function CommitTurn(turns: seq<Turn>, input: string, outcome: InvokeOutcome): (r: seq<Turn>)
    ensures |r| == |turns| + (if outcome.Answered? then 1 else 0)
    ensures r[..|turns|] == turns
    ensures outcome.Answered? ==> r[|turns|] == Turn(input, outcome.output)
  {
    match outcome
    case Answered(output) => turns + [Turn(input, output)]
    case _ => turns
  }

  datatype MessageKind = Human | Ai | Other

  /** A stored chat message: what `_getType()` reports and its text. */
  datatype Message = Message(kind: MessageKind, content: string)

  /** The messages the memory hands back: each turn as a human message
      followed by an AI message. */
  function MessagesOf(turns: seq<Turn>): (ms: seq<Message>)
    ensures |ms| == 2 * |turns|
    ensures forall i :: 0 <= i < |turns| ==>
      ms[2 * i] == Message(Human, turns[i].input) && ms[2 * i + 1] == Message(Ai, turns[i].output)
  {
    if |turns| == 0 then []
    else
      var last := turns[|turns| - 1];
      MessagesOf(turns[..|turns| - 1]) + [Message(Human, last.input), Message(Ai, last.output)]
  }

  /** A committed answer adds exactly its question and its answer to the
      messages; an error or a cancellation adds nothing. */
  lemma CommitMessages(turns: seq<Turn>, input: string, outcome: InvokeOutcome)
    ensures MessagesOf(CommitTurn(turns, input, outcome))
      == MessagesOf(turns) + (if outcome.Answered? then [Message(Human, input), Message(Ai, outcome.output)] else [])
  {
    if outcome.Answered? {
      var r := CommitTurn(turns, input, outcome);
      assert r[..|r| - 1] == turns;
    }
  }

  // ---------------------------------------------------------------
  // /save
  // ---------------------------------------------------------------

  const HumanLabel := "**🧑 Human:**\n"
  const AiLabel := "**🤖 AI:**\n"
  const SectionEnd := "\n\n---\n\n"

  /** A human or AI message becomes a labelled block; other message types are skipped. */
  function SaveSection(m: Message): string
  {
    match m.kind
    case Human => HumanLabel + m.content + SectionEnd
    case Ai => AiLabel + m.content + SectionEnd
    case Other => ""
  }

  /** The block of each message, position by position. */
  function Sections(ms: seq<Message>): (r: seq<string>)
    ensures |r| == |ms| && forall k :: 0 <= k < |ms| ==> r[k] == SaveSection(ms[k])
  {
    seq(|ms|, k requires 0 <= k < |ms| => SaveSection(ms[k]))
  }

  /** The blocks of the messages, in order. */
  function RenderMessages(ms: seq<Message>): string
  {
    Concat(Sections(ms))
  }

  function SaveHeader(timestamp: string): string
  {
    "# 📝 채팅 기록 (" + timestamp + ")\n\n"
  }

  function Transcript(timestamp: string, ms: seq<Message>): string
  {
    SaveHeader(timestamp) + RenderMessages(ms)
  }

  lemma SectionsAppend(a: seq<Message>, b: seq<Message>)
    ensures Sections(a + b) == Sections(a) + Sections(b)
  {
  }

  /** Rendering distributes over concatenation: each message contributes its
      own block, in order. */
  lemma RenderAppend(a: seq<Message>, b: seq<Message>)
    ensures RenderMessages(a + b) == RenderMessages(a) + RenderMessages(b)
  {
    SectionsAppend(a, b);
    ConcatAppend(Sections(a), Sections(b));
  }

  lemma RenderOne(m: Message)
    ensures RenderMessages([m]) == SaveSection(m)
  {
    assert Sections([m]) == [SaveSection(m)];
    ConcatOne(SaveSection(m));
  }

  /** Rendering one more message appends its block. */
  lemma RenderSnoc(ms: seq<Message>, i: nat)
    requires i < |ms|
    ensures RenderMessages(ms[..i + 1]) == RenderMessages(ms[..i]) + SaveSection(ms[i])
  {
    assert ms[..i + 1] == ms[..i] + [ms[i]];
    RenderAppend(ms[..i], [ms[i]]);
    RenderOne(ms[i]);
  }

  /** The transcript of one more message is the transcript so far with that
      message's block appended. */
  lemma TranscriptSnoc(timestamp: string, ms: seq<Message>, i: nat)
    requires i < |ms|
    ensures Transcript(timestamp, ms[..i + 1]) == Transcript(timestamp, ms[..i]) + SaveSection(ms[i])
  {
    RenderSnoc(ms, i);
  }

  lemma TranscriptEmpty(timestamp: string)
    ensures Transcript(timestamp, []) == SaveHeader(timestamp)
  {
    assert Sections([]) == [];
  }

  /** The `formattedHistory +=` loop. */
  method FormatTranscript(timestamp: string, ms: seq<Message>) returns (text: string)
    ensures text == Transcript(timestamp, ms)
  {
    TranscriptEmpty(timestamp);
    assert ms[..0] == [];
    text := SaveHeader(timestamp);
    for i := 0 to |ms|
      invariant text == Transcript(timestamp, ms[..i])
    {
      TranscriptSnoc(timestamp, ms, i);
      text := text + SaveSection(ms[i]);
    }
    assert ms[..|ms|] == ms;
  }

  predicate IsShown(m: Message)
  {
    m.kind != Other
  }

  /** Messages of other types leave no trace in the transcript. */
  lemma {:induction false} RenderSkipsOther(ms: seq<Message>)
    ensures RenderMessages(ms) == RenderMessages(Filter(IsShown, ms))
    decreases |ms|
  {
    if |ms| > 0 {
      var init, last := ms[..|ms| - 1], ms[|ms| - 1];
      assert ms == init + [last];
      FilterAppend(IsShown, init, [last]);
      assert Filter(IsShown, [last]) == (if IsShown(last) then [last] else []) by {
        assert [last][1..] == [];
      }
      RenderSkipsOther(init);
      RenderAppend(Filter(IsShown, init), Filter(IsShown, [last]));
      RenderOne(last);
      RenderAppend(init, [last]);
    }
  }

  /** Two more messages append their two blocks to the transcript. */
  lemma TranscriptSnoc2(timestamp: string, before: seq<Message>, h: Message, a: Message)
    ensures Transcript(timestamp, before + [h, a]) == Transcript(timestamp, before) + SaveSection(h) + SaveSection(a)
  {
    RenderAppend(before, [h, a]);
    assert [h, a] == [h] + [a];
    RenderAppend([h], [a]);
    RenderOne(h);
    RenderOne(a);
  }

  /** An answered turn adds its human block and its AI block to the end of
      the transcript; nothing else changes. */
  lemma CommitExtendsTranscript(timestamp: string, turns: seq<Turn>, input: string, output: string)
    ensures Transcript(timestamp, MessagesOf(CommitTurn(turns, input, Answered(output))))
      == Transcript(timestamp, MessagesOf(turns)) + SaveSection(Message(Human, input)) + SaveSection(Message(Ai, output))
  {
    CommitMessages(turns, input, Answered(output));
    TranscriptSnoc2(timestamp, MessagesOf(turns), Message(Human, input), Message(Ai, output));
  }

  /** Cancelling or failing a turn leaves the transcript as it was. */
  lemma UncommittedTranscript(timestamp: string, turns: seq<Turn>, input: string, outcome: InvokeOutcome)
    requires !outcome.Answered?
    ensures Transcript(timestamp, MessagesOf(CommitTurn(turns, input, outcome))) == Transcript(timestamp, MessagesOf(turns))
  {
  }

  /** `chathistory_<timestamp>.md`. */
  function SaveFileName(timestamp: string): string
  {
    "chathistory_" + timestamp + ".md"
  }

  /** What `/save` does: nothing but a notice for an empty memory, otherwise
      the transcript written to the sandboxed file name, the report of a
      failed `fs.writeFile` at that path, or the sandbox error. */
  datatype SaveOutcome =
    | NoHistory
    | Saved(path: string, text: string)
    | WriteFailed(path: string)
    | SaveRefused(message: string)

  const NoHistoryMessage := "✅ 채팅 기록이 없습니다."

  /** `writeOk` is whether `fs.writeFile` succeeds; both scripts catch its
      failure and report it. */
  function SaveTranscript(base: string, timestamp: string, ms: seq<Message>, writeOk: bool): (o: SaveOutcome)
    ensures o.NoHistory? <==> |ms| == 0
    ensures o.Saved? <==> |ms| > 0 && writeOk && GetSafePath(base, SaveFileName(timestamp)).Ok?
    ensures o.Saved? ==> o.text == Transcript(timestamp, ms) && GetSafePath(base, SaveFileName(timestamp)) == Ok(o.path)
    ensures o.WriteFailed? ==> !writeOk && GetSafePath(base, SaveFileName(timestamp)) == Ok(o.path)
    ensures o.SaveRefused? ==> o.message == SandboxMessage && GetSafePath(base, SaveFileName(timestamp)).Err?
  {
    if |ms| == 0 then NoHistory
    else
      match GetSafePath(base, SaveFileName(timestamp))
      case Ok(path) => if writeOk then Saved(path, Transcript(timestamp, ms)) else WriteFailed(path)
      case Err(message) => SaveRefused(message)
  }

  /** A timestamp without `/` names a file directly inside the base, so the
      sandbox always lets `/save` through. */
  lemma SavePathAccepted(base: string, timestamp: string)
    requires IsCanonical(base) && '/' !in timestamp
    ensures GetSafePath(base, SaveFileName(timestamp)) == Ok(Render(Segments(base) + [SaveFileName(timestamp)]))
  {
    var name := SaveFileName(timestamp);
    assert name[0] == 'c';
    assert '/' !in name by {
      forall k | 0 <= k < |name| ensures name[k] != '/' {
        if 12 <= k < 12 + |timestamp| { assert name[k] == timestamp[k - 12]; }
      }
    }
    SplitWithoutSep(name, '/');
    assert IsName(name) by { assert |name| > 2; }
    RelativeWithoutDotDotAccepted(base, name);
    WalkOverNames(Segments(base), [name]);
    var r := Resolve(base, name);
    assert Segments(r) == Segments(base) + [name];
  }

  /** Saving an empty memory never writes; saving a non-empty one under a
      canonical base is never refused by the sandbox, so it writes exactly
      when `fs.writeFile` succeeds. */
  lemma SaveWritesIffHistory(base: string, timestamp: string, ms: seq<Message>, writeOk: bool)
    requires IsCanonical(base) && '/' !in timestamp
    ensures SaveTranscript(base, timestamp, ms, writeOk).Saved? <==> |ms| > 0 && writeOk
    ensures !SaveTranscript(base, timestamp, ms, writeOk).SaveRefused?
  {
    SavePathAccepted(base, timestamp);
  }

  // ---------------------------------------------------------------
  // /list
  // ---------------------------------------------------------------

  const ListHeader := "\n--- 📝 채팅 기록 ---"
  const ListFooter := "\n--- 기록 끝 ---\n"

  function ListEntry(m: Message): string
  {
    match m.kind
    case Human => "\n🧑 Human:\n" + m.content
    case Ai => "\n🤖 AI:\n" + m.content
    case Other => ""
  }

  /** One printed entry per human or AI message, in order. */
  function ListEntries(ms: seq<Message>): (lines: seq<string>)
    ensures |lines| == |Filter(IsShown, ms)|
    ensures forall k :: 0 <= k < |lines| ==> lines[k] == ListEntry(Filter(IsShown, ms)[k])
  {
    var shown := Filter(IsShown, ms);
    seq(|shown|, k requires 0 <= k < |shown| => ListEntry(shown[k]))
  }

  /** The console lines `/list` prints: the notice alone for an empty memory,
      otherwise the entries between the header and the footer. */
  function ListOutput(ms: seq<Message>): (lines: seq<string>)
    ensures |ms| == 0 <==> lines == [NoHistoryMessage]
    ensures |ms| > 0 ==>
      |lines| == |Filter(IsShown, ms)| + 2 && lines[0] == ListHeader
      && lines[|lines| - 1] == ListFooter && lines[1..|lines| - 1] == ListEntries(ms)
  {
    if |ms| == 0 then [NoHistoryMessage]
    else
      assert ListHeader != NoHistoryMessage by { assert ListHeader[0] != NoHistoryMessage[0]; }
      [ListHeader] + ListEntries(ms) + [ListFooter]
  }
}
