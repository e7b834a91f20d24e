/** index.js's `@` attachment flow, the pure parts: the search text taken
    from the first word, the file-name filter of the picker, the size cap on
    the attached content and the prompt that combines file and question. */
module Attach {
  import opened Common
  import opened Text

  /** `handleAttach`'s initial search: the first space-separated word of the
      raw input without its first character, trimmed; empty when that word
      has at most one character. */
  function AttachQuery(raw: string): (q: string)
    ensures var w := FirstToken(raw, ' '); |w| <= 1 ==> q == ""
    ensures var w := FirstToken(raw, ' '); |w| > 1 ==> q == Trim(w[1..])
  {
    var firstWord := FirstToken(raw, ' ');
    if |firstWord| > 1 then Trim(firstWord[1..]) else ""
  }

  /** `@<query> <rest>` searches for the trimmed query; a bare `@` searches for nothing. */
  lemma AttachQueryOf(query: string, rest: string)
    requires ' ' !in query
    ensures AttachQuery("@" + query) == Trim(query)
    ensures AttachQuery("@" + query + " " + rest) == Trim(query)
  {
    var w := "@" + query;
    assert ' ' !in w by {
      forall k | 0 <= k < |w| ensures w[k] != ' ' {
        if k > 0 { assert w[k] == query[k - 1]; }
      }
    }
    FirstTokenUnique(w, ' ', w);
    var raw := w + " " + rest;
    assert raw == "@" + query + " " + rest;
    assert raw[..|w|] == w && raw[|w|] == ' ';
    FirstTokenUnique(raw, ' ', w);
    assert w[1..] == query;
    if |w| <= 1 {
      assert query == "";
    }
  }

  /** The routing looks at the trimmed line but the query at the raw one: a
      line starting with a space has an empty first word and so an empty query. */
  lemma LeadingSpaceQuery(raw: string)
    requires |raw| > 0 && raw[0] == ' '
    ensures AttachQuery(raw) == ""
  {
    FirstTokenUnique(raw, ' ', "");
  }

  // ---------------------------------------------------------------
  // truncation
  // ---------------------------------------------------------------

  const MaxFileSize := 1000000
  const TruncationMarker := "\n... (파일 내용이 너무 길어 뒷부분이 잘렸습니다)"

  /** Content over the limit is cut to its first `MaxFileSize` characters and marked. */
  function Truncate(content: string): (r: string)
    ensures |content| <= MaxFileSize ==> r == content
    ensures |content| > MaxFileSize ==> r == content[..MaxFileSize] + TruncationMarker
  {
    if |content| > MaxFileSize then content[..MaxFileSize] + TruncationMarker else content
  }

  /** The result never exceeds the limit plus the marker, and begins with as
      much of the content as fits. */
  lemma TruncateBounds(content: string)
    ensures |Truncate(content)| <= MaxFileSize + |TruncationMarker|
    ensures var n := if |content| <= MaxFileSize then |content| else MaxFileSize;
      StartsWith(Truncate(content), content[..n])
  {
    var r := Truncate(content);
    if |content| > MaxFileSize {
      assert r[..MaxFileSize] == content[..MaxFileSize];
    }
  }

  /** Cutting an already cut content changes nothing. */
  lemma TruncateIdempotent(content: string)
    ensures Truncate(Truncate(content)) == Truncate(content)
  {
    var r := Truncate(content);
    if |content| > MaxFileSize {
      assert r[..MaxFileSize] == content[..MaxFileSize];
    }
  }

  // ---------------------------------------------------------------
  // the combined prompt
  // ---------------------------------------------------------------

  const PromptHead := "다음 파일 내용을 참고하여 질문에 답해주세요:\n\n[파일: "
  const FileOpen := "]\n```\n"
  const QuestionOpen := "\n```\n\n[질문]\n"

  function CombinedInput(file: string, content: string, question: string): string
  {
    PromptHead + file + FileOpen + content + QuestionOpen + question
  }

  /** The file name, the content and the question each sit whole at a fixed
      place: after the head, after the code fence, and at the very end. */
  lemma CombinedInputLayout(file: string, content: string, question: string)
    ensures var r := CombinedInput(file, content, question);
      var at := |PromptHead| + |file| + |FileOpen|;
      StartsWith(r, PromptHead)
      && r[|PromptHead|..|PromptHead| + |file|] == file
      && r[at..at + |content|] == content
      && EndsWith(r, QuestionOpen + question)
  {
    var r := CombinedInput(file, content, question);
    var at := |PromptHead| + |file| + |FileOpen|;
    assert r[..|PromptHead|] == PromptHead;
    assert r[|PromptHead|..|PromptHead| + |file|] == file;
    assert r[at..at + |content|] == content;
    assert r[|r| - |QuestionOpen + question|..] == QuestionOpen + question;
  }

  /** The prompt is never blank, so the chat handler never skips it. */
  lemma CombinedInputNonBlank(file: string, content: string, question: string)
    ensures Trim(CombinedInput(file, content, question)) != ""
  {
    var r := CombinedInput(file, content, question);
    assert r[0] == PromptHead[0];
    assert !AllSpace(r) by { assert !IsJsSpace(r[0]); }
  }

  /** The prompt always spans several lines. */
  lemma CombinedInputMultiLine(file: string, content: string, question: string)
    ensures '\n' in CombinedInput(file, content, question)
  {
    var r := CombinedInput(file, content, question);
    CombinedInputLayout(file, content, question);
    var tail := QuestionOpen + question;
    assert r[|r| - |tail|..][0] == '\n';
  }

  // ---------------------------------------------------------------
  // the picker's file filter
  // ---------------------------------------------------------------

  predicate Matches(query: string, file: string)
  {
    Contains(ToLower(file), ToLower(query))
  }

  /** `allFiles.filter(f => f.toLowerCase().includes(q.toLowerCase()))`. */
  function FilterFiles(files: seq<string>, query: string): (r: seq<string>)
    ensures |r| <= |files|
    ensures forall k :: 0 <= k < |r| ==> r[k] in files && Contains(ToLower(r[k]), ToLower(query))
    ensures forall k :: 0 <= k < |files| && Contains(ToLower(files[k]), ToLower(query)) ==> files[k] in r
  {
    Filter((f: string) => Matches(query, f), files)
  }

  lemma ContainsEmpty(s: string)
    ensures Contains(s, "")
  {
    assert OccursAt(s, "", 0);
  }

  /** The empty query keeps every file. */
  lemma FilterEmptyKeepsAll(files: seq<string>)
    ensures FilterFiles(files, "") == files
  {
    forall k | 0 <= k < |files| ensures Matches("", files[k]) {
      ContainsEmpty(ToLower(files[k]));
    }
    FilterKeepsAll((f: string) => Matches("", f), files);
  }

  /** Queries that differ only in the case of ASCII letters select the same files. */
  lemma FilterCaseInsensitive(files: seq<string>, q1: string, q2: string)
    requires ToLower(q1) == ToLower(q2)
    ensures FilterFiles(files, q1) == FilterFiles(files, q2)
  {
    FilterAgree((f: string) => Matches(q1, f), (f: string) => Matches(q2, f), files);
  }

  /** The picker's list before anything is typed: the files matching the
      initial search, or all of them when it is empty. */
  function InitialFiles(files: seq<string>, initial: string): seq<string>
  {
    if initial == "" then files else FilterFiles(files, initial)
  }

  /** The picker's `source` callback: `undefined` gives the initial list, the
      empty string all files, any other text the filtered list. */
  function SearchSource(files: seq<string>, initial: string, input: Option<string>): seq<string>
  {
    match input
    case None => InitialFiles(files, initial)
    case Some(q) => if q == "" then files else FilterFiles(files, q)
  }

  /** Every branch of the callback is the one filter: the special cases for an
      empty text agree with filtering by it. */
  lemma SearchSourceIsFilter(files: seq<string>, initial: string, input: Option<string>)
    ensures SearchSource(files, initial, input)
      == FilterFiles(files, match input case None => initial case Some(q) => q)
  {
    FilterEmptyKeepsAll(files);
  }
}
