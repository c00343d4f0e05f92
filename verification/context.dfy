/** The server's prompt-context builder (backend/server.js): whether
    uploaded files go into the prompt for this turn, how each file is
    cut down, and the instruction text wrapped around them. */
module Context {
  import opened Text
  import opened Domain

  /** An entry of the in-memory upload map, keyed by the server-assigned
      file name (the "handle"). */
  datatype UploadedFile = UploadedFile(originalName: string, content: string)

  type FileStore = map<string, UploadedFile>

  const MaxFileChars: nat := 10000
  const TruncationMarker: string := "\n... (file truncated for length)"
  const CodeHeader: string := "You are an AI code assistant. The user has uploaded the following code files for analysis:\n\n"
  const CodeFooter: string := "\n\nPlease analyze the code and answer the following question:\n"
  const GenericPreamble: string := "You are a helpful AI assistant. Please help with the following:\n\n"

  /** The words whose whole-word occurrence in the lower-cased message
      asks for the files again on a later turn. */
  const FileKeywords: seq<string> := ["file", "code", "analyze", "review", "check", "look at", "examine"]

  /** What one file contributes: never more than `MaxFileChars` of its
      content, the marker exactly when something was cut, and short
      content unchanged. */
  function Preview(content: string): (r: string)
    ensures |r| <= MaxFileChars + |TruncationMarker|
    ensures |content| <= MaxFileChars ==> r == content
    ensures |content| > MaxFileChars ==>
      && |r| == MaxFileChars + |TruncationMarker|
      && StartsWith(r, content[..MaxFileChars])
      && EndsWith(r, TruncationMarker)
  {
    if |content| > MaxFileChars then content[..MaxFileChars] + TruncationMarker else content
  }

  function FileSection(f: UploadedFile): string {
    "\n--- File: " + f.originalName + " ---\n" + Preview(f.content) + "\n"
  }

  /** The sections of the handles present in the store, in request order;
      a handle missing from the store contributes nothing. */
  function FileSections(handles: seq<string>, store: FileStore): string {
    if |handles| == 0 then ""
    else (if handles[0] in store then FileSection(store[handles[0]]) else "") + FileSections(handles[1..], store)
  }

  /** Sections compose along the handle list: request order is kept. */
  lemma {:induction false} FileSectionsAppend(a: seq<string>, b: seq<string>, store: FileStore)
    ensures FileSections(a + b, store) == FileSections(a, store) + FileSections(b, store)
  {
    if |a| > 0 {
      assert (a + b)[1..] == a[1..] + b;
      FileSectionsAppend(a[1..], b, store);
    } else {
      assert a + b == b;
    }
  }

  /** Handles absent from the store are skipped silently: dropping them
      from the request changes nothing. */
  lemma {:induction false} MissingHandlesSkipped(handles: seq<string>, store: FileStore)
    ensures FileSections(handles, store) == FileSections(PresentHandles(handles, store), store)
  {
    if |handles| > 0 {
      MissingHandlesSkipped(handles[1..], store);
      var rest := PresentHandles(handles[1..], store);
      if handles[0] in store {
        assert PresentHandles(handles, store) == [handles[0]] + rest;
        assert ([handles[0]] + rest)[1..] == rest;
      } else {
        assert PresentHandles(handles, store) == rest;
      }
    }
  }

  function PresentHandles(handles: seq<string>, store: FileStore): (r: seq<string>)
    ensures forall i :: 0 <= i < |r| ==> r[i] in store
  {
    if |handles| == 0 then []
    else (if handles[0] in store then [handles[0]] else []) + PresentHandles(handles[1..], store)
  }

  /** The instruction text placed before the user's message. */
  function Preamble(handles: seq<string>, store: FileStore, withFiles: bool): (r: string)
    ensures |handles| == 0 || !withFiles ==> r == GenericPreamble
    ensures |handles| > 0 && withFiles ==>
      && StartsWith(r, CodeHeader)
      && EndsWith(r, CodeFooter)
      && |r| == |CodeHeader| + |FileSections(handles, store)| + |CodeFooter|
      && r[|CodeHeader|..|r| - |CodeFooter|] == FileSections(handles, store)
  {
    if |handles| > 0 && withFiles then
      var r := CodeHeader + FileSections(handles, store) + CodeFooter;
      assert r[..|CodeHeader|] == CodeHeader;
      assert r[|r| - |CodeFooter|..] == CodeFooter;
      assert r[|CodeHeader|..|r| - |CodeFooter|] == FileSections(handles, store);
      r
    else GenericPreamble
  }

  /** `\w` of a JavaScript regular expression without the `u` flag. */
  predicate IsWordChar(c: char) {
    ('a' <= c <= 'z') || ('A' <= c <= 'Z') || ('0' <= c <= '9') || c == '_'
  }

  /** `w` occurs in `s` at `i` with a `\b` boundary on both sides. */
  predicate WholeWordAt(s: string, i: int, w: string) {
    && 0 <= i && i + |w| <= |s|
    && s[i..i + |w|] == w
    && (i == 0 || !IsWordChar(s[i - 1]))
    && (i + |w| == |s| || !IsWordChar(s[i + |w|]))
  }

  /** `/\b(file|code|analyze|review|check|look at|examine)\b/` matches `s`. */
  ghost predicate HasFileKeyword(s: string) {
    exists i, k :: 0 <= k < |FileKeywords| && WholeWordAt(s, i, FileKeywords[k])
  }

  /** Some keyword from index `k` on occurs whole at position `i`. */
  function KeywordAt(s: string, i: int, k: nat): (r: bool)
    requires k <= |FileKeywords|
    decreases |FileKeywords| - k
    ensures r <==> exists m :: k <= m < |FileKeywords| && WholeWordAt(s, i, FileKeywords[m])
  {
    if k == |FileKeywords| then false
    else WholeWordAt(s, i, FileKeywords[k]) || KeywordAt(s, i, k + 1)
  }

  /** Left-to-right search for a keyword starting at or after `i`. */
  function ScanFrom(s: string, i: nat): (r: bool)
    requires i <= |s|
    decreases |s| - i
    ensures r <==> exists j, k :: i <= j <= |s| && 0 <= k < |FileKeywords| && WholeWordAt(s, j, FileKeywords[k])
  {
    if KeywordAt(s, i, 0) then true
    else if i == |s| then false
    else ScanFrom(s, i + 1)
  }

  /** `message.toLowerCase().match(...)` is truthy. */
  function MentionsFiles(message: string): (r: bool)
    ensures r <==> HasFileKeyword(ToLower(message))
  {
    var s := ToLower(message);
    var r := ScanFrom(s, 0);
    assert r ==> HasFileKeyword(s);
    assert HasFileKeyword(s) ==> r by {
      if HasFileKeyword(s) {
        var i, k :| 0 <= k < |FileKeywords| && WholeWordAt(s, i, FileKeywords[k]);
        assert 0 <= i <= |s|;
      }
    }
    r
  }

  /** The include policy: files go into the prompt only when there are
      handles and either this is the first message or it mentions files. */
  function IncludeFiles(handles: seq<string>, history: seq<Turn>, message: string): (r: bool)
    ensures r <==> |handles| > 0 && (|history| == 0 || HasFileKeyword(ToLower(message)))
  {
    |handles| > 0 && (|history| == 0 || MentionsFiles(message))
  }

  /** Whether the user has written anything yet in this history. */
  predicate UserSpoke(history: seq<Turn>) {
    exists i :: 0 <= i < |history| && history[i].sender == UserSender
  }

  /** The include rule as the comment above it describes it, reading "the
      first message" as the user's first message: notices the page listed
      before it do not make it a follow-up. */
  function IncludeFilesOnFirstQuestion(handles: seq<string>, history: seq<Turn>, message: string): (r: bool)
    ensures r <==> |handles| > 0 && (!UserSpoke(history) || HasFileKeyword(ToLower(message)))
  {
    |handles| > 0 && (!UserSpoke(history) || MentionsFiles(message))
  }

  /** The two rules differ only before the user's first message: once the
      user has spoken, or while nothing at all is listed, they agree. */
  lemma FirstQuestionAgrees(handles: seq<string>, history: seq<Turn>, message: string)
    requires UserSpoke(history) || |history| == 0
    ensures IncludeFilesOnFirstQuestion(handles, history, message) == IncludeFiles(handles, history, message)
  {
  }

  lemma LowerIsIdentity(s: string)
    requires forall i :: 0 <= i < |s| ==> !('A' <= s[i] <= 'Z')
    ensures ToLower(s) == s
  {
  }

  /** No whole word starts right after a word character. */
  lemma NoMatchAfterWordChar(s: string, i: int, w: string)
    requires 0 < i <= |s| && IsWordChar(s[i - 1])
    ensures !WholeWordAt(s, i, w)
  {
  }

  /** A plural is not a whole-word match of its singular. */
  lemma PluralDoesNotMention()
    ensures !MentionsFiles("files")
  {
    var s := "files";
    LowerIsIdentity(s);
    forall i, k | 0 <= k < |FileKeywords| ensures !WholeWordAt(s, i, FileKeywords[k]) {
      if 0 < i <= |s| {
        NoMatchAfterWordChar(s, i, FileKeywords[k]);
      } else if i == 0 {
        assert IsWordChar(s[4]);
        assert s[..2] == "fi";
      }
    }
  }

  /** A longer word that starts with a keyword is not a match. */
  lemma GerundDoesNotMention()
    ensures !MentionsFiles("checking")
  {
    var s := "checking";
    LowerIsIdentity(s);
    forall i, k | 0 <= k < |FileKeywords| ensures !WholeWordAt(s, i, FileKeywords[k]) {
      if 0 < i <= |s| {
        NoMatchAfterWordChar(s, i, FileKeywords[k]);
      } else if i == 0 {
        var w := FileKeywords[k];
        if k == 4 {
          assert IsWordChar(s[5]);
        } else if k == 1 {
          assert s[1] != w[1];
        } else {
          assert s[0] != w[0];
        }
      }
    }
  }

  /** Matching ignores the case of the message. */
  lemma CapitalisedKeywordMentions()
    ensures MentionsFiles("Review")
  {
    var s := ToLower("Review");
    assert s[0] == 'r';
    assert s == "review";
    assert WholeWordAt(s, 0, FileKeywords[3]);
  }
}
