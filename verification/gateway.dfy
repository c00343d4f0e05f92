/** The chat endpoints of backend/server.js as pure functions of the
    request, the in-memory upload map, the token-to-user lookup and the
    provider's answer. The provider call (`handleAIChat`) and the JWT and
    database lookup are not visible here, so they are parameters:
    `ai` maps the call the server makes to the outcome it gets back, and
    `lookup` maps a bearer token to the user it identifies, if any. */
module Gateway {
  import opened Text
  import opened Domain
  import opened Wire
  import opened Context

  /** The JSON body of a chat request plus its Authorization header; a
      missing string field is "" and a missing list is []. */
  datatype ChatRequest = ChatRequest(
    message: string,
    apiKey: string,
    uploadedFiles: seq<string>,
    provider: Option<string>,
    conversationHistory: seq<Turn>,
    authorization: string)

  /** The arguments of `handleAIChat(provider, apiKey, message, context, history)`. */
  datatype ProviderCall = ProviderCall(provider: string, apiKey: string, message: string, context: string, history: seq<Turn>)

  /** `{success: true, text}`, `{success: false, error}`, or a thrown exception. */
  datatype ProviderOutcome = Replied(text: string) | Failed(error: string) | Threw(message: string)

  /** A JSON error with a status before any streaming, or a 200 streamed body. */
  datatype Response = Rejected(status: nat, error: string) | EventStream(writes: seq<Write>)

  /** What one request did: the provider call it made, if any, and its response. */
  datatype Exchange = Exchange(call: Option<ProviderCall>, response: Response)

  const MaxHistory: nat := 10
  const EmptyMessageError: string := "Message cannot be empty"
  const Troubleshooting: string :=
    "\n\nTroubleshooting:\n1. Check your API key is correct\n2. Verify the API is enabled\n3. Check you have sufficient API quota\n4. Try again in a moment"

  function MissingKeyError(provider: string): string {
    "API key is required for " + provider + ". Please add your API key in Settings or log in."
  }

  function ProviderErrorText(provider: string, error: string): string {
    "\U{274C} Error from " + provider + ": " + error + Troubleshooting
  }

  function ExceptionText(message: string): string {
    "\U{274C} Error: " + message + Troubleshooting
  }

  /** The text the client is sent for a provider outcome: the reply, or
      the error text with the troubleshooting list. */
  function ReplyText(provider: string, outcome: ProviderOutcome): string {
    match outcome
    case Replied(text) => text
    case Failed(error) => ProviderErrorText(provider, error)
    case Threw(message) => ExceptionText(message)
  }

  /** `provider = 'gemini'` destructuring default. */
  function ProviderName(p: Option<string>): string {
    match p
    case Some(name) => name
    case None => DefaultProvider
  }

  /** `authHeader.split(' ')[1]` of a header starting with "Bearer"; None
      when there is no such header or no token, since verifying an absent
      or empty token throws and the handler carries on unauthenticated. */
  function BearerToken(header: string): (t: Option<string>)
    ensures t.Some? <==> StartsWith(header, "Bearer") && |Split(header, ' ')| > 1 && Split(header, ' ')[1] != ""
    ensures t.Some? ==> t.value == Split(header, ' ')[1] && ' ' !in t.value
  {
    if StartsWith(header, "Bearer") then
      var parts := Split(header, ' ');
      if |parts| > 1 && parts[1] != "" then Some(parts[1]) else None
    else None
  }

  function Authenticate(header: string, lookup: string -> Option<User>): Option<User> {
    match BearerToken(header)
    case Some(token) => lookup(token)
    case None => None
  }

  /** The key the handler ends up with: the request's own key when it is
      truthy, otherwise the signed-in user's stored key for the provider. */
  function ResolveKey(explicitKey: string, provider: string, user: Option<User>): string {
    if explicitKey != "" then explicitKey
    else match user
      case Some(u) => StoredKey(u, provider)
      case None => explicitKey
  }

  /** `conversationHistory.slice(-10)`. */
  function RecentHistory(h: seq<Turn>): (r: seq<Turn>)
    ensures |r| == if |h| < MaxHistory then |h| else MaxHistory
    ensures r == h[|h| - |r|..]
  {
    if |h| > MaxHistory then h[|h| - MaxHistory..] else h
  }

  /** The text of each word write: every word but the last keeps the
      single space that followed it. */
  function ChunkTexts(words: seq<string>): (r: seq<string>)
    requires |words| >= 1
    ensures |r| == |words|
  {
    if |words| == 1 then [words[0]] else [words[0] + " "] + ChunkTexts(words[1..])
  }

  function RawWrites(texts: seq<string>): (ws: seq<Write>)
    ensures |ws| == |texts| && AllRaw(ws)
  {
    if |texts| == 0 then [] else [Raw(texts[0])] + RawWrites(texts[1..])
  }

  /** `result.text.split(' ')` written one word at a time. */
  function WordChunks(text: string): (ws: seq<Write>)
    ensures AllRaw(ws)
    ensures |ws| >= 1
  {
    RawWrites(ChunkTexts(Split(text, ' ')))
  }

  lemma {:induction false} ChunkTextsJoin(words: seq<string>)
    requires |words| >= 1
    ensures Concat(ChunkTexts(words)) == Join(words, ' ')
  {
    if |words| > 1 {
      ChunkTextsJoin(words[1..]);
      assert ChunkTexts(words)[1..] == ChunkTexts(words[1..]);
    }
  }

  lemma {:induction false} RawWritesText(texts: seq<string>)
    ensures WireText(RawWrites(texts)) == Concat(texts)
    ensures Content(RawWrites(texts)) == Concat(texts)
  {
    if |texts| > 0 {
      RawWritesText(texts[1..]);
      assert RawWrites(texts)[1..] == RawWrites(texts[1..]);
    }
  }

  /** The word writes reassemble the reply exactly, runs of spaces and the
      empty reply included, and no write carries a frame. */
  lemma WordChunksReassemble(text: string)
    ensures Content(WordChunks(text)) == text
    ensures WireText(WordChunks(text)) == text
    ensures CountDone(WordChunks(text)) == 0 && CountError(WordChunks(text)) == 0
    ensures |WordChunks(text)| == |Split(text, ' ')|
  {
    var words := Split(text, ' ');
    RawWritesText(ChunkTexts(words));
    ChunkTextsJoin(words);
    JoinSplit(text, ' ');
    RawOnly(WordChunks(text));
  }

  function Step(stage: string, details: string): Write {
    Event(Progress(stage, details))
  }

  /** A scanning and a reading frame per handle present in the store;
      `seen` counts the present handles before this point. */
  function FileFrames(handles: seq<string>, store: FileStore, total: nat, seen: nat): (ws: seq<Write>)
    ensures AllProgress(ws)
    ensures |ws| == 2 * |PresentHandles(handles, store)|
    ensures forall i :: 0 <= i < |ws| ==> ws[i].frame.stage == if i % 2 == 0 then "scanning" else "reading"
  {
    if |handles| == 0 then []
    else if handles[0] in store then
      var f := store[handles[0]];
      var rest := FileFrames(handles[1..], store, total, seen + 1);
      var ws := [ Step("scanning", "Scanning file " + NatToString(seen + 1) + "/" + NatToString(total) + ": " + handles[0]),
                  Step("reading", "Reading " + f.originalName + " (" + NatToString(|f.content|) + " characters)") ]
                + rest;
      assert forall i :: 2 <= i < |ws| ==> ws[i] == rest[i - 2] && (i - 2) % 2 == i % 2;
      ws
    else FileFrames(handles[1..], store, total, seen)
  }

  /** The progress frames written before the provider is called. */
  function PreparationFrames(handles: seq<string>, store: FileStore, withFiles: bool, provider: string): (ws: seq<Write>)
    ensures AllProgress(ws)
  {
    var n := NatToString(|handles|);
    var up := ToUpper(provider);
    (if withFiles then
       [Step("analyzing", "Analyzing " + n + " uploaded file(s)...")]
       + FileFrames(handles, store, |handles|, 0)
       + [ Step("understanding", "Understanding " + n + " file(s) context..."),
           Step("searching", "Found relevant code in " + n + " file(s)") ]
     else [])
    + [ Step("thinking", "AI is analyzing your request..."),
        Step("processing", "Sending request to " + up + "..."),
        Step("generating", "Waiting for " + up + " to respond..."),
        Step("streaming", "Receiving response from " + up + "...") ]
  }

  /** What follows the call: a done frame and the words, or an error frame
      and the troubleshooting text. */
  function ReplyWrites(provider: string, outcome: ProviderOutcome): seq<Write> {
    [Event(if outcome.Replied? then Done else Error)] + ReplyBody(provider, outcome)
  }

  /** The text writes after the terminal frame. */
  function ReplyBody(provider: string, outcome: ProviderOutcome): (ws: seq<Write>)
    ensures AllRaw(ws) && Content(ws) == ReplyText(provider, outcome)
  {
    match outcome
    case Replied(text) =>
      WordChunksReassemble(text);
      WordChunks(text)
    case Failed(error) =>
      SingleText(ProviderErrorText(provider, error));
      [Raw(ProviderErrorText(provider, error))]
    case Threw(message) =>
      SingleText(ExceptionText(message));
      [Raw(ExceptionText(message))]
  }

  /** Exactly one terminal frame, after every progress frame and before all text. */
  lemma ReplyFraming(pre: seq<Write>, provider: string, outcome: ProviderOutcome)
    requires AllProgress(pre)
    ensures var ws := pre + ReplyWrites(provider, outcome);
      && FramesBeforeText(ws)
      && CountDone(ws) + CountError(ws) == 1
      && (outcome.Replied? <==> CountDone(ws) == 1)
      && (forall i, j :: 0 <= i < j < |ws| && ws[i].Event? && !ws[i].frame.Progress? ==> ws[j].Raw?)
      && Content(ws) == ReplyText(provider, outcome)
  {
    var last := if outcome.Replied? then Done else Error;
    var body := ReplyBody(provider, outcome);
    FramedReply(pre, last, body);
  }

  lemma SingleText(t: string)
    ensures AllRaw([Raw(t)]) && Content([Raw(t)]) == t
  {
    assert [Raw(t)][1..] == [];
  }

  /** Progress frames, one terminal frame, then text: the frames come
      before the text, the terminal frame is counted once, nothing but text
      follows it, and the content is the text's. */
  lemma FramedReply(pre: seq<Write>, last: Frame, text: seq<Write>)
    requires AllProgress(pre) && (last == Done || last == Error) && AllRaw(text)
    ensures var ws := pre + ([Event(last)] + text);
      && FramesBeforeText(ws)
      && CountDone(ws) == (if last == Done then 1 else 0)
      && CountError(ws) == (if last == Error then 1 else 0)
      && (forall i, j :: 0 <= i < j < |ws| && ws[i].Event? && !ws[i].frame.Progress? ==> ws[j].Raw?)
      && Content(ws) == Content(text)
  {
    FramedCounts(pre, last, text);
    FramedOrder(pre, last, text);
  }

  lemma FramedCounts(pre: seq<Write>, last: Frame, text: seq<Write>)
    requires AllProgress(pre) && (last == Done || last == Error) && AllRaw(text)
    ensures var ws := pre + ([Event(last)] + text);
      && CountDone(ws) == (if last == Done then 1 else 0)
      && CountError(ws) == (if last == Error then 1 else 0)
      && Content(ws) == Content(text)
  {
    ProgressOnly(pre);
    RawOnly(text);
    WireAppend([Event(last)], text);
    WireAppend(pre, [Event(last)] + text);
    assert [Event(last)][1..] == [];
  }

  lemma FramedOrder(pre: seq<Write>, last: Frame, text: seq<Write>)
    requires AllProgress(pre) && !last.Progress? && AllRaw(text)
    ensures var ws := pre + ([Event(last)] + text);
      && FramesBeforeText(ws)
      && (forall i, j :: 0 <= i < j < |ws| && ws[i].Event? && !ws[i].frame.Progress? ==> ws[j].Raw?)
  {
    var ws := pre + ([Event(last)] + text);
    assert forall k :: 0 <= k < |pre| ==> ws[k] == pre[k];
    assert forall k :: |pre| < k < |ws| ==> ws[k] == text[k - |pre| - 1];
    assert ws[|pre|] == Event(last);
  }

  /** The outcome of the checks both chat handlers make before streaming. */
  datatype Admission = Refused(status: nat, error: string) | Admitted(provider: string, key: string)

  /** Key resolution followed by the two 400 checks, key first. */
  function Admit(req: ChatRequest, lookup: string -> Option<User>): (a: Admission)
    ensures a.Admitted? ==> a.key != "" && !Blank(req.message) && a.provider == ProviderName(req.provider)
    ensures a.Refused? ==> a.status == 400
  {
    var provider := ProviderName(req.provider);
    var key := ResolveKey(req.apiKey, provider, Authenticate(req.authorization, lookup));
    if key == "" then Refused(400, MissingKeyError(provider))
    else if Blank(req.message) then Refused(400, EmptyMessageError)
    else Admitted(provider, key)
  }

  /** The `/api/chat` handler. A missing key is rejected before the message
      is looked at; only an admitted request calls the provider, with a
      non-empty key, a non-blank message and at most the last ten turns. */
  function ApiChat(req: ChatRequest, lookup: string -> Option<User>, store: FileStore, ai: ProviderCall -> ProviderOutcome): (ex: Exchange)
    ensures ex.call.None? <==> ex.response.Rejected?
    ensures ex.response.Rejected? ==> ex.response.status == 400
    ensures ex.call.Some? ==>
      && ex.call.value.provider == ProviderName(req.provider)
      && ex.call.value.apiKey != ""
      && !Blank(ex.call.value.message)
      && ex.call.value.message == req.message
      && ex.call.value.history == RecentHistory(req.conversationHistory)
      && |ex.call.value.history| <= MaxHistory
      && |ex.call.value.history| <= |req.conversationHistory|
      && ex.call.value.history == req.conversationHistory[|req.conversationHistory| - |ex.call.value.history|..]
    ensures ex.response.EventStream? ==>
      && FramesBeforeText(ex.response.writes)
      && CountDone(ex.response.writes) + CountError(ex.response.writes) == 1
      && (forall i, j :: 0 <= i < j < |ex.response.writes| && ex.response.writes[i].Event? && !ex.response.writes[i].frame.Progress? ==> ex.response.writes[j].Raw?)
      && Content(ex.response.writes) == ReplyText(ProviderName(req.provider), ai(ex.call.value))
  {
    match Admit(req, lookup)
    case Refused(status, error) => Exchange(None, Rejected(status, error))
    case Admitted(provider, key) =>
      var withFiles := IncludeFiles(req.uploadedFiles, req.conversationHistory, req.message);
      var context := Preamble(req.uploadedFiles, store, withFiles);
      var call := ProviderCall(provider, key, req.message, context, RecentHistory(req.conversationHistory));
      var pre := PreparationFrames(req.uploadedFiles, store, withFiles, provider);
      ReplyFraming(pre, provider, ai(call));
      Exchange(Some(call), EventStream(pre + ReplyWrites(provider, ai(call))))
  }

  /** An explicit key is never overridden; without one, the key is the
      signed-in user's stored key for the provider, and a caller who is not
      signed in, or names a provider other than the four, is turned away. */
  lemma KeyResolution(req: ChatRequest, lookup: string -> Option<User>, store: FileStore, ai: ProviderCall -> ProviderOutcome)
    ensures var ex := ApiChat(req, lookup, store, ai);
      var provider := ProviderName(req.provider);
      var user := Authenticate(req.authorization, lookup);
      && (req.apiKey != "" && !Blank(req.message) ==> ex.call.Some? && ex.call.value.apiKey == req.apiKey)
      && (req.apiKey == "" && ex.call.Some? ==> user.Some? && ex.call.value.apiKey == StoredKey(user.value, provider))
      && (req.apiKey == "" && (user.None? || provider !in {"gemini", "chatgpt", "claude", "perplexity"}) ==>
            ex.response == Rejected(400, MissingKeyError(provider)))
  {
  }

  /** Validation order: a missing key is reported whatever the message;
      with a key, a blank message is reported; neither calls the provider. */
  lemma ValidationOrder(req: ChatRequest, lookup: string -> Option<User>, store: FileStore, ai: ProviderCall -> ProviderOutcome)
    ensures var ex := ApiChat(req, lookup, store, ai);
      var key := ResolveKey(req.apiKey, ProviderName(req.provider), Authenticate(req.authorization, lookup));
      && (key == "" ==> ex == Exchange(None, Rejected(400, MissingKeyError(ProviderName(req.provider)))))
      && (key != "" && Blank(req.message) ==> ex == Exchange(None, Rejected(400, EmptyMessageError)))
      && (key != "" && !Blank(req.message) ==> ex.call.Some?)
  {
  }

  /** The prompt context the provider receives: the file preamble exactly
      when there are handles and this is the first turn or the message
      mentions files, otherwise the generic text. */
  lemma ContextForCall(req: ChatRequest, lookup: string -> Option<User>, store: FileStore, ai: ProviderCall -> ProviderOutcome)
    requires ApiChat(req, lookup, store, ai).call.Some?
    ensures var ctx := ApiChat(req, lookup, store, ai).call.value.context;
      var mentions := |req.conversationHistory| == 0 || HasFileKeyword(ToLower(req.message));
      && (|req.uploadedFiles| > 0 && mentions ==>
            StartsWith(ctx, CodeHeader) && EndsWith(ctx, CodeFooter)
            && |ctx| == |CodeHeader| + |FileSections(req.uploadedFiles, store)| + |CodeFooter|
            && ctx[|CodeHeader|..|ctx| - |CodeFooter|] == FileSections(req.uploadedFiles, store))
      && (|req.uploadedFiles| == 0 || !mentions ==> ctx == GenericPreamble)
  {
    var withFiles := IncludeFiles(req.uploadedFiles, req.conversationHistory, req.message);
    assert ApiChat(req, lookup, store, ai).call.value.context == Preamble(req.uploadedFiles, store, withFiles);
  }

  /** On success the stream holds exactly one done frame and no error
      frame, the done frame precedes all text, and the text is the reply. */
  lemma SuccessStream(req: ChatRequest, lookup: string -> Option<User>, store: FileStore, ai: ProviderCall -> ProviderOutcome)
    requires var ex := ApiChat(req, lookup, store, ai); ex.call.Some? && ai(ex.call.value).Replied?
    ensures var ex := ApiChat(req, lookup, store, ai);
      && ex.response.EventStream?
      && CountDone(ex.response.writes) == 1
      && CountError(ex.response.writes) == 0
      && FramesBeforeText(ex.response.writes)
      && Content(ex.response.writes) == ai(ex.call.value).text
  {
    var ex := ApiChat(req, lookup, store, ai);
    var provider := ProviderName(req.provider);
    var withFiles := IncludeFiles(req.uploadedFiles, req.conversationHistory, req.message);
    var pre := PreparationFrames(req.uploadedFiles, store, withFiles, provider);
    ReplyFraming(pre, provider, ai(ex.call.value));
  }

  /** On failure the stream holds exactly one error frame and no done
      frame, followed by text naming the provider and its error together
      with the troubleshooting list. */
  lemma FailureStream(req: ChatRequest, lookup: string -> Option<User>, store: FileStore, ai: ProviderCall -> ProviderOutcome)
    requires var ex := ApiChat(req, lookup, store, ai); ex.call.Some? && !ai(ex.call.value).Replied?
    ensures var ex := ApiChat(req, lookup, store, ai);
      var provider := ProviderName(req.provider);
      && ex.response.EventStream?
      && CountError(ex.response.writes) == 1
      && CountDone(ex.response.writes) == 0
      && FramesBeforeText(ex.response.writes)
      && Content(ex.response.writes) == match ai(ex.call.value)
           case Failed(error) => "\U{274C} Error from " + provider + ": " + error + Troubleshooting
           case Threw(message) => "\U{274C} Error: " + message + Troubleshooting
           case Replied(_) => ""
  {
    var ex := ApiChat(req, lookup, store, ai);
    var provider := ProviderName(req.provider);
    var withFiles := IncludeFiles(req.uploadedFiles, req.conversationHistory, req.message);
    var pre := PreparationFrames(req.uploadedFiles, store, withFiles, provider);
    ReplyFraming(pre, provider, ai(ex.call.value));
  }

  /** The older `/chat` handler: same key resolution and validation, but
      files always go into the prompt, the whole history is forwarded, and
      the body is the bare reply or error text with no frames. */
  function LegacyChat(req: ChatRequest, lookup: string -> Option<User>, store: FileStore, ai: ProviderCall -> ProviderOutcome): (ex: Exchange)
    ensures ex.call.None? <==> ex.response.Rejected?
    ensures ex.call.Some? ==>
      && ex.call.value.provider == ProviderName(req.provider)
      && ex.call.value.message == req.message
      && ex.call.value.context == Preamble(req.uploadedFiles, store, true)
      && ex.call.value.history == req.conversationHistory
    ensures ex.response.EventStream? ==>
      && ex.response.writes == [Raw(ReplyText(ProviderName(req.provider), ai(ex.call.value)))]
      && CountDone(ex.response.writes) == 0 && CountError(ex.response.writes) == 0
  {
    match Admit(req, lookup)
    case Refused(status, error) => Exchange(None, Rejected(status, error))
    case Admitted(provider, key) =>
      var call := ProviderCall(provider, key, req.message, Preamble(req.uploadedFiles, store, true), req.conversationHistory);
      var ws := [Raw(ReplyText(provider, ai(call)))];
      assert ws[1..] == [];
      Exchange(Some(call), EventStream(ws))
  }

  /** Both handlers turn away the same requests with the same errors, and
      on a first turn they make the same provider call. */
  lemma LegacyAgreement(req: ChatRequest, lookup: string -> Option<User>, store: FileStore, ai: ProviderCall -> ProviderOutcome)
    ensures var a := ApiChat(req, lookup, store, ai);
      var l := LegacyChat(req, lookup, store, ai);
      && (a.response.Rejected? ==> a.response == l.response)
      && (l.response.Rejected? ==> a.response == l.response)
      && (|req.conversationHistory| == 0 ==> a.call == l.call)
  {
    match Admit(req, lookup) {
      case Refused(_, _) =>
      case Admitted(provider, key) =>
        if |req.conversationHistory| == 0 {
          assert IncludeFiles(req.uploadedFiles, req.conversationHistory, req.message) == (|req.uploadedFiles| > 0);
          assert RecentHistory(req.conversationHistory) == req.conversationHistory;
        }
    }
  }

  /** Where `/api/chat` departs from `/chat`: it leaves the files out of a
      later turn that does not mention them, and forwards fewer turns once
      the history is longer than ten. */
  lemma LegacyDifference(req: ChatRequest, lookup: string -> Option<User>, store: FileStore, ai: ProviderCall -> ProviderOutcome)
    requires Admit(req, lookup).Admitted?
    ensures var a := ApiChat(req, lookup, store, ai);
      var l := LegacyChat(req, lookup, store, ai);
      && (|req.uploadedFiles| > 0 && |req.conversationHistory| > 0 && !HasFileKeyword(ToLower(req.message)) ==>
            a.call.value.context == GenericPreamble && StartsWith(l.call.value.context, CodeHeader))
      && (|req.conversationHistory| > MaxHistory ==> |a.call.value.history| < |l.call.value.history|)
  {
  }

  /** The upload whitelist, compared against the lower-cased extension. */
  const AllowedExtensions: seq<string> :=
    [".js", ".jsx", ".ts", ".tsx", ".py", ".java", ".cpp", ".c", ".go", ".rs", ".rb", ".php",
     ".html", ".css", ".json", ".yaml", ".yml", ".xml", ".md", ".txt"]

  /** The name without trailing '/' characters. */
  function DropTrailingSlashes(s: string): (r: string)
    ensures |r| <= |s| && r == s[..|r|]
    ensures r == [] || r[|r| - 1] != '/'
  {
    if |s| > 0 && s[|s| - 1] == '/' then DropTrailingSlashes(s[..|s| - 1]) else s
  }

  /** The text after the last '/'. */
  function LastComponent(s: string): (r: string)
    ensures '/' !in r
    ensures EndsWith(s, r)
  {
    if |s| == 0 then s
    else if s[|s| - 1] == '/' then ""
    else
      var r := LastComponent(s[..|s| - 1]) + [s[|s| - 1]];
      assert s == s[..|s| - 1] + [s[|s| - 1]];
      r
  }

  /** The last component is whatever follows the last '/'. */
  lemma {:induction false} LastComponentAfterSlash(dir: string, name: string)
    requires '/' !in name
    ensures LastComponent(dir + "/" + name) == name
  {
    if |name| > 0 {
      var s := dir + "/" + name;
      assert s[..|s| - 1] == dir + "/" + name[..|name| - 1];
      LastComponentAfterSlash(dir, name[..|name| - 1]);
      assert name == name[..|name| - 1] + [name[|name| - 1]];
    }
  }

  lemma {:induction false} LastComponentOfName(name: string)
    requires '/' !in name
    ensures LastComponent(name) == name
  {
    if |name| > 0 {
      var init := name[..|name| - 1];
      assert '/' !in init by {
        forall i | 0 <= i < |init| ensures init[i] != '/' {
          assert init[i] == name[i];
        }
      }
      LastComponentOfName(init);
      assert name[|name| - 1] != '/';
      assert LastComponent(name) == LastComponent(init) + [name[|name| - 1]];
      assert name == init + [name[|name| - 1]];
    }
  }

  /** Index of the last occurrence of `c`, or -1. */
  function LastIndexOf(s: string, c: char): (i: int)
    ensures -1 <= i < |s|
    ensures i >= 0 ==> s[i] == c
    ensures forall j :: i < j < |s| ==> s[j] != c
  {
    if |s| == 0 then -1
    else if s[|s| - 1] == c then |s| - 1
    else LastIndexOf(s[..|s| - 1], c)
  }

  /** `path.extname` (POSIX): from the last '.' of the last path component
      to its end; "" when that component has no '.', only a leading one,
      or is "..". */
  function ExtName(path: string): (ext: string)
    ensures ext == [] || (ext[0] == '.' && '/' !in ext && EndsWith(DropTrailingSlashes(path), ext))
  {
    var stripped := DropTrailingSlashes(path);
    var part := LastComponent(stripped);
    var dot := LastIndexOf(part, '.');
    if dot <= 0 || part == ".." then ""
    else
      SuffixOfComponent(stripped, part, dot);
      part[dot..]
  }

  /** A tail of the last component is a '/'-free suffix of the path. */
  lemma SuffixOfComponent(s: string, part: string, from: nat)
    requires EndsWith(s, part) && '/' !in part && from <= |part|
    ensures EndsWith(s, part[from..]) && '/' !in part[from..]
  {
    assert s[|s| - |part[from..]|..] == part[from..];
  }

  datatype UploadVerdict = Accepted | RejectedType(message: string)

  /** The upload `fileFilter`: accept exactly the whitelisted extensions,
      whatever their case. */
  function FileFilter(originalName: string): (v: UploadVerdict)
    ensures v.Accepted? <==> ToLower(ExtName(originalName)) in AllowedExtensions
    ensures v.RejectedType? ==> v.message == "File type " + ToLower(ExtName(originalName)) + " not allowed"
  {
    var ext := ToLower(ExtName(originalName));
    if ext in AllowedExtensions then Accepted else RejectedType("File type " + ext + " not allowed")
  }

  lemma {:induction false} LastIndexOfBefore(p: string, c: char, e: string)
    requires c !in e
    ensures LastIndexOf(p + [c] + e, c) == |p|
  {
    if |e| > 0 {
      var s := p + [c] + e;
      assert s[..|s| - 1] == p + [c] + e[..|e| - 1];
      LastIndexOfBefore(p, c, e[..|e| - 1]);
    } else {
      assert p + [c] + e == p + [c];
    }
  }

  /** A plain file name `stem.ext` has extension `.ext`. */
  lemma ExtNameOfName(stem: string, ext: string)
    requires '/' !in stem && '/' !in ext && '.' !in ext
    requires |stem| > 0 && |ext| > 0
    ensures ExtName(stem + "." + ext) == "." + ext
  {
    var tail := ['.'] + ext;
    var name := stem + tail;
    assert name == stem + "." + ext;
    assert name[|name| - 1] == ext[|ext| - 1];
    assert DropTrailingSlashes(name) == name;
    LastComponentOfName(name);
    LastIndexOfBefore(stem, '.', ext);
    assert |name| >= 3;
    assert name != "..";
    assert name[|stem|..] == tail;
    assert ExtName(name) == name[|stem|..];
  }

  lemma LowerKeepsSeparators(s: string)
    ensures ('.' in ToLower(s)) == ('.' in s)
    ensures ('/' in ToLower(s)) == ('/' in s)
    ensures ToLower(ToLower(s)) == ToLower(s)
  {
    var l := ToLower(s);
    assert forall i :: 0 <= i < |s| ==> (l[i] == '.' <==> s[i] == '.') && (l[i] == '/' <==> s[i] == '/');
    if '.' in l {
      var i :| 0 <= i < |l| && l[i] == '.';
      assert s[i] == '.';
    }
    if '/' in l {
      var i :| 0 <= i < |l| && l[i] == '/';
      assert s[i] == '/';
    }
  }

  /** The case of a plain name's extension does not matter. */
  lemma FilterIgnoresExtensionCase(stem: string, ext: string)
    requires '/' !in stem && '/' !in ext && '.' !in ext
    requires |stem| > 0 && |ext| > 0
    ensures FileFilter(stem + "." + ext) == FileFilter(stem + "." + ToLower(ext))
  {
    var low := ToLower(ext);
    LowerKeepsSeparators(ext);
    ExtNameOfName(stem, ext);
    ExtNameOfName(stem, low);
    LowerDotPrefix(ext);
    LowerDotPrefix(low);
  }

  lemma LowerDotPrefix(s: string)
    ensures ToLower("." + s) == "." + ToLower(s)
  {
    assert ("." + s)[1..] == s;
  }

  /** Only the last path component is looked at. */
  lemma FilterSeesLastComponent(dir: string, stem: string, ext: string)
    requires '/' !in stem && '/' !in ext && '.' !in ext
    requires |stem| > 0 && |ext| > 0
    ensures FileFilter(dir + "/" + (stem + "." + ext)) == FileFilter(stem + "." + ext)
  {
    var name := stem + "." + ext;
    assert '/' !in name;
    ExtNameAfterDir(dir, name);
  }

  /** A name without '/' has the same extension under any directory. */
  lemma ExtNameAfterDir(dir: string, name: string)
    requires '/' !in name && |name| > 0
    ensures ExtName(dir + "/" + name) == ExtName(name)
  {
    var path := dir + "/" + name;
    assert path[|path| - 1] == name[|name| - 1];
    assert DropTrailingSlashes(path) == path;
    assert DropTrailingSlashes(name) == name;
    LastComponentAfterSlash(dir, name);
    LastComponentOfName(name);
  }

  /** A name whose only dot leads it, such as ".md", has no extension and
      is refused. */
  lemma DotFileRejected(ext: string)
    requires '/' !in ext && '.' !in ext && |ext| > 0
    ensures FileFilter("." + ext) == RejectedType("File type  not allowed")
  {
    var name := "." + ext;
    assert name[|name| - 1] == ext[|ext| - 1];
    assert DropTrailingSlashes(name) == name;
    LastComponentOfName(name);
    LastIndexOfBefore("", '.', ext);
    assert "" + ['.'] + ext == name;
    assert ExtName(name) == "";
    assert ToLower("") == "";
  }

  /** The `/test-api-key` answer. */
  datatype KeyTestResponse = KeyTestRejected(status: nat, error: string) | KeyValid(message: string, sample: string)

  /** The `/test-api-key` handler: a missing key is refused without a
      provider call; otherwise one call says "Hello" with no context, and a
      success reports at most the first 100 characters of the reply. */
  function TestApiKey(apiKey: string, provider: Option<string>, ai: ProviderCall -> ProviderOutcome): (r: KeyTestResponse)
    ensures apiKey == "" ==> r == KeyTestRejected(400, "API key required")
    ensures apiKey != "" ==>
      var out := ai(ProviderCall(ProviderName(provider), apiKey, "Hello", "", []));
      && (r.KeyValid? <==> out.Replied?)
      && (r.KeyValid? ==> r.message == "\U{2705} " + ProviderName(provider) + " API key is valid!")
      && (r.KeyValid? ==> |r.sample| <= 100 && StartsWith(out.text, r.sample) && (|out.text| <= 100 ==> r.sample == out.text)
                          && (|out.text| > 100 ==> |r.sample| == 100))
      && (r.KeyTestRejected? ==> r.status == 400)
      && (out.Failed? ==> r == KeyTestRejected(400, out.error))
      && (out.Threw? ==> r.error == if out.message != "" then out.message else "Failed to test API key")
  {
    if apiKey == "" then KeyTestRejected(400, "API key required")
    else
      var name := ProviderName(provider);
      match ai(ProviderCall(name, apiKey, "Hello", "", []))
      case Replied(text) =>
        KeyValid("\U{2705} " + name + " API key is valid!", if |text| > 100 then text[..100] else text)
      case Failed(error) => KeyTestRejected(400, error)
      case Threw(message) => KeyTestRejected(400, if message != "" then message else "Failed to test API key")
  }
}
