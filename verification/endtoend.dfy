/** The browser and the server put together: the body `/api/chat` streams
    as the chat page reads it, a whole conversation turn from the page's
    request to the message list it shows, and the key form against the
    `/test-api-key` handler. */
module EndToEnd {
  import opened Text
  import opened Domain
  import opened Wire
  import opened Context
  import opened Gateway
  import opened StreamReader
  import opened ChatPage
  import opened Forms
  import opened ApiUtil

  /** The lines a frame occupies: its `data:` line, then an empty one. */
  lemma FrameIsTwoLines(f: Frame)
    ensures FrameText(f) == Terminated([FrameLine(f), ""])
    ensures LineFree([FrameLine(f), ""])
    ensures Accumulate([FrameLine(f), ""]) == ""
  {
    var line := FrameLine(f);
    assert !IsContentLine(line);
    assert !IsContentLine("");
    assert [line, ""][1..] == [""];
    assert Terminated([""]) == "" + "\n" + Terminated([]);
  }

  /** The page's reader skips every frame: a body whose frames all come
      before its text reads as that text alone. */
  lemma {:induction false} StreamReadsAsContent(ws: seq<Write>)
    requires FramesBeforeText(ws)
    ensures ClientText(WireText(ws)) == ClientText(Content(ws))
  {
    if |ws| > 0 {
      if ws[0].Event? {
        var f := ws[0].frame;
        assert FramesBeforeText(ws[1..]) by {
          forall i, j | 0 <= i < j < |ws[1..]| && ws[1..][i].Raw? ensures ws[1..][j].Raw? {
            assert ws[i + 1].Raw?;
          }
        }
        StreamReadsAsContent(ws[1..]);
        FrameIsTwoLines(f);
        ClientTextAfterLines([FrameLine(f), ""], WireText(ws[1..]));
        assert WireText(ws) == FrameText(f) + WireText(ws[1..]);
        assert Content(ws) == Content(ws[1..]);
      } else {
        assert AllRaw(ws);
        RawOnly(ws);
      }
    }
  }

  /** What the page receives from the `/api/chat` handler. */
  function Serve(lookup: string -> Option<User>, store: FileStore, ai: ProviderCall -> ProviderOutcome): ChatRequest -> Reply {
    req => match ApiChat(req, lookup, store, ai).response
      case Rejected(status, _) => HttpError(status)
      case EventStream(ws) => Body(WireText(ws))
  }

  /** An answered request reaches the page as a body that reads as the
      stream's text. */
  lemma ServedBody(req: ChatRequest, lookup: string -> Option<User>, store: FileStore, ai: ProviderCall -> ProviderOutcome)
    requires ApiChat(req, lookup, store, ai).call.Some?
    ensures var ex := ApiChat(req, lookup, store, ai);
      && ex.response.EventStream?
      && Serve(lookup, store, ai)(req) == Body(WireText(ex.response.writes))
      && ClientText(WireText(ex.response.writes)) == ClientText(Content(ex.response.writes))
  {
    StreamReadsAsContent(ApiChat(req, lookup, store, ai).response.writes);
  }

  /** A request the handler refuses shows "API error: 400" in place of
      the reply, and nothing is saved. */
  lemma RefusedTurn(p: Page, authToken: string, message: string, lookup: string -> Option<User>, store: FileStore, ai: ProviderCall -> ProviderOutcome)
    requires !Blank(message)
    requires ApiChat(ChatRequestOf(p, authToken, message), lookup, store, ai).response.Rejected?
    ensures var r := SendMessage(p, authToken, message, Serve(lookup, store, ai));
      && r.page.messages[|p.messages| + 1] == Turn(ErrorSender, PageErrorPrefix + "API error: 400")
      && r.save == NoSave
  {
    var req := ChatRequestOf(p, authToken, message);
    assert Serve(lookup, store, ai)(req) == HttpError(400);
    assert NatToString(400) == "400" by {
      assert NatToString(400) == NatToString(40) + [DigitChar(0)];
      assert NatToString(40) == NatToString(4) + [DigitChar(0)];
    }
  }

  /** A request the provider answers shows the reply as the reader
      assembles it, never a frame. */
  lemma AnsweredTurn(p: Page, authToken: string, message: string, lookup: string -> Option<User>, store: FileStore, ai: ProviderCall -> ProviderOutcome)
    requires !Blank(message)
    requires var ex := ApiChat(ChatRequestOf(p, authToken, message), lookup, store, ai);
      ex.call.Some? && ai(ex.call.value).Replied?
    ensures var ex := ApiChat(ChatRequestOf(p, authToken, message), lookup, store, ai);
      var r := SendMessage(p, authToken, message, Serve(lookup, store, ai));
      r.page.messages[|p.messages| + 1] == Turn(Assistant, ClientText(ai(ex.call.value).text))
  {
    var req := ChatRequestOf(p, authToken, message);
    ServedBody(req, lookup, store, ai);
    SuccessStream(req, lookup, store, ai);
  }

  /** A request the provider turns down shows its error text, with the
      provider's name and the troubleshooting list, as the reader
      assembles it. */
  lemma FailedTurn(p: Page, authToken: string, message: string, lookup: string -> Option<User>, store: FileStore, ai: ProviderCall -> ProviderOutcome)
    requires !Blank(message)
    requires var ex := ApiChat(ChatRequestOf(p, authToken, message), lookup, store, ai);
      ex.call.Some? && ai(ex.call.value).Failed?
    ensures var ex := ApiChat(ChatRequestOf(p, authToken, message), lookup, store, ai);
      var r := SendMessage(p, authToken, message, Serve(lookup, store, ai));
      r.page.messages[|p.messages| + 1] == Turn(Assistant, ClientText(ProviderErrorText(p.selectedBot, ai(ex.call.value).error)))
  {
    var req := ChatRequestOf(p, authToken, message);
    ServedBody(req, lookup, store, ai);
    FailureStream(req, lookup, store, ai);
  }

  /** The conversation round trip: a reply made of content lines appears
      word for word after the user's message, and the next request carries
      both as history. */
  lemma ConversationRoundTrip(p: Page, authToken: string, message: string, next: string, lookup: string -> Option<User>, store: FileStore, ai: ProviderCall -> ProviderOutcome)
    requires !Blank(message)
    requires var ex := ApiChat(ChatRequestOf(p, authToken, message), lookup, store, ai);
      ex.call.Some? && ai(ex.call.value).Replied?
    requires var text := ai(ApiChat(ChatRequestOf(p, authToken, message), lookup, store, ai).call.value).text;
      var parts := Split(text, '\n');
      && (forall i :: 0 <= i < |parts| - 1 ==> IsContentLine(parts[i]))
      && (IsContentLine(parts[|parts| - 1]) || parts[|parts| - 1] == "")
    ensures var text := ai(ApiChat(ChatRequestOf(p, authToken, message), lookup, store, ai).call.value).text;
      var q := SendMessage(p, authToken, message, Serve(lookup, store, ai)).page;
      && q.messages == p.messages + [Turn(UserSender, message), Turn(Assistant, text)]
      && ChatRequestOf(q, authToken, next).conversationHistory == p.messages + [Turn(UserSender, message), Turn(Assistant, text)]
  {
    var req := ChatRequestOf(p, authToken, message);
    var ex := ApiChat(req, lookup, store, ai);
    var text := ai(ex.call.value).text;
    ServedBody(req, lookup, store, ai);
    SuccessStream(req, lookup, store, ai);
    ClientTextIdentity(text);
    assert ClientText(Serve(lookup, store, ai)(req).text) == text;
    AnsweredSendAppends(p, authToken, message, Serve(lookup, store, ai));
  }

  /** The one path server.js serves the key test on. */
  const KeyTestPath: string := "/test-api-key"

  /** The key form's test as written: the form posts to
      `buildApiUrl('/test-api-key')`. Below a base ending in "/api", the
      default, that path is ".../api/test-api-key", which no handler
      serves; the not-found page is not JSON, so `response.json()` throws
      with `jsonError`. Below a server origin the request reaches the
      handler. */
  function KeyTester(base: string, jsonError: string, ai: ProviderCall -> ProviderOutcome): string -> KeyTestReply {
    key => if EndsWith(base, "/api") then KeyTestUnreachable(jsonError) else AliasedKeyTester(ai)(key)
  }

  /** The key test with the handler also reachable under "/api", as the
      upload and chat handlers are: the form sends no provider, so the key
      is tried with the default one. */
  function AliasedKeyTester(ai: ProviderCall -> ProviderOutcome): string -> KeyTestReply {
    key => match TestApiKey(key, None, ai)
      case KeyValid(_, _) => KeyTestPassed
      case KeyTestRejected(_, error) => KeyTestFailed(error)
  }

  /** As written, under a base ending in "/api" (the default one included)
      the key form never hands a key on: a key of the right format always
      ends in the connection error, however the provider answers. Under a
      server origin it behaves as with the aliased handler. */
  lemma KeyFormAsWritten(base: string, jsonError: string, key: string, ai: ProviderCall -> ProviderOutcome)
    ensures var url := BuildApiUrl(base, KeyTestPath);
      && url == base + KeyTestPath
      && (EndsWith(url, "/api" + KeyTestPath) <==> EndsWith(base, "/api"))
    ensures EndsWith(base, "/api") ==> !SubmitApiKey(key, KeyTester(base, jsonError, ai)).KeySubmitted?
    ensures EndsWith(base, "/api") && !Blank(key) && StartsWith(key, GeminiKeyPrefix) ==>
      SubmitApiKey(key, KeyTester(base, jsonError, ai))
        == KeyFormError("Error connecting to server: " + jsonError + ". Make sure backend is running on localhost:5000")
    ensures !EndsWith(base, "/api") ==>
      SubmitApiKey(key, KeyTester(base, jsonError, ai)) == SubmitApiKey(key, AliasedKeyTester(ai))
  {
    assert StartsWith(KeyTestPath, "/") by { assert KeyTestPath[..1] == "/"; }
    ApiRoute(base, KeyTestPath);
  }

  /** With no configured URL the form refuses even a key the provider
      accepts. */
  lemma DefaultBaseRefusesValidKey(jsonError: string, ai: ProviderCall -> ProviderOutcome)
    requires ai(ProviderCall(DefaultProvider, "AIzaSyK", "Hello", "", [])).Replied?
    ensures SubmitApiKey("AIzaSyK", AliasedKeyTester(ai)).KeySubmitted?
    ensures !SubmitApiKey("AIzaSyK", KeyTester(ApiBase(""), jsonError, ai)).KeySubmitted?
  {
    var key := "AIzaSyK";
    assert key[..|GeminiKeyPrefix|] == GeminiKeyPrefix;
    assert !IsSpace(key[0]);
    KeyFormAgainstServer(key, ai);
    assert ApiBase("") == "/api";
    assert EndsWith(ApiBase(""), "/api");
    KeyFormAsWritten(ApiBase(""), jsonError, key, ai);
  }

  /** With the aliased handler the form hands a key to the page exactly
      when it passes both local checks and a "Hello" to the default
      provider with it is answered. */
  lemma KeyFormAgainstServer(key: string, ai: ProviderCall -> ProviderOutcome)
    ensures SubmitApiKey(key, AliasedKeyTester(ai)).KeySubmitted? <==>
      && !Blank(key)
      && StartsWith(key, GeminiKeyPrefix)
      && ai(ProviderCall(DefaultProvider, key, "Hello", "", [])).Replied?
  {
    if !Blank(key) {
      assert key != "";
    }
  }

  /** The first question after an upload, as written: the upload notice is
      already in the history the page sends, so a question without a file
      keyword is answered without the uploaded files. */
  lemma UploadThenAsk(p: Page, names: seq<string>, handles: seq<string>, authToken: string, message: string,
                      lookup: string -> Option<User>, store: FileStore, ai: ProviderCall -> ProviderOutcome)
    requires p.messages == [] && |handles| > 0 && !HasFileKeyword(ToLower(message))
    ensures var q := UploadFiles(p, names, Uploaded(handles));
      var ex := ApiChat(ChatRequestOf(q, authToken, message), lookup, store, ai);
      && |q.uploadedFiles| > 0
      && q.messages == [Turn(SystemSender, UploadNotice(names))]
      && (ex.call.Some? ==> ex.call.value.context == GenericPreamble)
  {
    var q := UploadFiles(p, names, Uploaded(handles));
    var req := ChatRequestOf(q, authToken, message);
    if ApiChat(req, lookup, store, ai).call.Some? {
      ContextForCall(req, lookup, store, ai);
    }
  }

  /** Several uploads in a row, each with the file names picked and the
      reply it got. */
  function UploadEach(p: Page, uploads: seq<(seq<string>, UploadReply)>): Page
    decreases |uploads|
  {
    if |uploads| == 0 then p else UploadEach(UploadFiles(p, uploads[0].0, uploads[0].1), uploads[1..])
  }

  /** The same moment under the intended rule: however many uploads and
      notices came before, until the user has spoken the files go with the
      next question, and the handles held before are kept in front. */
  lemma {:induction false} UploadsThenAskOnFirstQuestion(p: Page, uploads: seq<(seq<string>, UploadReply)>, message: string)
    requires !UserSpoke(p.messages)
    ensures var q := UploadEach(p, uploads);
      && !UserSpoke(q.messages)
      && |p.uploadedFiles| <= |q.uploadedFiles| && q.uploadedFiles[..|p.uploadedFiles|] == p.uploadedFiles
      && (|q.uploadedFiles| > 0 <==> IncludeFilesOnFirstQuestion(q.uploadedFiles, q.messages, message))
    decreases |uploads|
  {
    if |uploads| > 0 {
      var next := UploadFiles(p, uploads[0].0, uploads[0].1);
      forall i | 0 <= i < |next.messages| ensures next.messages[i].sender != UserSender {
        if i < |p.messages| {
          assert next.messages[i] == next.messages[..|p.messages|][i] == p.messages[i];
        }
      }
      UploadsThenAskOnFirstQuestion(next, uploads[1..], message);
      var q := UploadEach(next, uploads[1..]);
      assert q.uploadedFiles[..|p.uploadedFiles|] == q.uploadedFiles[..|next.uploadedFiles|][..|p.uploadedFiles|];
    }
  }
}
