/** The chat page's own logic (frontend/src/pages/Chat.jsx): the send
    guard and request it builds, what the message list shows after a turn,
    the title a new conversation is saved under, the uploaded-handle list,
    and which stored key is selected for the chosen bot. The page's server
    round trip is a parameter `server` from the request to what the page
    receives back. */
module ChatPage {
  import opened Text
  import opened Domain
  import opened Gateway
  import opened StreamReader

  /** The page state this logic reads and writes; `currentChatId` is ""
      while the conversation has not been saved yet. */
  datatype Page = Page(
    messages: seq<Turn>,
    uploadedFiles: seq<string>,
    apiKey: string,
    selectedBot: string,
    currentChatId: string)

  const InitialPage: Page := Page([], [], "", DefaultProvider, "")

  /** What the page gets back from `fetch`: a non-2xx status, a body read
      to its end, or an exception. */
  datatype Reply = HttpError(status: nat) | Body(text: string) | NetworkFailure(message: string)

  /** What `saveCurrentChat` sends: nothing, a new chat, or an update. */
  datatype Save = NoSave | CreateChat(title: string, messages: seq<Turn>, files: seq<string>) | UpdateChat(id: string, messages: seq<Turn>, files: seq<string>)

  /** One send: the page afterwards, the request made if any, and the save. */
  datatype TurnResult = TurnResult(page: Page, request: Option<ChatRequest>, save: Save)

  const UntitledConversation: string := "New Conversation"
  const MaxTitle: nat := 50

  /** The Authorization header the page attaches: present only with a token. */
  function AuthHeader(authToken: string): string {
    if authToken != "" then "Bearer " + authToken else ""
  }

  /** The body of the POST: the message, the current key, the handles,
      the selected bot and the messages from before this turn. */
  function ChatRequestOf(p: Page, authToken: string, message: string): (req: ChatRequest)
    ensures req.message == message && req.apiKey == p.apiKey && req.uploadedFiles == p.uploadedFiles
    ensures req.conversationHistory == p.messages
    ensures req.provider == Some(p.selectedBot)
    ensures req.authorization == "" <==> authToken == ""
    ensures authToken != "" ==> req.authorization == "Bearer " + authToken
  {
    ChatRequest(message, p.apiKey, p.uploadedFiles, Some(p.selectedBot), p.messages, AuthHeader(authToken))
  }

  /** The page's error prefix as its source spells it: the two characters
      U+00E2 U+0152, a mis-decoded cross mark, then " Error: ". */
  const PageErrorPrefix: string := "\U{00E2}\U{0152} Error: "

  /** The text that replaces the placeholder when the turn fails: a non-2xx
      status is thrown as "API error: <status>". */
  function ErrorTurn(r: Reply): (t: Turn)
    requires !r.Body?
    ensures t.sender == ErrorSender && StartsWith(t.text, PageErrorPrefix)
    ensures r.NetworkFailure? ==> t.text == PageErrorPrefix + r.message
  {
    match r
    case HttpError(status) => Turn(ErrorSender, PageErrorPrefix + "API error: " + NatToString(status))
    case NetworkFailure(message) => Turn(ErrorSender, PageErrorPrefix + message)
  }

  /** The text of the first user message, if there is one. */
  function FirstUserText(ms: seq<Turn>): (t: Option<string>)
    ensures t.Some? <==> exists i :: 0 <= i < |ms| && ms[i].sender == UserSender
    ensures t.Some? ==> exists i ::
      && 0 <= i < |ms|
      && ms[i] == Turn(UserSender, t.value)
      && forall j :: 0 <= j < i ==> ms[j].sender != UserSender
  {
    if |ms| == 0 then None
    else if ms[0].sender == UserSender then Some(ms[0].text)
    else
      var t := FirstUserText(ms[1..]);
      assert forall i :: 0 < i < |ms| ==> ms[i] == ms[1..][i - 1];
      if t.Some? then
        var i :| 0 <= i < |ms[1..]| && ms[1..][i] == Turn(UserSender, t.value)
          && forall j :: 0 <= j < i ==> ms[1..][j].sender != UserSender;
        assert ms[i + 1] == Turn(UserSender, t.value);
        assert forall j :: 0 <= j < i + 1 ==> ms[j].sender != UserSender by {
          forall j | 0 <= j < i + 1 ensures ms[j].sender != UserSender {
            if j > 0 { assert ms[j] == ms[1..][j - 1]; }
          }
        }
        t
      else t
  }

  /** `text.substring(0, 50) || 'New Conversation'` of the first user
      message: at most 50 characters taken from its start, and the fallback
      when there is no user message or its text is empty. */
  function NewChatTitle(ms: seq<Turn>): (title: string)
    ensures FirstUserText(ms).None? ==> title == UntitledConversation
    ensures FirstUserText(ms).Some? ==>
      var text := FirstUserText(ms).value;
      && (text == "" ==> title == UntitledConversation)
      && (text != "" ==> 0 < |title| <= MaxTitle && StartsWith(text, title)
                         && (|text| <= MaxTitle ==> title == text)
                         && (|text| > MaxTitle ==> |title| == MaxTitle))
  {
    match FirstUserText(ms)
    case None => UntitledConversation
    case Some(text) =>
      var cut := if |text| <= MaxTitle then text else text[..MaxTitle];
      if cut == "" then UntitledConversation else cut
  }

  /** `saveCurrentChat`: nothing without a token, a new chat under its
      title when the page has no chat id, an update of that chat otherwise. */
  function SaveChat(authToken: string, currentChatId: string, ms: seq<Turn>, files: seq<string>): Save {
    if authToken == "" then NoSave
    else if currentChatId == "" then CreateChat(NewChatTitle(ms), ms, files)
    else UpdateChat(currentChatId, ms, files)
  }

  /** `handleSendMessage`. A blank message changes nothing and sends
      nothing. Otherwise the user turn is shown, the request carries the
      messages from before it, and when the turn ends the last shown
      message is the reply as the stream reader assembles it, or the
      error; only a reply is saved. */
  function SendMessage(p: Page, authToken: string, message: string, server: ChatRequest -> Reply): (r: TurnResult)
    ensures Blank(message) <==> r.request.None?
    ensures Blank(message) ==> r == TurnResult(p, None, NoSave)
    ensures !Blank(message) ==>
      var n := |p.messages|;
      && r.request.value.message == message
      && r.request.value.conversationHistory == p.messages
      && |r.page.messages| == n + 2
      && r.page.messages[..n] == p.messages
      && r.page.messages[n] == Turn(UserSender, message)
      && r.page.uploadedFiles == p.uploadedFiles
      && (server(r.request.value).Body? <==> r.page.messages[n + 1].sender == Assistant)
      && (server(r.request.value).Body? ==>
            r.page.messages[n + 1].text == ClientText(server(r.request.value).text)
            && r.save == SaveChat(authToken, p.currentChatId, r.page.messages, p.uploadedFiles))
      && (!server(r.request.value).Body? ==> r.save == NoSave && r.page.messages[n + 1] == ErrorTurn(server(r.request.value)))
  {
    if Blank(message) then TurnResult(p, None, NoSave)
    else
      var newMessages := p.messages + [Turn(UserSender, message)];
      var req := ChatRequestOf(p, authToken, message);
      var reply := server(req);
      match reply
      case Body(text) =>
        var finalMessages := newMessages + [Turn(Assistant, ClientText(text))];
        TurnResult(p.(messages := finalMessages), Some(req), SaveChat(authToken, p.currentChatId, finalMessages, p.uploadedFiles))
      case _ =>
        TurnResult(p.(messages := newMessages + [ErrorTurn(reply)]), Some(req), NoSave)
  }

  /** `uploadedFiles.filter(f => f !== fileName)`. */
  function RemoveFile(files: seq<string>, name: string): (r: seq<string>)
    ensures name !in r
    ensures multiset(r)[name] == 0
    ensures forall x :: x != name ==> multiset(r)[x] == multiset(files)[x]
  {
    if |files| == 0 then []
    else
      var rest := RemoveFile(files[1..], name);
      assert files == [files[0]] + files[1..];
      if files[0] == name then rest else [files[0]] + rest
  }

  /** `[...uploadedFiles, ...data.files]`. */
  function AddUploads(files: seq<string>, added: seq<string>): (r: seq<string>)
    ensures |r| == |files| + |added|
    ensures r[..|files|] == files && r[|files|..] == added
  {
    files + added
  }

  /** What the upload `fetch` comes to: a 2xx reply carrying the handles
      the server assigned, a non-2xx status, or an exception (including a
      body that is not JSON). */
  datatype UploadReply = Uploaded(handles: seq<string>) | UploadRefused(status: nat) | UploadThrew(message: string)

  /** The notice prefixes as the source spells them: U+00E2 U+0153 U+2026
      is a mis-decoded check mark, U+00E2 U+0152 a mis-decoded cross mark. */
  const UploadedPrefix: string := "\U{00E2}\U{0153}\U{2026} Successfully uploaded "
  const UploadErrorPrefix: string := "\U{00E2}\U{0152} Error uploading files: "

  /** `names.join(', ')`. */
  function JoinNames(names: seq<string>): string {
    if |names| == 0 then ""
    else if |names| == 1 then names[0]
    else names[0] + ", " + JoinNames(names[1..])
  }

  /** The system notice for a successful upload of the named files. */
  function UploadNotice(names: seq<string>): (t: string)
    ensures StartsWith(t, UploadedPrefix)
  {
    UploadedPrefix + NatToString(|names|) + " file(s): " + JoinNames(names)
  }

  /** `handleFileUpload` for the files `names`: a successful upload appends
      the new handles and a system notice to the message list, a refused one
      changes nothing, and an exception appends a system notice carrying its
      message. The key, the bot and the saved chat are never touched. */
  function UploadFiles(p: Page, names: seq<string>, reply: UploadReply): (q: Page)
    ensures q.apiKey == p.apiKey && q.selectedBot == p.selectedBot && q.currentChatId == p.currentChatId
    ensures |q.messages| == |p.messages| + (if reply.UploadRefused? then 0 else 1)
    ensures q.messages[..|p.messages|] == p.messages
    ensures !reply.UploadRefused? ==> q.messages[|p.messages|].sender == SystemSender
    ensures reply.Uploaded? ==>
      && q.uploadedFiles == AddUploads(p.uploadedFiles, reply.handles)
      && q.messages[|p.messages|].text == UploadNotice(names)
    ensures !reply.Uploaded? ==> q.uploadedFiles == p.uploadedFiles
    ensures reply.UploadThrew? ==> q.messages[|p.messages|].text == UploadErrorPrefix + reply.message
    ensures reply.UploadRefused? ==> q == p
  {
    match reply
    case Uploaded(handles) =>
      p.(uploadedFiles := AddUploads(p.uploadedFiles, handles),
         messages := p.messages + [Turn(SystemSender, UploadNotice(names))])
    case UploadRefused(_) => p
    case UploadThrew(message) =>
      p.(messages := p.messages + [Turn(SystemSender, UploadErrorPrefix + message)])
  }

  /** Removal keeps the other handles in their order, across an upload too. */
  lemma {:induction false} RemoveAppend(a: seq<string>, b: seq<string>, name: string)
    ensures RemoveFile(AddUploads(a, b), name) == RemoveFile(a, name) + RemoveFile(b, name)
  {
    if |a| > 0 {
      assert (a + b)[1..] == a[1..] + b;
      RemoveAppend(a[1..], b, name);
    } else {
      assert a + b == b;
    }
  }

  /** Removing a name that is not listed changes nothing, and removing it
      a second time changes nothing. */
  lemma {:induction false} RemoveAbsent(files: seq<string>, name: string)
    requires name !in files
    ensures RemoveFile(files, name) == files
  {
    if |files| > 0 {
      RemoveAbsent(files[1..], name);
      assert [files[0]] + files[1..] == files;
    }
  }

  lemma RemoveIdempotent(files: seq<string>, name: string)
    ensures RemoveFile(RemoveFile(files, name), name) == RemoveFile(files, name)
  {
    RemoveAbsent(RemoveFile(files, name), name);
  }

  /** `handleBotSelect`: the bot changes, and with a signed-in user the key
      becomes the stored key for that bot, "" when none is stored. */
  function BotSelect(p: Page, user: Option<User>, bot: string): (q: Page)
    ensures q.selectedBot == bot
    ensures q.(apiKey := p.apiKey, selectedBot := p.selectedBot) == p
    ensures user.Some? ==> q.apiKey == StoredKey(user.value, bot)
    ensures user.None? ==> q == p.(selectedBot := bot)
  {
    var q := p.(selectedBot := bot);
    match user
    case Some(u) => q.(apiKey := StoredKey(u, bot))
    case None => q
  }

  /** The key-selection effect run on mount and whenever the user or bot
      changes: a stored key for the current bot replaces the key, and
      without one the key is left as it was. */
  function KeyOnMount(p: Page, user: Option<User>): (q: Page)
    ensures q.(apiKey := p.apiKey) == p
    ensures user.Some? && StoredKey(user.value, p.selectedBot) != "" ==> q.apiKey == StoredKey(user.value, p.selectedBot)
    ensures user.None? || StoredKey(user.value, p.selectedBot) == "" ==> q == p
  {
    match user
    case Some(u) => if StoredKey(u, p.selectedBot) != "" then p.(apiKey := StoredKey(u, p.selectedBot)) else p
    case None => p
  }

  /** The two key rules agree when a key is stored; when none is, selecting
      the bot clears the key while the effect keeps the previous one. */
  lemma BotSelectVersusMount(p: Page, u: User, bot: string)
    ensures var selected := BotSelect(p, Some(u), bot);
      var mounted := KeyOnMount(p.(selectedBot := bot), Some(u));
      && (StoredKey(u, bot) != "" ==> selected == mounted && selected.apiKey == StoredKey(u, bot))
      && (StoredKey(u, bot) == "" ==> selected.apiKey == "" && mounted.apiKey == p.apiKey)
  {
  }

  /** The effect that runs after a selection leaves the selection's key in
      place, and running it twice is running it once. */
  lemma MountAfterSelect(p: Page, user: Option<User>, bot: string)
    ensures KeyOnMount(BotSelect(p, user, bot), user) == BotSelect(p, user, bot)
    ensures KeyOnMount(KeyOnMount(p, user), user) == KeyOnMount(p, user)
  {
  }

  /** The first reply in a new conversation is saved as a new chat titled
      with the start of the message that began it. */
  lemma FirstSendTitle(p: Page, authToken: string, message: string, server: ChatRequest -> Reply)
    requires p.messages == [] && p.currentChatId == "" && authToken != ""
    requires !Blank(message) && server(ChatRequestOf(p, authToken, message)).Body?
    ensures var save := SendMessage(p, authToken, message, server).save;
      && save.CreateChat?
      && 0 < |save.title| <= MaxTitle
      && StartsWith(message, save.title)
  {
    var r := SendMessage(p, authToken, message, server);
    assert r.page.messages[0] == Turn(UserSender, message);
    assert FirstUserText(r.page.messages) == Some(message);
  }

  /** The header the page sends names the token the server verifies, and
      without a token the server sees no bearer token. */
  lemma PageTokenAuthenticates(authToken: string)
    requires ' ' !in authToken
    ensures authToken != "" ==> BearerToken(AuthHeader(authToken)) == Some(authToken)
    ensures authToken == "" ==> BearerToken(AuthHeader(authToken)) == None
  {
    var scheme := "Bearer";
    if authToken != "" {
      var h := AuthHeader(authToken);
      assert h == scheme + [' '] + authToken;
      assert ' ' !in scheme;
      SplitLeadingPart(scheme, ' ', authToken);
      SplitNoSeparator(authToken, ' ');
      assert Split(h, ' ') == [scheme, authToken];
      assert h[..|scheme|] == scheme;
    } else {
      assert !StartsWith("", scheme);
    }
  }

  /** After a signed-in user picks a bot, the key the server resolves for
      the page's request is the user's stored key for that bot, whether the
      page sent it or left it empty. */
  lemma SelectedKeyReachesServer(p: Page, u: User, bot: string, authToken: string, message: string, lookup: string -> Option<User>)
    requires authToken != "" && ' ' !in authToken && lookup(authToken) == Some(u)
    ensures var req := ChatRequestOf(BotSelect(p, Some(u), bot), authToken, message);
      ResolveKey(req.apiKey, ProviderName(req.provider), Authenticate(req.authorization, lookup)) == StoredKey(u, bot)
  {
    PageTokenAuthenticates(authToken);
  }

  /** An answered send adds exactly two messages: the user's, then the
      reply as the reader assembles it. */
  lemma AnsweredSendAppends(p: Page, authToken: string, message: string, server: ChatRequest -> Reply)
    requires !Blank(message) && server(ChatRequestOf(p, authToken, message)).Body?
    ensures SendMessage(p, authToken, message, server).page.messages ==
      p.messages + [Turn(UserSender, message), Turn(Assistant, ClientText(server(ChatRequestOf(p, authToken, message)).text))]
  {
  }
}
