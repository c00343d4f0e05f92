# ThunderAI chat pipeline in Dafny

ThunderAI is a browser chat client for several AI providers (Gemini,
ChatGPT, Claude, Perplexity) with an Express back end. This project
models the path a chat message travels through the system:

- the browser builds the request;
- the server admits or refuses it;
- the server picks the prompt context and calls the provider;
- the server streams the answer back as a mix of `data:` frames and raw text;
- the page reads that stream into the reply it shows and saves.

It also models the small pieces of logic around that path:

- the upload type filter;
- the key test endpoint;
- the URL and header helpers;
- the sidebar's chat list, rename rule and date label;
- the sign-up and key-entry forms.

The modules follow the program's structure:

- `Text`: JavaScript string operations the core relies on: `trim`, ASCII
  case mapping, `split`/`join`, and decimal rendering.
- `Domain`: conversation turns, the user record, and the provider-to-key
  mapping.
- `Wire`: the streamed body, as frames and raw writes, with
  `JSON.stringify` escaping.
- `Context`: the prompt context, covering file previews and the whole-word
  keyword rule for re-including files.
- `Gateway`: the `/api/chat` handler, the legacy `/chat` handler, the
  upload `fileFilter`, and `/test-api-key`.
- `StreamReader`: the page's chunked reader, as a method with loop
  invariants, checked against a whole-body reference `ClientText`.
- `ChatPage`: the send handler, the new-chat title, the upload handler and
  the handle list, and
  key selection.
- `ApiUtil`: `getApiUrl`, `buildApiUrl`, and `apiFetch`'s headers.
- `ChatList`: the sidebar's de-duplicating filter, rename, edit start, and
  `formatDate`.
- `Forms`: the sign-up and API-key submit handlers.
- `EndToEnd`: the page reading what the server writes, a whole turn, and
  the key form against the key test handler.

Calls into code that is not visible are parameters. `handleAIChat` is
`ai: ProviderCall -> ProviderOutcome`, with an outcome for success,
failure and a thrown exception. JWT verification with the user lookup is
`lookup: string -> Option<User>`. The in-memory upload map is a
`FileStore`. The page's `fetch` is `server: ChatRequest -> Reply`. The
key test request is `test: string -> KeyTestReply`.

An absent or `undefined` string field is modelled as `""`. Every check in
the core is a truthiness test, and the two values test alike.

Some behaviours this model makes explicit:

- The page's reader drops every blank line and every line starting with
  `data:` from a reply (`StreamReader.ClientTextIdentity`). So a reply
  with paragraph breaks loses its empty lines.
- The upload filter looks only at the last path component, and ignores
  the extension's case.
- `handleBotSelect` would clear the key for a bot the user stored no key
  for, where the mount effect keeps the previous key. The page never
  reaches that case: each bot button is disabled, and its click handler
  returns early, unless a key is stored for that bot (Chat.jsx:676, 694,
  712 and 730). `ChatPage.BotSelect` models the handler itself.
- The chat request reaches the framed `/api/chat` handler only when the
  API base ends in `/api`. Otherwise its path ends in `/chat`, which is
  the unframed handler.
- The key form posts to `buildApiUrl('/test-api-key')`. Under the default
  base this is `/api/test-api-key`, but the server registers the key test
  only at `/test-api-key`. So under that base the form never accepts a
  key (see Findings).
- A successful upload adds a system notice to the page's messages, and the
  page sends its messages as the history. So the first question after an
  upload already has a one-turn history, and the server leaves the files
  out unless the question names a file keyword (see Findings).
- In the source of `Chat.jsx`, the page's own error prefix is written as
  the two characters U+00E2 U+0152 followed by " Error: ". These are a
  mis-decoded cross mark. The model keeps them as written
  (`ChatPage.PageErrorPrefix`), while the server's texts use U+274C.

## Model

| member | source | states |
|---|---|---|
| Text.Trim | frontend/src/pages/Chat.jsx:298 | `trim()` removes ECMAScript white space at both ends: the result is the piece of the input that starts at `TrimOffset` and has only white space before and after it; it is empty exactly when the input is blank, and otherwise starts and ends with a non-space character |
| Text.TrimIdempotent | frontend/src/components/ChatHistory.jsx:96-97 | trimming an already trimmed title changes nothing |
| Text.Split | backend/server.js:374 | `split` with one separator always yields at least one part, and no part contains the separator |
| Text.JoinSplit | backend/server.js:374-377 | joining the parts of `split(d)` with `d` gives back the original text |
| Text.SplitJoin | frontend/src/pages/Chat.jsx:381 | splitting a join of separator-free lines gives back the lines |
| Text.ToLower | backend/server.js:74 | lower-casing keeps the length and maps each character independently |
| Text.DecimalRoundTrip | backend/server.js:329 | the decimal text of a count reads back as that count |
| Domain.StoredKey | backend/server.js:253-266 | "gemini" gives the user's Gemini key, "chatgpt" the OpenAI key, "claude" the Claude key and "perplexity" the Perplexity key; any other provider has no stored key |
| Wire.Escape | backend/server.js:302 | `JSON.stringify` leaves no control character in a string literal's body |
| Wire.EscapeRoundTrip | backend/server.js:302 | parsing the escaped text back yields the original string, so frame payloads are carried losslessly |
| Wire.FrameLine | backend/server.js:302 | a frame occupies a single line that starts with `data: ` |
| Context.Preview | backend/server.js:332-334 | a file contributes at most 10000 characters of its content; the truncation marker is added exactly when content was cut; short content is kept whole |
| Context.FileSectionsAppend | backend/server.js:326-339 | file sections compose along the handle list, so request order is kept |
| Context.MissingHandlesSkipped | backend/server.js:327 | handles that are not in the upload map contribute nothing |
| Context.Preamble | backend/server.js:322-349 | with files, the context is the code header, the file sections and the question footer; otherwise it is the generic assistant text |
| Context.MentionsFiles | backend/server.js:314 | the keyword test holds exactly when a keyword occurs as a whole word in the lower-cased message |
| Context.IncludeFilesOnFirstQuestion | backend/server.js:309-311 | the rule the comment states: with handles, the files go in until the user has written a message, and afterwards only when the message names a file keyword |
| Context.IncludeFiles | backend/server.js:312-316 | files are included exactly when there are handles and the turn is either the first or mentions a keyword |
| Context.PluralDoesNotMention | backend/server.js:314 | "files" is not a whole-word match for "file" |
| Context.GerundDoesNotMention | backend/server.js:314 | "checking" is not a whole-word match for "check" |
| Context.CapitalisedKeywordMentions | backend/server.js:314 | "Review" matches, because the message is lower-cased first |
| Gateway.BearerToken | backend/server.js:240-242 | a token is found exactly when the header starts with "Bearer" and its second space-separated part is non-empty; the token is that part |
| Gateway.RecentHistory | backend/server.js:361 | `slice(-10)` keeps the last `min(n, 10)` turns as a suffix of the history |
| Gateway.WordChunksReassemble | backend/server.js:374-380 | the word-by-word writes concatenate back to exactly the reply text, including runs of spaces and the empty reply, and carry no frame |
| Gateway.FileFrames | backend/server.js:325-339 | two progress frames per handle present in the upload map, alternating the "scanning" and "reading" stages |
| Gateway.ReplyFraming | backend/server.js:352-395 | the stream carries exactly one terminal frame (done on success, error otherwise); it follows every progress frame, only text follows it, and the text is the reply or the error text |
| Gateway.Admit | backend/server.js:285-293 | a request is admitted only with a non-empty key and a non-blank message, under the request's provider or "gemini"; every refusal is a 400 |
| Gateway.ApiChat | backend/server.js:231-403 | a request is refused (400) exactly when no provider call is made; a call goes to the request's provider (default "gemini") with the request's message, a non-empty key and exactly the last ten turns of history (`slice(-10)`); every stream has frames before text, one terminal frame followed by nothing but text, and the reply or error text as its content |
| Gateway.KeyResolution | backend/server.js:248-270 | an explicit key is never overridden; without one the key is the signed-in user's stored key for the provider; without a user or with an unknown provider, the request is refused as missing its key |
| Gateway.ValidationOrder | backend/server.js:285-293 | the missing-key error is reported regardless of the message; with a key, a blank message is reported; neither refusal calls the provider |
| Gateway.ContextForCall | backend/server.js:312-350 | the provider receives the file preamble exactly when there are handles and the turn is first or mentions files; otherwise it receives the generic text |
| Gateway.SuccessStream | backend/server.js:368-383 | on success there is one done frame, no error frame, the done frame precedes the text, and the text is the reply |
| Gateway.FailureStream | backend/server.js:384-395 | on failure or exception there is one error frame, no done frame, and then the text naming the provider's error or the exception, followed by the troubleshooting list |
| Gateway.LegacyChat | backend/server.js:112-228 | the older handler always puts the files in the prompt, forwards the whole history, and writes exactly one raw write, holding the reply or the error text, with no frames |
| Gateway.LegacyAgreement | backend/server.js:112-174 | both handlers refuse the same requests with the same errors, and they make the same call on a first turn |
| Gateway.LegacyDifference | backend/server.js:181-204 | the older handler always puts files in the prompt and forwards more than ten turns, where `/api/chat` does neither |
| Gateway.ExtName | backend/server.js:74 | `path.extname` is empty or starts with '.', holds no '/', and ends the name |
| Gateway.FileFilter | backend/server.js:72-80 | a file is accepted exactly when its lower-cased extension is whitelisted; otherwise the error names that extension |
| Gateway.ExtNameOfName | backend/server.js:74 | a plain name `stem.ext` has extension `.ext` |
| Gateway.FilterIgnoresExtensionCase | backend/server.js:74-75 | the case of the extension does not affect the verdict |
| Gateway.FilterSeesLastComponent | backend/server.js:74 | a directory prefix does not change the verdict |
| Gateway.DotFileRejected | backend/server.js:74-78 | a name like ".md" has no extension and is refused with an empty extension in the message |
| Gateway.TestApiKey | backend/server.js:411-441 | a missing key is refused without a call; otherwise one "Hello" call is made with no context; the key is valid exactly when it succeeds, with the message "✅ <provider> API key is valid!", and the sample is the reply cut to its first 100 characters; a provider error is a 400 carrying that error, and an exception carries its message or "Failed to test API key" |
| StreamReader.ReadStream | frontend/src/pages/Chat.jsx:373-437 | whatever the chunk boundaries, the buffered line reader produces the same reply as reading the whole body at once |
| StreamReader.AccumulateOnlyContent | frontend/src/pages/Chat.jsx:404-406 | only content lines are appended, and the reply equals the finished lines exactly when all of them are content lines |
| StreamReader.ClientTextIdentity | frontend/src/pages/Chat.jsx:381-437 | a reply reaches the page unaltered exactly when every finished line is a content line and the last piece is a content line or empty |
| ChatPage.ChatRequestOf | frontend/src/pages/Chat.jsx:345-357 | the request carries the typed message, the current key, the upload handles, the selected bot and the messages from before this turn; the Authorization header is "Bearer " and the token, or absent without a token |
| ChatPage.ErrorTurn | frontend/src/pages/Chat.jsx:456-464 | a failed turn shows an error-sender message with the page's error prefix; a network failure shows its message |
| ChatPage.FirstUserText | frontend/src/pages/Chat.jsx:164 | `find` yields the text of the first user message, if there is one |
| ChatPage.NewChatTitle | frontend/src/pages/Chat.jsx:164-165 | the title is a prefix of the first user message of at most 50 characters, or "New Conversation" when there is no user message or its text is empty |
| ChatPage.SendMessage | frontend/src/pages/Chat.jsx:297-468 | a blank message does nothing; otherwise the user turn and then the reply or error are shown, the request carries the history from before the turn, and only a reply is saved, as `saveCurrentChat` decides |
| ChatPage.RemoveFile | frontend/src/pages/Chat.jsx:470-472 | every copy of the name is removed, and every other handle keeps its count |
| ChatPage.AddUploads | frontend/src/pages/Chat.jsx:262 | new handles are appended after the existing ones |
| ChatPage.UploadFiles | frontend/src/pages/Chat.jsx:259-290 | a successful upload appends the server's handles and a system notice naming how many files were uploaded and which; a non-2xx reply changes nothing; an exception appends a system notice with its message; earlier messages, the key, the bot and the saved chat are kept |
| ChatPage.RemoveAppend | frontend/src/pages/Chat.jsx:470-472 | removal distributes over an upload append, so order is kept |
| ChatPage.RemoveAbsent | frontend/src/pages/Chat.jsx:471 | removing a name that is not listed changes nothing |
| ChatPage.RemoveIdempotent | frontend/src/pages/Chat.jsx:471 | removing twice is removing once |
| ChatPage.BotSelect | frontend/src/pages/Chat.jsx:474-492 | selecting a bot changes only the bot and the key; with a signed-in user the key becomes that user's stored key for the bot ("" when none), and without one only the bot changes |
| ChatPage.KeyOnMount | frontend/src/pages/Chat.jsx:29-48 | the mount effect changes only the key: a stored key for the current bot replaces it, and otherwise the page is left as it was |
| ChatPage.BotSelectVersusMount | frontend/src/pages/Chat.jsx:479-491 | with a stored key, the two rules agree; without one, the handler would clear the key while the effect keeps the previous one |
| ChatPage.MountAfterSelect | frontend/src/pages/Chat.jsx:29-48 | the effect after a selection keeps the selected key, and the effect is idempotent |
| ChatPage.FirstSendTitle | frontend/src/pages/Chat.jsx:160-165 | the first answered message of a new signed-in conversation creates a chat titled with a non-empty prefix of at most 50 characters of that message |
| ChatPage.PageTokenAuthenticates | frontend/src/pages/Chat.jsx:349 | the Authorization header the page sends yields exactly its token at the server, and no token when there is none |
| ChatPage.SelectedKeyReachesServer | frontend/src/pages/Chat.jsx:351-356 | after a signed-in user picks a bot, the server resolves that user's stored key for it |
| ChatPage.AnsweredSendAppends | frontend/src/pages/Chat.jsx:444-449 | an answered send adds exactly the user's message and then the reply |
| ApiUtil.ApiBase | frontend/src/utils/api.js:6-14 | the configured URL when it is set, otherwise "/api"; never empty |
| ApiUtil.BuildApiUrl | frontend/src/utils/api.js:23-31 | the URL is the base followed by the endpoint, with at most one '/' inserted between them |
| ApiUtil.BuildApiUrlCases | frontend/src/utils/api.js:25-30 | an endpoint with a leading '/' is appended as it is; one without gets the '/' exactly when the base does not end in "/api" |
| ApiUtil.DefaultChatUrl | frontend/src/utils/api.js:13-26 | with no configured URL, "/chat" becomes "/api/chat" |
| ApiUtil.ApiRoute | frontend/src/utils/api.js:23-31 | an endpoint with a leading '/' is appended to the base, and the URL ends in "/api" plus the endpoint exactly when the base ends in "/api" |
| ApiUtil.ChatRoute | frontend/src/utils/api.js:23-31 | the chat URL ends in "/api/chat" exactly when the base ends in "/api" |
| ApiUtil.FetchHeaders | frontend/src/utils/api.js:40-47 | the content type is JSON unless the caller sets one; a token sets the bearer header over the caller's; all other caller headers pass unchanged |
| ApiUtil.ApiFetchHeaders | frontend/src/utils/api.js:36-47 | an Authorization header the caller did not give comes only from the "token" storage item |
| ApiUtil.SessionFetchHeaders | frontend/src/utils/api.js:38 | with a stored session token, the bearer header carries it |
| ApiUtil.ApiFetchMissesSession | frontend/src/utils/api.js:38 | with only "auth_token" stored, the helper as written sends no Authorization header, while the corrected one does |
| ChatList.FindIndex | frontend/src/components/ChatHistory.jsx:158 | the result is the first position whose chat has the id, or -1 when there is none |
| ChatList.KeptIsFirst | frontend/src/components/ChatHistory.jsx:155-158 | a chat is kept exactly when it has an id and no earlier chat has the same id |
| ChatList.KeptFromMembers | frontend/src/components/ChatHistory.jsx:155-158 | the kept positions are exactly those that pass the filter's test |
| ChatList.VisibleChats | frontend/src/components/ChatHistory.jsx:155-159 | every listed chat has an id and comes from the input, no two listed chats share an id, and every id that occurs is listed through its first chat |
| ChatList.VisibleIsSubsequence | frontend/src/components/ChatHistory.jsx:155-159 | the listed chats are an order-preserving selection of the input |
| ChatList.ListedStaysListed | frontend/src/components/ChatHistory.jsx:155-159 | a list whose ids are set and distinct is shown unchanged |
| ChatList.VisibleIdempotent | frontend/src/components/ChatHistory.jsx:155-159 | filtering the shown list again changes nothing |
| ChatList.Rename | frontend/src/components/ChatHistory.jsx:95-101 | a non-blank title is passed on trimmed and closes the editor; a blank title changes nothing |
| ChatList.RenameTrimStable | frontend/src/components/ChatHistory.jsx:96-97 | surrounding white space never reaches the rename call |
| ChatList.StartEdit | frontend/src/components/ChatHistory.jsx:103-106 | editing starts under the chat's id, with its title, or with "Untitled Chat" when it has none |
| ChatList.ConfirmUntouchedEdit | frontend/src/components/ChatHistory.jsx:95-106 | confirming an edit without typing renames an untitled chat to "Untitled Chat", and a titled one to its trimmed title |
| ChatList.DaysAgo | frontend/src/components/ChatHistory.jsx:112 | `Math.floor` of the millisecond difference over a day: the day count `d` satisfies `d*day <= diff < (d+1)*day` |
| ChatList.FormatDate | frontend/src/components/ChatHistory.jsx:108-118 | "Today" exactly on day 0; "Yesterday" exactly on day 1; "N days ago" for days 2 to 6; the locale date exactly from day 7 on; a future date gives a negative "-N days ago" |
| Forms.CheckSignup | frontend/src/components/Signup.jsx:15-41 | the request is sent exactly when the required fields are not blank, the confirmation matches, and the untrimmed password has at least 6 characters; otherwise the first failing check's message is shown |
| Forms.SignupIgnoresKey | frontend/src/components/Signup.jsx:18-40 | the optional key plays no part in validation |
| Forms.PasswordLengthUntrimmed | frontend/src/components/Signup.jsx:18-31 | surrounding white space counts towards the six characters, while an all-space password is reported as missing |
| Forms.CompleteSignup | frontend/src/components/Signup.jsx:43-64 | success stores the session token, the user record and any returned key, and leaves every other item untouched; a refusal or exception stores nothing and shows a message |
| Forms.SignupSessionInvisibleToApiFetch | frontend/src/components/Signup.jsx:52 | after sign-up, the fetch helper as written attaches no session token, and the corrected one attaches it |
| Forms.SubmitApiKey | frontend/src/components/ApiKeyInput.jsx:10-46 | blank and wrong-prefix keys are refused in that order; the typed key is handed on exactly when the test passes |
| Forms.LeadingSpaceRefused | frontend/src/components/ApiKeyInput.jsx:12-19 | a key with leading white space is refused by the format check, whatever the server would answer |
| EndToEnd.FrameIsTwoLines | backend/server.js:302 | a frame is read as its `data:` line and an empty line, and neither adds to the reply |
| EndToEnd.StreamReadsAsContent | frontend/src/pages/Chat.jsx:381-406 | a body whose frames precede its text reads as that text alone |
| EndToEnd.ServedBody | frontend/src/pages/Chat.jsx:345-437 | an admitted request reaches the page as a body that reads as the stream's text |
| EndToEnd.RefusedTurn | frontend/src/pages/Chat.jsx:360-361 | a refused request shows "API error: 400" in place of the reply and saves nothing |
| EndToEnd.AnsweredTurn | frontend/src/pages/Chat.jsx:373-449 | an answered request shows the reply as the reader assembles it |
| EndToEnd.FailedTurn | backend/server.js:384-389 | a provider failure shows the provider's error text, with the troubleshooting list, as the reply |
| EndToEnd.ConversationRoundTrip | frontend/src/pages/Chat.jsx:351-357 | a reply made of content lines appears word for word, and the next request carries it as history |
| EndToEnd.UploadThenAsk | backend/server.js:312-316 | on an empty page, after a successful upload, a question without a file keyword, if the server admits it, reaches the provider with the generic preamble and not the files, because the upload notice is already in the history |
| EndToEnd.UploadsThenAskOnFirstQuestion | backend/server.js:309-311 | under the intended rule, any run of uploads before the user's first message keeps earlier handles in front, adds no user message, and the next question carries the files exactly when some handle is held |
| EndToEnd.KeyFormAsWritten | frontend/src/components/ApiKeyInput.jsx:26-46 | the key test goes to the base followed by "/test-api-key"; under a base ending in "/api" the form never hands on a key, and a key of the right format ends in the connection error; under any other base it behaves as with the aliased handler |
| EndToEnd.DefaultBaseRefusesValidKey | frontend/src/components/ApiKeyInput.jsx:26-46 | with no configured URL, a key the provider accepts is refused, while the aliased handler would accept it |
| EndToEnd.KeyFormAgainstServer | frontend/src/components/ApiKeyInput.jsx:26-41 | with the key test also served under "/api", the form hands on a key exactly when it passes both local checks and a "Hello" to the default provider with it succeeds |

## Left out

- Provider calls (`handleAIChat`), JWT verification and the database lookup are not modelled; they are the parameters `ai` and `lookup`.
- The user's message reaching the provider and the content of its reply are likewise not modelled.
- The 30 ms delays between word writes and the 300–400 ms waits on the page are not modelled. They affect timing only.
- Response headers are not modelled, and neither is the outer `catch` that answers 500. With every field a string or list, that catch is unreachable in the model.
- The `/upload` handler is left out: reading files from disk and filling the upload map. The map is the parameter `store`.
- multer's storage, its size limit and the unique file names are left out. Only `fileFilter` decides a verdict the core defines.
- `/diagnose-models`, `/health` and the database setup are outside the chat path.
- `TextDecoder` is not modelled. The page's chunks are modelled as already decoded strings.
- `JSON.parse` of frame lines is left out, and so is the progress indicator state it drives. The reply text does not depend on them, because every line starting with "data:" is excluded whether it parses or not.
- React rendering is left out, including the intermediate `setMessages` updates during streaming and the upload progress display. The system notices an upload adds are modelled (`ChatPage.UploadFiles`), because the page sends them as history. For a send, only the final message list, the request and the save are modelled.
- The result of `saveCurrentChat`'s request is left out: the chat id it sets and the list reload. The model states which save is sent.
- The message ids and timestamps from `Date.now()` are left out. They identify messages and do not affect the reply text.
- Login.jsx, App.jsx's session restore, Settings and the other components are outside the chat path.
- Text.ToLower: maps ASCII letters only, while JavaScript maps all of Unicode. Two non-ASCII letters lower-case to text holding ASCII letters. U+212A KELVIN SIGN becomes 'k', so the server finds the keyword in "chec\u212A" and the model does not. U+0130 becomes 'i' followed by U+0307, so the model finds "file" as a whole word in "file\u0130" and the server does not. No whitelisted extension contains 'k', so upload verdicts agree; only the extension shown in a rejection message can differ.
- Text.Trim: lengths are counted in Unicode code points, while JavaScript counts UTF-16 code units. The 50-character title, the 10000-character preview and the 100-character sample differ for text outside the Basic Multilingual Plane.
- ChatList.FormatDate: the locale rendering of dates a week or more old is kept abstract (`LocaleDate`). An unparsable date (`NaN`) is not modelled; the input is a millisecond difference.
- Gateway.ApiChat: the details texts of the progress frames are built but no contract states them. The contracts state their number, their kind and their position before the text.
- Gateway.PreparationFrames: states only that it yields progress frames.
- Gateway.FileFrames: states the number and the stages of the frames, not their details texts (file number, name and character count).
- EndToEnd.KeyTester: the API base is taken to be either the server's origin or the origin followed by "/api", the two forms api.js documents. The error `response.json()` throws on the server's not-found page is the parameter `jsonError`.
- ApiUtil.ApiFetchHeaders: states only where a self-added Authorization header can come from. The full header map is stated by `ApiUtil.FetchHeaders`.
- Forms.CompleteSignup: the user record is kept as its JSON text. A stored Gemini key is modelled as a separate field of the reply.

## Findings

| source | as written | input that shows it | evidently intended | confidence | as-written member | corrected member |
|---|---|---|---|---|---|---|
| backend/server.js:411 | the key test is registered only at `/test-api-key`, while the key form posts to `buildApiUrl('/test-api-key')` (`EndToEnd.KeyTester`) | the default base "/api" (api.js:13): the form posts to `/api/test-api-key`, which the proxy forwards unchanged and no handler serves; the not-found page is not JSON, so every well-formed key ends in "Error connecting to server: …" (`EndToEnd.DefaultBaseRefusesValidKey`) | register the handler under `/api/test-api-key` as well, as server.js:106-107 does for uploads and server.js:231 for chat (`EndToEnd.AliasedKeyTester`) | not executed; no file modelled renders the key form, so the defect is latent in these files | EndToEnd.KeyFormAsWritten | EndToEnd.KeyFormAgainstServer |
| frontend/src/utils/api.js:38 | `apiFetch` reads its bearer token from the "token" storage item | a browser that has just signed up: Signup.jsx:52 (like Login.jsx and App.jsx) stores the session only under "auth_token", so `apiFetch` sends no Authorization header (`ApiUtil.ApiFetchMissesSession`, `Forms.SignupSessionInvisibleToApiFetch`) | read the "auth_token" item that the rest of the client writes | not executed; `apiFetch` has no caller in the files modelled, so the defect is latent | ApiUtil.ApiFetchHeaders | ApiUtil.SessionFetchHeaders |
| backend/server.js:309-313 | the comment says files go into the prompt on the first message, but `isFirstMessage` only tests that the history is empty, and the page's history already holds its own upload notice (Chat.jsx:269-274, 356) | upload one file on a new page, then ask "what does this do?": the history is the one system notice, so the provider gets the generic preamble and not the file (`EndToEnd.UploadThenAsk`) | count only the user's own messages when deciding whether this is the first message (`Context.IncludeFilesOnFirstQuestion`) | not executed; the intent is read from the comment at server.js:309-311 | EndToEnd.UploadThenAsk | EndToEnd.UploadsThenAskOnFirstQuestion |
