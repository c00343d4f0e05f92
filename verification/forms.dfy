/** The two form submit handlers with an ordered chain of checks:
    sign-up (frontend/src/components/Signup.jsx) and the first-run key
    entry (frontend/src/components/ApiKeyInput.jsx). Each check that fails
    shows its message and stops; the server's answer is a parameter. */
module Forms {
  import opened Text
  import opened ApiUtil

  const RequiredFieldsError: string := "Please fill in all required fields"
  const PasswordMismatchError: string := "Passwords do not match"
  const ShortPasswordError: string := "Password must be at least 6 characters"
  const MinPassword: nat := 6

  datatype SignupForm = SignupForm(name: string, email: string, password: string, confirmPassword: string, geminiApiKey: string)

  /** The body of the sign-up POST. */
  datatype SignupBody = SignupBody(name: string, email: string, password: string, geminiApiKey: string)

  /** The first failing check's message, or the request to send. */
  datatype SignupCheck = SignupError(message: string) | SignupRequest(body: SignupBody)

  /** The checks of `handleSubmit`, in order: required fields, matching
      confirmation, then the length of the password as typed. */
  function CheckSignup(f: SignupForm): (r: SignupCheck)
    ensures r.SignupRequest? <==>
      !Blank(f.name) && !Blank(f.email) && !Blank(f.password)
      && f.password == f.confirmPassword && |f.password| >= MinPassword
    ensures r.SignupRequest? ==> r.body == SignupBody(f.name, f.email, f.password, f.geminiApiKey)
    ensures (Blank(f.name) || Blank(f.email) || Blank(f.password)) ==> r == SignupError(RequiredFieldsError)
    ensures !Blank(f.name) && !Blank(f.email) && !Blank(f.password) && f.password != f.confirmPassword ==>
      r == SignupError(PasswordMismatchError)
    ensures (!Blank(f.name) && !Blank(f.email) && !Blank(f.password) && f.password == f.confirmPassword
             && |f.password| < MinPassword) ==> r == SignupError(ShortPasswordError)
  {
    if Blank(f.name) || Blank(f.email) || Blank(f.password) then SignupError(RequiredFieldsError)
    else if f.password != f.confirmPassword then SignupError(PasswordMismatchError)
    else if |f.password| < MinPassword then SignupError(ShortPasswordError)
    else SignupRequest(SignupBody(f.name, f.email, f.password, f.geminiApiKey))
  }

  /** The optional key plays no part in validation: changing it changes
      only the key carried by the request. */
  lemma SignupIgnoresKey(f: SignupForm, key: string)
    ensures var g := f.(geminiApiKey := key);
      && CheckSignup(f).SignupRequest? == CheckSignup(g).SignupRequest?
      && (CheckSignup(f).SignupError? ==> CheckSignup(f) == CheckSignup(g))
      && (CheckSignup(f).SignupRequest? ==> CheckSignup(g).body == CheckSignup(f).body.(geminiApiKey := key))
  {
  }

  /** The length rule counts the password as typed: white space around it
      counts towards the six characters, while an all-space password is
      stopped earlier as missing. */
  lemma PasswordLengthUntrimmed(f: SignupForm)
    requires !Blank(f.name) && !Blank(f.email) && f.password == f.confirmPassword
    ensures Blank(f.password) ==> CheckSignup(f) == SignupError(RequiredFieldsError)
    ensures !Blank(f.password) && |f.password| >= MinPassword ==> CheckSignup(f).SignupRequest?
    ensures |Trim(f.password)| < MinPassword <= |f.password| && !Blank(f.password) ==> CheckSignup(f).SignupRequest?
  {
  }

  /** The sign-up server's answer: a session token with the user record
      (its JSON text and its stored Gemini key), or an error text. */
  datatype SignupReply =
    | SignedUp(token: string, userJson: string, geminiApiKey: string)
    | SignupRefused(error: string)
    | SignupUnreachable(message: string)

  /** What the browser keeps after the answer, and the message shown. */
  datatype SignupOutcome = SignupOutcome(storage: Storage, error: string)

  const UserItemKey: string := "user"
  const GeminiKeyItemKey: string := "gemini_api_key"

  /** The handling of the answer: a session is stored under "auth_token"
      and the user record under "user" (and a returned key under
      "gemini_api_key"); a refusal shows the server's error or "Signup
      failed"; an exception shows its message. */
  function CompleteSignup(storage: Storage, reply: SignupReply): (r: SignupOutcome)
    ensures reply.SignedUp? ==>
      && StoredItem(r.storage, SessionTokenKey) == reply.token
      && StoredItem(r.storage, UserItemKey) == reply.userJson
      && (reply.geminiApiKey != "" ==> StoredItem(r.storage, GeminiKeyItemKey) == reply.geminiApiKey)
      && r.error == ""
    ensures reply.SignedUp? ==> forall k :: k != SessionTokenKey && k != UserItemKey && k != GeminiKeyItemKey ==>
      (k in r.storage <==> k in storage) && (k in storage ==> r.storage[k] == storage[k])
    ensures reply.SignedUp? && reply.geminiApiKey == "" ==>
      (GeminiKeyItemKey in r.storage <==> GeminiKeyItemKey in storage)
    ensures !reply.SignedUp? ==> r.storage == storage && r.error != ""
  {
    match reply
    case SignedUp(token, user, key) =>
      var s := storage[SessionTokenKey := token][UserItemKey := user];
      SignupOutcome(if key != "" then s[GeminiKeyItemKey := key] else s, "")
    case SignupRefused(error) => SignupOutcome(storage, if error != "" then error else "Signup failed")
    case SignupUnreachable(message) => SignupOutcome(storage, "Error: " + message)
  }

  /** After signing up in a browser with no "token" item, the generic fetch
      helper as written attaches no Authorization header, while reading the
      session item would attach the new session's token. */
  lemma SignupSessionInvisibleToApiFetch(storage: Storage, token: string, user: string, key: string, caller: Headers)
    requires token != "" && FetchTokenKey !in storage && "Authorization" !in caller
    ensures var s := CompleteSignup(storage, SignedUp(token, user, key)).storage;
      && "Authorization" !in ApiFetchHeaders(s, caller)
      && SessionFetchHeaders(s, caller)["Authorization"] == "Bearer " + token
  {
    var s := CompleteSignup(storage, SignedUp(token, user, key)).storage;
    assert FetchTokenKey != SessionTokenKey && FetchTokenKey != UserItemKey && FetchTokenKey != GeminiKeyItemKey;
    ApiFetchMissesSession(s, caller);
  }

  const EmptyKeyError: string := "API key cannot be empty"
  const GeminiKeyPrefix: string := "AIzaSy"
  const KeyFormatError: string := "Invalid Gemini API key format. Key should start with \"AIzaSy\""

  /** The answer to the key test request. */
  datatype KeyTestReply = KeyTestPassed | KeyTestFailed(error: string) | KeyTestUnreachable(message: string)

  /** What the key form does: hand the key to the page, or show an error. */
  datatype KeyFormOutcome = KeySubmitted(key: string) | KeyFormError(message: string)

  /** `handleSubmit` of the key form. The test request, whose body carries
      only the key, is made only when both checks pass; the key handed on
      is the one typed, untrimmed, and only after the test passed. */
  function SubmitApiKey(apiKey: string, test: string -> KeyTestReply): (r: KeyFormOutcome)
    ensures Blank(apiKey) ==> r == KeyFormError(EmptyKeyError)
    ensures !Blank(apiKey) && !StartsWith(apiKey, GeminiKeyPrefix) ==> r == KeyFormError(KeyFormatError)
    ensures r.KeySubmitted? <==> !Blank(apiKey) && StartsWith(apiKey, GeminiKeyPrefix) && test(apiKey).KeyTestPassed?
    ensures r.KeySubmitted? ==> r.key == apiKey
  {
    if Blank(apiKey) then KeyFormError(EmptyKeyError)
    else if !StartsWith(apiKey, GeminiKeyPrefix) then KeyFormError(KeyFormatError)
    else
      match test(apiKey)
      case KeyTestPassed => KeySubmitted(apiKey)
      case KeyTestFailed(error) =>
        KeyFormError("API key validation failed: " + (if error != "" then error else "Unknown error"))
      case KeyTestUnreachable(message) =>
        KeyFormError("Error connecting to server: " + message + ". Make sure backend is running on localhost:5000")
  }

  /** The format check looks at the key as typed, so a key with leading
      white space is refused even though it is not blank, and no test is
      made whatever the server would answer. */
  lemma LeadingSpaceRefused(key: string, pad: string, test: string -> KeyTestReply, other: string -> KeyTestReply)
    requires |pad| > 0 && Blank(pad)
    requires StartsWith(key, GeminiKeyPrefix)
    ensures SubmitApiKey(pad + key, test) == KeyFormError(KeyFormatError)
    ensures SubmitApiKey(pad + key, test) == SubmitApiKey(pad + key, other)
  {
    var k := pad + key;
    assert k[|pad|] == key[0] == 'A';
    assert !IsSpace('A');
    assert !StartsWith(k, GeminiKeyPrefix) by {
      assert IsSpace(k[0]) && k[0] == pad[0];
      assert GeminiKeyPrefix[0] == 'A';
    }
  }
}
