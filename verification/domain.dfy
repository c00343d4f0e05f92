/** Values shared by the browser client and the server: conversation
    turns, the user record with its stored per-provider keys, and the
    provider-name to key-field mapping both sides use. A field the record
    leaves unset is modelled as the empty string, which JavaScript treats
    as falsy exactly like `undefined`. */
module Domain {

  datatype Option<T> = None | Some(value: T)

  /** The `sender` field of a chat message. */
  datatype Sender = UserSender | Assistant | SystemSender | ErrorSender

  /** One chat message: who sent it and its text. */
  datatype Turn = Turn(sender: Sender, text: string)

  /** The stored keys of a signed-in user. */
  datatype User = User(geminiApiKey: string, openaiApiKey: string, claudeApiKey: string, perplexityApiKey: string)

  const DefaultProvider: string := "gemini"

  /** The user's stored key for a provider name; "" when the provider is
      not one of the four or no key is stored. */
  function StoredKey(u: User, provider: string): (k: string)
    ensures provider == "gemini" ==> k == u.geminiApiKey
    ensures provider == "chatgpt" ==> k == u.openaiApiKey
    ensures provider == "claude" ==> k == u.claudeApiKey
    ensures provider == "perplexity" ==> k == u.perplexityApiKey
    ensures provider !in {"gemini", "chatgpt", "claude", "perplexity"} ==> k == ""
  {
    if provider == "gemini" then u.geminiApiKey
    else if provider == "chatgpt" then u.openaiApiKey
    else if provider == "claude" then u.claudeApiKey
    else if provider == "perplexity" then u.perplexityApiKey
    else ""
  }
}
