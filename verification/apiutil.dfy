/** The client's URL and header helpers (frontend/src/utils/api.js): the
    API base chosen from the build-time setting, endpoint joining, and the
    header object `apiFetch` sends. Browser storage is a map from key to
    value, a missing item reading as "". */
module ApiUtil {
  import opened Text

  type Headers = map<string, string>
  type Storage = map<string, string>

  const DefaultBase: string := "/api"
  const JsonContentType: string := "application/json"

  /** The storage key `apiFetch` reads its token from. */
  const FetchTokenKey: string := "token"
  /** The storage key sign-up, login and the app shell keep the session
      token under. */
  const SessionTokenKey: string := "auth_token"

  /** `getApiUrl`: the configured URL when it is set, else the relative base. */
  function ApiBase(configured: string): (base: string)
    ensures base != ""
    ensures configured != "" ==> base == configured
  {
    if configured != "" then configured else DefaultBase
  }

  /** `buildApiUrl`: a base ending in "/api" takes the endpoint verbatim;
      any other base gets a '/' in front of an endpoint that lacks one. */
  function BuildApiUrl(base: string, endpoint: string): (url: string)
    ensures StartsWith(url, base) && EndsWith(url, endpoint)
    ensures |url| >= |base| + |endpoint|
    ensures url == base + endpoint || url == base + "/" + endpoint
  {
    if EndsWith(base, "/api") then base + endpoint
    else
      var path := if StartsWith(endpoint, "/") then endpoint else "/" + endpoint;
      var url := base + path;
      assert url[..|base|] == base;
      assert url[|url| - |endpoint|..] == endpoint;
      url
  }

  /** An endpoint with a leading '/' is appended as it is, whatever the
      base; one without gets the '/' exactly when the base does not end in
      "/api". */
  lemma BuildApiUrlCases(base: string, endpoint: string)
    ensures StartsWith(endpoint, "/") ==> BuildApiUrl(base, endpoint) == base + endpoint
    ensures !StartsWith(endpoint, "/") ==>
      (BuildApiUrl(base, endpoint) == base + "/" + endpoint <==> !EndsWith(base, "/api"))
  {
    if !StartsWith(endpoint, "/") && EndsWith(base, "/api") {
      var url := base + endpoint;
      if |endpoint| > 0 {
        assert url[|base|] == endpoint[0] != '/';
        assert (base + "/" + endpoint)[|base|] == '/';
      } else {
        assert |base + "/" + endpoint| != |url|;
      }
    }
  }

  /** Every page request goes to the configured base followed by the
      endpoint; with no configured URL, "/chat" becomes "/api/chat". */
  lemma DefaultChatUrl()
    ensures BuildApiUrl(ApiBase(""), "/chat") == "/api/chat"
  {
    var base := ApiBase("");
    assert base == "/api";
    assert EndsWith(base, "/api");
  }

  /** A request for an endpoint with a leading '/' goes to the base
      followed by the endpoint, so its path ends in "/api" plus the
      endpoint exactly when the base ends in "/api". */
  lemma ApiRoute(base: string, endpoint: string)
    requires StartsWith(endpoint, "/")
    ensures var url := BuildApiUrl(base, endpoint);
      && url == base + endpoint
      && (EndsWith(url, "/api" + endpoint) <==> EndsWith(base, "/api"))
  {
    BuildApiUrlCases(base, endpoint);
    var url := base + endpoint;
    var tail := "/api" + endpoint;
    if EndsWith(base, "/api") {
      assert url[|url| - |tail|..] == base[|base| - 4..] + endpoint;
    }
    if EndsWith(url, tail) {
      assert base[|base| - 4..] == url[|url| - |tail|..|url| - |endpoint|];
      assert url[|url| - |tail|..|url| - |endpoint|] == tail[..4];
    }
  }

  /** The chat request reaches the framed `/api/chat` handler exactly when
      the base ends in "/api"; otherwise its path ends in "/chat", the
      unframed handler. */
  lemma ChatRoute(base: string)
    ensures var url := BuildApiUrl(base, "/chat");
      && url == base + "/chat"
      && (EndsWith(url, "/api/chat") <==> EndsWith(base, "/api"))
  {
    var endpoint := "/chat";
    assert StartsWith(endpoint, "/") by { assert endpoint[..1] == "/"; }
    ApiRoute(base, endpoint);
    assert "/api" + endpoint == "/api/chat";
  }

  /** `localStorage.getItem(key)`, with a missing item as "". */
  function StoredItem(storage: Storage, key: string): string {
    if key in storage then storage[key] else ""
  }

  /** The header merge: a JSON content type unless the caller sets one,
      the caller's headers over it, and, with a token, an Authorization
      header that replaces the caller's. */
  function FetchHeaders(caller: Headers, token: string): (h: Headers)
    ensures "Content-Type" in h
    ensures h["Content-Type"] == if "Content-Type" in caller then caller["Content-Type"] else JsonContentType
    ensures token != "" ==> "Authorization" in h && h["Authorization"] == "Bearer " + token
    ensures token == "" ==> ("Authorization" in h <==> "Authorization" in caller)
    ensures token == "" && "Authorization" in caller ==> h["Authorization"] == caller["Authorization"]
    ensures forall k :: k != "Authorization" && k != "Content-Type" ==>
      (k in h <==> k in caller) && (k in caller ==> h[k] == caller[k])
  {
    var merged := map["Content-Type" := JsonContentType] + caller;
    if token != "" then merged["Authorization" := "Bearer " + token] else merged
  }

  /** `apiFetch`'s headers as written: the token comes from the "token" item. */
  function ApiFetchHeaders(storage: Storage, caller: Headers): (h: Headers)
    ensures ("Authorization" in h && "Authorization" !in caller) ==> StoredItem(storage, FetchTokenKey) != ""
  {
    FetchHeaders(caller, StoredItem(storage, FetchTokenKey))
  }

  /** The headers with the token read from the item the session is kept
      under, "auth_token". */
  function SessionFetchHeaders(storage: Storage, caller: Headers): (h: Headers)
    ensures StoredItem(storage, SessionTokenKey) != "" ==>
      "Authorization" in h && h["Authorization"] == "Bearer " + StoredItem(storage, SessionTokenKey)
  {
    FetchHeaders(caller, StoredItem(storage, SessionTokenKey))
  }

  /** With a signed-in session stored the usual way and no "token" item,
      the helper as written sends no Authorization header of its own,
      while reading "auth_token" sends the session's bearer token. */
  lemma ApiFetchMissesSession(storage: Storage, caller: Headers)
    requires StoredItem(storage, SessionTokenKey) != ""
    requires FetchTokenKey !in storage && "Authorization" !in caller
    ensures "Authorization" !in ApiFetchHeaders(storage, caller)
    ensures SessionFetchHeaders(storage, caller)["Authorization"] == "Bearer " + storage[SessionTokenKey]
  {
  }
}
