/**
 The settings a `Client` is constructed with (`ClientOptions`,
 `defaultClientOptions` and the constructor in src/index.ts).
 */
module Options {

  import opened Wrappers

  const DefaultHttpApiUrl: string := "https://prices.anypayx.com"
  const DefaultWebsocketApiUrl: string := "wss://prices.anypayx.com"

  /** Every field may be left out (`undefined`). */
  datatype ClientOptions = ClientOptions(httpApiUrl: Option<string>, websocketApiUrl: Option<string>, token: Option<string>)

  /** `defaultClientOptions`: both URLs set, no token. */
  const DefaultClientOptions: ClientOptions :=
    ClientOptions(Some(DefaultHttpApiUrl), Some(DefaultWebsocketApiUrl), None)

  /** The options a client gets when called with no argument (`options = {}`). */
  const NoOptions: ClientOptions := ClientOptions(None, None, None)

  /** The settings a constructed client holds. */
  datatype Settings = Settings(httpApiUrl: string, websocketApiUrl: string, token: Option<string>)

  /** JavaScript truthiness of an optional string: `undefined` and `""` are falsy. */
  predicate Truthy(v: Option<string>): (b: bool)
    ensures !b <==> v == None || v == Some("")
  {
    v.Some? && v.value != ""
  }

  /** `v || fallback` on an optional string. */
  function OrElse(v: Option<string>, fallback: string): (r: string)
    ensures Truthy(v) ==> r == v.value
    ensures !Truthy(v) ==> r == fallback
  {
    if Truthy(v) then v.value else fallback
  }

  /**
   What the constructor stores: each URL falls back to its default when the
   supplied value is missing or empty; the token is never copied.
   */
  function Resolve(options: ClientOptions): (r: Settings)
    ensures r.token == None
    ensures r.httpApiUrl != "" && r.websocketApiUrl != ""
    ensures r.httpApiUrl == DefaultHttpApiUrl || options.httpApiUrl == Some(r.httpApiUrl)
    ensures r.websocketApiUrl == DefaultWebsocketApiUrl || options.websocketApiUrl == Some(r.websocketApiUrl)
    ensures Truthy(options.httpApiUrl) <==> (options.httpApiUrl.Some? && r.httpApiUrl == options.httpApiUrl.value && r.httpApiUrl != "")
    ensures Truthy(options.websocketApiUrl) <==>
              (options.websocketApiUrl.Some? && r.websocketApiUrl == options.websocketApiUrl.value && r.websocketApiUrl != "")
  {
    Settings(
      OrElse(options.httpApiUrl, DefaultHttpApiUrl),
      OrElse(options.websocketApiUrl, DefaultWebsocketApiUrl),
      None)
  }

  /** The options that describe a resolved client exactly. */
  function AsOptions(s: Settings): ClientOptions
  {
    ClientOptions(Some(s.httpApiUrl), Some(s.websocketApiUrl), s.token)
  }

  /** Constructing a client from a client's own settings changes nothing. */
  lemma ResolveIdempotent(options: ClientOptions)
    ensures Resolve(AsOptions(Resolve(options))) == Resolve(options)
  {
  }

  /** With no options, or with the empty string for a URL, the defaults are used. */
  lemma DefaultsWhenMissingOrEmpty(token: Option<string>)
    ensures Resolve(NoOptions) == Settings(DefaultHttpApiUrl, DefaultWebsocketApiUrl, None)
    ensures Resolve(ClientOptions(Some(""), Some(""), token)) == Resolve(NoOptions)
    ensures Resolve(DefaultClientOptions) == Resolve(NoOptions)
  {
  }
}
