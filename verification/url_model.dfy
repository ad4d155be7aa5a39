/**
 * URLs as the WebSocket validators see them. `URLComponents` parsing and
 * re-serialisation are platform code: the parser is a function parameter, so
 * what is proved about the validators holds for every parser.
 */
module UrlModel {
  import opened Wrappers

  /** `URL`, identified by its `absoluteString`; two URLs are equal when these are. */
  datatype Url = Url(absoluteString: string)

  /**
   * What the validators read from `URLComponents`: the scheme, and the URL
   * rebuilt from the components (`components.url`).
   */
  datatype UrlComponents = UrlComponents(scheme: Option<string>, url: Option<Url>)

  /** `URLComponents(string:)`. */
  type UrlParser = string -> Option<UrlComponents>

  /** The two schemes a WebSocket URL may carry. */
  predicate IsWebSocketScheme(scheme: string) {
    scheme == "ws" || scheme == "wss"
  }
}
