/** Records of the change-detection pipeline (src/types.ts) and the shapes of
    the foreign libraries it calls, which the model takes as given functions. */
module Types {

  datatype Option<+T> = None | Some(value: T)

  /** A value, or the message of the Error that was thrown instead. */
  datatype Result<+T> = Ok(value: T) | Err(message: string)

  /** One monitored page. `selector` is None for both `null` and `undefined`;
      `priority` keeps the configured string so that an unknown level can fall
      back to the default one, as the notifier does. */
  datatype Website = Website(
    name: string,
    url: string,
    selector: Option<string>,
    enabled: bool,
    priority: string,
    tags: Option<seq<string>>)

  /** One successful fetch: when, what was extracted, its digest and the HTTP status. */
  datatype SnapshotEntry = SnapshotEntry(timestamp: string, content: string, hash: string, status: int)

  /** The persisted record of one site (fields last_check, change_count and
      error_count are lastCheck, changeCount and errorCount here). */
  datatype Snapshot = Snapshot(
    url: string,
    name: string,
    current: SnapshotEntry,
    previous: Option<SnapshotEntry>,
    lastCheck: string,
    changeCount: nat,
    errorCount: nat,
    enabled: bool,
    selector: Option<string>)

  /** The verdict for one site in one run; the optional fields are None when absent. */
  datatype ChangeResult = ChangeResult(
    url: string,
    name: string,
    changed: bool,
    isFirstRun: bool,
    oldHash: Option<string>,
    newHash: Option<string>,
    diff: Option<string>,
    error: Option<string>)

  datatype FetchResult = FetchResult(content: string, status: int, error: Option<string>)

  datatype NtfyConfig = NtfyConfig(topic: string, server: string)

  datatype Settings = Settings(timeout: int, retries: int, largeContentThreshold: int)

  /** The configuration, a constant value for the whole run. */
  datatype Config = Config(ntfy: NtfyConfig, settings: Settings, websites: seq<Website>)

  /** A change record of the line-diff library: a run of added, removed or
      common text, newlines included. */
  datatype Change = Added(value: string) | Removed(value: string) | Unchanged(value: string)

  /** The host name and path name a URL parser reports for a valid URL. */
  datatype UrlParts = UrlParts(hostname: string, pathname: string)

  /** What a CSS query finds: it threw, or a selection whose first element
      gives `html()` (possibly null) and `text()`. */
  datatype CssNode = CssNode(html: Option<string>, text: string)
  datatype CssQuery = CssThrew | CssSelection(nodes: seq<CssNode>)

  /** What an XPath query finds: it threw, it produced a value that is not a
      node list (a number, string or boolean), or a node list whose nodes give
      `textContent` (possibly null) and their serialised form. */
  datatype XPathNode = XPathNode(textContent: Option<string>, serialized: string)
  datatype XPathQuery = XPathThrew | XPathScalar | XPathNodes(nodes: seq<XPathNode>)

  /** The foreign libraries the core calls, as the deterministic functions
      they are: the SHA-256 hex digest, the line diff, the URL parser (None for
      an unparseable URL) and the two DOM queries, each applied to the raw
      HTML and the query expression. */
  datatype Libraries = Libraries(
    hash: string -> string,
    lineDiff: (string, string) -> seq<Change>,
    parseUrl: string -> Option<UrlParts>,
    cssSelect: (string, string) -> CssQuery,
    xpathSelect: (string, string) -> XPathQuery)
}
