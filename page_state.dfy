/** The record that the page view keeps for one page in the application store,
    the renderer events it listens to, and the commands it dispatches besides
    patches to that record. */
module PageState {

  datatype Option<+T> = None | Some(value: T)

  /** JavaScript's `xs[0]`: the first element, or `undefined` for an empty array. */
  function First<T>(xs: seq<T>): (r: Option<T>)
    ensures r.Some? <==> |xs| > 0
    ensures r.Some? ==> r.value == xs[0]
  {
    if |xs| == 0 then None else Some(xs[0])
  }

  type PageId = string

  /** The payload of a `metadata` ipc message: page-supplied key/value data. */
  type MetaData = map<string, string>

  /** The load phases the page view writes into the record. */
  datatype LoadState = Loading | Loaded | Failed

  /** The per-page record: the fields patched by `setPageState`
      (load, code, description, canGoBack, canGoForward, canRefresh),
      by `setPageDetails` (location, title, faviconUrl) and by `setPageMeta` (meta). */
  datatype PageRecord = PageRecord(
    load: LoadState,
    code: Option<int>,
    description: Option<string>,
    location: string,
    title: string,
    faviconUrl: Option<string>,
    canGoBack: bool,
    canGoForward: bool,
    canRefresh: bool,
    meta: Option<MetaData>)

  /** Commands dispatched to collaborators outside the page record. */
  datatype Effect =
    | CreatePageSession(url: string, selected: bool, index: int)
    | SetURLBarValue(page: PageId, url: string)
    | FocusURLBar(page: PageId, select: bool)
    | AddRemoteHistory(page: PageId)
    | GetCertificateError(page: PageId, url: string)
    | SetStatusText(text: string)

  /** The twelve webview events the page view listens to. Values that a
      listener queries from the webview or the store when the event fires
      (`getURL()`, `getTitle()`, `canGoBack()`, `canGoForward()`, the page's
      index among the pages) travel with the event. */
  datatype Event =
    | NewWindow(url: string, disposition: string, requesterIndex: int)
    | DidStartLoading
    | DidNavigate(url: string)
    | DidNavigateInPage(url: string, isMainFrame: bool)
    | DidFinishLoad
    | DidStopLoading(title: string, url: string)
    | DidFailLoad(errorCode: int, errorDescription: string, validatedURL: string, isMainFrame: bool)
    | PageTitleSet(title: string)
    | PageFaviconUpdated(favicons: seq<string>)
    | DomReady(canGoBack: bool, canGoForward: bool)
    | UpdateTargetUrl(url: string)
    | IpcMessage(channel: string, args: seq<MetaData>)

  /** The error page is hidden unless the record says the load failed. */
  predicate ErrorPageHidden(r: PageRecord): (hidden: bool)
    ensures hidden <==> r.load == Loading || r.load == Loaded
  {
    r.load != Failed
  }
}
