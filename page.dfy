/** The page view: one listener per webview event, each patching the page's
    record in place and appending the commands it dispatches to a log. */
module BrowserPage {
  import opened PageState
  import opened Filters
  import opened Lifecycle

  class Page {
    const pageId: PageId
    /** The application's own URL scheme prefix. */
    const tofinoProtocol: string

    var load: LoadState
    var code: Option<int>
    var description: Option<string>
    var location: string
    var title: string
    var faviconUrl: Option<string>
    var canGoBack: bool
    var canGoForward: bool
    var canRefresh: bool
    var meta: Option<MetaData>
    /** Every command dispatched so far other than a record patch, in order. */
    var effects: seq<Effect>

    function Ctx(): Context
    {
      Context(pageId, tofinoProtocol)
    }

    function Record(): PageRecord
      reads this
    {
      PageRecord(load, code, description, location, title, faviconUrl,
                 canGoBack, canGoForward, canRefresh, meta)
    }

    /** The record and the log are what `Step` makes of the earlier record
        for `e`, with its commands appended to the earlier log. */
    ghost predicate Follows(r0: PageRecord, log0: seq<Effect>, e: Event)
      reads this
    {
      var o := Step(Ctx(), r0, e);
      Record() == o.record && effects == log0 + o.effects
    }

    /** A page whose record starts as `initial` and has dispatched nothing. */
    constructor (id: PageId, protocol: string, initial: PageRecord)
      ensures pageId == id && tofinoProtocol == protocol
      ensures Record() == initial && effects == []
    {
      pageId, tofinoProtocol := id, protocol;
      load, code, description := initial.load, initial.code, initial.description;
      location, title, faviconUrl := initial.location, initial.title, initial.faviconUrl;
      canGoBack, canGoForward, canRefresh := initial.canGoBack, initial.canGoForward, initial.canRefresh;
      meta := initial.meta;
      effects := [];
    }

    /** `new-window`: open the URL in a new page right after this one. */
    method OnNewWindow(url: string, disposition: string, requesterIndex: int)
      modifies this
      ensures Record() == old(Record())
      ensures effects == old(effects) + [CreatePageSession(url, disposition == ForegroundTab, requesterIndex + 1)]
      ensures Follows(old(Record()), old(effects), NewWindow(url, disposition, requesterIndex))
    {
      var selected := disposition != "" && disposition == ForegroundTab;
      var index := requesterIndex + 1;
      effects := effects + [CreatePageSession(url, selected, index)];
    }

    /** `did-start-loading`. */
    method OnDidStartLoading()
      modifies this
      ensures load == Loading
      ensures Record() == old(Record()).(load := Loading) && effects == old(effects)
      ensures Follows(old(Record()), old(effects), DidStartLoading)
    {
      load := Loading;
    }

    /** `did-navigate`; `url` is the webview's `getURL()`. */
    method OnDidNavigate(url: string)
      modifies this
      ensures location == url && load == old(load)
      ensures Record() == old(Record()).(location := url)
      ensures effects == old(effects) + [SetURLBarValue(pageId, url), FocusURLBar(pageId, IsTofino(url, tofinoProtocol))]
      ensures Follows(old(Record()), old(effects), DidNavigate(url))
    {
      var isTofino := IsTofino(url, tofinoProtocol);
      location := url;
      effects := effects + [SetURLBarValue(pageId, url)];
      effects := effects + [FocusURLBar(pageId, isTofino)];
    }

    /** `did-navigate-in-page`: a same-document navigation. */
    method OnDidNavigateInPage(url: string, isMainFrame: bool)
      modifies this
      ensures load == old(load)
      ensures !isMainFrame ==> Record() == old(Record()) && effects == old(effects)
      ensures isMainFrame ==> Record() == old(Record()).(location := url) &&
                              effects == old(effects) + [SetURLBarValue(pageId, url), AddRemoteHistory(pageId)]
      ensures Follows(old(Record()), old(effects), DidNavigateInPage(url, isMainFrame))
    {
      if !isMainFrame {
        return;
      }
      location := url;
      effects := effects + [SetURLBarValue(pageId, url)];
      effects := effects + [AddRemoteHistory(pageId)];
    }

    /** `did-finish-load`: the listener does nothing. */
    method OnDidFinishLoad()
      ensures Follows(Record(), effects, DidFinishLoad)
    {
    }

    /** `did-stop-loading`; `title` and `url` are the webview's `getTitle()`
        and `getURL()`. Only a page still LOADING becomes LOADED. */
    method OnDidStopLoading(title: string, url: string)
      modifies this
      ensures this.title == title && location == url
      ensures load == if old(load) == Loading then Loaded else old(load)
      ensures Record() == old(Record()).(title := title, location := url, load := load)
      ensures effects == old(effects) + [SetURLBarValue(pageId, url)]
      ensures Follows(old(Record()), old(effects), DidStopLoading(title, url))
    {
      this.title, location := title, url;
      effects := effects + [SetURLBarValue(pageId, url)];
      if load == Loading {
        load := Loaded;
      }
    }

    /** `did-fail-load`. */
    method OnDidFailLoad(errorCode: int, errorDescription: string, validatedURL: string, isMainFrame: bool)
      modifies this
      ensures IsIgnoredFailure(isMainFrame, errorCode) ==>
                Record() == old(Record()) && effects == old(effects)
      ensures !IsIgnoredFailure(isMainFrame, errorCode) ==>
                Record() == old(Record()).(load := Failed, code := Some(errorCode), description := Some(errorDescription)) &&
                effects == old(effects) +
                  (if LooksLikeCertError(errorCode, errorDescription)
                   then [GetCertificateError(pageId, validatedURL)] else []) +
                  [SetURLBarValue(pageId, validatedURL)]
      ensures Follows(old(Record()), old(effects), DidFailLoad(errorCode, errorDescription, validatedURL, isMainFrame))
    {
      if !isMainFrame {
        return;
      }
      if Abs(errorCode) == 3 {
        return;
      }
      if LooksLikeCertError(errorCode, errorDescription) {
        effects := effects + [GetCertificateError(pageId, validatedURL)];
      }
      load, code, description := Failed, Some(errorCode), Some(errorDescription);
      effects := effects + [SetURLBarValue(pageId, validatedURL)];
    }

    /** `page-title-set`. */
    method OnPageTitleSet(title: string)
      modifies this
      ensures Record() == old(Record()).(title := title) && effects == old(effects)
      ensures Follows(old(Record()), old(effects), PageTitleSet(title))
    {
      this.title := title;
    }

    /** `page-favicon-updated`: the first candidate, if any. */
    method OnPageFaviconUpdated(favicons: seq<string>)
      modifies this
      ensures faviconUrl.Some? <==> |favicons| > 0
      ensures faviconUrl.Some? ==> faviconUrl.value == favicons[0]
      ensures Record() == old(Record()).(faviconUrl := faviconUrl) && effects == old(effects)
      ensures Follows(old(Record()), old(effects), PageFaviconUpdated(favicons))
    {
      faviconUrl := First(favicons);
    }

    /** `dom-ready`; the two flags are the webview's `canGoBack()` and
        `canGoForward()`. */
    method OnDomReady(canGoBack: bool, canGoForward: bool)
      modifies this
      ensures this.canGoBack == canGoBack && this.canGoForward == canGoForward && canRefresh
      ensures load == old(load)
      ensures Record() == old(Record()).(canGoBack := canGoBack, canGoForward := canGoForward, canRefresh := true)
      ensures effects == old(effects) + [AddRemoteHistory(pageId)]
      ensures Follows(old(Record()), old(effects), DomReady(canGoBack, canGoForward))
    {
      this.canGoBack, this.canGoForward, canRefresh := canGoBack, canGoForward, true;
      effects := effects + [AddRemoteHistory(pageId)];
    }

    /** `update-target-url`: the hovered link goes to the status bar. */
    method OnUpdateTargetUrl(url: string)
      modifies this
      ensures Record() == old(Record())
      ensures effects == old(effects) + [SetStatusText(url)]
      ensures Follows(old(Record()), old(effects), UpdateTargetUrl(url))
    {
      effects := effects + [SetStatusText(url)];
    }

    /** `ipc-message`: only the `metadata` channel is understood; any other
        channel is logged and otherwise ignored. */
    method OnIpcMessage(channel: string, args: seq<MetaData>)
      modifies this
      ensures channel == MetadataChannel ==> Record() == old(Record()).(meta := First(args))
      ensures channel != MetadataChannel ==> Record() == old(Record())
      ensures effects == old(effects)
      ensures Follows(old(Record()), old(effects), IpcMessage(channel, args))
    {
      if channel == MetadataChannel {
        meta := First(args);
      }
    }

    /** The listener registered for the event's kind handles it. */
    method Handle(e: Event)
      modifies this
      ensures Follows(old(Record()), old(effects), e)
    {
      match e
      case NewWindow(url, disposition, requesterIndex) => OnNewWindow(url, disposition, requesterIndex);
      case DidStartLoading => OnDidStartLoading();
      case DidNavigate(url) => OnDidNavigate(url);
      case DidNavigateInPage(url, isMainFrame) => OnDidNavigateInPage(url, isMainFrame);
      case DidFinishLoad => OnDidFinishLoad();
      case DidStopLoading(title, url) => OnDidStopLoading(title, url);
      case DidFailLoad(errorCode, errorDescription, validatedURL, isMainFrame) =>
        OnDidFailLoad(errorCode, errorDescription, validatedURL, isMainFrame);
      case PageTitleSet(title) => OnPageTitleSet(title);
      case PageFaviconUpdated(favicons) => OnPageFaviconUpdated(favicons);
      case DomReady(canGoBack, canGoForward) => OnDomReady(canGoBack, canGoForward);
      case UpdateTargetUrl(url) => OnUpdateTargetUrl(url);
      case IpcMessage(channel, args) => OnIpcMessage(channel, args);
    }
  }

  /** A failure followed by stop-loading, dispatched to a page through its
      listeners, leaves it FAILED with the failure's code and description. */
  method FailThenStop(p: Page, code: int, description: string, url: string, title: string, location: string)
    requires !IsIgnoredFailure(true, code)
    modifies p
    ensures p.load == Failed && p.code == Some(code) && p.description == Some(description)
    ensures !ErrorPageHidden(p.Record())
    ensures p.title == title && p.location == location
  {
    p.Handle(DidFailLoad(code, description, url, true));
    p.Handle(DidStopLoading(title, location));
  }
}
