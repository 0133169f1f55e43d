/** The page view's listeners as a pure transition: one event turns the
    page record into its next value and yields the commands dispatched,
    in dispatch order. */
module Lifecycle {
  import opened PageState
  import opened Filters

  /** What a listener knows besides the event: the page's id and the
      application's own URL scheme prefix. */
  datatype Context = Context(pageId: PageId, tofinoProtocol: string)

  datatype Outcome = Outcome(record: PageRecord, effects: seq<Effect>)

  const ForegroundTab := "foreground-tab"
  const MetadataChannel := "metadata"

  /** One listener run: the record after the patches it dispatches and the
      other commands it dispatches. */
  function Step(ctx: Context, r: PageRecord, e: Event): (o: Outcome)
    ensures IsDropped(e) ==> o == Outcome(r, [])
    ensures !MovesLoad(e) ==> o.record.load == r.load
    ensures e.NewWindow? || e.UpdateTargetUrl? ==> o.record == r
    ensures |o.effects| <= 2
    ensures ForThisPage(ctx.pageId, o.effects)
  {
    var id := ctx.pageId;
    match e
    case NewWindow(url, disposition, requesterIndex) =>
      Outcome(r, [CreatePageSession(url, disposition == ForegroundTab, requesterIndex + 1)])
    case DidStartLoading =>
      Outcome(r.(load := Loading), [])
    case DidNavigate(url) =>
      Outcome(r.(location := url),
              [SetURLBarValue(id, url), FocusURLBar(id, IsTofino(url, ctx.tofinoProtocol))])
    case DidNavigateInPage(url, isMainFrame) =>
      if !isMainFrame then Outcome(r, [])
      else Outcome(r.(location := url), [SetURLBarValue(id, url), AddRemoteHistory(id)])
    case DidFinishLoad =>
      Outcome(r, [])
    case DidStopLoading(title, url) =>
      Outcome(r.(title := title, location := url,
                 load := if r.load == Loading then Loaded else r.load),
              [SetURLBarValue(id, url)])
    case DidFailLoad(errorCode, errorDescription, validatedURL, isMainFrame) =>
      if IsIgnoredFailure(isMainFrame, errorCode) then Outcome(r, [])
      else
        var cert := if LooksLikeCertError(errorCode, errorDescription)
                    then [GetCertificateError(id, validatedURL)] else [];
        Outcome(r.(load := Failed, code := Some(errorCode), description := Some(errorDescription)),
                cert + [SetURLBarValue(id, validatedURL)])
    case PageTitleSet(title) =>
      Outcome(r.(title := title), [])
    case PageFaviconUpdated(favicons) =>
      Outcome(r.(faviconUrl := First(favicons)), [])
    case DomReady(canGoBack, canGoForward) =>
      Outcome(r.(canGoBack := canGoBack, canGoForward := canGoForward, canRefresh := true),
              [AddRemoteHistory(id)])
    case UpdateTargetUrl(url) =>
      Outcome(r, [SetStatusText(url)])
    case IpcMessage(channel, args) =>
      if channel == MetadataChannel then Outcome(r.(meta := First(args)), [])
      else Outcome(r, [])
  }

  /** A page's event stream handled in arrival order: the final record and
      every command dispatched, in order. */
  function Run(ctx: Context, r: PageRecord, evs: seq<Event>): (o: Outcome)
    ensures |o.effects| <= 2 * |evs|
    ensures ForThisPage(ctx.pageId, o.effects)
    decreases |evs|
  {
    if evs == [] then Outcome(r, [])
    else
      var first := Step(ctx, r, evs[0]);
      var rest := Run(ctx, first.record, evs[1..]);
      Outcome(rest.record, first.effects + rest.effects)
  }

  /** Every command that names a page names `id`: a page's listeners never
      address another page. */
  predicate ForThisPage(id: PageId, effs: seq<Effect>)
  {
    forall i :: 0 <= i < |effs| && !effs[i].CreatePageSession? && !effs[i].SetStatusText? ==>
      effs[i].page == id
  }

  /** The events that move `load`. */
  predicate MovesLoad(e: Event)
  {
    e.DidStartLoading? || e.DidStopLoading? ||
    (e.DidFailLoad? && !IsIgnoredFailure(e.isMainFrame, e.errorCode))
  }

  /** The events a listener drops without any dispatch. */
  predicate IsDropped(e: Event)
  {
    e.DidFinishLoad? ||
    (e.DidNavigateInPage? && !e.isMainFrame) ||
    (e.DidFailLoad? && IsIgnoredFailure(e.isMainFrame, e.errorCode)) ||
    (e.IpcMessage? && e.channel != MetadataChannel)
  }

  /** A failure the listener does not ignore. */
  predicate IsCountedFailure(e: Event)
  {
    e.DidFailLoad? && !IsIgnoredFailure(e.isMainFrame, e.errorCode)
  }

  predicate NoCountedFailure(evs: seq<Event>)
  {
    forall i :: 0 <= i < |evs| ==> !IsCountedFailure(evs[i])
  }

  /** A failure that triggers a certificate-error fetch for `url`. */
  predicate CertFailure(e: Event, url: string)
  {
    e.DidFailLoad? && !IsIgnoredFailure(e.isMainFrame, e.errorCode) &&
    LooksLikeCertError(e.errorCode, e.errorDescription) && e.validatedURL == url
  }

  /** The events that record the page in the remote history. */
  predicate RecordsHistory(e: Event)
  {
    e.DomReady? || (e.DidNavigateInPage? && e.isMainFrame)
  }

  function HistoryEvents(evs: seq<Event>): nat
    decreases |evs|
  {
    if evs == [] then 0
    else (if RecordsHistory(evs[0]) then 1 else 0) + HistoryEvents(evs[1..])
  }

  predicate NoStart(evs: seq<Event>)
  {
    forall i :: 0 <= i < |evs| ==> !evs[i].DidStartLoading?
  }

  predicate NoStop(evs: seq<Event>)
  {
    forall i :: 0 <= i < |evs| ==> !evs[i].DidStopLoading?
  }

  /** A failed record carries the failure's code and description. */
  predicate ErrorDetailsPresent(r: PageRecord)
  {
    r.load == Failed ==> r.code.Some? && r.description.Some?
  }

  /** Every focus request directly follows the URL-bar update for the same
      page, and selects the text iff that URL is one of the application's own. */
  predicate FocusFollowsURLBar(protocol: string, effs: seq<Effect>)
  {
    forall i :: 0 <= i < |effs| && effs[i].FocusURLBar? ==>
      0 < i && effs[i - 1].SetURLBarValue? && effs[i - 1].page == effs[i].page &&
      effs[i].select == IsTofino(effs[i - 1].url, protocol)
  }
}
