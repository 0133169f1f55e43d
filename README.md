# Page lifecycle of the tofino browser page view

This project models the page view of the tofino browser
(`app/ui/browser-modern/views/browser/page/index.jsx`). The page view registers one listener for
each of the twelve events of an embedded Electron webview. Each listener does two things:

- it patches the page's record in the application store: `load` ∈ {LOADING, LOADED, FAILED},
  `code`, `description`, `location`, `title`, `favicon_url`, `canGoBack`, `canGoForward`,
  `canRefresh` and `meta`;
- it dispatches commands to other parts of the application: set or focus the URL bar, add
  remote history, fetch a certificate error, set the status text, or create a new page session.

The model has five files:

- `page_state.dfy` (module `PageState`) has the record, the events, the commands and the
  predicate that decides when the error page is hidden.
- `filters.dfy` (module `Filters`) has the pure tests the listeners apply. These are `Math.abs`,
  the unanchored `/CERT/` test (a substring search), the TOFINO-protocol prefix test, the
  ignored-failure test and the certificate-error test.
- `lifecycle.dfy` (module `Lifecycle`) has `Step`, one listener as a pure transition from
  (record, event) to (next record, commands in dispatch order). It also has `Run`, a page's
  event stream handled in arrival order.
- `page.dfy` (module `BrowserPage`) has the class `Page`. Its fields are the record fields and
  a command log `effects`. It has one method per listener, and each method changes its fields
  step by step, as the listener does. Each method states its whole new state. It is also tied
  to `Step` by the predicate `Follows`.
- `properties.dfy` (module `LifecycleProperties`) has lemmas over `Step` and `Run`:
  - who moves `load`;
  - stop-loading never overwrites a failure;
  - dropped events are invisible;
  - when certificate errors are fetched;
  - how often remote history is recorded;
  - URL-bar focus always follows the URL-bar update.

A listener also reads values from the webview or the store: `getURL()`, `getTitle()`,
`canGoBack()`, `canGoForward()`, and the page's index among the pages. In the model these
are parameters of the methods and fields of the events. The value of `Endpoints.TOFINO_PROTOCOL`
is not visible, so it is a parameter too: a field of `Context` and a constant of `Page`. The
page-state module that defines the initial record is not part of this model, so the initial
record is a parameter of `Page`'s constructor.

Facts about the code that the model keeps:

- The page view never writes an IDLE state. `did-start-loading` sets LOADING unconditionally
  (line 67). So a start-loading followed by an abort (code -3) leaves the page LOADING.
- `did-navigate` dispatches only the location patch, the URL-bar update and the focus request
  (lines 77-79).
- Line 67 patches only `load`, so in the model a new load keeps `code` and `description`.
  How the store merges a patch is not part of this model. A record that starts with its failure details keeps them (`ErrorDetailsPreserved`). The
  code and description the error page shows are those of the stream's last failure that
  is not ignored (`LastFailureDetailsShown`).
- In `did-fail-load` the command log keeps the certificate fetch before the URL-bar update.
  The method body also makes the state patch between them, as at lines 148-153.

## Model

| member | source | states |
|---|---|---|
| `BrowserPage.Page.OnNewWindow` | app/ui/browser-modern/views/browser/page/index.jsx:55-61 | The record is unchanged. Exactly one CreatePageSession(url, selected, index) is appended, with selected iff disposition is "foreground-tab" and index = requesting page's index + 1 |
| `BrowserPage.Page.OnDidStartLoading` | app/ui/browser-modern/views/browser/page/index.jsx:64-70 | load becomes LOADING; nothing else changes and no command is dispatched |
| `BrowserPage.Page.OnDidNavigate` | app/ui/browser-modern/views/browser/page/index.jsx:72-80 | location becomes the webview URL and load is kept. SetURLBarValue(url) is appended immediately before FocusURLBar(select), with select iff the URL starts with the TOFINO protocol prefix |
| `BrowserPage.Page.OnDidNavigateInPage` | app/ui/browser-modern/views/browser/page/index.jsx:82-92 | A sub-frame navigation changes nothing. A main-frame one sets location and appends SetURLBarValue(url) then exactly one AddRemoteHistory. load is never touched |
| `BrowserPage.Page.OnDidFinishLoad` | app/ui/browser-modern/views/browser/page/index.jsx:94-98 | The reference transition for finish-load leaves the record and the log as they are, and the listener changes nothing |
| `BrowserPage.Page.OnDidStopLoading` | app/ui/browser-modern/views/browser/page/index.jsx:100-120 | title and location become the queried values and SetURLBarValue(location) is appended. load becomes LOADED iff it was LOADING, and otherwise keeps its value |
| `BrowserPage.Page.OnDidFailLoad` | app/ui/browser-modern/views/browser/page/index.jsx:122-154 | Sub-frame and aborted (abs code 3) failures change neither record nor log. Any other failure sets load FAILED, code and description. It appends GetCertificateError(validatedURL) iff the failure looks like a certificate error, then SetURLBarValue(validatedURL) |
| `BrowserPage.Page.OnPageTitleSet` | app/ui/browser-modern/views/browser/page/index.jsx:156-159 | Only title changes, to the event's title; no command |
| `BrowserPage.Page.OnPageFaviconUpdated` | app/ui/browser-modern/views/browser/page/index.jsx:161-165 | Only favicon_url changes. It becomes the first candidate, or undefined for an empty list; no command |
| `BrowserPage.Page.OnDomReady` | app/ui/browser-modern/views/browser/page/index.jsx:167-179 | canGoBack and canGoForward get the queried values and canRefresh becomes true. load is kept and exactly one AddRemoteHistory is appended |
| `BrowserPage.Page.OnUpdateTargetUrl` | app/ui/browser-modern/views/browser/page/index.jsx:181-183 | The record is unchanged and exactly one SetStatusText(url) is appended |
| `BrowserPage.Page.OnIpcMessage` | app/ui/browser-modern/views/browser/page/index.jsx:185-194 | On the metadata channel, only meta changes, to the first argument. Any other channel leaves the record unchanged. No command is ever dispatched |
| `BrowserPage.Page.Handle` | app/ui/browser-modern/views/browser/page/index.jsx:52-195 | Whatever the event, the page's new record and log are exactly the reference transition `Step` applied to the old ones |
| `BrowserPage.FailThenStop` | app/ui/browser-modern/views/browser/page/index.jsx:113-126 | A main-frame failure (not an abort) followed by stop-loading, sent through the listeners, leaves the page FAILED with that code and description, the queried title and location, and the error page shown |
| `PageState.ErrorPageHidden` | app/ui/browser-modern/views/browser/page/index.jsx:201-204 | The error page is hidden exactly when load is LOADING or LOADED, that is, unless the load FAILED |
| `Lifecycle.Step` | app/ui/browser-modern/views/browser/page/index.jsx:52-195 | One listener run. A dropped event changes nothing. An event that does not move load keeps it. New-window and target-url leave the record alone. At most two commands are dispatched, and every command that names a page names this one |
| `Lifecycle.Run` | app/ui/browser-modern/views/browser/page/index.jsx:52-195 | A stream handled in arrival order dispatches at most two commands per event, and every command that names a page names this one |
| `Filters.IsIgnoredFailure` | app/ui/browser-modern/views/browser/page/index.jsx:129-137 | A failure is ignored iff it is not for the main frame or its code is 3 or -3 |
| `Filters.LooksLikeCertError` | app/ui/browser-modern/views/browser/page/index.jsx:148 | A failure looks like a certificate error iff its code is 501 or -501 or "CERT" occurs somewhere in its description |
| `Filters.Abs` | app/ui/browser-modern/views/browser/page/index.jsx:135 | The result is the error code or its negation, and is never negative |
| `Filters.Contains` | app/ui/browser-modern/views/browser/page/index.jsx:148 | True iff the pattern occurs at some position of the string: the unanchored `/CERT/` test |
| `Filters.IsTofino` | app/ui/browser-modern/views/browser/page/index.jsx:76 | True iff the URL begins with the protocol prefix |
| `PageState.First` | app/ui/browser-modern/views/browser/page/index.jsx:163 | `xs[0]` is defined iff the array is non-empty, and is then its first element |
| `LifecycleProperties.LoadTransitions` | app/ui/browser-modern/views/browser/page/index.jsx:64-152 | In one step, start-loading gives LOADING and a non-ignored failure gives FAILED. Stop-loading gives LOADED from LOADING and keeps any other phase. Every other event (navigate, in-page, title, favicon, dom-ready, target-url, ipc, new-window, ignored failures) keeps load |
| `LifecycleProperties.RunAppend` | app/ui/browser-modern/views/browser/page/index.jsx:52-195 | Handling a stream a+b is handling a, then b from a's final record, with the two command logs concatenated |
| `LifecycleProperties.FailedSurvivesUntilStart` | app/ui/browser-modern/views/browser/page/index.jsx:113-119 | A FAILED record stays FAILED through any stream that has no start-loading |
| `LifecycleProperties.FailureOutlivesStopLoading` | app/ui/browser-modern/views/browser/page/index.jsx:122-153 | Take a non-ignored failure, then stop-loading, then any start-free events. The page ends FAILED with its error page shown |
| `LifecycleProperties.NoLoadingWithoutStart` | app/ui/browser-modern/views/browser/page/index.jsx:64-70 | A record not LOADING never becomes LOADING in a stream without start-loading |
| `LifecycleProperties.NoLoadedWithoutStop` | app/ui/browser-modern/views/browser/page/index.jsx:113-119 | A record not LOADED never becomes LOADED in a stream without stop-loading |
| `LifecycleProperties.DroppedEventsInvisible` | app/ui/browser-modern/views/browser/page/index.jsx:86-192 | These events change neither the record nor the log: finish-load, sub-frame in-page navigations, sub-frame or aborted failures, and ipc messages on unknown channels |
| `LifecycleProperties.CertificateFetchIff` | app/ui/browser-modern/views/browser/page/index.jsx:145-150 | GetCertificateError(url) is in a stream's log iff the stream has a non-ignored failure that names url and has abs code 501 or "CERT" in its description |
| `LifecycleProperties.HistoryRecordedPerEvent` | app/ui/browser-modern/views/browser/page/index.jsx:86-179 | The log holds exactly one AddRemoteHistory per dom-ready and per main-frame in-page navigation, and no others |
| `LifecycleProperties.ErrorDetailsPreserved` | app/ui/browser-modern/views/browser/page/index.jsx:139-152 | If a FAILED record has a code and a description, that stays true after any stream |
| `LifecycleProperties.ErrorDetailsKept` | app/ui/browser-modern/views/browser/page/index.jsx:139-152 | A stream with no failure that is counted (not ignored) leaves code and description as they were |
| `LifecycleProperties.LastFailureDetailsShown` | app/ui/browser-modern/views/browser/page/index.jsx:139-152 | After any stream, code and description are those of the last failure in it that is not ignored |
| `LifecycleProperties.StepHistory` | app/ui/browser-modern/views/browser/page/index.jsx:86-179 | One listener asks for a remote-history record exactly once for dom-ready and for a main-frame in-page navigation, and never otherwise |
| `LifecycleProperties.StepFocusFollowsURLBar` | app/ui/browser-modern/views/browser/page/index.jsx:75-79 | In one listener's commands, each focus request directly follows that page's URL-bar update, selects iff that URL is a TOFINO URL, and never comes first |
| `LifecycleProperties.FocusAlwaysFollowsURLBar` | app/ui/browser-modern/views/browser/page/index.jsx:75-79 | The same holds for the whole log of any stream: every FocusURLBar directly follows the SetURLBarValue it belongs to |

## Left out

- React rendering, styling, `connect` and `mapStateToProps` (lines 197-232) are left out. They are UI plumbing. Only the `hidden` test of the error page (line 202) is kept.
- `componentDidMount` and its `onMount` call (lines 45-50) are left out. They are component lifecycle, not event handling.
- The webview DOM and the Electron APIs (`addEventListener`, `getURL`, `getTitle`, `canGoBack`, `canGoForward`) are calls into a foreign API. Their results are parameters.
- The internals of `PageActions`, `PageEffects`, `UIEffects`, `UIActions`, `ProfileEffects` and `PagesSelectors` are not part of this model. Each record patch is a field assignment. Each other dispatch is one record appended to the command log.
- The log does not record the interleaving of record patches with other commands. It keeps only the order of the other commands among themselves.
- BrowserPage.Page.OnIpcMessage: `setPageMeta`'s merge with the previous metadata is not visible. It is modelled as replacing `meta` with the first argument, or with undefined when the message has no arguments.
- BrowserPage.Page.OnDidStopLoading: the listener reads `load` from the props given to the component (line 115). The model reads the record's current `load`, so it assumes the props hold the store's latest value.
- BrowserPage.Page.OnNewWindow: for an empty disposition, the source's `selected` is the empty string, a falsy value. The model uses `false`. `getPageIndexById`'s result is taken as any integer.
- Error codes are modelled as integers, although JavaScript numbers are floating point.
- The value of `Endpoints.TOFINO_PROTOCOL` is not visible. It is a constructor parameter.
- The `logger.warn` call for unknown ipc channels (line 191) is logging only. It is modelled as no change.
- `app/ui/browser-blueprint/views/window/status.jsx` is left out. It is a presentational component that only hides itself when the status text is empty.
- `build/tasks.js` is left out. It is build and packaging orchestration, which is I/O and process tooling.
