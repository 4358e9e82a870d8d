/**
 * `PdfViewerComponent`: opening a document, the loading timeout, the
 * heartbeat that restarts a stalled viewer, and the bookkeeping of PDF.js
 * render tasks kept in a map from page number to task.
 *
 * `initializePdf`, `loadPdfDocument` and `renderCurrentPage` are cut at
 * their `await`s: each method below runs one uninterrupted stretch of code,
 * and the event that resumes the rest (a document that opens, a page that is
 * fetched, a render task that settles, a timer that fires) is a method of its
 * own. The proxy probe inside `initializePdf` and the page fetches inside
 * `renderAllPages` are not cut. A render task is a number handed out by a
 * counter; the ghost fields record which page each task was started for,
 * which tasks were cancelled and which have settled.
 */
module PdfViewer {
  import opened Types
  import opened Text
  import Utils
  import ErrorBoundary

  /** What the component emits: `onLoad` with the page count, or `onError`. */
  datatype Output = LoadEmitted(totalPages: nat) | ErrorEmitted(message: string)

  /** The render pass `loadPdfDocument` starts once the document is open. */
  datatype RenderPass = CurrentPagePass | AllPagesPass

  const NO_SOURCE_MESSAGE := "No PDF source provided"
  const OFFLINE_MESSAGE := "No internet connection. Please check your network and try again."
  const TIMEOUT_MESSAGE := "PDF loading timeout"
  const LOAD_FAILED_PREFIX := "Failed to load PDF document: "
  const RENDER_ERROR_CONTEXT := "PDF page rendering"
  const PDF_DATA_PREFIX := "data:application/pdf;base64,"
  const LOAD_TIMEOUT_MS: nat := 30000
  const HEARTBEAT_INTERVAL_MS: nat := 10000
  const STALL_THRESHOLD_MS: nat := 60000

  /** `Array.from({ length: n }, (_, i) => i + 1)`. */
  function PageNumbers(n: nat): (pages: seq<int>)
    ensures |pages| == n
    ensures forall i :: 0 <= i < n ==> pages[i] == i + 1
  {
    seq(n, i => i + 1)
  }

  /** `setError` flags a CORS error when the lower-cased message mentions `cors`. */
  predicate IsCorsMessage(message: string)
  {
    Contains(ToLower(message), "cors")
  }

  /** Unlike the shared file-name helper, the component keeps the query string. */
  lemma PdfFileNameKeepsQuery()
    ensures Utils.LastPathSegmentOr("docs/a.pdf?v=1", "document.pdf") == "a.pdf?v=1"
    ensures Utils.GetFileName("docs/a.pdf?v=1") == "a.pdf"
  {
    LastSegmentOfConcat("docs", "a.pdf?v=1", '/');
    assert "docs/a.pdf?v=1" == "docs" + ['/'] + "a.pdf?v=1";
    FirstSegmentOfConcat("docs/a.pdf", "?v=1", '?');
    assert "docs/a.pdf?v=1" == "docs/a.pdf" + "?v=1";
    LastSegmentOfConcat("docs", "a.pdf", '/');
    assert "docs/a.pdf" == "docs" + ['/'] + "a.pdf";
  }

  /** The source `initializePdf` picks: `blob:` and `data:` as they are, an external URL through the proxies. */
  function ChosenSource(b: Utils.Browser, net: Utils.Network, src: string): (r: string)
    ensures StartsWith(src, "blob:") || StartsWith(src, "data:") || !Utils.IsExternalUrl(b, src) ==> r == src
  {
    if StartsWith(src, "blob:") || StartsWith(src, "data:") then src
    else if Utils.IsExternalUrl(b, src) then Utils.Resolve(b, net, src).value
    else src
  }

  /** The URL handed to PDF.js: the chosen source, with a decodable base64 PDF data URL turned into an object URL. */
  function LoadSource(b: Utils.Browser, net: Utils.Network, src: string): (r: string)
  {
    var chosen := ChosenSource(b, net, src);
    if StartsWith(chosen, PDF_DATA_PREFIX) then Utils.DataUrlBlob(b, chosen).GetOr(chosen) else chosen
  }

  /** The refusal `initializePdf` gives before loading: an empty source, then an offline browser. */
  function LoadRefusal(b: Utils.Browser, src: string): (r: Option<string>)
    ensures r.None? <==> src != "" && b.online
  {
    if src == "" then Some(NO_SOURCE_MESSAGE)
    else if !b.online then Some(OFFLINE_MESSAGE)
    else None
  }

  /** `isExternalUrl` as `initializePdf` asks it: never for a `blob:` or `data:` source. */
  function IsExternalSource(b: Utils.Browser, src: string): (r: bool)
    ensures r ==> !StartsWith(src, "blob:") && !StartsWith(src, "data:")
  {
    !StartsWith(src, "blob:") && !StartsWith(src, "data:") && Utils.IsExternalUrl(b, src)
  }

  /** A base64 PDF data URL never goes to the network: PDF.js gets its object URL, or the data URL when it does not decode. */
  lemma PdfDataUrlLoadsLocally(b: Utils.Browser, net1: Utils.Network, net2: Utils.Network, src: string)
    requires StartsWith(src, PDF_DATA_PREFIX)
    ensures LoadSource(b, net1, src) == LoadSource(b, net2, src)
    ensures Utils.DataUrlBlob(b, src).None? ==> LoadSource(b, net1, src) == src
  {
    assert StartsWith(src, "data:") by {
      assert src[..5] == PDF_DATA_PREFIX[..5];
    }
  }

  /** The pages a sequential pass over pages `1..count` marks loaded: those with a canvas whose render succeeds. */
  function RenderedPages(count: nat, canvases: nat, renderOk: int -> bool): (pages: set<int>)
    ensures forall p :: p in pages <==> 1 <= p <= count && p <= canvases && renderOk(p)
  {
    set p | 1 <= p <= count && p <= canvases && renderOk(p)
  }

  /** One more page of the pass adds at most that page. */
  lemma RenderedPagesStep(count: nat, canvases: nat, renderOk: int -> bool)
    ensures RenderedPages(count + 1, canvases, renderOk) ==
      RenderedPages(count, canvases, renderOk) + (if count + 1 <= canvases && renderOk(count + 1) then {count + 1} else {})
  {
  }

  /** The entry a failed page fetch or render leaves in the error boundary. */
  function RenderReport(message: string, now: int): Option<ErrorBoundary.ErrorInfo>
  {
    Some(ErrorBoundary.ErrorInfoOf(ErrorBoundary.ErrorObject(message, None), Some(RENDER_ERROR_CONTEXT), now))
  }

  /** A non-empty set of page numbers has a member. */
  lemma SomePage(pages: set<int>)
    requires pages != {}
    ensures exists p :: p in pages
  {
    if forall p :: p !in pages {
      assert false;
    }
  }

  /** A task in the map's values is filed under some page. */
  lemma PageOfTask(tasks: map<int, nat>, t: nat) returns (p: int)
    requires t in tasks.Values
    ensures p in tasks && tasks[p] == t
  {
    if forall q :: q in tasks ==> tasks[q] != t {
      assert false;
    }
    p :| p in tasks && tasks[p] == t;
  }

  class PdfViewerComponent {
    // Inputs
    var src: string
    var currentPage: int
    var viewMode: ViewMode
    // Load state
    var loading: bool
    var error: Option<string>
    var isCorsError: bool
    var totalPages: nat
    var pages: seq<int>
    var loadedPages: set<int>
    /** The open document, `None` for `null`; a document is known by a number. */
    var pdfDocument: Option<nat>
    var proxiedSrc: string
    var isExternal: bool
    /** An `AbortController` is held. */
    var abortController: bool
    /** A loading-timeout id is held (the timer callback does not clear it). */
    var holdsTimeout: bool
    /** A heartbeat interval is running. */
    var heartbeatRunning: bool
    var lastActivity: int
    /** The tracked render tasks, by page number. */
    var renderTasks: map<int, nat>
    /** The number the next render task gets. */
    var nextTask: nat
    ghost var taskPage: map<nat, int>
    ghost var cancelled: set<nat>
    ghost var settled: set<nat>
    /** Documents `destroy()` was called on. */
    ghost var destroyed: set<nat>
    /** Object URLs passed to `revokeBlobUrl`. */
    ghost var revoked: set<string>
    var outputs: seq<Output>
    const errorBoundary: ErrorBoundary.ErrorBoundaryService

    /**
     * The bookkeeping the render-task map is meant to keep: every tracked task
     * was started for the page it is filed under and has not been cancelled,
     * and every task still running is tracked, so that cancelling the map's
     * tasks stops every render in flight.
     */
    ghost predicate Valid()
      reads this`taskPage, this`nextTask, this`cancelled, this`settled, this`renderTasks
    {
      && Sound()
      && (forall p :: p in renderTasks ==>
            renderTasks[p] in taskPage && taskPage[renderTasks[p]] == p && renderTasks[p] !in cancelled)
      && (forall t :: t in taskPage && t !in cancelled && t !in settled ==>
            taskPage[t] in renderTasks && renderTasks[taskPage[t]] == t)
    }

    /**
     * What holds in every state the component can reach, races included: the
     * counter is ahead of every task handed out, and only started tasks are
     * tracked, cancelled or settled.
     */
    ghost predicate Sound()
      reads this`taskPage, this`nextTask, this`cancelled, this`settled, this`renderTasks
    {
      && (forall t :: t in taskPage ==> t < nextTask)
      && cancelled <= taskPage.Keys
      && settled <= taskPage.Keys
      && (forall p :: p in renderTasks ==> renderTasks[p] in taskPage)
    }

    /** Task `t` was started and has neither been cancelled nor settled. */
    ghost predicate Live(t: nat)
      reads this`taskPage, this`cancelled, this`settled
    {
      t in taskPage && t !in cancelled && t !in settled
    }

    /** No render is in flight. */
    ghost predicate Quiet()
      reads this`taskPage, this`cancelled, this`settled
    {
      forall t :: t in taskPage ==> t in cancelled || t in settled
    }

    /** The field initialisers; `lastActivity` is the construction time. */
    constructor(errorBoundary: ErrorBoundary.ErrorBoundaryService, now: int)
      ensures Valid() && Quiet()
      ensures src == "" && currentPage == 1 && viewMode == Single
      ensures loading && error.None? && !isCorsError && totalPages == 0 && pages == [] && loadedPages == {}
      ensures pdfDocument.None? && proxiedSrc == "" && !isExternal
      ensures !abortController && !holdsTimeout && !heartbeatRunning && lastActivity == now
      ensures renderTasks == map[] && outputs == [] && this.errorBoundary == errorBoundary
    {
      src := "";
      currentPage := 1;
      viewMode := Single;
      loading := true;
      error := None;
      isCorsError := false;
      totalPages := 0;
      pages := [];
      loadedPages := {};
      pdfDocument := None;
      proxiedSrc := "";
      isExternal := false;
      abortController := false;
      holdsTimeout := false;
      heartbeatRunning := false;
      lastActivity := now;
      renderTasks := map[];
      nextTask := 0;
      taskPage := map[];
      cancelled := {};
      settled := {};
      destroyed := {};
      revoked := {};
      outputs := [];
      this.errorBoundary := errorBoundary;
    }

    /** `setError`: unlike the other components, nothing is reported to the error boundary. */
    method SetError(message: string)
      modifies this`loading, this`error, this`isCorsError, this`outputs
      ensures !loading && error == Some(message) && isCorsError == IsCorsMessage(message)
      ensures outputs == old(outputs) + [ErrorEmitted(message)]
    {
      loading := false;
      error := Some(message);
      isCorsError := IsCorsMessage(message);
      outputs := outputs + [ErrorEmitted(message)];
    }

    /** `stopHeartbeat`. */
    method StopHeartbeat()
      modifies this`heartbeatRunning
      ensures !heartbeatRunning
    {
      heartbeatRunning := false;
    }

    /** `startHeartbeat`: restart the interval and count activity from now. */
    method StartHeartbeat(now: int)
      modifies this`heartbeatRunning, this`lastActivity
      ensures heartbeatRunning && lastActivity == now
    {
      StopHeartbeat();
      lastActivity := now;
      heartbeatRunning := true;
    }

    /** `updateActivity`. */
    method UpdateActivity(now: int)
      modifies this`lastActivity
      ensures lastActivity == now
    {
      lastActivity := now;
    }

    /** The heartbeat's test: more than a minute without activity. */
    predicate Stalled(now: int)
      reads this
    {
      now - lastActivity > STALL_THRESHOLD_MS as int
    }

    /** The `forEach` of `cancelAllRenderTasks`: `cancel()` on every tracked task, in any order. */
    method CancelEach()
      modifies this`cancelled
      ensures cancelled == old(cancelled) + renderTasks.Values
    {
      var pending := renderTasks.Keys;
      while pending != {}
        invariant pending <= renderTasks.Keys
        invariant old(cancelled) <= cancelled
        invariant forall p :: p in renderTasks && p !in pending ==> renderTasks[p] in cancelled
        invariant forall t :: t in cancelled ==> t in old(cancelled) || t in renderTasks.Values
        decreases pending
      {
        SomePage(pending);
        var p :| p in pending;
        cancelled := cancelled + {renderTasks[p]};
        pending := pending - {p};
      }
      forall t | t in renderTasks.Values
        ensures t in cancelled
      {
        var p := PageOfTask(renderTasks, t);
      }
    }

    /**
     * `cancelAllRenderTasks`: cancel every tracked task, then empty the map.
     * A render that is running but not tracked keeps running.
     */
    method CancelAllRenderTasks()
      requires Sound()
      modifies this`renderTasks, this`cancelled
      ensures Sound() && renderTasks == map[]
      ensures cancelled == old(cancelled) + old(renderTasks.Values)
      ensures forall t :: Live(t) <==> old(Live(t)) && t !in old(renderTasks.Values)
      ensures old(Valid()) ==> Valid() && Quiet()
    {
      ghost var wasValid := Valid();
      CancelEach();
      forall t | t in renderTasks.Values
        ensures t in taskPage
      {
        var p := PageOfTask(renderTasks, t);
      }
      if wasValid {
        forall t | t in taskPage && t !in settled
          ensures t in cancelled
        {
          if t !in old(cancelled) {
            assert renderTasks[taskPage[t]] == t;
          }
        }
      }
      renderTasks := map[];
    }

    /**
     * `cleanup`: stop the timers, abort, cancel every render, destroy the
     * document, revoke a `blob:` source and reset `loadedPages`, `loading`
     * and `error`; the page list and the CORS flag are kept.
     */
    method Cleanup()
      requires Sound()
      modifies this`heartbeatRunning, this`holdsTimeout, this`abortController, this`renderTasks,
               this`cancelled, this`pdfDocument, this`destroyed, this`revoked, this`loadedPages,
               this`loading, this`error
      ensures Sound() && renderTasks == map[] && cancelled == old(cancelled) + old(renderTasks.Values)
      ensures forall t :: Live(t) <==> old(Live(t)) && t !in old(renderTasks.Values)
      ensures old(Valid()) ==> Valid() && Quiet()
      ensures !heartbeatRunning && !holdsTimeout && !abortController
      ensures pdfDocument.None?
      ensures destroyed == old(destroyed) + (if old(pdfDocument).Some? then {old(pdfDocument).value} else {})
      ensures revoked == old(revoked) + (if StartsWith(proxiedSrc, "blob:") then {proxiedSrc} else {})
      ensures loadedPages == {} && !loading && error.None?
    {
      StopTimers();
      CancelAllRenderTasks();
      ReleaseDocument();
    }

    /** The steps of `cleanup` after the cancellation: destroy the document, revoke the source, reset the load state. */
    method ReleaseDocument()
      modifies this`pdfDocument, this`destroyed, this`revoked, this`loadedPages, this`loading, this`error
      ensures pdfDocument.None?
      ensures destroyed == old(destroyed) + (if old(pdfDocument).Some? then {old(pdfDocument).value} else {})
      ensures revoked == old(revoked) + (if StartsWith(proxiedSrc, "blob:") then {proxiedSrc} else {})
      ensures loadedPages == {} && !loading && error.None?
    {
      DestroyDocument();
      ReleaseSource();
    }

    /** The first steps of `cleanup`: stop the heartbeat, clear the loading timeout, abort the controller. */
    method StopTimers()
      modifies this`heartbeatRunning, this`holdsTimeout, this`abortController
      ensures !heartbeatRunning && !holdsTimeout && !abortController
    {
      StopHeartbeat();
      holdsTimeout := false;
      abortController := false;
    }

    /** The last steps of `cleanup`: revoke a `blob:` source and reset the load state. */
    method ReleaseSource()
      modifies this`revoked, this`loadedPages, this`loading, this`error
      ensures revoked == old(revoked) + (if StartsWith(proxiedSrc, "blob:") then {proxiedSrc} else {})
      ensures loadedPages == {} && !loading && error.None?
    {
      if proxiedSrc != "" && StartsWith(proxiedSrc, "blob:") {
        revoked := revoked + {proxiedSrc};
      }
      ResetLoadState(false);
    }

    /** No page loaded, no error, and `loading` as given. */
    method ResetLoadState(isLoading: bool)
      modifies this`loadedPages, this`loading, this`error
      ensures loadedPages == {} && loading == isLoading && error.None?
    {
      loadedPages := {};
      loading := isLoading;
      error := None;
    }

    /** `pdfDocument.destroy()` on the open document, if any, and `null` in its place. */
    method DestroyDocument()
      modifies this`pdfDocument, this`destroyed
      ensures old(Valid()) ==> Valid()
      ensures pdfDocument.None?
      ensures destroyed == old(destroyed) + (if old(pdfDocument).Some? then {old(pdfDocument).value} else {})
    {
      if pdfDocument.Some? {
        destroyed := destroyed + {pdfDocument.value};
        pdfDocument := None;
      }
    }

    /** The state `initializePdf` starts from: loading, no error, no pages. */
    method ResetForLoad()
      modifies this`totalPages, this`pages, this`loadedPages, this`loading, this`error
      ensures totalPages == 0 && pages == [] && loadedPages == {} && loading && error.None?
    {
      totalPages := 0;
      pages := [];
      ResetLoadState(true);
    }

    /** The source selection of `initializePdf`, then the conversion of a base64 PDF data URL. */
    method PickSource(b: Utils.Browser, net: Utils.Network)
      modifies this`proxiedSrc, this`isExternal
      ensures proxiedSrc == LoadSource(b, net, src)
      ensures isExternal == IsExternalSource(b, src)
    {
      if StartsWith(src, "blob:") || StartsWith(src, "data:") {
        proxiedSrc := src;
        isExternal := false;
      } else if Utils.IsExternalUrl(b, src) {
        isExternal := true;
        var requests;
        proxiedSrc, requests := Utils.TryLoadWithProxy(b, net, src);
      } else {
        proxiedSrc := src;
        isExternal := false;
      }
      if StartsWith(proxiedSrc, PDF_DATA_PREFIX) {
        var blobUrl := Utils.CreateBlobFromDataUrl(b, proxiedSrc);
        if blobUrl.Some? {
          proxiedSrc := blobUrl.value;
        }
      }
    }

    /** The synchronous start of `loadPdfDocument`: the controller and the timeout, then the wait for PDF.js. */
    method LoadPdfDocument()
      modifies this`abortController, this`holdsTimeout
      ensures abortController && holdsTimeout
    {
      abortController := true;
      holdsTimeout := true;
    }

    /**
     * The state `initializePdf` leaves behind once its synchronous part is
     * done: no document and no tracked render, and either an error or a load
     * in flight for the source it picked.
     */
    ghost predicate Reinitialized(b: Utils.Browser, net: Utils.Network)
      reads this`taskPage, this`nextTask, this`cancelled, this`settled, this`renderTasks, this`pdfDocument,
            this`heartbeatRunning, this`totalPages, this`pages, this`loadedPages,
            this`src, this`loading, this`error, this`isCorsError, this`holdsTimeout, this`abortController,
            this`proxiedSrc, this`isExternal
    {
      && TornDown()
      && totalPages == 0 && pages == [] && loadedPages == {}
      && LoadStarted(b, net)
    }

    /** What `cleanup` leaves of the render and document state: no tracked task, no document, no heartbeat. */
    ghost predicate TornDown()
      reads this`taskPage, this`nextTask, this`cancelled, this`settled, this`renderTasks, this`pdfDocument,
            this`heartbeatRunning
    {
      Sound() && renderTasks == map[] && pdfDocument.None? && !heartbeatRunning
    }

    /** An error for an empty source or an offline browser; otherwise a load in flight for the source picked. */
    ghost predicate LoadStarted(b: Utils.Browser, net: Utils.Network)
      reads this`src, this`loading, this`error, this`isCorsError, this`holdsTimeout, this`abortController,
            this`proxiedSrc, this`isExternal
    {
      && error == LoadRefusal(b, src)
      && loading == error.None? && holdsTimeout == error.None? && abortController == error.None?
      && (error.Some? ==> isCorsError == IsCorsMessage(error.value))
      && (error.None? ==> proxiedSrc == LoadSource(b, net, src) && isExternal == IsExternalSource(b, src))
    }

    /**
     * `initializePdf`: clean up, reset the page state, refuse an empty
     * source and an offline browser, pick the source, turn a base64 PDF
     * data URL into an object URL, and start loading.
     */
    method InitializePdf(b: Utils.Browser, net: Utils.Network)
      requires Sound()
      modifies this`heartbeatRunning, this`holdsTimeout, this`abortController, this`renderTasks,
               this`cancelled, this`pdfDocument, this`destroyed, this`revoked, this`loadedPages,
               this`loading, this`error, this`isCorsError, this`totalPages, this`pages,
               this`proxiedSrc, this`isExternal, this`outputs
      ensures Reinitialized(b, net)
      ensures cancelled == old(cancelled) + old(renderTasks.Values)
      ensures forall t :: Live(t) <==> old(Live(t)) && t !in old(renderTasks.Values)
      ensures old(Valid()) ==> Valid() && Quiet()
      ensures outputs == old(outputs) + (if error.Some? then [ErrorEmitted(error.value)] else [])
    {
      Cleanup();
      assert TornDown();
      label Clean:
      StartLoad(b, net);
      assert unchanged@Clean(this`taskPage, this`cancelled, this`settled, this`renderTasks, this`nextTask, this`pdfDocument, this`heartbeatRunning);
    }

    /** The part of `initializePdf` after `cleanup`: the reset, the two refusals, then the source and the load. */
    method StartLoad(b: Utils.Browser, net: Utils.Network)
      requires !holdsTimeout && !abortController
      modifies this`holdsTimeout, this`abortController, this`loading, this`error, this`isCorsError,
               this`proxiedSrc, this`isExternal, this`outputs, this`totalPages, this`pages, this`loadedPages
      ensures totalPages == 0 && pages == [] && loadedPages == {}
      ensures error == LoadRefusal(b, src)
      ensures loading == error.None? && holdsTimeout == error.None? && abortController == error.None?
      ensures isCorsError == (if error.Some? then IsCorsMessage(error.value) else old(isCorsError))
      ensures outputs == old(outputs) + (if error.Some? then [ErrorEmitted(error.value)] else [])
      ensures proxiedSrc == (if error.Some? then old(proxiedSrc) else LoadSource(b, net, src))
      ensures isExternal == (if error.Some? then old(isExternal) else IsExternalSource(b, src))
      ensures LoadStarted(b, net)
    {
      ResetForLoad();
      if src == "" {
        SetError(NO_SOURCE_MESSAGE);
        return;
      }
      if !b.online {
        SetError(OFFLINE_MESSAGE);
        return;
      }
      PickSource(b, net);
      LoadPdfDocument();
    }

    /** `retry`: stop the heartbeat and initialise again. */
    method Retry(b: Utils.Browser, net: Utils.Network)
      requires Sound()
      modifies this`heartbeatRunning, this`holdsTimeout, this`abortController, this`renderTasks,
               this`cancelled, this`pdfDocument, this`destroyed, this`revoked, this`loadedPages,
               this`loading, this`error, this`isCorsError, this`totalPages, this`pages,
               this`proxiedSrc, this`isExternal, this`outputs
      ensures Reinitialized(b, net)
      ensures cancelled == old(cancelled) + old(renderTasks.Values)
      ensures forall t :: Live(t) <==> old(Live(t)) && t !in old(renderTasks.Values)
      ensures old(Valid()) ==> Valid() && Quiet()
      ensures outputs == old(outputs) + (if error.Some? then [ErrorEmitted(error.value)] else [])
    {
      StopHeartbeat();
      InitializePdf(b, net);
    }

    /** One tick of the heartbeat interval: a viewer idle for more than a minute is retried. */
    method HeartbeatTick(b: Utils.Browser, net: Utils.Network, now: int) returns (stalled: bool)
      requires Sound()
      modifies this`heartbeatRunning, this`holdsTimeout, this`abortController, this`renderTasks,
               this`cancelled, this`pdfDocument, this`destroyed, this`revoked, this`loadedPages,
               this`loading, this`error, this`isCorsError, this`totalPages, this`pages,
               this`proxiedSrc, this`isExternal, this`outputs
      ensures stalled <==> now - old(lastActivity) > STALL_THRESHOLD_MS as int
      ensures stalled ==> Reinitialized(b, net)
      ensures stalled ==> cancelled == old(cancelled) + old(renderTasks.Values)
      ensures stalled && old(Valid()) ==> Valid() && Quiet()
      ensures stalled ==> outputs == old(outputs) + (if error.Some? then [ErrorEmitted(error.value)] else [])
      ensures !stalled ==> unchanged(this)
    {
      stalled := Stalled(now);
      if stalled {
        Retry(b, net);
      }
    }

    /**
     * PDF.js opened the document: clear the timeout, list the pages, report
     * the load, start the heartbeat and name the render pass to start. A
     * load that completes after the timeout has fired is not discarded.
     */
    method OnDocumentLoaded(doc: nat, numPages: nat, now: int) returns (pass: RenderPass)
      modifies this`pdfDocument, this`holdsTimeout, this`totalPages, this`pages, this`loading,
               this`error, this`outputs, this`heartbeatRunning, this`lastActivity
      ensures old(Valid()) ==> Valid()
      ensures pdfDocument == Some(doc) && !holdsTimeout
      ensures totalPages == numPages && pages == PageNumbers(numPages)
      ensures !loading && error.None? && outputs == old(outputs) + [LoadEmitted(numPages)]
      ensures heartbeatRunning && lastActivity == now
      ensures pass == (if viewMode == Continuous then AllPagesPass else CurrentPagePass)
    {
      pdfDocument := Some(doc);
      holdsTimeout := false;
      ShowPages(numPages);
      StartHeartbeat(now);
      pass := if viewMode == Continuous then AllPagesPass else CurrentPagePass;
    }

    /** The opened document's pages: listed, shown, and `onLoad` emitted. */
    method ShowPages(numPages: nat)
      modifies this`totalPages, this`pages, this`loading, this`error, this`outputs
      ensures totalPages == numPages && pages == PageNumbers(numPages)
      ensures !loading && error.None? && outputs == old(outputs) + [LoadEmitted(numPages)]
    {
      totalPages := numPages;
      pages := PageNumbers(numPages);
      loading := false;
      error := None;
      outputs := outputs + [LoadEmitted(numPages)];
    }

    /** PDF.js could not open the document. */
    method OnDocumentLoadFailed(message: string)
      modifies this`holdsTimeout, this`loading, this`error, this`isCorsError, this`outputs
      ensures !holdsTimeout && !loading && error == Some(LOAD_FAILED_PREFIX + message)
      ensures isCorsError == IsCorsMessage(LOAD_FAILED_PREFIX + message)
      ensures outputs == old(outputs) + [ErrorEmitted(LOAD_FAILED_PREFIX + message)]
    {
      holdsTimeout := false;
      SetError(LOAD_FAILED_PREFIX + message);
    }

    /** The loading timeout fires: an error only while still loading. */
    method OnLoadTimeout()
      modifies this`loading, this`error, this`isCorsError, this`outputs
      ensures old(loading) ==> !loading && error == Some(TIMEOUT_MESSAGE) && outputs == old(outputs) + [ErrorEmitted(TIMEOUT_MESSAGE)]
      ensures !old(loading) ==>
        loading == old(loading) && error == old(error) && isCorsError == old(isCorsError) && outputs == old(outputs)
    {
      if loading {
        SetError(TIMEOUT_MESSAGE);
      }
    }

    /** Cancel the task filed under `page`, if any, and drop it from the map. */
    method CancelPageTask(page: int)
      requires Sound()
      modifies this`renderTasks, this`cancelled
      ensures Sound() && (old(Valid()) ==> Valid())
      ensures renderTasks == old(renderTasks) - {page}
      ensures cancelled == old(cancelled) + (if page in old(renderTasks) then {old(renderTasks)[page]} else {})
    {
      if page in renderTasks {
        cancelled := cancelled + {renderTasks[page]};
        renderTasks := renderTasks - {page};
      }
    }

    /**
     * `page.render(...)` for `page`, stored with `renderTasks.set(key, ...)`:
     * a new running task, which replaces whatever the map held under `key`.
     */
    method StartTask(page: int, key: int) returns (t: nat)
      requires Sound()
      modifies this`renderTasks, this`nextTask, this`taskPage
      ensures Sound() && Live(t)
      ensures t == old(nextTask) && nextTask == old(nextTask) + 1
      ensures renderTasks == old(renderTasks)[key := t] && taskPage == old(taskPage)[t := page]
      ensures old(Valid()) && key == page && key !in old(renderTasks) ==> Valid()
      ensures old(Valid()) && key in old(renderTasks) && old(Live(renderTasks[key])) ==> !Valid()
    {
      t := nextTask;
      taskPage := taskPage[t := page];
      renderTasks := renderTasks[key := t];
      nextTask := nextTask + 1;
      if old(Valid()) && key in old(renderTasks) && old(Live(renderTasks[key])) {
        var lost := old(renderTasks)[key];
        assert lost < t && taskPage[lost] == key;
        assert Live(lost) && renderTasks[key] != lost;
      }
    }

    /**
     * `renderCurrentPage` up to `await getPage`: unless there is no document
     * or it is still loading, cancel the task filed under the current page
     * and ask PDF.js for that page; `fetch` is the page asked for.
     */
    method BeginRenderCurrentPage() returns (fetch: Option<int>)
      requires Sound()
      modifies this`renderTasks, this`cancelled
      ensures Sound() && (old(Valid()) ==> Valid())
      ensures pdfDocument.None? || loading ==>
        fetch.None? && renderTasks == old(renderTasks) && cancelled == old(cancelled)
      ensures pdfDocument.Some? && !loading ==>
        fetch == Some(currentPage) && renderTasks == old(renderTasks) - {currentPage}
        && cancelled == old(cancelled) + (if currentPage in old(renderTasks) then {old(renderTasks)[currentPage]} else {})
    {
      if pdfDocument.None? || loading {
        return None;
      }
      CancelPageTask(currentPage);
      fetch := Some(currentPage);
    }

    /**
     * `renderCurrentPage` from `await getPage` to `await renderTask.promise`,
     * as written: a page PDF.js refuses is reported to the error boundary;
     * with a canvas and a 2D context, a task rendering the `fetched` page is
     * stored under `currentPage` as it is now, with nothing re-checked. When
     * two renders of one page were started before either page arrived, the
     * second store replaces a task that is still running.
     */
    method ResumeRenderCurrentPageAsWritten(fetched: int, pageError: Option<string>, canvasReady: bool, now: int)
      returns (task: Option<nat>)
      requires Sound()
      modifies this`renderTasks, this`nextTask, this`taskPage, errorBoundary
      ensures Sound()
      ensures pageError.Some? ==>
        task.None? && renderTasks == old(renderTasks) && nextTask == old(nextTask) && taskPage == old(taskPage)
        && errorBoundary.current == RenderReport(pageError.value, now)
      ensures pageError.None? && !canvasReady ==>
        task.None? && renderTasks == old(renderTasks) && nextTask == old(nextTask) && taskPage == old(taskPage)
        && unchanged(errorBoundary)
      ensures pageError.None? && canvasReady ==>
        task == Some(old(nextTask)) && Live(old(nextTask)) && nextTask == old(nextTask) + 1
        && renderTasks == old(renderTasks)[currentPage := old(nextTask)]
        && taskPage == old(taskPage)[old(nextTask) := fetched] && unchanged(errorBoundary)
      ensures old(Valid()) && fetched == currentPage && currentPage !in old(renderTasks) ==> Valid()
      ensures (old(Valid()) && pageError.None? && canvasReady
               && currentPage in old(renderTasks) && old(Live(renderTasks[currentPage]))) ==> !Valid()
    {
      if pageError.Some? {
        errorBoundary.ReportError(ErrorBoundary.ErrorObject(pageError.value, None), Some(RENDER_ERROR_CONTEXT), now);
        return None;
      }
      if !canvasReady {
        return None;
      }
      var t := StartTask(fetched, currentPage);
      task := Some(t);
    }

    /**
     * The same stretch with the store guarded: a task still filed under the
     * fetched page is cancelled first, and the new task is filed under the
     * page it renders, so the map keeps tracking every render in flight.
     */
    method ResumeRenderCurrentPage(fetched: int, pageError: Option<string>, canvasReady: bool, now: int)
      returns (task: Option<nat>)
      requires Valid()
      modifies this`renderTasks, this`cancelled, this`nextTask, this`taskPage, errorBoundary
      ensures Valid()
      ensures pageError.Some? ==>
        task.None? && renderTasks == old(renderTasks) && cancelled == old(cancelled)
        && nextTask == old(nextTask) && taskPage == old(taskPage)
        && errorBoundary.current == RenderReport(pageError.value, now)
      ensures pageError.None? && !canvasReady ==>
        task.None? && renderTasks == old(renderTasks) && cancelled == old(cancelled)
        && nextTask == old(nextTask) && taskPage == old(taskPage) && unchanged(errorBoundary)
      ensures pageError.None? && canvasReady ==>
        task == Some(old(nextTask)) && Live(old(nextTask)) && nextTask == old(nextTask) + 1
        && renderTasks == old(renderTasks)[fetched := old(nextTask)]
        && taskPage == old(taskPage)[old(nextTask) := fetched]
        && cancelled == old(cancelled) + (if fetched in old(renderTasks) then {old(renderTasks)[fetched]} else {})
        && unchanged(errorBoundary)
    {
      if pageError.Some? {
        errorBoundary.ReportError(ErrorBoundary.ErrorObject(pageError.value, None), Some(RENDER_ERROR_CONTEXT), now);
        return None;
      }
      if !canvasReady {
        return None;
      }
      CancelPageTask(fetched);
      var t := StartTask(fetched, fetched);
      task := Some(t);
    }

    /**
     * The rest of `renderCurrentPage` as written: the finished task's page is
     * read from `currentPage` again, which may have changed while the task ran.
     */
    method FinishRenderCurrentPageAsWritten(t: nat, now: int)
      requires Live(t)
      modifies this`loadedPages, this`renderTasks, this`lastActivity, this`settled
      ensures old(Sound()) ==> Sound()
      ensures loadedPages == old(loadedPages) + {currentPage}
      ensures renderTasks == old(renderTasks) - {currentPage}
      ensures lastActivity == now && settled == old(settled) + {t}
    {
      settled := settled + {t};
      loadedPages := loadedPages + {currentPage};
      renderTasks := renderTasks - {currentPage};
      UpdateActivity(now);
    }

    /**
     * The rest of `renderCurrentPage` with the page captured when the task
     * started: exactly that page is marked loaded and exactly the finished
     * task leaves the map.
     */
    method FinishRenderCurrentPage(page: int, t: nat, now: int)
      requires Valid() && Live(t) && taskPage[t] == page
      modifies this`loadedPages, this`renderTasks, this`lastActivity, this`settled
      ensures Valid()
      ensures old(renderTasks)[page] == t
      ensures loadedPages == old(loadedPages) + {page}
      ensures renderTasks == old(renderTasks) - {page}
      ensures lastActivity == now && settled == old(settled) + {t}
    {
      settled := settled + {t};
      loadedPages := loadedPages + {page};
      renderTasks := renderTasks - {page};
      UpdateActivity(now);
    }

    /**
     * A render task rejects (a failed or a cancelled render): the catch
     * reports it to the error boundary and leaves the map as it is.
     */
    method FailRender(t: nat, message: string, now: int)
      requires Sound() && t in taskPage
      modifies this`settled, errorBoundary
      ensures Sound() && (old(Valid()) ==> Valid())
      ensures settled == old(settled) + {t}
      ensures errorBoundary.current == RenderReport(message, now)
    {
      settled := settled + {t};
      errorBoundary.ReportError(ErrorBoundary.ErrorObject(message, None), Some(RENDER_ERROR_CONTEXT), now);
    }

    /**
     * One page of `renderAllPages`: a task is started and tracked, and once
     * it settles it leaves the map; the page is loaded when it succeeded.
     * A task the map held under that page is overwritten, then dropped.
     */
    method RenderPassPage(page: int, ok: bool, now: int)
      requires Sound()
      modifies this`renderTasks, this`nextTask, this`taskPage, this`settled, this`loadedPages, this`lastActivity
      ensures Sound() && renderTasks == old(renderTasks) - {page}
      ensures nextTask == old(nextTask) + 1 && taskPage == old(taskPage)[old(nextTask) := page]
      ensures settled == old(settled) + {old(nextTask)}
      ensures old(Valid()) && page !in old(renderTasks) ==> Valid()
      ensures old(Quiet()) ==> Quiet()
      ensures loadedPages == old(loadedPages) + (if ok then {page} else {})
      ensures lastActivity == (if ok then now else old(lastActivity))
    {
      var t := StartTask(page, page);
      settled := settled + {t};
      if ok {
        loadedPages := loadedPages + {page};
        UpdateActivity(now);
      }
      renderTasks := renderTasks - {page};
    }

    /**
     * `renderAllPages`, its pages rendered one after the other: cancel every
     * task, then for each page with a canvas start a task, await it, and
     * mark the page loaded when it succeeds. `canvases` is the number of
     * canvas elements in the page; `renderOk` says whether a page's fetch and
     * render succeed.
     */
    method RenderAllPages(canvases: nat, renderOk: int -> bool, now: int)
      requires Sound()
      modifies this`renderTasks, this`cancelled, this`nextTask, this`taskPage, this`settled,
               this`loadedPages, this`lastActivity
      ensures Sound() && (old(Valid()) ==> Valid())
      ensures pdfDocument.None? || loading || viewMode != Continuous ==>
        && renderTasks == old(renderTasks) && cancelled == old(cancelled) && loadedPages == old(loadedPages)
        && lastActivity == old(lastActivity) && nextTask == old(nextTask) && taskPage == old(taskPage)
        && settled == old(settled)
      ensures pdfDocument.Some? && !loading && viewMode == Continuous ==>
        && renderTasks == map[]
        && cancelled == old(cancelled) + old(renderTasks.Values)
        && loadedPages == old(loadedPages) + RenderedPages(|pages|, canvases, renderOk)
        && lastActivity == (if RenderedPages(|pages|, canvases, renderOk) != {} then now else old(lastActivity))
        && (old(Valid()) ==> Quiet())
    {
      if pdfDocument.None? || loading || viewMode != Continuous {
        return;
      }
      ghost var wasValid := Valid();
      CancelAllRenderTasks();
      ghost var cancelledBefore := cancelled;
      for i := 0 to |pages|
        invariant Sound() && renderTasks == map[] && cancelled == cancelledBefore
        invariant wasValid ==> Valid() && Quiet()
        invariant loadedPages == old(loadedPages) + RenderedPages(i, canvases, renderOk)
        invariant lastActivity == (if RenderedPages(i, canvases, renderOk) != {} then now else old(lastActivity))
      {
        RenderedPagesStep(i, canvases, renderOk);
        if i < canvases {
          RenderPassPage(i + 1, renderOk(i + 1), now);
        }
      }
    }

    /** A new `currentPage` input (`ngOnChanges`): store it and start rendering that page. */
    method OnCurrentPageInput(page: int) returns (fetch: Option<int>)
      requires Sound()
      modifies this`currentPage, this`renderTasks, this`cancelled
      ensures Sound() && (old(Valid()) ==> Valid()) && currentPage == page
      ensures pdfDocument.None? || loading ==>
        fetch.None? && renderTasks == old(renderTasks) && cancelled == old(cancelled)
      ensures pdfDocument.Some? && !loading ==>
        fetch == Some(page) && renderTasks == old(renderTasks) - {page}
        && cancelled == old(cancelled) + (if page in old(renderTasks) then {old(renderTasks)[page]} else {})
    {
      currentPage := page;
      fetch := BeginRenderCurrentPage();
    }

    /** A new `viewMode` input (`ngOnChanges`): store it and render all pages. */
    method OnViewModeInput(mode: ViewMode, canvases: nat, renderOk: int -> bool, now: int)
      requires Sound()
      modifies this`viewMode, this`renderTasks, this`cancelled, this`nextTask, this`taskPage, this`settled,
               this`loadedPages, this`lastActivity
      ensures Sound() && (old(Valid()) ==> Valid()) && viewMode == mode
      ensures pdfDocument.None? || loading || mode != Continuous ==>
        && renderTasks == old(renderTasks) && cancelled == old(cancelled) && loadedPages == old(loadedPages)
        && lastActivity == old(lastActivity) && nextTask == old(nextTask) && taskPage == old(taskPage)
        && settled == old(settled)
      ensures pdfDocument.Some? && !loading && mode == Continuous ==>
        && renderTasks == map[]
        && cancelled == old(cancelled) + old(renderTasks.Values)
        && loadedPages == old(loadedPages) + RenderedPages(|pages|, canvases, renderOk)
        && lastActivity == (if RenderedPages(|pages|, canvases, renderOk) != {} then now else old(lastActivity))
        && (old(Valid()) ==> Quiet())
    {
      viewMode := mode;
      RenderAllPages(canvases, renderOk, now);
    }

    /** A new `src` input (`ngOnChanges`): store it and initialise again. */
    method OnSrcInput(source: string, b: Utils.Browser, net: Utils.Network)
      requires Sound()
      modifies this`src, this`heartbeatRunning, this`holdsTimeout, this`abortController, this`renderTasks,
               this`cancelled, this`pdfDocument, this`destroyed, this`revoked, this`loadedPages,
               this`loading, this`error, this`isCorsError, this`totalPages, this`pages,
               this`proxiedSrc, this`isExternal, this`outputs
      ensures src == source && Reinitialized(b, net)
      ensures cancelled == old(cancelled) + old(renderTasks.Values)
      ensures old(Valid()) ==> Valid() && Quiet()
      ensures outputs == old(outputs) + (if error.Some? then [ErrorEmitted(error.value)] else [])
    {
      src := source;
      InitializePdf(b, net);
    }

    /** `getFileName`. */
    method GetFileName() returns (name: string)
      ensures name != "" && '/' !in name
      ensures Utils.IsLastPathSegment(src, name, "document.pdf")
    {
      var parts := Split(src, '/');
      name := if parts[|parts| - 1] != "" then parts[|parts| - 1] else "document.pdf";
      assert name == Utils.LastPathSegmentOr(src, "document.pdf");
    }
  }

  /**
   * The loading timeout does not discard the document: when PDF.js answers
   * after the timeout has fired, the error is cleared and the pages shown.
   */
  method TimeoutThenLoad(viewer: PdfViewerComponent, doc: nat, numPages: nat, now: int)
    requires viewer.Valid() && viewer.loading
    modifies viewer`loading, viewer`error, viewer`isCorsError, viewer`outputs, viewer`pdfDocument,
             viewer`holdsTimeout, viewer`totalPages, viewer`pages, viewer`heartbeatRunning, viewer`lastActivity
    ensures viewer.Valid()
    ensures viewer.error.None? && !viewer.loading && viewer.pdfDocument == Some(doc) && viewer.totalPages == numPages
    ensures viewer.outputs == old(viewer.outputs) + [ErrorEmitted(TIMEOUT_MESSAGE), LoadEmitted(numPages)]
  {
    viewer.OnLoadTimeout();
    var pass := viewer.OnDocumentLoaded(doc, numPages, now);
  }

  /**
   * The race in `renderCurrentPage` as written: page 1 starts rendering, the
   * user moves to page 2, which starts rendering too, and then page 1's task
   * finishes. Page 2 is marked loaded instead of page 1, and page 2's
   * running task drops out of the map, so no later cancellation reaches it.
   */
  method CompletionRaceAsWritten(viewer: PdfViewerComponent, now: int) returns (first: nat, second: nat)
    requires viewer.Valid() && viewer.pdfDocument.Some? && !viewer.loading
    requires viewer.loadedPages == {} && viewer.renderTasks == map[]
    modifies viewer`currentPage, viewer`renderTasks, viewer`cancelled, viewer`nextTask, viewer`taskPage,
             viewer`loadedPages, viewer`lastActivity, viewer`settled, viewer.errorBoundary
    ensures viewer.Sound()
    ensures viewer.Live(second) && viewer.taskPage[second] == 2 && 2 !in viewer.renderTasks
    ensures viewer.renderTasks == map[1 := first] && first in viewer.settled
    ensures 2 in viewer.loadedPages && 1 !in viewer.loadedPages
    ensures !viewer.Valid()
  {
    var fetch := viewer.OnCurrentPageInput(1);
    var started := viewer.ResumeRenderCurrentPageAsWritten(fetch.value, None, true, now);
    first := started.value;
    assert viewer.renderTasks == map[1 := first];
    fetch := viewer.OnCurrentPageInput(2);
    assert viewer.renderTasks == map[1 := first];
    var moved := viewer.ResumeRenderCurrentPageAsWritten(fetch.value, None, true, now);
    second := moved.value;
    viewer.FinishRenderCurrentPageAsWritten(first, now);
    assert viewer.renderTasks == map[1 := first];
  }

  /** The same events with the page captured at the start: page 1 is loaded and page 2's task stays tracked. */
  method CompletionRaceCorrected(viewer: PdfViewerComponent, now: int) returns (first: nat, second: nat)
    requires viewer.Valid() && viewer.pdfDocument.Some? && !viewer.loading
    requires viewer.loadedPages == {} && viewer.renderTasks == map[]
    modifies viewer`currentPage, viewer`renderTasks, viewer`cancelled, viewer`nextTask, viewer`taskPage,
             viewer`loadedPages, viewer`lastActivity, viewer`settled, viewer.errorBoundary
    ensures viewer.Valid() && viewer.Live(second)
    ensures 2 in viewer.renderTasks && viewer.renderTasks[2] == second
    ensures 1 in viewer.loadedPages && 2 !in viewer.loadedPages
  {
    var fetch := viewer.OnCurrentPageInput(1);
    var started := viewer.ResumeRenderCurrentPage(fetch.value, None, true, now);
    first := started.value;
    fetch := viewer.OnCurrentPageInput(2);
    var moved := viewer.ResumeRenderCurrentPage(fetch.value, None, true, now);
    second := moved.value;
    viewer.FinishRenderCurrentPage(1, first, now);
  }

  /**
   * The overwrite in `renderCurrentPage` as written: a zoom and a rotation
   * change arrive in one `ngOnChanges`, so the current page is rendered twice.
   * Both calls find no task to cancel before their page arrives, and the
   * second store replaces the first task while it is still running: that
   * task is no longer tracked, and no later cancellation reaches it.
   */
  method OverwriteRaceAsWritten(viewer: PdfViewerComponent, now: int) returns (first: nat, second: nat)
    requires viewer.Valid() && viewer.pdfDocument.Some? && !viewer.loading
    modifies viewer`renderTasks, viewer`cancelled, viewer`nextTask, viewer`taskPage, viewer.errorBoundary
    ensures viewer.Sound() && viewer.Live(first) && viewer.Live(second)
    ensures first !in viewer.renderTasks.Values
    ensures viewer.currentPage in viewer.renderTasks && viewer.renderTasks[viewer.currentPage] == second
    ensures !viewer.Valid()
  {
    var zoomFetch := viewer.BeginRenderCurrentPage();
    var rotationFetch := viewer.BeginRenderCurrentPage();
    var started := viewer.ResumeRenderCurrentPageAsWritten(zoomFetch.value, None, true, now);
    first := started.value;
    var restarted := viewer.ResumeRenderCurrentPageAsWritten(rotationFetch.value, None, true, now);
    second := restarted.value;
    forall p | p in viewer.renderTasks
      ensures viewer.renderTasks[p] != first
    {
      if p != viewer.currentPage {
        assert viewer.renderTasks[p] == old(viewer.renderTasks)[p];
      }
    }
  }

  /** The same events with the guarded store: the first task is cancelled and the map tracks every render in flight. */
  method OverwriteRaceCorrected(viewer: PdfViewerComponent, now: int) returns (first: nat, second: nat)
    requires viewer.Valid() && viewer.pdfDocument.Some? && !viewer.loading
    modifies viewer`renderTasks, viewer`cancelled, viewer`nextTask, viewer`taskPage, viewer.errorBoundary
    ensures viewer.Valid() && viewer.Live(second)
    ensures first in viewer.cancelled
    ensures viewer.currentPage in viewer.renderTasks && viewer.renderTasks[viewer.currentPage] == second
  {
    var zoomFetch := viewer.BeginRenderCurrentPage();
    var rotationFetch := viewer.BeginRenderCurrentPage();
    var started := viewer.ResumeRenderCurrentPage(zoomFetch.value, None, true, now);
    first := started.value;
    var restarted := viewer.ResumeRenderCurrentPage(rotationFetch.value, None, true, now);
    second := restarted.value;
  }

  /**
   * The completion race followed by `cancelAllRenderTasks` (a switch to the
   * continuous view, say): the map is emptied, but page 2's render, which
   * dropped out of the map, is never cancelled and keeps running.
   */
  method CompletionRaceThenCancelAll(viewer: PdfViewerComponent, now: int) returns (second: nat)
    requires viewer.Valid() && viewer.pdfDocument.Some? && !viewer.loading
    requires viewer.loadedPages == {} && viewer.renderTasks == map[]
    modifies viewer`currentPage, viewer`renderTasks, viewer`cancelled, viewer`nextTask, viewer`taskPage,
             viewer`loadedPages, viewer`lastActivity, viewer`settled, viewer.errorBoundary
    ensures viewer.renderTasks == map[] && viewer.Live(second) && !viewer.Quiet()
  {
    var first;
    first, second := CompletionRaceAsWritten(viewer, now);
    assert second !in viewer.renderTasks.Values;
    viewer.CancelAllRenderTasks();
    assert viewer.Live(second);
  }

  /**
   * The overwrite followed by `cleanup` (`ngOnDestroy`, or a retry): the
   * map is emptied and the document destroyed, but the overwritten render
   * is never cancelled and keeps running.
   */
  method OverwriteRaceThenCleanup(viewer: PdfViewerComponent, now: int) returns (first: nat)
    requires viewer.Valid() && viewer.pdfDocument.Some? && !viewer.loading
    modifies viewer`heartbeatRunning, viewer`holdsTimeout, viewer`abortController, viewer`renderTasks,
             viewer`cancelled, viewer`pdfDocument, viewer`destroyed, viewer`revoked, viewer`loadedPages,
             viewer`loading, viewer`error, viewer`nextTask, viewer`taskPage, viewer.errorBoundary
    ensures viewer.renderTasks == map[] && viewer.pdfDocument.None? && old(viewer.pdfDocument).value in viewer.destroyed
    ensures viewer.Live(first) && !viewer.Quiet()
  {
    var second;
    first, second := OverwriteRaceAsWritten(viewer, now);
    viewer.Cleanup();
    assert viewer.Live(first);
  }
}
