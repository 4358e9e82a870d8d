/**
 * `ImgPdfViewerComponent`: the configuration merge, the choice of document
 * URL and type, initialisation, and the zoom, rotation, page and view-mode
 * handlers that update the component's `state`.
 */
module Viewer {
  import opened Types
  import opened Text
  import Utils
  import ErrorBoundary

  // ---------------------------------------------------------------------------
  // Configuration objects as maps from keys to optional values

  /** The keys of `DocumentViewerConfig`. */
  datatype Key =
    | ShowToolbar | ShowDownload | ShowZoom | ShowRotation | ShowFullscreen | ShowInNewTab
    | ShowPagination | ShowViewModeToggle | ClassName | Height | Width | Embedded
    | InitialZoom | MaxZoom | MinZoom | ViewModeKey | ModalSize | CustomStyle | ProxyUrl | FallbackType

  /** A value stored under a key. */
  datatype Value = BoolValue(b: bool) | TextValue(s: string) | IntValue(i: int) | ModeValue(m: ViewMode) | KindValue(k: DocumentType)

  function BoolAt(o: Option<bool>): Option<Value> { if o.Some? then Some(BoolValue(o.value)) else None }
  function TextAt(o: Option<string>): Option<Value> { if o.Some? then Some(TextValue(o.value)) else None }
  function IntAt(o: Option<int>): Option<Value> { if o.Some? then Some(IntValue(o.value)) else None }

  /** `c[k]`: the value of key `k`, `None` when the object has no such key. */
  function Get(c: Config, k: Key): Option<Value>
  {
    match k
    case ShowToolbar => BoolAt(c.showToolbar)
    case ShowDownload => BoolAt(c.showDownload)
    case ShowZoom => BoolAt(c.showZoom)
    case ShowRotation => BoolAt(c.showRotation)
    case ShowFullscreen => BoolAt(c.showFullscreen)
    case ShowInNewTab => BoolAt(c.showInNewTab)
    case ShowPagination => BoolAt(c.showPagination)
    case ShowViewModeToggle => BoolAt(c.showViewModeToggle)
    case ClassName => TextAt(c.className)
    case Height => TextAt(c.height)
    case Width => TextAt(c.width)
    case Embedded => BoolAt(c.embedded)
    case InitialZoom => IntAt(c.initialZoom)
    case MaxZoom => IntAt(c.maxZoom)
    case MinZoom => IntAt(c.minZoom)
    case ViewModeKey => if c.viewMode.Some? then Some(ModeValue(c.viewMode.value)) else None
    case ModalSize => TextAt(c.modalSize)
    case CustomStyle => TextAt(c.customStyle)
    case ProxyUrl => TextAt(c.proxyUrl)
    case FallbackType => if c.fallbackType.Some? then Some(KindValue(c.fallbackType.value)) else None
  }

  function Overlay<T>(under: Option<T>, over: Option<T>): Option<T>
  {
    if over.Some? then over else under
  }

  /** `{ ...a, ...b }`: every key of `b` replaces the same key of `a`. */
  function Spread(a: Config, b: Config): Config
  {
    Config(
      Overlay(a.showToolbar, b.showToolbar), Overlay(a.showDownload, b.showDownload),
      Overlay(a.showZoom, b.showZoom), Overlay(a.showRotation, b.showRotation),
      Overlay(a.showFullscreen, b.showFullscreen), Overlay(a.showInNewTab, b.showInNewTab),
      Overlay(a.showPagination, b.showPagination), Overlay(a.showViewModeToggle, b.showViewModeToggle),
      Overlay(a.className, b.className), Overlay(a.height, b.height), Overlay(a.width, b.width),
      Overlay(a.embedded, b.embedded), Overlay(a.initialZoom, b.initialZoom),
      Overlay(a.maxZoom, b.maxZoom), Overlay(a.minZoom, b.minZoom), Overlay(a.viewMode, b.viewMode),
      Overlay(a.modalSize, b.modalSize), Overlay(a.customStyle, b.customStyle),
      Overlay(a.proxyUrl, b.proxyUrl), Overlay(a.fallbackType, b.fallbackType))
  }

  /** Every key of `b` replaces the same key of `a`; the keys `b` lacks keep `a`'s value. */
  lemma SpreadGet(a: Config, b: Config, k: Key)
    ensures Get(Spread(a, b), k) == if Get(b, k).Some? then Get(b, k) else Get(a, k)
  {
  }

  /** Spreading `{}` changes nothing, on either side. */
  lemma SpreadEmpty(a: Config)
    ensures Spread(a, EMPTY_CONFIG) == a && Spread(EMPTY_CONFIG, a) == a
  {
  }

  /** Spreading is associative. */
  lemma SpreadAssociative(a: Config, b: Config, c: Config)
    ensures Spread(Spread(a, b), c) == Spread(a, Spread(b, c))
  {
  }

  /** The built-in defaults of `mergedConfig`. */
  const DEFAULT_CONFIG := Config(
    Some(true), Some(true), Some(true), Some(true), Some(true), Some(true), Some(true), Some(true),
    None, Some("100vh"), Some("100%"), Some(false), Some(100), Some(300), Some(50), Some(Single),
    Some("lg"), None, None, None)

  /** `x !== false` for an optional flag: only an explicit `false` is false. */
  function NotFalse(o: Option<bool>): bool
  {
    o != Some(false)
  }

  /** `s || fallback` for an optional string: absent and empty strings fall back. */
  function OrText(o: Option<string>, fallback: string): (r: string)
    ensures o.Some? && o.value != "" ==> r == o.value
    ensures o.None? || o.value == "" ==> r == fallback
  {
    if o.Some? && o.value != "" then o.value else fallback
  }

  /** The keys the legacy layer sets. */
  const LEGACY_KEYS := {ShowToolbar, ShowDownload, ShowZoom, ShowRotation, ShowFullscreen, ShowPagination,
                        Height, ModalSize, ClassName}

  /**
   * The layer built from `docPreviewConfig`: nothing when it is absent,
   * otherwise nine keys, the flags true unless set to `false`.
   */
  function LegacyLayer(docPreviewConfig: Option<LegacyConfig>): (r: Config)
    ensures docPreviewConfig.None? ==> r == EMPTY_CONFIG
    ensures forall k :: Get(r, k).Some? <==> docPreviewConfig.Some? && k in LEGACY_KEYS
  {
    match docPreviewConfig
    case None => EMPTY_CONFIG
    case Some(l) =>
      Config(
        Some(NotFalse(l.zoomIn) || NotFalse(l.zoomOut) || NotFalse(l.rotate)),
        Some(NotFalse(l.download)),
        Some(NotFalse(l.zoomIn) || NotFalse(l.zoomOut)),
        Some(NotFalse(l.rotate)),
        Some(NotFalse(l.openModal)),
        None,
        Some(NotFalse(l.pageIndicator)),
        None,
        Some(OrText(l.customStyle, "")),
        Some(OrText(l.docScreenWidth, "100%")),
        None, None, None, None, None, None,
        Some(OrText(l.modalSize, "lg")),
        None, None, None)
  }

  /** `mergedConfig`: `{ ...defaults, ...legacy, ...(config || {}) }`. */
  function MergedConfig(config: Option<Config>, docPreviewConfig: Option<LegacyConfig>): Config
  {
    Spread(Spread(DEFAULT_CONFIG, LegacyLayer(docPreviewConfig)), config.GetOr(EMPTY_CONFIG))
  }

  /**
   * The precedence of the merge: a key of `config` wins, then a key of the
   * legacy layer, then the default; every key with a default is present.
   */
  lemma MergedConfigGet(config: Option<Config>, docPreviewConfig: Option<LegacyConfig>, k: Key)
    ensures var c := config.GetOr(EMPTY_CONFIG);
      var l := LegacyLayer(docPreviewConfig);
      Get(MergedConfig(config, docPreviewConfig), k) ==
        if Get(c, k).Some? then Get(c, k)
        else if Get(l, k).Some? then Get(l, k)
        else Get(DEFAULT_CONFIG, k)
    ensures Get(DEFAULT_CONFIG, k).Some? ==> Get(MergedConfig(config, docPreviewConfig), k).Some?
  {
    SpreadGet(DEFAULT_CONFIG, LegacyLayer(docPreviewConfig), k);
    SpreadGet(Spread(DEFAULT_CONFIG, LegacyLayer(docPreviewConfig)), config.GetOr(EMPTY_CONFIG), k);
  }

  /**
   * With no `showToolbar` of its own, the merged toolbar is hidden exactly when
   * a legacy object sets `zoomIn`, `zoomOut` and `rotate` all to `false`.
   */
  lemma LegacyToolbarHidden(config: Option<Config>, l: LegacyConfig)
    requires config.None? || config.value.showToolbar.None?
    ensures MergedConfig(config, Some(l)).showToolbar == Some(false)
            <==> l.zoomIn == Some(false) && l.zoomOut == Some(false) && l.rotate == Some(false)
  {
    MergedConfigGet(config, Some(l), ShowToolbar);
  }

  /**
   * The default `docPreviewConfig` is `{}`, which is truthy: the legacy layer
   * always applies then, and the merged height is `'100%'`, not the default
   * `'100vh'`, which survives only when `docPreviewConfig` is null.
   */
  lemma DefaultHeight()
    ensures MergedConfig(None, Some(EMPTY_LEGACY)).height == Some("100%")
    ensures MergedConfig(None, None).height == Some("100vh")
  {
    MergedConfigGet(None, Some(EMPTY_LEGACY), Height);
    MergedConfigGet(None, None, Height);
  }

  // ---------------------------------------------------------------------------
  // Zoom arithmetic

  /** `mergedConfig.maxZoom || 300`. */
  function ZoomCap(cfg: Config): int
  {
    if cfg.maxZoom.Some? && cfg.maxZoom.value != 0 then cfg.maxZoom.value else 300
  }

  /** `mergedConfig.minZoom || 50`. */
  function ZoomFloor(cfg: Config): int
  {
    if cfg.minZoom.Some? && cfg.minZoom.value != 0 then cfg.minZoom.value else 50
  }

  /** `mergedConfig.initialZoom || 100`. */
  function ResetZoom(cfg: Config): int
  {
    if cfg.initialZoom.Some? && cfg.initialZoom.value != 0 then cfg.initialZoom.value else 100
  }

  /** `onZoomIn`'s new zoom: 25 more, but never above the cap. */
  function ZoomedIn(zoom: int, cfg: Config): (r: int)
    ensures r <= ZoomCap(cfg)
    ensures r == zoom + 25 || r == ZoomCap(cfg)
    ensures zoom + 25 <= ZoomCap(cfg) ==> r == zoom + 25
  {
    if zoom + 25 < ZoomCap(cfg) then zoom + 25 else ZoomCap(cfg)
  }

  /** `onZoomOut`'s new zoom: 25 less, but never below the floor. */
  function ZoomedOut(zoom: int, cfg: Config): (r: int)
    ensures r >= ZoomFloor(cfg)
    ensures r == zoom - 25 || r == ZoomFloor(cfg)
    ensures zoom - 25 >= ZoomFloor(cfg) ==> r == zoom - 25
  {
    if zoom - 25 > ZoomFloor(cfg) then zoom - 25 else ZoomFloor(cfg)
  }

  /** Away from the bounds, zooming out undoes zooming in and the other way round. */
  lemma ZoomInOutRoundTrip(zoom: int, cfg: Config)
    requires ZoomFloor(cfg) <= zoom && zoom + 25 <= ZoomCap(cfg)
    ensures ZoomedOut(ZoomedIn(zoom, cfg), cfg) == zoom
    ensures ZoomFloor(cfg) <= zoom - 25 ==> ZoomedIn(ZoomedOut(zoom, cfg), cfg) == zoom
  {
  }

  /** Above the cap (an initial zoom beyond `maxZoom`), zooming in lowers the zoom to the cap. */
  lemma ZoomInAboveCap(zoom: int, cfg: Config)
    requires zoom > ZoomCap(cfg)
    ensures ZoomedIn(zoom, cfg) == ZoomCap(cfg) < zoom
  {
  }

  /** With the default configuration: zoom between 50 and 300, reset to 100. */
  lemma DefaultZoomBounds()
    ensures var cfg := MergedConfig(None, Some(EMPTY_LEGACY));
      ZoomCap(cfg) == 300 && ZoomFloor(cfg) == 50 && ResetZoom(cfg) == 100
  {
    MergedConfigGet(None, Some(EMPTY_LEGACY), MaxZoom);
    MergedConfigGet(None, Some(EMPTY_LEGACY), MinZoom);
    MergedConfigGet(None, Some(EMPTY_LEGACY), InitialZoom);
  }

  // ---------------------------------------------------------------------------
  // URL and type selection

  /** `effectiveDocumentUrl`: `documentUrl` unless it is empty, then the legacy `documentURL`. */
  function EffectiveDocumentUrl(documentUrl: string, legacyDocumentUrl: string): (r: string)
    ensures documentUrl != "" ==> r == documentUrl
    ensures documentUrl == "" ==> r == legacyDocumentUrl
    ensures r == "" <==> documentUrl == "" && legacyDocumentUrl == ""
  {
    if documentUrl != "" then documentUrl else legacyDocumentUrl
  }

  /** `detectedDocumentType`: an explicit type wins over the extension. */
  function DetectedDocumentType(documentType: Option<DocumentType>, url: string): (t: DocumentType)
    ensures documentType.Some? ==> t == documentType.value
    ensures documentType.None? ==> t == Utils.DetectDocumentType(url)
  {
    if documentType.Some? then documentType.value else Utils.DetectDocumentType(url)
  }

  /** The file name: the title unless empty, then the helper's answer; `None` when the helper throws. */
  function FileNameFor(title: Option<string>, helperFileName: string -> Option<string>, url: string): (r: Option<string>)
    ensures title.Some? && title.value != "" ==> r == title
    ensures title.None? || title.value == "" ==> r == helperFileName(url)
  {
    if title.Some? && title.value != "" then title else helperFileName(url)
  }

  /** What the component emits. */
  datatype Output =
    | ErrorEmitted(message: string)
    | LoadEmitted(info: DocumentInfo)
    | ZoomChanged(zoom: int)
    | RotationChanged(rotation: int)
    | PageChanged(page: int)

  /** The page is within the document. */
  predicate PageInRange(s: ViewerState)
  {
    1 <= s.currentPage <= s.totalPages
  }

  const NO_URL_MESSAGE := "No document URL provided"
  const INVALID_URL_MESSAGE := "Invalid document URL provided"
  const DETECTION_FAILED_MESSAGE := "Failed to detect document type"
  const ERROR_CONTEXT := "Document viewer"

  /** The entry `setError` leaves in the error boundary for `message`. */
  function ViewerReport(message: string, now: int): Option<ErrorBoundary.ErrorInfo>
  {
    Some(ErrorBoundary.ErrorInfoOf(ErrorBoundary.Message(message), Some(ERROR_CONTEXT), now))
  }

  /** The auto-retry condition of `onDocumentError`. */
  function RetriesAutomatically(error: string): (r: bool)
    ensures r <==> Contains(error, "timeout") || Contains(error, "network")
  {
    Contains(error, "timeout") || Contains(error, "network")
  }

  class ImgPdfViewerComponent {
    var documentUrl: string
    var documentType: Option<DocumentType>
    var title: Option<string>
    var config: Option<Config>
    var legacyDocumentUrl: string                 // the `documentURL` input
    var docPreviewConfig: Option<LegacyConfig>    // `None` is a null or absent object
    var state: ViewerState
    var outputs: seq<Output>
    const errorBoundary: ErrorBoundary.ErrorBoundaryService

    constructor(errorBoundary: ErrorBoundary.ErrorBoundaryService)
      ensures state == INITIAL_STATE && outputs == []
      ensures documentUrl == "" && legacyDocumentUrl == "" && documentType.None? && title.None? && config.None?
      ensures docPreviewConfig == Some(EMPTY_LEGACY)
      ensures this.errorBoundary == errorBoundary
    {
      documentUrl := "";
      documentType := None;
      title := None;
      config := None;
      legacyDocumentUrl := "";
      docPreviewConfig := Some(EMPTY_LEGACY);
      state := INITIAL_STATE;
      outputs := [];
      this.errorBoundary := errorBoundary;
    }

    function Url(): string
      reads this
    {
      EffectiveDocumentUrl(documentUrl, legacyDocumentUrl)
    }

    function Merged(): Config
      reads this
    {
      MergedConfig(config, docPreviewConfig)
    }

    /** `updateZoom`. */
    method UpdateZoom(zoom: int)
      modifies this`state, this`outputs
      ensures state == old(state).(zoom := zoom)
      ensures outputs == old(outputs) + [ZoomChanged(zoom)]
    {
      state := state.(zoom := zoom);
      outputs := outputs + [ZoomChanged(zoom)];
    }

    /** `onZoomIn`: the new zoom never exceeds the cap. */
    method OnZoomIn()
      modifies this`state, this`outputs
      ensures state == old(state).(zoom := ZoomedIn(old(state.zoom), Merged()))
      ensures state.zoom <= ZoomCap(Merged())
      ensures outputs == old(outputs) + [ZoomChanged(state.zoom)]
    {
      UpdateZoom(ZoomedIn(state.zoom, Merged()));
    }

    /** `onZoomOut`: the new zoom is never below the floor. */
    method OnZoomOut()
      modifies this`state, this`outputs
      ensures state == old(state).(zoom := ZoomedOut(old(state.zoom), Merged()))
      ensures state.zoom >= ZoomFloor(Merged())
      ensures outputs == old(outputs) + [ZoomChanged(state.zoom)]
    {
      UpdateZoom(ZoomedOut(state.zoom, Merged()));
    }

    /** `onZoomReset`. */
    method OnZoomReset()
      modifies this`state, this`outputs
      ensures state == old(state).(zoom := ResetZoom(Merged()))
      ensures outputs == old(outputs) + [ZoomChanged(state.zoom)]
    {
      UpdateZoom(ResetZoom(Merged()));
    }

    /** `upDateZoom`: `'increment'`, `'decrement'`, and a reset for anything else. */
    method UpDateZoom(zoomType: string)
      modifies this`state, this`outputs
      ensures zoomType == "increment" ==> state == old(state).(zoom := ZoomedIn(old(state.zoom), Merged()))
      ensures zoomType == "decrement" ==> state == old(state).(zoom := ZoomedOut(old(state.zoom), Merged()))
      ensures zoomType != "increment" && zoomType != "decrement" ==> state == old(state).(zoom := ResetZoom(Merged()))
      ensures outputs == old(outputs) + [ZoomChanged(state.zoom)]
    {
      if zoomType == "increment" {
        OnZoomIn();
      } else if zoomType == "decrement" {
        OnZoomOut();
      } else {
        OnZoomReset();
      }
    }

    /** `onRotateLeft`: a quarter turn back, with no normalisation. */
    method OnRotateLeft()
      modifies this`state, this`outputs
      ensures state == old(state).(rotation := old(state.rotation) - 90)
      ensures outputs == old(outputs) + [RotationChanged(state.rotation)]
    {
      var rotation := state.rotation - 90;
      state := state.(rotation := rotation);
      outputs := outputs + [RotationChanged(rotation)];
    }

    /** `onRotateRight`: a quarter turn forward, with no normalisation. */
    method OnRotateRight()
      modifies this`state, this`outputs
      ensures state == old(state).(rotation := old(state.rotation) + 90)
      ensures outputs == old(outputs) + [RotationChanged(state.rotation)]
    {
      var rotation := state.rotation + 90;
      state := state.(rotation := rotation);
      outputs := outputs + [RotationChanged(rotation)];
    }

    /** `onPreviousPage`: one page back, unless already on the first. */
    method OnPreviousPage()
      modifies this`state, this`outputs
      ensures old(state.currentPage) > 1 ==>
        state == old(state).(currentPage := old(state.currentPage) - 1)
        && outputs == old(outputs) + [PageChanged(state.currentPage)]
      ensures old(state.currentPage) <= 1 ==> state == old(state) && outputs == old(outputs)
      ensures old(PageInRange(state)) ==> PageInRange(state)
    {
      if state.currentPage > 1 {
        var page := state.currentPage - 1;
        state := state.(currentPage := page);
        outputs := outputs + [PageChanged(page)];
      }
    }

    /** `onNextPage`: one page on, unless already on the last. */
    method OnNextPage()
      modifies this`state, this`outputs
      ensures old(state.currentPage) < old(state.totalPages) ==>
        state == old(state).(currentPage := old(state.currentPage) + 1)
        && outputs == old(outputs) + [PageChanged(state.currentPage)]
      ensures old(state.currentPage) >= old(state.totalPages) ==> state == old(state) && outputs == old(outputs)
      ensures old(PageInRange(state)) ==> PageInRange(state)
    {
      if state.currentPage < state.totalPages {
        var page := state.currentPage + 1;
        state := state.(currentPage := page);
        outputs := outputs + [PageChanged(page)];
      }
    }

    /** `onToggleViewMode`: single and continuous swap; nothing is emitted. */
    method OnToggleViewMode()
      modifies this`state, this`outputs
      ensures state == old(state).(viewMode := if old(state.viewMode) == Single then Continuous else Single)
      ensures state.viewMode != old(state.viewMode)
      ensures outputs == old(outputs)
    {
      state := state.(viewMode := if state.viewMode == Single then Continuous else Single);
    }

    /** `updateConfig`: adopt a non-zero initial zoom and a view mode from the merged configuration. */
    method UpdateConfig()
      modifies this`state, this`outputs
      ensures var cfg := Merged();
        && state.zoom == (if cfg.initialZoom.Some? && cfg.initialZoom.value != 0 then cfg.initialZoom.value else old(state.zoom))
        && state.viewMode == (if cfg.viewMode.Some? then cfg.viewMode.value else old(state.viewMode))
      ensures state == old(state).(zoom := state.zoom, viewMode := state.viewMode)
      ensures outputs == old(outputs)
    {
      var cfg := Merged();
      if cfg.initialZoom.Some? && cfg.initialZoom.value != 0 && cfg.initialZoom.value != state.zoom {
        state := state.(zoom := cfg.initialZoom.value);
      }
      if cfg.viewMode.Some? && cfg.viewMode.value != state.viewMode {
        state := state.(viewMode := cfg.viewMode.value);
      }
    }

    /** `setError`: stop loading, show the message, emit it and report it to the error boundary. */
    method SetError(message: string, now: int)
      modifies this`state, this`outputs, errorBoundary
      ensures state == old(state).(loading := false, error := Some(message))
      ensures outputs == old(outputs) + [ErrorEmitted(message)]
      ensures errorBoundary.current == ViewerReport(message, now)
    {
      state := state.(loading := false, error := Some(message));
      outputs := outputs + [ErrorEmitted(message)];
      errorBoundary.ReportError(ErrorBoundary.Message(message), Some(ERROR_CONTEXT), now);
    }

    /** `onDocumentLoad`. */
    method OnDocumentLoad(info: DocumentInfo)
      modifies this`state, this`outputs
      ensures state == old(state).(loading := false, error := None, documentInfo := Some(info))
      ensures outputs == old(outputs) + [LoadEmitted(info)]
    {
      state := state.(loading := false, error := None, documentInfo := Some(info));
      outputs := outputs + [LoadEmitted(info)];
    }

    /** `onDocumentError`: report the error; `retry` says whether the 2 s auto-retry is scheduled. */
    method OnDocumentError(error: string, now: int) returns (retry: bool)
      modifies this`state, this`outputs, errorBoundary
      ensures state == old(state).(loading := false, error := Some(error))
      ensures outputs == old(outputs) + [ErrorEmitted(error)]
      ensures errorBoundary.current == ViewerReport(error, now)
      ensures retry <==> RetriesAutomatically(error)
    {
      SetError(error, now);
      retry := Contains(error, "timeout") || Contains(error, "network");
    }

    /** `getDetectedDocumentTypeAsync`: an explicit type, `unknown` for no URL, else the detection cascade. */
    method GetDetectedDocumentTypeAsync(b: Utils.Browser, net: Utils.Network) returns (t: DocumentType)
      ensures documentType.Some? ==> t == documentType.value
      ensures documentType.None? && Url() == "" ==> t == Unknown
      ensures documentType.None? && Url() != "" ==> t == Utils.Classify(b, net, Url()).value
    {
      if documentType.Some? {
        return documentType.value;
      }
      var url := Url();
      if url == "" {
        return Unknown;
      }
      var requests;
      t, requests := Utils.DetectDocumentTypeAsync(b, net, url);
    }

    /** The error initialisation ends in, if any. */
    function InitFailure(b: Utils.Browser, helperFileName: string -> Option<string>): Option<string>
      reads this
    {
      if Url() == "" then Some(NO_URL_MESSAGE)
      else if !Utils.IsValidUrl(b, Url()) then Some(INVALID_URL_MESSAGE)
      else if FileNameFor(title, helperFileName, Url()).None? then Some(DETECTION_FAILED_MESSAGE)
      else None
    }

    /**
     * What `initializeViewer` leaves behind: the state, the outputs, and an
     * error-boundary report exactly when initialisation fails.
     */
    twostate predicate ViewerInitialized(b: Utils.Browser, net: Utils.Network, helperFileName: string -> Option<string>, now: int)
      reads this, errorBoundary
    {
      && Url() == old(Url()) && Merged() == old(Merged())
      && (Url() == "" ==>
          state == old(state).(loading := false, error := Some(NO_URL_MESSAGE))
          && outputs == old(outputs) + [ErrorEmitted(NO_URL_MESSAGE)])
      && (Url() != "" && !Utils.IsValidUrl(b, Url()) ==>
          state == old(state).(loading := false, error := Some(INVALID_URL_MESSAGE))
          && outputs == old(outputs) + [ErrorEmitted(INVALID_URL_MESSAGE)])
      && (Utils.IsValidUrl(b, Url()) ==>
          var reset := old(state).(zoom := ResetZoom(Merged()), rotation := 0, currentPage := 1,
                                   viewMode := Merged().viewMode.GetOr(Single));
          var kind := DetectedKind(b, net);
          match FileNameFor(title, helperFileName, Url())
          case Some(name) =>
            state == reset.(loading := false, error := None, documentInfo := Some(DocumentInfo(kind, name)))
            && outputs == old(outputs) + [LoadEmitted(DocumentInfo(kind, name))]
          case None =>
            state == reset.(loading := false, error := Some(DETECTION_FAILED_MESSAGE))
            && outputs == old(outputs) + [ErrorEmitted(DETECTION_FAILED_MESSAGE)])
      && (match InitFailure(b, helperFileName)
          case Some(message) => errorBoundary.current == ViewerReport(message, now)
          case None => errorBoundary.current == old(errorBoundary.current))
    }

    /**
     * `initializeViewer` followed by `initializeDocumentInfoAsync`. The file
     * name helper answers `None` when it throws, which lands in the catch.
     */
    method InitializeViewer(b: Utils.Browser, net: Utils.Network, helperFileName: string -> Option<string>, now: int)
      modifies this`state, this`outputs, errorBoundary
      ensures ViewerInitialized(b, net, helperFileName, now)
    {
      var url := Url();
      if url == "" {
        SetError(NO_URL_MESSAGE, now);
        return;
      }
      if !Utils.IsValidUrl(b, url) {
        SetError(INVALID_URL_MESSAGE, now);
        return;
      }
      var cfg := Merged();
      state := state.(loading := true, error := None, zoom := ResetZoom(cfg), rotation := 0,
                      currentPage := 1, viewMode := cfg.viewMode.GetOr(Single));
      var detectedType := GetDetectedDocumentTypeAsync(b, net);
      var fileName := FileNameFor(title, helperFileName, url);
      if fileName.None? {
        SetError(DETECTION_FAILED_MESSAGE, now);
        return;
      }
      var info := DocumentInfo(detectedType, fileName.value);
      state := state.(documentInfo := Some(info), loading := false);
      outputs := outputs + [LoadEmitted(info)];
    }

    /** The type initialisation settles on. */
    function DetectedKind(b: Utils.Browser, net: Utils.Network): (t: DocumentType)
      reads this
      ensures documentType.None? && Url() != "" && Utils.DetectDocumentType(Url()) != Unknown ==>
        t == Utils.DetectDocumentType(Url())
    {
      if documentType.Some? then documentType.value
      else if Url() == "" then Unknown
      else Utils.Classify(b, net, Url()).value
    }

    /** The 2 s auto-retry: initialise again if an error is still shown, otherwise do nothing. */
    method AutoRetryFired(b: Utils.Browser, net: Utils.Network, helperFileName: string -> Option<string>, now: int)
      modifies this`state, this`outputs, errorBoundary
      ensures (old(state.error).None? || old(state.error) == Some("")) ==>
        state == old(state) && outputs == old(outputs) && errorBoundary.current == old(errorBoundary.current)
      ensures old(state.error).Some? && old(state.error) != Some("") ==> ViewerInitialized(b, net, helperFileName, now)
    {
      if state.error.Some? && state.error.value != "" {
        InitializeViewer(b, net, helperFileName, now);
      }
    }
  }

  /** Rotating left then right restores the rotation, and all the rest of the state. */
  method RotateLeftThenRight(viewer: ImgPdfViewerComponent)
    modifies viewer`state, viewer`outputs
    ensures viewer.state == old(viewer.state)
    ensures |viewer.outputs| == |old(viewer.outputs)| + 2
  {
    viewer.OnRotateLeft();
    viewer.OnRotateRight();
  }

  /** Toggling the view mode twice is the identity. */
  method ToggleTwice(viewer: ImgPdfViewerComponent)
    modifies viewer`state, viewer`outputs
    ensures viewer.state == old(viewer.state) && viewer.outputs == old(viewer.outputs)
  {
    viewer.OnToggleViewMode();
    viewer.OnToggleViewMode();
  }

  /** Before the last page, a page forward then back returns to the page it started from. */
  method NextThenPrevious(viewer: ImgPdfViewerComponent)
    requires 1 <= viewer.state.currentPage < viewer.state.totalPages
    modifies viewer`state, viewer`outputs
    ensures viewer.state == old(viewer.state)
  {
    viewer.OnNextPage();
    viewer.OnPreviousPage();
  }
}
