/**
 * The value types of the viewer: document kinds, the viewer state record, the
 * configuration object with its optional keys, and the small records the
 * components exchange.
 */
module Types {

  datatype Option<+T> = None | Some(value: T) {
    function GetOr(default: T): T
    {
      if Some? then value else default
    }
  }

  /** One byte of a fetched body or of a typed array. */
  newtype byte = x: int | 0 <= x < 256

  /** `'pdf' | 'image' | 'unknown'`. */
  datatype DocumentType = Pdf | Image | Unknown

  /** `'single' | 'continuous'`. */
  datatype ViewMode = Single | Continuous

  /** `DocumentInfo` with the two keys the viewer sets. */
  datatype DocumentInfo = DocumentInfo(kind: DocumentType, fileName: string)

  /** `ImageInfo`: the natural size of a loaded image, its source and its alt text. */
  datatype ImageInfo = ImageInfo(naturalWidth: int, naturalHeight: int, src: string, alt: string)

  /** `ViewerState`; zoom is a percentage, rotation a signed number of degrees. */
  datatype ViewerState = ViewerState(
    currentPage: int,
    totalPages: int,
    zoom: int,
    rotation: int,
    loading: bool,
    error: Option<string>,
    fullscreen: bool,
    documentInfo: Option<DocumentInfo>,
    viewMode: ViewMode)

  /** The state a viewer component starts with. */
  const INITIAL_STATE := ViewerState(1, 1, 100, 0, true, None, false, None, Single)

  /**
   * `DocumentViewerConfig`: every key is optional, and `None` stands for a key
   * the object does not have.
   */
  datatype Config = Config(
    showToolbar: Option<bool>,
    showDownload: Option<bool>,
    showZoom: Option<bool>,
    showRotation: Option<bool>,
    showFullscreen: Option<bool>,
    showInNewTab: Option<bool>,
    showPagination: Option<bool>,
    showViewModeToggle: Option<bool>,
    className: Option<string>,
    height: Option<string>,
    width: Option<string>,
    embedded: Option<bool>,
    initialZoom: Option<int>,
    maxZoom: Option<int>,
    minZoom: Option<int>,
    viewMode: Option<ViewMode>,
    modalSize: Option<string>,
    customStyle: Option<string>,
    proxyUrl: Option<string>,
    fallbackType: Option<DocumentType>)

  /** `{}`. */
  const EMPTY_CONFIG := Config(None, None, None, None, None, None, None, None, None, None,
                               None, None, None, None, None, None, None, None, None, None)

  /**
   * The legacy `docPreviewConfig` object, reduced to the keys the viewer reads;
   * `None` is an absent key.
   */
  datatype LegacyConfig = LegacyConfig(
    zoomIn: Option<bool>,
    zoomOut: Option<bool>,
    rotate: Option<bool>,
    download: Option<bool>,
    openModal: Option<bool>,
    pageIndicator: Option<bool>,
    docScreenWidth: Option<string>,
    modalSize: Option<string>,
    customStyle: Option<string>)

  /** `{}` as a legacy configuration: the component's default `docPreviewConfig`. */
  const EMPTY_LEGACY := LegacyConfig(None, None, None, None, None, None, None, None, None)
}
