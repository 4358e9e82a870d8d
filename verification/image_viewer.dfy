/**
 * `ImageViewerComponent`: choosing the source to load, the load outcome, the
 * drag-to-pan state machine over integer client coordinates, and the clamped
 * wheel zoom it proposes to its parent.
 */
module ImageViewer {
  import opened Types
  import opened Text
  import Utils
  import ErrorBoundary

  /** A point in CSS pixels. */
  datatype Point = Point(x: int, y: int)

  const ORIGIN := Point(0, 0)

  function Sub(a: Point, b: Point): Point { Point(a.x - b.x, a.y - b.y) }

  function Add(a: Point, b: Point): Point { Point(a.x + b.x, a.y + b.y) }

  /** `'raster' | 'vector' | 'animated'`. */
  datatype ImageKind = Raster | Vector | Animated

  /**
   * `detectImageType`: the lower-cased text after the last `.` of the whole
   * source; the query string is not removed.
   */
  function DetectImageType(src: string): (kind: ImageKind)
    ensures kind == Vector <==> ToLower(LastSegment(src, '.')) == "svg"
    ensures kind == Animated <==> ToLower(LastSegment(src, '.')) == "gif"
  {
    var extension := ToLower(LastSegment(src, '.'));
    if extension == "svg" then Vector
    else if extension == "gif" then Animated
    else Raster
  }

  /** A name ending in `.svg` is a vector image, whatever comes before it. */
  lemma SvgIsVector(base: string)
    ensures DetectImageType(base + ".SVG") == Vector
  {
    LastSegmentOfConcat(base, "SVG", '.');
    assert base + ".SVG" == base + ['.'] + "SVG";
    assert ToLower("SVG") == "svg";
  }

  /**
   * Unlike the document classifier, the query string counts: `a.gif?x` is a
   * raster image, although its file extension is `gif`.
   */
  lemma QueryHidesAnimation()
    ensures DetectImageType("a.gif?x") == Raster
    ensures Utils.GetFileExtension("a.gif?x") == "gif"
  {
    LastSegmentOfConcat("a", "gif?x", '.');
    assert "a.gif?x" == "a" + ['.'] + "gif?x";
    assert ToLower("gif?x") == "gif?x";
    Utils.ExtensionOf("a", "gif", "?x");
    assert "a" + "." + "gif" + "?x" == "a.gif?x";
  }

  /** The zoom the wheel proposes: ten points per notch, kept within 50 and 300. */
  function WheelZoom(zoom: int, deltaY: int): (z: int)
    ensures 50 <= z <= 300
    ensures 50 <= zoom + (if deltaY > 0 then -10 else 10) <= 300 ==> z == zoom + (if deltaY > 0 then -10 else 10)
  {
    var delta := if deltaY > 0 then -10 else 10;
    if zoom + delta > 300 then 300
    else if zoom + delta < 50 then 50
    else zoom + delta
  }

  /** The settled wheel callback: the new zoom is emitted only when it differs from the current one. */
  function WheelEmission(zoom: int, deltaY: int): (emitted: Option<int>)
    ensures emitted.Some? <==> WheelZoom(zoom, deltaY) != zoom
    ensures emitted.Some? ==> emitted.value == WheelZoom(zoom, deltaY)
  {
    var newZoom := WheelZoom(zoom, deltaY);
    if newZoom != zoom then Some(newZoom) else None
  }

  /** At the bounds the wheel is silent in the outward direction; within them it always emits. */
  lemma WheelAtBounds(zoom: int, deltaY: int)
    ensures zoom == 300 && deltaY <= 0 ==> WheelEmission(zoom, deltaY).None?
    ensures zoom == 50 && deltaY > 0 ==> WheelEmission(zoom, deltaY).None?
    ensures 60 <= zoom <= 290 ==> WheelEmission(zoom, deltaY).Some?
  {
  }

  const LOAD_FAILED_PREFIX := "Failed to load image: "
  const INVALID_BLOB_DETAIL := "Invalid blob URL"
  const NETWORK_DETAIL := "Network error or unsupported format"

  /**
   * The message `onImageError` reports: the prefix, then why, chosen by
   * whether the URL shown (the proxied one, else the source) is a `blob:` URL.
   */
  function LoadErrorMessage(proxiedSrc: string, src: string): (message: string)
    ensures StartsWith(message, LOAD_FAILED_PREFIX)
    ensures message == LOAD_FAILED_PREFIX + INVALID_BLOB_DETAIL <==>
      StartsWith(if proxiedSrc != "" then proxiedSrc else src, "blob:")
  {
    var shown := if proxiedSrc != "" then proxiedSrc else src;
    assert (LOAD_FAILED_PREFIX + INVALID_BLOB_DETAIL)[|LOAD_FAILED_PREFIX|] != (LOAD_FAILED_PREFIX + NETWORK_DETAIL)[|LOAD_FAILED_PREFIX|];
    LOAD_FAILED_PREFIX + (if StartsWith(shown, "blob:") then INVALID_BLOB_DETAIL else NETWORK_DETAIL)
  }

  /** What the component emits. */
  datatype Output = LoadEmitted(info: ImageInfo) | ErrorEmitted(message: string) | ZoomProposed(zoom: int)

  const NO_SOURCE_MESSAGE := "No image source provided"
  const ZERO_DIMENSIONS_MESSAGE := "Image has zero dimensions"
  const ERROR_CONTEXT := "Image loading"

  /** The entry `setError` leaves in the error boundary for `message`. */
  function ImageReport(message: string, now: int): Option<ErrorBoundary.ErrorInfo>
  {
    Some(ErrorBoundary.ErrorInfoOf(ErrorBoundary.Message(message), Some(ERROR_CONTEXT), now))
  }

  class ImageViewerComponent {
    var src: string
    var zoom: int
    var loading: bool
    var error: Option<string>
    var imageInfo: Option<ImageInfo>
    var proxiedSrc: string
    var isExternal: bool
    var isDragging: bool
    var dragStart: Point
    var imagePosition: Point
    var imageType: ImageKind
    var outputs: seq<Output>
    const errorBoundary: ErrorBoundary.ErrorBoundaryService

    constructor(errorBoundary: ErrorBoundary.ErrorBoundaryService)
      ensures src == "" && zoom == 100 && loading && error.None? && imageInfo.None?
      ensures proxiedSrc == "" && !isExternal && !isDragging
      ensures dragStart == ORIGIN && imagePosition == ORIGIN && imageType == Raster
      ensures outputs == [] && this.errorBoundary == errorBoundary
    {
      src := "";
      zoom := 100;
      loading := true;
      error := None;
      imageInfo := None;
      proxiedSrc := "";
      isExternal := false;
      isDragging := false;
      dragStart := ORIGIN;
      imagePosition := ORIGIN;
      imageType := Raster;
      outputs := [];
      this.errorBoundary := errorBoundary;
    }

    /** An error message is shown (`!this.error` is false). */
    predicate HasError()
      reads this
    {
      error.Some? && error.value != ""
    }

    /** `setError`. */
    method SetError(message: string, now: int)
      modifies this`loading, this`error, this`outputs, errorBoundary
      ensures !loading && error == Some(message)
      ensures outputs == old(outputs) + [ErrorEmitted(message)]
      ensures errorBoundary.current == ImageReport(message, now)
    {
      loading := false;
      error := Some(message);
      outputs := outputs + [ErrorEmitted(message)];
      errorBoundary.ReportError(ErrorBoundary.Message(message), Some(ERROR_CONTEXT), now);
    }

    /**
     * `initializeImage`: reset, then pick the source to load. `blob:`, `data:`
     * and same-origin sources load as they are; an external one goes through
     * proxy resolution.
     */
    method InitializeImage(b: Utils.Browser, net: Utils.Network, now: int)
      modifies this`loading, this`error, this`imageInfo, this`imagePosition, this`proxiedSrc,
               this`isExternal, this`imageType, this`outputs, errorBoundary
      ensures imageInfo.None? && imagePosition == ORIGIN
      ensures src == "" ==>
        !loading && error == Some(NO_SOURCE_MESSAGE) && outputs == old(outputs) + [ErrorEmitted(NO_SOURCE_MESSAGE)]
        && proxiedSrc == old(proxiedSrc) && isExternal == old(isExternal) && imageType == old(imageType)
        && errorBoundary.current == ImageReport(NO_SOURCE_MESSAGE, now)
      ensures src != "" ==>
        loading && error.None? && outputs == old(outputs) && imageType == DetectImageType(src)
        && errorBoundary.current == old(errorBoundary.current)
      ensures src != "" && (StartsWith(src, "blob:") || StartsWith(src, "data:")) ==>
        proxiedSrc == src && !isExternal
      ensures src != "" && !StartsWith(src, "blob:") && !StartsWith(src, "data:") ==>
        isExternal == Utils.IsExternalUrl(b, src)
        && proxiedSrc == (if isExternal then Utils.Resolve(b, net, src).value else src)
    {
      loading := true;
      error := None;
      imageInfo := None;
      imagePosition := ORIGIN;
      if src == "" {
        SetError(NO_SOURCE_MESSAGE, now);
        return;
      }
      if StartsWith(src, "blob:") || StartsWith(src, "data:") {
        proxiedSrc := src;
        isExternal := false;
      } else if Utils.IsExternalUrl(b, src) {
        isExternal := true;
        var requests;
        proxiedSrc, requests := Utils.TryLoadWithProxy(b, net, src);
      } else {
        proxiedSrc := src;
        isExternal := false;
      }
      imageType := DetectImageType(src);
    }

    /** `onImageLoad`: success exactly when both natural dimensions are positive. */
    method OnImageLoad(naturalWidth: int, naturalHeight: int, alt: string, now: int)
      modifies this`loading, this`error, this`imageInfo, this`outputs, errorBoundary
      ensures naturalWidth > 0 && naturalHeight > 0 ==>
        var info := ImageInfo(naturalWidth, naturalHeight, proxiedSrc, if alt != "" then alt else "Document");
        && !loading && error.None? && imageInfo == Some(info)
        && outputs == old(outputs) + [LoadEmitted(info)]
        && errorBoundary.current == old(errorBoundary.current)
      ensures !(naturalWidth > 0 && naturalHeight > 0) ==>
        !loading && error == Some(ZERO_DIMENSIONS_MESSAGE) && imageInfo == old(imageInfo)
        && outputs == old(outputs) + [ErrorEmitted(ZERO_DIMENSIONS_MESSAGE)]
        && errorBoundary.current == ImageReport(ZERO_DIMENSIONS_MESSAGE, now)
    {
      if naturalWidth > 0 && naturalHeight > 0 {
        var info := ImageInfo(naturalWidth, naturalHeight, proxiedSrc, if alt != "" then alt else "Document");
        imageInfo := Some(info);
        loading := false;
        error := None;
        outputs := outputs + [LoadEmitted(info)];
      } else {
        SetError(ZERO_DIMENSIONS_MESSAGE, now);
      }
    }

    /** `onImageError`. */
    method OnImageError(now: int)
      modifies this`loading, this`error, this`outputs, errorBoundary
      ensures !loading && error == Some(LoadErrorMessage(proxiedSrc, src))
      ensures outputs == old(outputs) + [ErrorEmitted(LoadErrorMessage(proxiedSrc, src))]
      ensures errorBoundary.current == ImageReport(LoadErrorMessage(proxiedSrc, src), now)
    {
      SetError(LoadErrorMessage(proxiedSrc, src), now);
    }

    /** `onMouseDown`: start a drag only when zoomed in past 100, loaded and without error. */
    method OnMouseDown(client: Point)
      modifies this`isDragging, this`dragStart
      ensures zoom > 100 && !loading && !HasError() ==>
        isDragging && dragStart == Sub(client, imagePosition)
      ensures !(zoom > 100 && !loading && !HasError()) ==>
        isDragging == old(isDragging) && dragStart == old(dragStart)
    {
      if zoom > 100 && !loading && !HasError() {
        isDragging := true;
        dragStart := Sub(client, imagePosition);
      }
    }

    /** `onMouseMove`: while dragging, the image follows the mouse. */
    method OnMouseMove(client: Point)
      modifies this`imagePosition
      ensures isDragging && zoom > 100 ==> imagePosition == Sub(client, dragStart)
      ensures !(isDragging && zoom > 100) ==> imagePosition == old(imagePosition)
    {
      if isDragging && zoom > 100 {
        imagePosition := Sub(client, dragStart);
      }
    }

    /** `onMouseUp`. */
    method OnMouseUp()
      modifies this`isDragging
      ensures !isDragging
    {
      isDragging := false;
    }

    /** `resetPositionIfNeeded`: back to the origin exactly at 100 %. */
    method ResetPositionIfNeeded()
      modifies this`imagePosition
      ensures zoom == 100 ==> imagePosition == ORIGIN
      ensures zoom != 100 ==> imagePosition == old(imagePosition)
    {
      if zoom == 100 {
        imagePosition := ORIGIN;
      }
    }

    /** A new `zoom` input: `ngOnChanges` stores it and resets the position if needed. */
    method OnZoomInput(newZoom: int)
      modifies this`zoom, this`imagePosition
      ensures zoom == newZoom
      ensures newZoom == 100 ==> imagePosition == ORIGIN
      ensures newZoom != 100 ==> imagePosition == old(imagePosition)
    {
      zoom := newZoom;
      ResetPositionIfNeeded();
    }

    /** The settled wheel callback: propose the clamped zoom when it differs. */
    method OnWheelSettled(deltaY: int)
      modifies this`outputs
      ensures WheelEmission(zoom, deltaY).Some? ==> outputs == old(outputs) + [ZoomProposed(WheelEmission(zoom, deltaY).value)]
      ensures WheelEmission(zoom, deltaY).None? ==> outputs == old(outputs)
    {
      var emitted := WheelEmission(zoom, deltaY);
      if emitted.Some? {
        outputs := outputs + [ZoomProposed(emitted.value)];
      }
    }

    /** `getFileName`. */
    method GetFileName() returns (name: string)
      ensures name != "" && '/' !in name
      ensures Utils.IsLastPathSegment(src, name, "image")
    {
      var parts := Split(src, '/');
      name := if parts[|parts| - 1] != "" then parts[|parts| - 1] else "image";
      assert name == Utils.LastPathSegmentOr(src, "image");
    }
  }

  /** Where a drag puts the image: the old position moved by the mouse's travel. */
  lemma DragDisplacement(position: Point, down: Point, move: Point)
    ensures Sub(move, Sub(down, position)) == Add(position, Sub(move, down))
  {
  }

  /**
   * Press, move and release: the image moves by the mouse's travel, and
   * moving back to the press point before releasing restores the old position.
   */
  method DragAndRelease(viewer: ImageViewerComponent, down: Point, move: Point)
    requires viewer.zoom > 100 && !viewer.loading && !viewer.HasError()
    modifies viewer`isDragging, viewer`dragStart, viewer`imagePosition
    ensures viewer.imagePosition == Add(old(viewer.imagePosition), Sub(move, down))
    ensures !viewer.isDragging
  {
    viewer.OnMouseDown(down);
    viewer.OnMouseMove(move);
    viewer.OnMouseUp();
  }

  /** A move back to the press point puts the image where it was. */
  method DragThereAndBack(viewer: ImageViewerComponent, down: Point, move: Point)
    requires viewer.zoom > 100 && !viewer.loading && !viewer.HasError()
    modifies viewer`isDragging, viewer`dragStart, viewer`imagePosition
    ensures viewer.imagePosition == old(viewer.imagePosition)
  {
    viewer.OnMouseDown(down);
    viewer.OnMouseMove(move);
    viewer.OnMouseMove(down);
  }

  /** After release, moving the mouse changes nothing. */
  method MoveAfterRelease(viewer: ImageViewerComponent, client: Point)
    modifies viewer`isDragging, viewer`imagePosition
    ensures viewer.imagePosition == old(viewer.imagePosition)
  {
    viewer.OnMouseUp();
    viewer.OnMouseMove(client);
  }
}
