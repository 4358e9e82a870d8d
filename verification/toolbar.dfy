/**
 * `ToolbarComponent`: which buttons the template shows and disables, and
 * which clicks the handlers pass on. Nothing in the toolbar changes state; a
 * click either emits the button's event or is swallowed by a guard.
 */
module Toolbar {
  import opened Types
  import Utils

  /** The toolbar's boolean inputs. */
  datatype Flags = Flags(
    showDownload: bool,
    showInNewTab: bool,
    showZoom: bool,
    showRotation: bool,
    showFullscreen: bool,
    showViewModeToggle: bool,
    embedded: bool)

  /** The input defaults: every feature shown, not embedded. */
  const DEFAULT_FLAGS := Flags(true, true, true, true, true, true, false)

  /** The toolbar's inputs: the viewer state, the document kind and the flags. */
  datatype Inputs = Inputs(state: ViewerState, documentType: DocumentType, flags: Flags)

  /** The buttons; each emits the output of the same name. */
  datatype Button =
    | PreviousPage | NextPage | ToggleViewMode
    | ZoomOut | ZoomReset | ZoomIn
    | RotateLeft | RotateRight
    | Download | OpenInNewTab | Fullscreen

  /** `canZoom`. */
  function CanZoom(t: Inputs): (r: bool)
    ensures r <==> t.documentType == Pdf || t.documentType == Image
  {
    Utils.SupportsZoom(t.documentType)
  }

  /** `canRotate`. */
  function CanRotate(t: Inputs): (r: bool)
    ensures r <==> t.documentType == Pdf || t.documentType == Image
  {
    Utils.SupportsRotation(t.documentType)
  }

  /** `canPaginate`. */
  function CanPaginate(t: Inputs): (r: bool)
    ensures r <==> t.documentType == Pdf
  {
    Utils.SupportsPagination(t.documentType)
  }

  /** The `*ngIf` that puts the button in the page. */
  function Visible(t: Inputs, button: Button): (r: bool)
    ensures button == ToggleViewMode ==> (r <==> t.documentType == Pdf && t.flags.showViewModeToggle)
    ensures (button == PreviousPage || button == NextPage) ==> (r <==> t.documentType == Pdf)
    ensures (button == ZoomOut || button == ZoomReset || button == ZoomIn) ==>
      (r <==> (t.documentType == Pdf || t.documentType == Image) && t.flags.showZoom)
    ensures (button == RotateLeft || button == RotateRight) ==>
      (r <==> (t.documentType == Pdf || t.documentType == Image) && t.flags.showRotation)
    ensures button == Download ==> (r <==> t.flags.showDownload)
    ensures button == OpenInNewTab ==> (r <==> t.flags.showInNewTab)
    ensures button == Fullscreen ==> (r <==> t.flags.showFullscreen)
    ensures t.documentType == Unknown && r ==> button in {Download, OpenInNewTab, Fullscreen}
  {
    match button
    case PreviousPage => CanPaginate(t)
    case NextPage => CanPaginate(t)
    case ToggleViewMode => t.documentType == Pdf && t.flags.showViewModeToggle
    case ZoomOut => CanZoom(t) && t.flags.showZoom
    case ZoomReset => CanZoom(t) && t.flags.showZoom
    case ZoomIn => CanZoom(t) && t.flags.showZoom
    case RotateLeft => CanRotate(t) && t.flags.showRotation
    case RotateRight => CanRotate(t) && t.flags.showRotation
    case Download => t.flags.showDownload
    case OpenInNewTab => t.flags.showInNewTab
    case Fullscreen => t.flags.showFullscreen
  }

  /** The `[disabled]` binding; buttons without one are never disabled. */
  function Disabled(t: Inputs, button: Button): (r: bool)
    ensures button == PreviousPage ==> (r <==> t.state.currentPage <= 1 || t.state.viewMode == Continuous)
    ensures button == NextPage ==> (r <==> t.state.currentPage >= t.state.totalPages || t.state.viewMode == Continuous)
    ensures button == ZoomOut ==> (r <==> t.state.zoom <= 25)
    ensures button == ZoomIn ==> (r <==> t.state.zoom >= 300)
    ensures button !in {PreviousPage, NextPage, ZoomOut, ZoomIn} ==> !r
  {
    match button
    case PreviousPage => t.state.currentPage <= 1 || t.state.viewMode == Continuous
    case NextPage => t.state.currentPage >= t.state.totalPages || t.state.viewMode == Continuous
    case ZoomOut => t.state.zoom <= 25
    case ZoomIn => t.state.zoom >= 300
    case _ => false
  }

  /** The divider after the rotation controls. */
  function DividerVisible(t: Inputs): (r: bool)
    ensures r <==> Visible(t, RotateLeft)
                   && (Visible(t, Download) || Visible(t, OpenInNewTab) || Visible(t, Fullscreen))
  {
    CanRotate(t) && t.flags.showRotation && (t.flags.showDownload || t.flags.showInNewTab || t.flags.showFullscreen)
  }

  /** The file name row, shown when there is document info and the toolbar is not embedded. */
  function FileNameLabel(t: Inputs): (r: Option<string>)
    ensures r.Some? <==> t.state.documentInfo.Some? && !t.flags.embedded
    ensures r.Some? ==> r.value != ""
    ensures r.Some? && t.state.documentInfo.value.fileName != "" ==> r.value == t.state.documentInfo.value.fileName
  {
    if t.state.documentInfo.Some? && !t.flags.embedded then
      var name := t.state.documentInfo.value.fileName;
      Some(if name != "" then name else "Document")
    else None
  }

  /** The click handlers: the event emitted, or `None` when a guard swallows the click. */
  function HandleClick(t: Inputs, button: Button): (emitted: Option<Button>)
    ensures emitted.Some? ==> emitted.value == button
    ensures button == PreviousPage ==> (emitted.Some? <==> t.state.currentPage > 1)
    ensures button == NextPage ==> (emitted.Some? <==> t.state.currentPage < t.state.totalPages)
    ensures button != PreviousPage && button != NextPage ==> emitted == Some(button)
  {
    match button
    case PreviousPage => if t.state.currentPage > 1 then Some(button) else None
    case NextPage => if t.state.currentPage < t.state.totalPages then Some(button) else None
    case _ => Some(button)
  }

  /** A button the template enables always gets through its handler. */
  lemma EnabledButtonEmits(t: Inputs, button: Button)
    requires !Disabled(t, button)
    ensures HandleClick(t, button) == Some(button)
  {
  }

  /**
   * The handler guards are weaker than the template: in continuous mode a
   * page button is disabled, yet its handler alone would still emit.
   */
  lemma GuardsWeakerThanTemplate(t: Inputs)
    requires t.state.viewMode == Continuous && 1 < t.state.currentPage < t.state.totalPages
    ensures Disabled(t, PreviousPage) && HandleClick(t, PreviousPage) == Some(PreviousPage)
    ensures Disabled(t, NextPage) && HandleClick(t, NextPage) == Some(NextPage)
  {
  }
}
