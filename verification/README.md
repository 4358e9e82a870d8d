# img-pdf-viewer in Dafny

A model of the Angular document viewer library `img-pdf-viewer`, which shows
PDF documents and images. The viewer decides what a URL points to and how to
reach it. It keeps a viewer state (page, zoom, rotation, view mode) that the
toolbar drives, pans and wheel-zooms images, and keeps track of the PDF.js
render tasks it has started. Each module models one source file:

| module | file | form |
|---|---|---|
| `Utils` (utils.dfy) | `utils.ts` | functions for the classifiers and URL rules; methods with loops for `tryLoadWithProxy` and `createBlobFromDataUrl` |
| `PdfViewer` (pdf_viewer.dfy) | `pdf-viewer.component.ts` | class `PdfViewerComponent` with its fields and one method per uninterrupted step |
| `Viewer` (viewer.dfy) | `img-pdf-viewer.component.ts` | functions for the getters (`mergedConfig` and others); class `ImgPdfViewerComponent` for the handlers |
| `ImageViewer` (image_viewer.dfy) | `image-viewer.component.ts` | class `ImageViewerComponent`; functions for the image kind, the wheel zoom and the messages |
| `Toolbar` (toolbar.dfy) | `toolbar.component.ts` | functions: template visibility and `[disabled]` bindings, click guards |
| `Service` (service.dfy) | `img-pdf-viewer.service.ts` | the function `fileTypeChecker` |
| `ErrorBoundary` (error_boundary.dfy) | `error-boundary.service.ts` | function `isRetryableError`; class holding the current error |
| `Types` (types.dfy) | `types.ts` | the value types: `DocumentType`, `ViewerState`, `DocumentViewerConfig`, … |
| `Text` (text.dfy) | — | the JavaScript string operations the code uses: `toLowerCase`, `startsWith`, `includes`, `split`, `join` |

The modules share three modelling choices.

- **The outside world is an argument.** A `Utils.Browser` value holds what the code reads from the browser:
  - the page origin and the `URL` parser;
  - `encodeURIComponent`, `atob` and `URL.createObjectURL`;
  - `navigator.onLine`.

  A `Utils.Network` value answers every `HEAD` request and every ranged `GET`. A request that throws, times out or gets a response that is not ok answers `None`.
- **The cascades report their requests.** The two fallback cascades, `tryLoadWithProxy` and `detectDocumentTypeAsync`, return the ordered list of requests they issue. Each request carries its timeout, so the model can state which probes run, in what order, and how long they may wait.
- **Asynchronous methods are cut at their `await`s where the interleaving matters.** `initializePdf`, `loadPdfDocument` and `renderCurrentPage` of `PdfViewerComponent` are split at their `await`s on PDF.js. Each piece becomes one method that runs without interruption. The event that resumes it is a method of its own: the document opening, a page arriving, a render task settling, or a timer firing. The awaits that are not cut are listed under "Left out".
  - A render task is a number taken from a counter.
  - Ghost fields record which page each task was started for, which tasks were cancelled and which have settled.
  - "Live" means started and neither cancelled nor settled.
  - `Sound()` holds in every state the component can reach, including the states the races below leave behind. Task numbers are below the counter. Cancelled tasks, settled tasks and the tasks in the map were all started.
  - `Valid()` is the bookkeeping the map is meant to keep. It is `Sound()`, plus two clauses. Every task in the map was started for the page it is filed under and has not been cancelled; it may have settled, as `FailRender` leaves it. Every live task is in the map, under its own page.
  - Every method requires at most `Sound()` and what it needs of its arguments. A method states its new state whatever the state before, and states that it keeps `Valid()` only for a state where `Valid()` held.

Time is an integer number of milliseconds. The components' outputs (`onLoad`, `onError`, `onZoomChange`, …) are appended to an `outputs` sequence.

## Model

| member | source | states |
|---|---|---|
| Utils.GetFileExtension | projects/img-pdf-viewer/src/lib/utils.ts:182-186 | The extension never contains `.` or `?`. If the part before the first `?` contains a `.`, the extension is exactly the text after its last `.`. Otherwise it is empty. |
| Utils.ExtensionOf | projects/img-pdf-viewer/src/lib/utils.ts:182-186 | For `base.ext?query`, the extension is `ext`. The query string never leaks into it. |
| Utils.GetFileName | projects/img-pdf-viewer/src/lib/utils.ts:191-195 | The name is non-empty and contains no `/` and no `?`. Let `c` be the URL before its first `?`. When `c` is empty or ends in `/`, the name is `document`. Otherwise `c` ends with the name, and the character before the name is `/` or the name is all of `c`, so the name is the last path segment (`Utils.LastPathSegmentUnique`). |
| Utils.LastPathSegmentOr | projects/img-pdf-viewer/src/lib/image-viewer.component.ts:323-326 | The name both components' `getFileName` return: non-empty and without `/`. When the source is empty or ends in `/`, the name is the fallback. Otherwise the source ends with the name and the name starts the source or follows a `/`; the query string is kept. |
| Utils.LastPathSegmentUnique | projects/img-pdf-viewer/src/lib/image-viewer.component.ts:323-326 | Two `/`-free names that are both the last path segment of the same path are equal, so the clauses of `IsLastPathSegment` determine the name. |
| Utils.DetectDocumentType | projects/img-pdf-viewer/src/lib/utils.ts:6-27 | The result is `pdf` exactly when the lower-cased extension is `pdf`. It is `image` exactly when that extension is one of the nine listed image extensions. Otherwise it is `unknown`. |
| Utils.DetectDocumentTypeIgnoresCase | projects/img-pdf-viewer/src/lib/utils.ts:6-9 | Lower-casing the URL never changes its detected type. |
| Utils.DetectDocumentTypeOfExtension | projects/img-pdf-viewer/src/lib/utils.ts:6-27 | For `base.ext?query`, the type depends on the lower-cased `ext` alone. |
| Utils.UpperCasePdfExtension | projects/img-pdf-viewer/src/lib/utils.ts:6-11 | Any URL ending in `.PDF` is a PDF. |
| Utils.QueryIgnoredExtension | projects/img-pdf-viewer/src/lib/utils.ts:6-21 | Any URL ending in `.PNG?v=2` is an image. The query is dropped and the case is ignored. |
| Utils.ApngExtensionUnknown | projects/img-pdf-viewer/src/lib/utils.ts:12-25 | `apng` is not among the nine image extensions, so a URL ending in `.apng` is `unknown`. |
| Utils.DetectDocumentTypeFromContentType | projects/img-pdf-viewer/src/lib/utils.ts:32-46 | An empty header gives `unknown`. The result is `pdf` exactly when the lower-cased header contains `application/pdf`. It is `image` exactly when the header does not contain that but does contain `image/`. So `pdf` wins when both occur. |
| Utils.ContentTypeIgnoresCase | projects/img-pdf-viewer/src/lib/utils.ts:32-46 | Lower-casing the header never changes its classification. |
| Utils.SignatureType | projects/img-pdf-viewer/src/lib/utils.ts:72-95 | The bytes give `pdf` exactly when there are at least 4 and they start `25 50 44 46`. They give `image` exactly when they are not a PDF, there are at least 8, and they start `FF D8 FF` or `89 50 4E 47`. Otherwise they give `unknown`. |
| Utils.ShortSignatures | projects/img-pdf-viewer/src/lib/utils.ts:72-95 | A 4-byte `%PDF` is a PDF. A 7-byte PNG header is `unknown` because of the 8-byte guard. An 8-byte JPEG header is an image. |
| Utils.HeaderKind | projects/img-pdf-viewer/src/lib/utils.ts:128-136 | A failed or not-ok `HEAD` gives `unknown`. Otherwise the result is the classification of the content-type header. |
| Utils.BytesKind | projects/img-pdf-viewer/src/lib/utils.ts:67-101 | A failed ranged `GET` gives `unknown`. Otherwise the result is the signature of the body. |
| Utils.FirstDefinite | projects/img-pdf-viewer/src/lib/utils.ts:107-177 | The result is `unknown` exactly when every step answers `unknown`. Otherwise it is the answer of a step all of whose predecessors answered `unknown`. |
| Utils.SupportsPagination | projects/img-pdf-viewer/src/lib/utils.ts:213-215 | Holds exactly for `pdf`. |
| Utils.SupportsZoom | projects/img-pdf-viewer/src/lib/utils.ts:220-222 | Holds exactly for `pdf` and `image`. |
| Utils.SupportsRotation | projects/img-pdf-viewer/src/lib/utils.ts:227-229 | Holds exactly for `pdf` and `image`. |
| Utils.IsValidUrl | projects/img-pdf-viewer/src/lib/utils.ts:234-258 | False for the empty string. True for the prefixes `data:`, `blob:`, `http(s)://` in any case, `/`, `./` and `../`. Any other URL is valid exactly when it parses relative to the page origin. |
| Utils.IsExternalUrl | projects/img-pdf-viewer/src/lib/utils.ts:323-337 | True exactly when the URL is not `data:`, parses as an absolute URL, and has an origin other than the page's. So it is false for `data:` and for URLs that do not parse. |
| Utils.ApplyCorsProxyShape | projects/img-pdf-viewer/src/lib/utils.ts:342-359 | `data:` and same-origin URLs come back unchanged. Any other URL becomes `CORS_PROXIES[i mod 5]` followed by the encoded URL. |
| Utils.ScanProxies | projects/img-pdf-viewer/src/lib/utils.ts:422-444 | The result is the lowest proxy index from `from` on whose `HEAD` answers, and every earlier index failed. It is `None` exactly when every remaining proxy fails. The requests are one 8 s CORS `HEAD` per proxy tried, in index order: exactly one per index from `from` up to and including the one that answers, or one per remaining proxy when none does. |
| Utils.ScanProxiesTimeout | projects/img-pdf-viewer/src/lib/utils.ts:422-444 | The proxy probes wait at most 8 s times the number of proxies left. |
| Utils.Resolve | projects/img-pdf-viewer/src/lib/utils.ts:364-449 | A `data:` or same-origin URL comes back unchanged and issues no request. Otherwise the result is the URL itself or `applyCorsProxy(url, i)` for some `i < 5`. |
| Utils.ResolveChooses | projects/img-pdf-viewer/src/lib/utils.ts:364-449 | The URL itself when a direct probe answers. Otherwise the proxy with the lowest answering index. The original URL when every proxy fails. |
| Utils.ResolveRequests | projects/img-pdf-viewer/src/lib/utils.ts:364-449 | At most 7 requests, with at most 48 s of timeouts in total. An image URL is probed first with a 3 s `HEAD` in the default mode. If that probe does not answer, the 5 s CORS `HEAD` of the URL comes next, before any proxy. |
| Utils.ScanProxiesAdvance | projects/img-pdf-viewer/src/lib/utils.ts:422-440 | Once the first `i` proxies have been probed without an answer, probing proxy `i` either ends the whole scan there, with that proxy and the requests so far plus its probe, or leaves the scan from `i + 1` to run after those requests. |
| Utils.ProbeProxies | projects/img-pdf-viewer/src/lib/utils.ts:422-444 | The loop with its early return picks the same proxy and issues the same requests as `ScanProxies` from index 0. |
| Utils.ProbeDirect | projects/img-pdf-viewer/src/lib/utils.ts:371-411 | It answers exactly when the image probe (image URLs only) or the CORS probe answers. It issues the direct probes up to the first that answers. |
| Utils.TryLoadWithProxy | projects/img-pdf-viewer/src/lib/utils.ts:364-449 | The URL returned and the requests issued are those of `Resolve`. |
| Utils.SignatureProbe | projects/img-pdf-viewer/src/lib/utils.ts:51-102 | The result is the signature of the first bytes of the resolved URL. The last request is the 5 s ranged `GET` of that URL. |
| Utils.Classify | projects/img-pdf-viewer/src/lib/utils.ts:107-177 | A definite extension is the answer, with no request. Otherwise the first request is the 3 s CORS `HEAD` of the URL. |
| Utils.ClassifyIsFirstDefinite | projects/img-pdf-viewer/src/lib/utils.ts:107-177 | The result is the first definite answer among four steps, in order: the extension, the direct header, the proxied header and the signature. |
| Utils.ClassifyExtensionNeedsNoNetwork | projects/img-pdf-viewer/src/lib/utils.ts:109-112 | With a definite extension, the result is the same for every network and issues no request. |
| Utils.ClassifyWithoutProxy | projects/img-pdf-viewer/src/lib/utils.ts:143-165 | When resolution keeps the URL, the proxied header step is skipped. |
| Utils.DetectDocumentTypeBySignature | projects/img-pdf-viewer/src/lib/utils.ts:51-102 | The method's type and requests are those of `SignatureProbe`. |
| Utils.DetectDocumentTypeAsync | projects/img-pdf-viewer/src/lib/utils.ts:107-177 | The method's type and requests are those of `Classify`. |
| Utils.DetectAfterDirectHead | projects/img-pdf-viewer/src/lib/utils.ts:141-176 | The type and requests after the direct `HEAD` (resolution, the proxied `HEAD` when the URL changed, then the signature) are those of the cascade's remaining strategies. |
| Utils.DataUrlPayload | projects/img-pdf-viewer/src/lib/utils.ts:456 | Without a comma the payload is the string `undefined`, because `split(',')[1]` is `undefined` and `atob` converts it to a string. Otherwise it is the text after the first comma, up to the next comma or the end: `FirstSegment(AfterFirst(dataUrl, ','), ',')`, comma-free. |
| Utils.CharCodeBytes | projects/img-pdf-viewer/src/lib/utils.ts:458-462 | One byte per character. A character code below 256 is kept as it is. |
| Utils.FillBytes | projects/img-pdf-viewer/src/lib/utils.ts:458-462 | The filled array holds exactly `CharCodeBytes` of the decoded text. |
| Utils.DataUrlBlob | projects/img-pdf-viewer/src/lib/utils.ts:454-470 | The result is `null` exactly when `atob` rejects the payload. |
| Utils.CreateBlobFromDataUrl | projects/img-pdf-viewer/src/lib/utils.ts:454-470 | The method returns `DataUrlBlob` of the data URL. |
| Utils.GetDocumentInfo | projects/img-pdf-viewer/src/lib/utils.ts:484-489 | The info carries the given type, and its file name is `getFileName` of the URL: non-empty and without `/`. |
| Service.FileTypeChecker | projects/img-pdf-viewer/src/lib/img-pdf-viewer.service.ts:37-62 | The result is always `''`, `pdf` or `image`, and empty input gives `''`. It is `pdf` exactly when the lower-cased input contains `.pdf`. It is `image` exactly when it does not contain `.pdf` but contains one of the nine listed markers. |
| Service.FileTypeCheckerIgnoresCase | projects/img-pdf-viewer/src/lib/img-pdf-viewer.service.ts:50-61 | Lower-casing the input never changes the result. |
| Service.PdfWinsOverImage | projects/img-pdf-viewer/src/lib/img-pdf-viewer.service.ts:54-57 | `a.pdf.png` is `pdf`. |
| Service.ApngDisagreement | projects/img-pdf-viewer/src/lib/img-pdf-viewer.service.ts:38-57 | `x.apng` is an image for the service but `unknown` for `detectDocumentType`. |
| ErrorBoundary.IsRetryableError | projects/img-pdf-viewer/src/lib/error-boundary.service.ts:38-48 | A string is retryable exactly when it contains `network`, `timeout` or `CORS`, matched case-sensitively. An `Error` is retryable exactly when its lower-cased message contains `network`, `timeout`, `cors` or `fetch`. |
| ErrorBoundary.StringRetryableImpliesObjectRetryable | projects/img-pdf-viewer/src/lib/error-boundary.service.ts:38-48 | A message that is retryable as a string is retryable as an `Error`. |
| ErrorBoundary.RetryableCaseSensitivity | projects/img-pdf-viewer/src/lib/error-boundary.service.ts:38-48 | `"cors"` and `"fetch"` are retryable only as `Error` messages. |
| ErrorBoundary.ObjectRetryableIgnoresCase | projects/img-pdf-viewer/src/lib/error-boundary.service.ts:43-47 | The case of an `Error` message does not matter. |
| ErrorBoundary.ErrorInfoOf | projects/img-pdf-viewer/src/lib/error-boundary.service.ts:16-22 | The record has the message, the time and the retryable flag. An `Error` supplies its own `code` and is its own details. A string has no code and the details `{ context }`. |
| ErrorBoundary.ErrorBoundaryService.constructor | projects/img-pdf-viewer/src/lib/error-boundary.service.ts:9 | The current error starts as `null`. |
| ErrorBoundary.ErrorBoundaryService.ReportError | projects/img-pdf-viewer/src/lib/error-boundary.service.ts:15-26 | The reported error becomes the current one. |
| ErrorBoundary.ErrorBoundaryService.ClearError | projects/img-pdf-viewer/src/lib/error-boundary.service.ts:31-33 | The current error becomes `null`. |
| ErrorBoundary.ErrorBoundaryService.GetCurrentError | projects/img-pdf-viewer/src/lib/error-boundary.service.ts:53-55 | Returns the current error and changes nothing. |
| ErrorBoundary.ReportThenRead | projects/img-pdf-viewer/src/lib/error-boundary.service.ts:15-55 | After a report, the read is non-null and carries the reported message and retryable flag. |
| ErrorBoundary.ClearThenRead | projects/img-pdf-viewer/src/lib/error-boundary.service.ts:31-55 | After a clear, the read is `null`. |
| Toolbar.CanZoom | projects/img-pdf-viewer/src/lib/toolbar.component.ts:260-262 | Holds exactly for `pdf` and `image`. |
| Toolbar.CanRotate | projects/img-pdf-viewer/src/lib/toolbar.component.ts:264-266 | Holds exactly for `pdf` and `image`. |
| Toolbar.CanPaginate | projects/img-pdf-viewer/src/lib/toolbar.component.ts:268-270 | Holds exactly for `pdf`. |
| Toolbar.Visible | projects/img-pdf-viewer/src/lib/toolbar.component.ts:22-195 | The view-mode toggle is shown exactly for `pdf` with `showViewModeToggle`. The page buttons are shown exactly for `pdf`. The zoom buttons are shown exactly for `pdf` or `image` with `showZoom`. The rotation buttons are shown exactly for `pdf` or `image` with `showRotation`. Download, new tab and fullscreen follow their own flag alone, whatever the type. For `unknown` only those three can show. |
| Toolbar.Disabled | projects/img-pdf-viewer/src/lib/toolbar.component.ts:25-117 | Previous is disabled exactly at page ≤ 1 or in continuous mode. Next is disabled exactly at page ≥ total or in continuous mode. Zoom-out is disabled exactly at zoom ≤ 25 and zoom-in exactly at zoom ≥ 300. No other button is ever disabled. |
| Toolbar.DividerVisible | projects/img-pdf-viewer/src/lib/toolbar.component.ts:156-163 | The divider shows exactly when the rotation buttons show and at least one of download, new tab or fullscreen shows. |
| Toolbar.FileNameLabel | projects/img-pdf-viewer/src/lib/toolbar.component.ts:212-221 | The row shows exactly when there is document info and the toolbar is not embedded. It shows a non-empty name: the file name, or `Document` when that is empty. |
| Toolbar.HandleClick | projects/img-pdf-viewer/src/lib/toolbar.component.ts:273-319 | Previous emits exactly when page > 1. Next emits exactly when page < total. Every other button always emits its own event. |
| Toolbar.EnabledButtonEmits | projects/img-pdf-viewer/src/lib/toolbar.component.ts:25-311 | A click on a button the template enables always gets through its handler. |
| Toolbar.GuardsWeakerThanTemplate | projects/img-pdf-viewer/src/lib/toolbar.component.ts:25-50 | In continuous mode, away from the bounds, the page buttons are disabled although their handlers alone would emit. |
| Viewer.SpreadGet | projects/img-pdf-viewer/src/lib/img-pdf-viewer.component.ts:124 | Every key of `{ ...a, ...b }` takes `b`'s value when `b` has the key, and `a`'s otherwise. |
| Viewer.SpreadEmpty | projects/img-pdf-viewer/src/lib/img-pdf-viewer.component.ts:108 | Spreading `{}` on either side changes nothing. |
| Viewer.SpreadAssociative | projects/img-pdf-viewer/src/lib/img-pdf-viewer.component.ts:124 | Layering by spread is associative. |
| Viewer.OrText | projects/img-pdf-viewer/src/lib/img-pdf-viewer.component.ts:119-121 | `s \|\| fallback`: absent and empty strings fall back. |
| Viewer.LegacyLayer | projects/img-pdf-viewer/src/lib/img-pdf-viewer.component.ts:111-122 | No legacy object gives `{}`. A legacy object sets exactly the nine legacy keys. |
| Viewer.MergedConfigGet | projects/img-pdf-viewer/src/lib/img-pdf-viewer.component.ts:86-125 | A key set in `config` wins over the legacy layer, which wins over the defaults. Every key with a default is always present. |
| Viewer.LegacyToolbarHidden | projects/img-pdf-viewer/src/lib/img-pdf-viewer.component.ts:113 | When `config` leaves `showToolbar` unset, the toolbar is hidden exactly when `zoomIn`, `zoomOut` and `rotate` are all `false`. |
| Viewer.DefaultHeight | projects/img-pdf-viewer/src/lib/img-pdf-viewer.component.ts:86-125 | The default `docPreviewConfig = {}` overrides the height to `100%`. Only a null legacy object leaves `100vh`. |
| Viewer.ZoomedIn | projects/img-pdf-viewer/src/lib/img-pdf-viewer.component.ts:335-338 | The result never exceeds `maxZoom \|\| 300`. It is `zoom + 25` whenever that fits. |
| Viewer.ZoomedOut | projects/img-pdf-viewer/src/lib/img-pdf-viewer.component.ts:340-343 | The result is never below `minZoom \|\| 50`. It is `zoom - 25` whenever that fits. |
| Viewer.ZoomInOutRoundTrip | projects/img-pdf-viewer/src/lib/img-pdf-viewer.component.ts:335-343 | Away from the bounds, zooming in then out, or out then in, restores the zoom. |
| Viewer.ZoomInAboveCap | projects/img-pdf-viewer/src/lib/img-pdf-viewer.component.ts:335-338 | Zooming in from above the cap lowers the zoom to the cap. |
| Viewer.DefaultZoomBounds | projects/img-pdf-viewer/src/lib/img-pdf-viewer.component.ts:100-102 | With the default inputs, the cap is 300, the floor 50 and the reset zoom 100. |
| Viewer.EffectiveDocumentUrl | projects/img-pdf-viewer/src/lib/img-pdf-viewer.component.ts:64-66 | A non-empty `documentUrl` wins. Otherwise the result is the legacy `documentURL`. It is empty only when both are. |
| Viewer.DetectedDocumentType | projects/img-pdf-viewer/src/lib/img-pdf-viewer.component.ts:68-70 | An explicit `documentType` wins over the extension. |
| Viewer.FileNameFor | projects/img-pdf-viewer/src/lib/img-pdf-viewer.component.ts:234 | The name is the title unless the title is empty, then the helper's answer. |
| Viewer.RetriesAutomatically | projects/img-pdf-viewer/src/lib/img-pdf-viewer.component.ts:325 | Auto-retry happens exactly when the error contains `timeout` or `network`. |
| Viewer.ImgPdfViewerComponent.constructor | projects/img-pdf-viewer/src/lib/img-pdf-viewer.component.ts:31-61 | The inputs take their defaults and the state starts as the initial state. |
| Viewer.ImgPdfViewerComponent.UpdateZoom | projects/img-pdf-viewer/src/lib/img-pdf-viewer.component.ts:349-355 | Only the zoom changes, and the new zoom is emitted. |
| Viewer.ImgPdfViewerComponent.OnZoomIn | projects/img-pdf-viewer/src/lib/img-pdf-viewer.component.ts:335-338 | The zoom becomes `ZoomedIn` of the old zoom, so it stays within the cap. The new zoom is emitted. |
| Viewer.ImgPdfViewerComponent.OnZoomOut | projects/img-pdf-viewer/src/lib/img-pdf-viewer.component.ts:340-343 | The zoom becomes `ZoomedOut` of the old zoom, so it stays at or above the floor. The new zoom is emitted. |
| Viewer.ImgPdfViewerComponent.OnZoomReset | projects/img-pdf-viewer/src/lib/img-pdf-viewer.component.ts:345-347 | The zoom becomes `initialZoom \|\| 100`. |
| Viewer.ImgPdfViewerComponent.UpDateZoom | projects/img-pdf-viewer/src/lib/img-pdf-viewer.component.ts:435-447 | `increment` zooms in, `decrement` zooms out, and anything else resets. |
| Viewer.ImgPdfViewerComponent.OnRotateLeft | projects/img-pdf-viewer/src/lib/img-pdf-viewer.component.ts:357-371 | The rotation decreases by exactly 90, with no normalisation, and is emitted. |
| Viewer.ImgPdfViewerComponent.OnRotateRight | projects/img-pdf-viewer/src/lib/img-pdf-viewer.component.ts:361-371 | The rotation increases by exactly 90 and is emitted. |
| Viewer.ImgPdfViewerComponent.OnPreviousPage | projects/img-pdf-viewer/src/lib/img-pdf-viewer.component.ts:373-393 | The page decrements and is emitted only when page > 1. Otherwise nothing changes. The page stays within `1..totalPages`. |
| Viewer.ImgPdfViewerComponent.OnNextPage | projects/img-pdf-viewer/src/lib/img-pdf-viewer.component.ts:380-393 | The page increments and is emitted only when page < total. Otherwise nothing changes. The page stays within `1..totalPages`. |
| Viewer.ImgPdfViewerComponent.OnToggleViewMode | projects/img-pdf-viewer/src/lib/img-pdf-viewer.component.ts:395-399 | `single` and `continuous` swap, and nothing is emitted. |
| Viewer.ImgPdfViewerComponent.UpdateConfig | projects/img-pdf-viewer/src/lib/img-pdf-viewer.component.ts:255-263 | Only the zoom and the view mode can change. They take the merged `initialZoom` (when non-zero) and `viewMode` (when present). |
| Viewer.ImgPdfViewerComponent.SetError | projects/img-pdf-viewer/src/lib/img-pdf-viewer.component.ts:290-303 | Loading stops and the error is shown and emitted. The error is reported to the boundary with the context `Document viewer`. |
| Viewer.ImgPdfViewerComponent.OnDocumentLoad | projects/img-pdf-viewer/src/lib/img-pdf-viewer.component.ts:306-318 | Loading stops, the error clears, and the info is stored and emitted. |
| Viewer.ImgPdfViewerComponent.OnDocumentError | projects/img-pdf-viewer/src/lib/img-pdf-viewer.component.ts:320-333 | The error is set and emitted, and reported to the boundary with the context `Document viewer`. A retry is scheduled exactly when the error mentions `timeout` or `network`. |
| Viewer.ImgPdfViewerComponent.GetDetectedDocumentTypeAsync | projects/img-pdf-viewer/src/lib/img-pdf-viewer.component.ts:73-84 | An explicit type wins. No URL gives `unknown`. Otherwise the result is that of the detection cascade. |
| Viewer.ImgPdfViewerComponent.InitializeViewer | projects/img-pdf-viewer/src/lib/img-pdf-viewer.component.ts:185-253 | `ViewerInitialized`: an empty URL gives "No document URL provided". An invalid URL gives "Invalid document URL provided". Otherwise the view resets to rotation 0, page 1, zoom `initialZoom \|\| 100` and the configured view mode. Then the detected info is stored and emitted, or "Failed to detect document type" when naming throws. The boundary gets a `Document viewer` report exactly when one of these errors is set (`InitFailure`); otherwise it is untouched. |
| Viewer.ImgPdfViewerComponent.DetectedKind | projects/img-pdf-viewer/src/lib/img-pdf-viewer.component.ts:73-84 | Without an explicit type, a definite extension decides the kind. |
| Viewer.ImgPdfViewerComponent.AutoRetryFired | projects/img-pdf-viewer/src/lib/img-pdf-viewer.component.ts:326-331 | When no error is shown any more, the timer changes nothing, the boundary included. When an error is still shown, it initialises again, with the whole `ViewerInitialized` outcome. |
| Viewer.RotateLeftThenRight | projects/img-pdf-viewer/src/lib/img-pdf-viewer.component.ts:357-371 | Rotating left then right restores the whole state and emits twice. |
| Viewer.ToggleTwice | projects/img-pdf-viewer/src/lib/img-pdf-viewer.component.ts:395-399 | Toggling twice restores the state. |
| Viewer.NextThenPrevious | projects/img-pdf-viewer/src/lib/img-pdf-viewer.component.ts:373-393 | Inside the document, next then previous restores the state. |
| ImageViewer.DetectImageType | projects/img-pdf-viewer/src/lib/image-viewer.component.ts:198-203 | The text after the last `.`, lower-cased, decides the kind: `svg` is vector, `gif` is animated, anything else is raster. |
| ImageViewer.SvgIsVector | projects/img-pdf-viewer/src/lib/image-viewer.component.ts:198-203 | A source ending in `.SVG` is vector. |
| ImageViewer.QueryHidesAnimation | projects/img-pdf-viewer/src/lib/image-viewer.component.ts:199 | The query is not stripped, so `a.gif?x` is raster although its file extension is `gif`. |
| ImageViewer.WheelZoom | projects/img-pdf-viewer/src/lib/image-viewer.component.ts:267-268 | The new zoom lies in 50..300. It is `zoom ∓ 10` whenever that lies in range. |
| ImageViewer.WheelEmission | projects/img-pdf-viewer/src/lib/image-viewer.component.ts:267-274 | A zoom is emitted exactly when the clamped zoom differs from the current one, and the emitted value is the clamped zoom. |
| ImageViewer.WheelAtBounds | projects/img-pdf-viewer/src/lib/image-viewer.component.ts:267-274 | Nothing is emitted at 300 going up or at 50 going down. Between 60 and 290 every wheel event emits. |
| ImageViewer.LoadErrorMessage | projects/img-pdf-viewer/src/lib/image-viewer.component.ts:228-234 | The message always starts `Failed to load image: `. It names an invalid blob URL exactly when the proxied source (or the source, if none) is a `blob:` URL. |
| ImageViewer.ImageViewerComponent.constructor | projects/img-pdf-viewer/src/lib/image-viewer.component.ts:109-133 | The fields start at their declared defaults. |
| ImageViewer.ImageViewerComponent.SetError | projects/img-pdf-viewer/src/lib/image-viewer.component.ts:292-302 | Loading stops and the error is set, emitted, and reported with the context `Image loading`. |
| ImageViewer.ImageViewerComponent.InitializeImage | projects/img-pdf-viewer/src/lib/image-viewer.component.ts:166-196 | Info and position reset. An empty source gives "No image source provided", reported to the boundary with the context `Image loading`. `blob:` and `data:` sources are used as they are. An external source is resolved through the proxies. The image kind comes from the source, and the boundary is untouched. |
| ImageViewer.ImageViewerComponent.OnImageLoad | projects/img-pdf-viewer/src/lib/image-viewer.component.ts:205-226 | The load succeeds exactly when both natural dimensions are positive: loading stops, the error clears, the info is stored and emitted, and the boundary is untouched. Otherwise the error is "Image has zero dimensions", and it is reported to the boundary with the context `Image loading`. |
| ImageViewer.ImageViewerComponent.OnImageError | projects/img-pdf-viewer/src/lib/image-viewer.component.ts:228-234 | Loading stops, and the error is `LoadErrorMessage`. It is emitted and reported to the boundary with the context `Image loading`. |
| ImageViewer.ImageViewerComponent.OnMouseDown | projects/img-pdf-viewer/src/lib/image-viewer.component.ts:236-245 | A drag starts only when zoom > 100, not loading and no error. It records the offset from the current position. |
| ImageViewer.ImageViewerComponent.OnMouseMove | projects/img-pdf-viewer/src/lib/image-viewer.component.ts:247-254 | While dragging at zoom > 100, the position follows the mouse. Otherwise it is unchanged. |
| ImageViewer.ImageViewerComponent.OnMouseUp | projects/img-pdf-viewer/src/lib/image-viewer.component.ts:256-258 | Dragging always stops. |
| ImageViewer.ImageViewerComponent.ResetPositionIfNeeded | projects/img-pdf-viewer/src/lib/image-viewer.component.ts:280-284 | The position resets to the origin exactly when zoom is 100. |
| ImageViewer.ImageViewerComponent.OnZoomInput | projects/img-pdf-viewer/src/lib/image-viewer.component.ts:146-153 | A new zoom input is stored. The position resets exactly when the new zoom is 100. |
| ImageViewer.ImageViewerComponent.OnWheelSettled | projects/img-pdf-viewer/src/lib/image-viewer.component.ts:260-278 | When the debounce timer fires, the proposed zoom is emitted exactly when it differs from the current one. |
| ImageViewer.ImageViewerComponent.GetFileName | projects/img-pdf-viewer/src/lib/image-viewer.component.ts:323-326 | The name is non-empty and has no `/`. It is `image` when the source is empty or ends in `/`. Otherwise it is the source's last path segment (`Utils.IsLastPathSegment`), query string included. |
| ImageViewer.DragDisplacement | projects/img-pdf-viewer/src/lib/image-viewer.component.ts:239-253 | The position after a move is the old position plus the mouse's displacement. |
| ImageViewer.DragAndRelease | projects/img-pdf-viewer/src/lib/image-viewer.component.ts:236-258 | Down, move and up shift the image by the mouse's displacement and end the drag. |
| ImageViewer.DragThereAndBack | projects/img-pdf-viewer/src/lib/image-viewer.component.ts:236-258 | Moving the mouse back to where it went down restores the position. |
| ImageViewer.MoveAfterRelease | projects/img-pdf-viewer/src/lib/image-viewer.component.ts:247-258 | After the button is released, moves change nothing. |
| PdfViewer.PageNumbers | projects/img-pdf-viewer/src/lib/pdf-viewer.component.ts:247 | The page list is exactly `[1, …, n]`. |
| PdfViewer.PdfFileNameKeepsQuery | projects/img-pdf-viewer/src/lib/pdf-viewer.component.ts:470-473 | Unlike `getFileName` in `utils.ts`, this name keeps the query string. |
| PdfViewer.ChosenSource | projects/img-pdf-viewer/src/lib/pdf-viewer.component.ts:197-206 | `blob:`, `data:` and same-origin sources are used as they are. |
| PdfViewer.LoadRefusal | projects/img-pdf-viewer/src/lib/pdf-viewer.component.ts:184-194 | A load is refused exactly when there is no source or the browser is offline. |
| PdfViewer.IsExternalSource | projects/img-pdf-viewer/src/lib/pdf-viewer.component.ts:197-206 | A `blob:` or `data:` source is never external. |
| PdfViewer.PdfDataUrlLoadsLocally | projects/img-pdf-viewer/src/lib/pdf-viewer.component.ts:209-214 | A PDF data URL loads without the network. When it cannot be decoded, it is loaded as it is. |
| PdfViewer.RenderedPages | projects/img-pdf-viewer/src/lib/pdf-viewer.component.ts:374-431 | A page is rendered by the continuous pass exactly when it is in the document, has a canvas, and its render succeeds. |
| PdfViewer.RenderedPagesStep | projects/img-pdf-viewer/src/lib/pdf-viewer.component.ts:374-431 | One more loop iteration adds at most its own page. |
| PdfViewer.PdfViewerComponent.constructor | projects/img-pdf-viewer/src/lib/pdf-viewer.component.ts:109-124 | The fields start at their declared defaults, with no tasks. |
| PdfViewer.PdfViewerComponent.SetError | projects/img-pdf-viewer/src/lib/pdf-viewer.component.ts:438-447 | Loading stops and the error is set and emitted. `isCorsError` holds exactly when the lower-cased message contains `cors`. |
| PdfViewer.PdfViewerComponent.StopHeartbeat | projects/img-pdf-viewer/src/lib/pdf-viewer.component.ts:490-495 | The heartbeat is stopped. |
| PdfViewer.PdfViewerComponent.StartHeartbeat | projects/img-pdf-viewer/src/lib/pdf-viewer.component.ts:475-488 | The heartbeat runs and `lastActivity` is now. |
| PdfViewer.PdfViewerComponent.UpdateActivity | projects/img-pdf-viewer/src/lib/pdf-viewer.component.ts:497-499 | `lastActivity` is now. |
| PdfViewer.PdfViewerComponent.CancelEach | projects/img-pdf-viewer/src/lib/pdf-viewer.component.ts:502-508 | Every tracked task is cancelled, and no other task is. |
| PdfViewer.PdfViewerComponent.CancelAllRenderTasks | projects/img-pdf-viewer/src/lib/pdf-viewer.component.ts:501-510 | Every tracked task is cancelled and the map ends empty. No other task changes state, so a running task that the map had lost keeps running. From a state where `Valid()` held, it still holds and no task is live. |
| PdfViewer.PdfViewerComponent.Cleanup | projects/img-pdf-viewer/src/lib/pdf-viewer.component.ts:512-550 | Afterwards the heartbeat and timeout are stopped and the abort controller is gone. Every tracked task is cancelled and the map is empty; a running task the map had lost keeps running. The document is destroyed and null. A `blob:` source is revoked. No page is loaded, loading is false and the error is null. From a state where `Valid()` held, it still holds and no task is live. |
| PdfViewer.PdfViewerComponent.StopTimers | projects/img-pdf-viewer/src/lib/pdf-viewer.component.ts:513-526 | Heartbeat, timeout and abort controller are all cleared. |
| PdfViewer.PdfViewerComponent.ReleaseDocument | projects/img-pdf-viewer/src/lib/pdf-viewer.component.ts:531-549 | The document is destroyed and null, a `blob:` source is revoked, and the load state is reset. |
| PdfViewer.PdfViewerComponent.ReleaseSource | projects/img-pdf-viewer/src/lib/pdf-viewer.component.ts:541-549 | A `blob:` source is revoked and the load state is reset. |
| PdfViewer.PdfViewerComponent.ResetLoadState | projects/img-pdf-viewer/src/lib/pdf-viewer.component.ts:546-549 | No page is loaded, the error is null and `loading` takes the given value. |
| PdfViewer.PdfViewerComponent.DestroyDocument | projects/img-pdf-viewer/src/lib/pdf-viewer.component.ts:531-539 | An open document is destroyed and the field becomes null. The render tasks are untouched. |
| PdfViewer.PdfViewerComponent.ResetForLoad | projects/img-pdf-viewer/src/lib/pdf-viewer.component.ts:178-182 | Loading starts with no pages and no error. |
| PdfViewer.PdfViewerComponent.PickSource | projects/img-pdf-viewer/src/lib/pdf-viewer.component.ts:196-214 | The source loaded is the routed one: unchanged, proxied, or a blob made from a PDF data URL. |
| PdfViewer.PdfViewerComponent.LoadPdfDocument | projects/img-pdf-viewer/src/lib/pdf-viewer.component.ts:222-231 | An abort controller and the 30 s timeout are set up. |
| PdfViewer.PdfViewerComponent.StartLoad | projects/img-pdf-viewer/src/lib/pdf-viewer.component.ts:178-216 | No source or offline sets the matching error. Otherwise loading starts from the routed source with the timeout armed. |
| PdfViewer.PdfViewerComponent.InitializePdf | projects/img-pdf-viewer/src/lib/pdf-viewer.component.ts:176-220 | A clean start: no tracked task, no document, no heartbeat, no pages. Then the load starts or the refusal error is emitted. A running task the map had lost keeps running. From a state where `Valid()` held, it still holds and no task is live. |
| PdfViewer.PdfViewerComponent.Retry | projects/img-pdf-viewer/src/lib/pdf-viewer.component.ts:449-453 | Ends in the same restarted state as `initializePdf`, with the same guarantee about live tasks. A refusal error is emitted; nothing else is. |
| PdfViewer.PdfViewerComponent.HeartbeatTick | projects/img-pdf-viewer/src/lib/pdf-viewer.component.ts:479-487 | A tick retries exactly when more than 60 s have passed since the last activity, with `Retry`'s outcome and outputs. Otherwise it changes nothing. |
| PdfViewer.PdfViewerComponent.OnDocumentLoaded | projects/img-pdf-viewer/src/lib/pdf-viewer.component.ts:238-265 | The document is stored and the timeout cleared. The pages become `[1..n]`, loading stops, the error clears, and the load is emitted. The heartbeat starts. The render pass follows the view mode. The render tasks are untouched. |
| PdfViewer.PdfViewerComponent.ShowPages | projects/img-pdf-viewer/src/lib/pdf-viewer.component.ts:246-255 | The pages become `[1..n]`, loading is false, the error is null, and the page count is emitted. |
| PdfViewer.PdfViewerComponent.OnDocumentLoadFailed | projects/img-pdf-viewer/src/lib/pdf-viewer.component.ts:267-275 | The timeout is cleared and the error is "Failed to load PDF document: …". |
| PdfViewer.PdfViewerComponent.OnLoadTimeout | projects/img-pdf-viewer/src/lib/pdf-viewer.component.ts:227-231 | While still loading, the timeout sets and emits "PDF loading timeout". Otherwise `loading`, the error, the CORS flag and the outputs are unchanged. |
| PdfViewer.PdfViewerComponent.CancelPageTask | projects/img-pdf-viewer/src/lib/pdf-viewer.component.ts:282-286 | The page's stored task, if any, is cancelled and removed. Nothing else changes, and `Valid()` is kept when it held. |
| PdfViewer.PdfViewerComponent.StartTask | projects/img-pdf-viewer/src/lib/pdf-viewer.component.ts:345-346 | A fresh live task is stored under `key`, replacing whatever was there. Filed under its own page where the map had nothing, it keeps the invariant. Replacing a live task breaks it. |
| PdfViewer.PdfViewerComponent.BeginRenderCurrentPage | projects/img-pdf-viewer/src/lib/pdf-viewer.component.ts:278-288 | Does nothing without a document or while loading. Otherwise it cancels and removes the current page's task, and asks for that page. `Valid()` is kept when it held. |
| PdfViewer.PdfViewerComponent.ResumeRenderCurrentPageAsWritten | projects/img-pdf-viewer/src/lib/pdf-viewer.component.ts:288-346 | As written: a failed `getPage` is reported with the context `PDF page rendering`. A missing canvas or context stops there. Otherwise a live task rendering the fetched page is stored under the page current now, replacing any entry. With no entry and no page change, the invariant holds. Replacing a live task breaks it. |
| PdfViewer.PdfViewerComponent.ResumeRenderCurrentPage | projects/img-pdf-viewer/src/lib/pdf-viewer.component.ts:288-346 | Corrected: the same report and the same early stops. Otherwise a task still filed under the fetched page is cancelled, and the new live task is filed under that page. The invariant always holds. |
| PdfViewer.PdfViewerComponent.FinishRenderCurrentPageAsWritten | projects/img-pdf-viewer/src/lib/pdf-viewer.component.ts:348-353 | As written: the page that is current on completion is marked loaded and its entry removed, whichever page the task was for. |
| PdfViewer.PdfViewerComponent.FinishRenderCurrentPage | projects/img-pdf-viewer/src/lib/pdf-viewer.component.ts:348-353 | The task's own page is marked loaded and its entry, which is that task, is removed. Activity is refreshed and the invariant kept. |
| PdfViewer.PdfViewerComponent.FailRender | projects/img-pdf-viewer/src/lib/pdf-viewer.component.ts:357-360 | Any started task may reject, whether or not the map still tracks it. It settles, and the failure is reported with the context `PDF page rendering`. `Valid()` is kept when it held. |
| PdfViewer.PdfViewerComponent.RenderPassPage | projects/img-pdf-viewer/src/lib/pdf-viewer.component.ts:380-430 | One page of the continuous pass. A new task is stored under the page, settled and removed, so whatever the map held under that page is gone. The page is loaded, and activity refreshed, exactly when the render succeeds. With no entry for the page, `Valid()` is kept when it held. A state with no live task keeps none. |
| PdfViewer.PdfViewerComponent.RenderAllPages | projects/img-pdf-viewer/src/lib/pdf-viewer.component.ts:363-436 | Does nothing without a document, while loading, or outside continuous mode: the tasks, the counter, the loaded pages and the activity time are unchanged. Otherwise it cancels every tracked task, the map ends empty, `RenderedPages` is added to the loaded pages, and activity is refreshed when some page rendered. From a state where `Valid()` held, no task is left live. |
| PdfViewer.PdfViewerComponent.OnCurrentPageInput | projects/img-pdf-viewer/src/lib/pdf-viewer.component.ts:143-145 | The page is stored. With an open, loaded document, the new page's old task is cancelled and removed and the page is asked for. Otherwise the map and the cancelled set are unchanged. `Valid()` is kept when it held. |
| PdfViewer.PdfViewerComponent.OnViewModeInput | projects/img-pdf-viewer/src/lib/pdf-viewer.component.ts:152-154 | The mode is stored, then exactly `RenderAllPages` runs: nothing changes outside continuous mode with an open, loaded document. Otherwise every tracked task is cancelled, the map ends empty, `RenderedPages` is loaded and activity is refreshed when some page rendered. |
| PdfViewer.PdfViewerComponent.OnSrcInput | projects/img-pdf-viewer/src/lib/pdf-viewer.component.ts:140-142 | A source change reinitialises as `initializePdf` does, and emits exactly the refusal error, if any. |
| PdfViewer.PdfViewerComponent.GetFileName | projects/img-pdf-viewer/src/lib/pdf-viewer.component.ts:470-473 | The name is non-empty and has no `/`. It is `document.pdf` when the source is empty or ends in `/`. Otherwise it is the source's last path segment (`Utils.IsLastPathSegment`), query string included. |
| PdfViewer.TimeoutThenLoad | projects/img-pdf-viewer/src/lib/pdf-viewer.component.ts:227-250 | A document that opens after the timeout fired still loads. Both the timeout error and the load are emitted, and the error ends cleared. |
| PdfViewer.CompletionRaceAsWritten | projects/img-pdf-viewer/src/lib/pdf-viewer.component.ts:345-353 | As written: page 1's render completes after a switch to page 2. Page 2 is marked loaded and page 1 is not. Page 2's live task is dropped from the map, breaking the invariant; the map is left holding page 1's settled task. |
| PdfViewer.CompletionRaceCorrected | projects/img-pdf-viewer/src/lib/pdf-viewer.component.ts:345-353 | Corrected: the same run marks page 1 loaded and keeps page 2's live task in the map. |
| PdfViewer.OverwriteRaceAsWritten | projects/img-pdf-viewer/src/lib/pdf-viewer.component.ts:146-151 | As written: a zoom and a rotation change in one `ngOnChanges` start two renders of the current page before either page arrives. The first task stays live but leaves the map, breaking the invariant. |
| PdfViewer.CompletionRaceThenCancelAll | projects/img-pdf-viewer/src/lib/pdf-viewer.component.ts:501-510 | After the completion race, `cancelAllRenderTasks` empties the map, but page 2's render stays live: it is never cancelled. |
| PdfViewer.OverwriteRaceThenCleanup | projects/img-pdf-viewer/src/lib/pdf-viewer.component.ts:512-550 | After the overwrite, `cleanup` empties the map and destroys the document, but the first render stays live: it is never cancelled. |
| PdfViewer.OverwriteRaceCorrected | projects/img-pdf-viewer/src/lib/pdf-viewer.component.ts:283-346 | Corrected: the same events cancel the first task, the map holds the second, and the invariant holds. |

## Left out

- Network, PDF.js and timers are not executed.
  - `fetch`, `AbortController` and the abort timers become `Utils.Network` answers.
  - PDF.js `getDocument`, `getPage`, `render` and `destroy` become opaque numbers and success flags.
  - `setTimeout`/`setInterval` firings become methods that the caller invokes.
- Canvas sizing is not modelled. The device pixel ratio and viewport products are floating point and DOM work.
- Other floating-point code is not modelled: `formatFileSize`, `getImageTransform`, and the `zoom_in` getter and setter.
- `debounce` and `throttle` are not modelled. The image wheel debounce is modelled only as the step `OnWheelSettled`.
- Interleavings at the following `await`s are not modelled; each of these methods runs as one uninterrupted step, so nothing else happens while it waits:
  - PdfViewer.PdfViewerComponent.PickSource: the `await tryLoadWithProxy` at pdf-viewer.component.ts:202;
  - PdfViewer.PdfViewerComponent.RenderPassPage and PdfViewer.PdfViewerComponent.RenderAllPages: the `await getPage` at pdf-viewer.component.ts:381 and the `await renderTask.promise` at pdf-viewer.component.ts:421, so a `renderCurrentPage` or a `cleanup` in the middle of the continuous pass is not modelled;
  - Viewer.ImgPdfViewerComponent.InitializeViewer: the awaits at img-pdf-viewer.component.ts:207 and img-pdf-viewer.component.ts:230;
  - ImageViewer.ImageViewerComponent.InitializeImage: the `await tryLoadWithProxy` at image-viewer.component.ts:184.
  The awaits of `renderCurrentPage` (pdf-viewer.component.ts:288 and 348) are cut, so both races under Findings are interleavings between pieces.
- Utils.Network: the same request always gets the same answer. `detectDocumentTypeAsync` can probe one URL through `tryLoadWithProxy` twice (utils.ts:143, then utils.ts:53 in the signature check), and the model makes both probes agree, where a real network could answer them differently.
- DOM and UI plumbing is not modelled: fullscreen helpers and the fullscreen listener, `downloadDocument`, `downloadBlob`, `downloadResource`, `openBlobInNewWindow`, `window.open` (`onOpenInNewTab`, `openInNewTab`, `download`), modals, `ngZone` and `ChangeDetectorRef`.
- The `ngOnChanges` dispatcher of `img-pdf-viewer.component.ts` is not modelled, because which inputs changed is not part of the model. Its targets, `InitializeViewer` and `UpdateConfig`, are modelled.
- Aliases and calls to modelled steps are not modelled separately:
  - `image-viewer.component.ts` `retry` and `onResize` call `initializeImage` and `resetPositionIfNeeded`;
  - `img-pdf-viewer.component.ts` `rotateDoc` and `closeModal` are aliases.
- `onWindowResize` and the zoom and rotation inputs of `pdf-viewer.component.ts` have no members of their own. They only call `renderCurrentPage`, whose first piece is `BeginRenderCurrentPage`; `PdfViewer.OverwriteRaceAsWritten` calls it once for each of them.
- The `isArchieved`, `pdfType`, `imageType`, `fileName` and `legacyDocPreviewConfig` getters of `img-pdf-viewer.component.ts` are not modelled. They are display-only.
- Text.ToLower: only the ASCII letters A–Z are lowered. JavaScript's `toLowerCase` also lowers other Unicode letters.
- Utils.ApplyCorsProxyShape: `encodeURIComponent` is an arbitrary function `Browser.encodeComponent` that never throws. The real function throws on a lone surrogate, and `tryLoadWithProxy` calls it outside its `try` (utils.ts:423).
- Viewer.MergedConfigGet: a key that `config` sets to `undefined` is treated as absent. The real spread would copy the `undefined`.
- Viewer.ImgPdfViewerComponent.InitializeViewer: `_helper.getFileName` does not exist on the service, so it is a parameter. `FileNameFor` answers `None` where the call throws into the catch.
- ImageViewer.ImageViewerComponent.InitializeImage: the second argument passed to `tryLoadWithProxy` (`proxyUrl`) is ignored, since that function takes one parameter. The catch producing "Failed to load image: …" is not modelled. Only the `encodeURIComponent` failure above could reach it.
- PdfViewer.PdfViewerComponent.InitializePdf: its contract states the clean restarted state and which tasks were cancelled. Which document was destroyed and which blob URL was revoked are stated on `Cleanup`, which it calls, rather than repeated.
- PdfViewer.PdfViewerComponent.StartLoad: the catch producing "Failed to load PDF: …" is not modelled. Only the `encodeURIComponent` failure above could reach it; every other step catches its own failures.
- These points follow the code where it differs from the library's own description:
  - detection has no path-based guessing step;
  - the image-extension list has nine entries and no `apng`;
  - a load that completes after the 30 s timeout is not discarded (`PdfViewer.TimeoutThenLoad`).

## Findings

| source | as written | input that shows it | evidently intended | confidence | as-written member | corrected member |
|---|---|---|---|---|---|---|
| projects/img-pdf-viewer/src/lib/pdf-viewer.component.ts:349-352 | After `await renderTask.promise`, the page marked loaded and removed from `renderTasks` is read from `this.currentPage`. That is the current page at completion, not the page the task rendered. | Page 1 starts rendering. The `currentPage` input changes to 2, which starts page 2's task. Page 1's task then completes. Result: page 2 is marked loaded and page 1 is not. Page 2's still-running task leaves the map, so `cancelAllRenderTasks` can no longer cancel it (`PdfViewer.CompletionRaceThenCancelAll`). | Record the task's own page before the `await` and use it for `loadedPages.add` and `renderTasks.delete`. | not executed | PdfViewer.CompletionRaceAsWritten | PdfViewer.CompletionRaceCorrected |
| projects/img-pdf-viewer/src/lib/pdf-viewer.component.ts:283-346 | The check for a running task under the current page (283-286) happens before `await getPage`, and the new task is stored at 346 with `set`, with no second check. Two calls of `renderCurrentPage` that both pass 283 before either page arrives both store a task under the page. The second store replaces the first task while it is still running. | A zoom and a rotation change in one `ngOnChanges` (146-151) call `renderCurrentPage` twice for the current page. Both tasks render, but only the second is in `renderTasks`, so `cancelAllRenderTasks` and the next `renderCurrentPage` cannot cancel the first one; after `cleanup` it is still live (`PdfViewer.OverwriteRaceThenCleanup`). Both tasks draw on the one `pdfCanvas`; if PDF.js refuses the second render, the first task still runs untracked. | After the `await`, cancel any task already filed under the page, then store the new one, so that one task at most runs per page. | not executed | PdfViewer.OverwriteRaceAsWritten | PdfViewer.OverwriteRaceCorrected |
