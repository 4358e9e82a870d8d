/**
 * URL classification and CORS-proxy resolution (utils.ts).
 *
 * The browser facilities the functions consult (the page origin, the URL
 * parser, `encodeURIComponent`, `atob`, `URL.createObjectURL`) are fields of a
 * `Browser` value, and every network request is answered by a `Network`
 * value, so each function below is deterministic in its arguments.
 */
module Utils {
  import opened Types
  import opened Text

  /** What the functions read from the browser. */
  datatype Browser = Browser(
    pageOrigin: string,                    // window.location.origin
    originOf: string -> Option<string>,    // new URL(url).origin; None when the constructor throws
    parsesRelative: string -> bool,        // new URL(url, origin) does not throw
    encodeComponent: string -> string,     // encodeURIComponent
    online: bool,                          // navigator.onLine
    atob: string -> Option<string>,        // atob; None when it throws
    createObjectUrl: seq<byte> -> string)  // URL.createObjectURL(new Blob([bytes]))

  /** The `mode` option of a `fetch` call: left out, or `'cors'`. */
  datatype Mode = DefaultMode | CorsMode

  /** One request issued to the network, with the time after which it is aborted. */
  datatype Request =
    | Head(url: string, mode: Mode, timeoutMs: nat)
    | RangeGet(url: string, timeoutMs: nat)   // GET with `Range: bytes=0-1023`

  /**
   * The outcome of every request. `head` answers `None` when the request
   * throws, is aborted by its timeout or gets a response that is not ok, and
   * otherwise the content-type header (`""` when there is none); `firstBytes`
   * answers the body of an ok ranged GET.
   */
  datatype Network = Network(
    head: (string, Mode, nat) -> Option<string>,
    firstBytes: (string, nat) -> Option<seq<byte>>)

  /** A result together with the requests issued, in order, to compute it. */
  datatype Traced<T> = Traced(value: T, requests: seq<Request>)

  const IMAGE_EXTENSIONS: seq<string> := ["jpg", "jpeg", "png", "gif", "webp", "svg", "bmp", "tiff", "ico"]

  const CORS_PROXIES: seq<string> := [
    "https://api.allorigins.win/raw?url=",
    "https://corsproxy.io/?",
    "https://cors-anywhere.herokuapp.com/",
    "https://thingproxy.freeboard.io/fetch/",
    "https://cors.bridged.cc/"
  ]

  /** The length of `CORS_PROXIES`, written as a literal so that proofs about the scan need not unfold the list. */
  const PROXY_COUNT: nat := 5

  lemma ProxyCountIsListLength()
    ensures |CORS_PROXIES| == PROXY_COUNT
  {
  }

  const IMAGE_PROBE_TIMEOUT_MS: nat := 3000     // tryLoadWithProxy, image HEAD without mode
  const DIRECT_PROBE_TIMEOUT_MS: nat := 5000    // tryLoadWithProxy, CORS HEAD of the url
  const PROXY_PROBE_TIMEOUT_MS: nat := 8000     // tryLoadWithProxy, CORS HEAD of each proxy
  const HEADER_PROBE_TIMEOUT_MS: nat := 3000    // detectDocumentTypeAsync, direct HEAD
  const PROXIED_HEADER_TIMEOUT_MS: nat := 5000  // detectDocumentTypeAsync, proxied HEAD
  const SIGNATURE_TIMEOUT_MS: nat := 5000       // detectDocumentTypeBySignature, ranged GET

  // ---------------------------------------------------------------------------
  // File names and extensions

  /** `getFileExtension`: the text after the last `.` of the part before the first `?`. */
  function GetFileExtension(url: string): (ext: string)
    ensures '.' !in ext && '?' !in ext
    ensures var clean := FirstSegment(url, '?');
      if '.' in clean then
        |ext| < |clean| && clean[|clean| - |ext| - 1] == '.' && clean[|clean| - |ext|..] == ext
      else ext == ""
  {
    var clean := FirstSegment(url, '?');
    FirstSegmentIsPrefix(url, '?');
    LastSegmentIsSuffix(clean, '.');
    var parts := Split(clean, '.');
    var ext := if |parts| > 1 then Last(parts) else "";
    assert ext == clean[|clean| - |ext|..];
    ext
  }

  /** A URL made of a base without `?`, a dot, an extension and a query has that extension. */
  lemma ExtensionOf(base: string, ext: string, query: string)
    requires '?' !in base && '.' !in ext && '?' !in ext
    requires query == "" || query[0] == '?'
    ensures GetFileExtension(base + "." + ext + query) == ext
  {
    assert base + "." + ext + query == (base + "." + ext) + query;
    FirstSegmentOfConcat(base + "." + ext, query, '?');
    LastSegmentOfConcat(base, ext, '.');
    LastSegmentIsSuffix(base + "." + ext, '.');
  }

  /**
   * `getFileName`: the last path segment of the part before the first `?`,
   * or `'document'` when that part is empty or ends with `/`.
   */
  function GetFileName(url: string): (name: string)
    ensures name != "" && '/' !in name && '?' !in name
    ensures IsLastPathSegment(FirstSegment(url, '?'), name, "document")
  {
    var clean := FirstSegment(url, '?');
    FirstSegmentIsPrefix(url, '?');
    var seg := LastPathSegmentOr(clean, "document");
    assert '?' !in seg by {
      if seg != "document" {
        assert forall k :: 0 <= k < |seg| ==> seg[k] == clean[|clean| - |seg| + k];
      }
    }
    seg
  }

  /**
   * `name` is what a path's last segment gives: the fallback when the path is
   * empty or ends with `/`, and otherwise the whole `/`-free tail of the path,
   * which starts at the path's start or right after a `/`.
   */
  predicate IsLastPathSegment(path: string, name: string, fallback: string)
  {
    if path == "" || path[|path| - 1] == '/' then name == fallback
    else EndsWith(path, name) && (|name| == |path| || path[|path| - |name| - 1] == '/')
  }

  /** At most one `/`-free name is a path's last segment: the characterisation pins the name. */
  lemma LastPathSegmentUnique(path: string, fallback: string, n1: string, n2: string)
    requires IsLastPathSegment(path, n1, fallback) && IsLastPathSegment(path, n2, fallback)
    requires '/' !in n1 && '/' !in n2
    ensures n1 == n2
  {
  }

  /**
   * The components' own `getFileName`: the last `/`-separated segment of the
   * whole source, query string included, or the component's fallback name.
   */
  function LastPathSegmentOr(src: string, fallback: string): (name: string)
    requires fallback != "" && '/' !in fallback
    ensures name != "" && '/' !in name
    ensures IsLastPathSegment(src, name, fallback)
  {
    LastSegmentIsSuffix(src, '/');
    LastSegmentEmpty(src, '/');
    var seg := LastSegment(src, '/');
    if seg == "" then fallback else seg
  }

  predicate EndsWith(s: string, suffix: string)
  {
    |suffix| <= |s| && s[|s| - |suffix|..] == suffix
  }

  // ---------------------------------------------------------------------------
  // Classification

  /** `detectDocumentType`: the document kind named by the extension, in any case. */
  function DetectDocumentType(url: string): (t: DocumentType)
    ensures t == Pdf <==> ToLower(GetFileExtension(url)) == "pdf"
    ensures t == Image <==> ToLower(GetFileExtension(url)) in IMAGE_EXTENSIONS
  {
    var ext := ToLower(GetFileExtension(url));
    if ext == "pdf" then Pdf
    else if ext in IMAGE_EXTENSIONS then Image
    else Unknown
  }

  /** Upper case in the URL does not change the extension-based kind. */
  lemma DetectDocumentTypeIgnoresCase(url: string)
    ensures DetectDocumentType(ToLower(url)) == DetectDocumentType(url)
  {
    SegmentsToLower(url, '?');
    SegmentsToLower(FirstSegment(url, '?'), '.');
    ToLowerIdempotent(GetFileExtension(url));
  }

  /** The kind of a URL with an extension depends on that extension alone. */
  lemma DetectDocumentTypeOfExtension(base: string, ext: string, query: string)
    requires '?' !in base && '.' !in ext && '?' !in ext
    requires query == "" || query[0] == '?'
    ensures DetectDocumentType(base + "." + ext + query) ==
      if ToLower(ext) == "pdf" then Pdf
      else if ToLower(ext) in IMAGE_EXTENSIONS then Image
      else Unknown
  {
    ExtensionOf(base, ext, query);
  }

  /** `.PDF` is a PDF whatever its case. */
  lemma UpperCasePdfExtension(base: string)
    requires '?' !in base
    ensures DetectDocumentType(base + ".PDF") == Pdf
  {
    var lowered := ToLower("PDF");
    assert lowered[0] == 'p' && lowered[1] == 'd' && lowered[2] == 'f';
    assert lowered == "pdf";
    DetectDocumentTypeOfExtension(base, "PDF", "");
    assert base + "." + "PDF" + "" == base + ".PDF";
  }

  /** The query string is ignored: `.PNG?v=2` is an image. */
  lemma QueryIgnoredExtension(base: string)
    requires '?' !in base
    ensures DetectDocumentType(base + ".PNG?v=2") == Image
  {
    DetectDocumentTypeOfExtension(base, "PNG", "?v=2");
    assert ".PNG?v=2" == "." + "PNG" + "?v=2";
    assert base + ".PNG?v=2" == base + "." + "PNG" + "?v=2";
    var lowered := ToLower("PNG");
    assert lowered[0] == 'p' && lowered[1] == 'n' && lowered[2] == 'g';
    assert lowered == IMAGE_EXTENSIONS[2];
  }

  /** `apng` is not among the image extensions. */
  lemma ApngExtensionUnknown(base: string)
    requires '?' !in base
    ensures DetectDocumentType(base + ".apng") == Unknown
  {
    var lowered := ToLower("apng");
    assert lowered[0] == 'a' && lowered[1] == 'p' && lowered[2] == 'n' && lowered[3] == 'g';
    assert lowered == "apng";
    DetectDocumentTypeOfExtension(base, "apng", "");
    assert base + "." + "apng" + "" == base + ".apng";
  }

  /** `detectDocumentTypeFromContentType`: `application/pdf` wins over `image/`, case-insensitively. */
  function DetectDocumentTypeFromContentType(contentType: string): (t: DocumentType)
    ensures contentType == "" ==> t == Unknown
    ensures t == Pdf <==> Contains(ToLower(contentType), "application/pdf")
    ensures t == Image <==> !Contains(ToLower(contentType), "application/pdf")
                            && Contains(ToLower(contentType), "image/")
  {
    if contentType == "" then Unknown
    else
      var lowered := ToLower(contentType);
      if Contains(lowered, "application/pdf") then Pdf
      else if Contains(lowered, "image/") then Image
      else Unknown
  }

  lemma ContentTypeIgnoresCase(contentType: string)
    ensures DetectDocumentTypeFromContentType(ToLower(contentType))
         == DetectDocumentTypeFromContentType(contentType)
  {
    ToLowerIdempotent(contentType);
  }

  /** The signature test of `detectDocumentTypeBySignature`. */
  function SignatureType(bytes: seq<byte>): (t: DocumentType)
    ensures t == Pdf <==> |bytes| >= 4 && bytes[..4] == [0x25, 0x50, 0x44, 0x46]
    ensures t == Image <==>
      && !(|bytes| >= 4 && bytes[..4] == [0x25, 0x50, 0x44, 0x46])
      && |bytes| >= 8
      && (bytes[..3] == [0xFF, 0xD8, 0xFF] || bytes[..4] == [0x89, 0x50, 0x4E, 0x47])
  {
    if |bytes| >= 4 && bytes[0] == 0x25 && bytes[1] == 0x50 && bytes[2] == 0x44 && bytes[3] == 0x46 then
      Pdf
    else if |bytes| >= 8 && bytes[0] == 0xFF && bytes[1] == 0xD8 && bytes[2] == 0xFF then
      Image
    else if |bytes| >= 8 && bytes[0] == 0x89 && bytes[1] == 0x50 && bytes[2] == 0x4E && bytes[3] == 0x47 then
      Image
    else
      Unknown
  }

  /** A PNG or JPEG header shorter than eight bytes is not recognised; four bytes suffice for a PDF. */
  lemma ShortSignatures()
    ensures SignatureType([0x25, 0x50, 0x44, 0x46]) == Pdf
    ensures SignatureType([0x89, 0x50, 0x4E, 0x47, 0x0D, 0x0A, 0x1A]) == Unknown
    ensures SignatureType([0xFF, 0xD8, 0xFF, 0xE0, 0, 0, 0, 0]) == Image
  {
  }

  /** What a HEAD outcome says about the kind. */
  function HeaderKind(outcome: Option<string>): (t: DocumentType)
    ensures outcome.None? ==> t == Unknown
    ensures outcome.Some? ==> t == DetectDocumentTypeFromContentType(outcome.value)
  {
    if outcome.Some? then DetectDocumentTypeFromContentType(outcome.value) else Unknown
  }

  /** What a ranged GET outcome says about the kind. */
  function BytesKind(outcome: Option<seq<byte>>): (t: DocumentType)
    ensures outcome.None? ==> t == Unknown
    ensures outcome.Some? ==> t == SignatureType(outcome.value)
  {
    if outcome.Some? then SignatureType(outcome.value) else Unknown
  }

  /** The first definite kind of an ordered list of strategies' answers. */
  function FirstDefinite(kinds: seq<DocumentType>): (t: DocumentType)
    ensures t == Unknown <==> forall i :: 0 <= i < |kinds| ==> kinds[i] == Unknown
    ensures t != Unknown ==>
      exists i :: 0 <= i < |kinds| && kinds[i] == t && forall j :: 0 <= j < i ==> kinds[j] == Unknown
  {
    if kinds == [] then Unknown
    else if kinds[0] != Unknown then kinds[0]
    else
      var t := FirstDefinite(kinds[1..]);
      assert forall i :: 1 <= i < |kinds| ==> kinds[i] == kinds[1..][i - 1];
      t
  }

  // ---------------------------------------------------------------------------
  // Capabilities

  /** `supportsPagination`. */
  function SupportsPagination(t: DocumentType): (r: bool)
    ensures r <==> t == Pdf
  {
    t == Pdf
  }

  /** `supportsZoom`. */
  function SupportsZoom(t: DocumentType): (r: bool)
    ensures r <==> t != Unknown
  {
    t == Pdf || t == Image
  }

  /** `supportsRotation`: the same test as `supportsZoom`, kept as its own function as in the source. */
  function SupportsRotation(t: DocumentType): (r: bool)
    ensures r <==> t != Unknown
  {
    t == Pdf || t == Image
  }

  // ---------------------------------------------------------------------------
  // URLs

  /** `/^https?:\/\//i`. */
  predicate HasHttpScheme(url: string)
  {
    StartsWith(ToLower(url), "http://") || StartsWith(ToLower(url), "https://")
  }

  /** The prefixes `isValidUrl` accepts without parsing. */
  predicate HasAcceptedPrefix(url: string)
  {
    || StartsWith(url, "data:") || StartsWith(url, "blob:") || HasHttpScheme(url)
    || StartsWith(url, "/") || StartsWith(url, "./") || StartsWith(url, "../")
  }

  /** `isValidUrl`: non-empty, and an accepted prefix or a URL that parses against the page origin. */
  function IsValidUrl(b: Browser, url: string): (r: bool)
    ensures url == "" ==> !r
    ensures url != "" && HasAcceptedPrefix(url) ==> r
    ensures r <==> url != "" && (HasAcceptedPrefix(url) || b.parsesRelative(url))
  {
    if url == "" then false
    else if StartsWith(url, "data:") then true
    else if StartsWith(url, "blob:") then true
    else if HasHttpScheme(url) then true
    else if StartsWith(url, "/") || StartsWith(url, "./") || StartsWith(url, "../") then true
    else b.parsesRelative(url)
  }

  /** `isExternalUrl`: an absolute URL of another origin; never a data URL or an unparsable one. */
  function IsExternalUrl(b: Browser, url: string): (r: bool)
    ensures StartsWith(url, "data:") ==> !r
    ensures b.originOf(url).None? ==> !r
    ensures r <==> !StartsWith(url, "data:") && b.originOf(url).Some? && b.originOf(url).value != b.pageOrigin
  {
    if StartsWith(url, "data:") then false
    else match b.originOf(url)
      case None => false
      case Some(origin) => origin != b.pageOrigin
  }

  /** The URLs `applyCorsProxy` and `tryLoadWithProxy` hand back untouched. */
  predicate PassesThrough(b: Browser, url: string)
  {
    StartsWith(url, "data:") || !IsExternalUrl(b, url)
  }

  /** `applyCorsProxy`: the proxy at `proxyIndex mod 5` followed by the encoded URL. */
  function ApplyCorsProxy(b: Browser, url: string, proxyIndex: nat): string
  {
    if StartsWith(url, "data:") || !IsExternalUrl(b, url) then url
    else CORS_PROXIES[proxyIndex % PROXY_COUNT] + b.encodeComponent(url)
  }

  /**
   * A data or same-origin URL comes back as it is; any other URL becomes a
   * proxy of the list, chosen by the index modulo the list's length,
   * followed by the encoded URL.
   */
  lemma ApplyCorsProxyShape(b: Browser, url: string, proxyIndex: nat)
    ensures PassesThrough(b, url) ==> ApplyCorsProxy(b, url, proxyIndex) == url
    ensures !PassesThrough(b, url) ==>
      var proxy := CORS_PROXIES[proxyIndex % PROXY_COUNT];
      && StartsWith(ApplyCorsProxy(b, url, proxyIndex), proxy)
      && ApplyCorsProxy(b, url, proxyIndex)[|proxy|..] == b.encodeComponent(url)
  {
    var proxy := CORS_PROXIES[proxyIndex % PROXY_COUNT];
    var r := proxy + b.encodeComponent(url);
    assert r[..|proxy|] == proxy;
  }

  // ---------------------------------------------------------------------------
  // Proxy resolution (tryLoadWithProxy)

  /** Proxy `i` answers a CORS HEAD for `url` within its 8 s. */
  predicate ProxyAnswers(b: Browser, net: Network, url: string, i: nat)
  {
    net.head(ApplyCorsProxy(b, url, i), CorsMode, PROXY_PROBE_TIMEOUT_MS).Some?
  }

  /** The image HEAD without a mode is tried, and answers. */
  predicate ImageProbeAnswers(b: Browser, net: Network, url: string)
  {
    DetectDocumentType(url) == Image && net.head(url, DefaultMode, IMAGE_PROBE_TIMEOUT_MS).Some?
  }

  /** The direct CORS HEAD answers within its 5 s. */
  predicate CorsProbeAnswers(net: Network, url: string)
  {
    net.head(url, CorsMode, DIRECT_PROBE_TIMEOUT_MS).Some?
  }

  /** The proxies from `from` on, tried in order up to the first that answers. */
  function ScanProxies(b: Browser, net: Network, url: string, from: nat): (r: Traced<Option<nat>>)
    requires from <= PROXY_COUNT
    ensures r.value.Some? ==>
      && from <= r.value.value < PROXY_COUNT
      && ProxyAnswers(b, net, url, r.value.value)
      && forall j :: from <= j < r.value.value ==> !ProxyAnswers(b, net, url, j)
    ensures r.value.None? ==> forall j :: from <= j < PROXY_COUNT ==> !ProxyAnswers(b, net, url, j)
    ensures |r.requests| <= PROXY_COUNT - from
    ensures |r.requests| == (if r.value.Some? then r.value.value - from + 1 else PROXY_COUNT - from)
    ensures r.requests == ProxyProbes(b, url, from, |r.requests|)
    decreases PROXY_COUNT - from
  {
    if from == PROXY_COUNT then Traced(None, [])
    else
      var probe := Head(ApplyCorsProxy(b, url, from), CorsMode, PROXY_PROBE_TIMEOUT_MS);
      if ProxyAnswers(b, net, url, from) then Traced(Some(from), [probe])
      else
        var rest := ScanProxies(b, net, url, from + 1);
        Traced(rest.value, [probe] + rest.requests)
  }

  /** The 8 s CORS HEAD requests to `count` proxies from index `from` on, in list order. */
  function ProxyProbes(b: Browser, url: string, from: nat, count: nat): (probes: seq<Request>)
    ensures |probes| == count
    decreases count
  {
    if count == 0 then []
    else [Head(ApplyCorsProxy(b, url, from), CorsMode, PROXY_PROBE_TIMEOUT_MS)] + ProxyProbes(b, url, from + 1, count - 1)
  }

  /** The requests of the two direct probes, up to the first that answers. */
  function DirectProbes(b: Browser, net: Network, url: string): seq<Request>
  {
    var imageProbe := if DetectDocumentType(url) == Image
                      then [Head(url, DefaultMode, IMAGE_PROBE_TIMEOUT_MS)] else [];
    if ImageProbeAnswers(b, net, url) then imageProbe
    else imageProbe + [Head(url, CorsMode, DIRECT_PROBE_TIMEOUT_MS)]
  }

  /**
   * `tryLoadWithProxy`: a data or same-origin URL as it is; otherwise the URL
   * itself when the image probe or the CORS probe answers, else the first
   * proxy that answers, else the URL itself.
   */
  function Resolve(b: Browser, net: Network, url: string): (r: Traced<string>)
    ensures PassesThrough(b, url) ==> r == Traced(url, [])
    ensures r.value == url || exists i :: 0 <= i < PROXY_COUNT && r.value == ApplyCorsProxy(b, url, i)
  {
    if StartsWith(url, "data:") || !IsExternalUrl(b, url) then Traced(url, [])
    else if ImageProbeAnswers(b, net, url) || CorsProbeAnswers(net, url) then Traced(url, DirectProbes(b, net, url))
    else
      var scan := ScanProxies(b, net, url, 0);
      var chosen := if scan.value.Some? then ApplyCorsProxy(b, url, scan.value.value) else url;
      Traced(chosen, DirectProbes(b, net, url) + scan.requests)
  }

  /**
   * Which URL resolution chooses: the URL itself when a direct probe answers,
   * otherwise the first proxy that answers, and the URL itself when none does.
   */
  lemma ResolveChooses(b: Browser, net: Network, url: string)
    ensures !PassesThrough(b, url) && (ImageProbeAnswers(b, net, url) || CorsProbeAnswers(net, url)) ==>
      Resolve(b, net, url).value == url
    ensures forall i :: 0 <= i < PROXY_COUNT ==>
      (!PassesThrough(b, url) && !ImageProbeAnswers(b, net, url) && !CorsProbeAnswers(net, url)
       && ProxyAnswers(b, net, url, i) && (forall j :: 0 <= j < i ==> !ProxyAnswers(b, net, url, j))) ==>
        Resolve(b, net, url).value == ApplyCorsProxy(b, url, i)
    ensures !PassesThrough(b, url) && !ImageProbeAnswers(b, net, url) && !CorsProbeAnswers(net, url)
            && (forall i :: 0 <= i < PROXY_COUNT ==> !ProxyAnswers(b, net, url, i)) ==>
      Resolve(b, net, url).value == url
  {
    if !PassesThrough(b, url) && !ImageProbeAnswers(b, net, url) && !CorsProbeAnswers(net, url) {
      var scan := ScanProxies(b, net, url, 0);
      forall i | 0 <= i < PROXY_COUNT && ProxyAnswers(b, net, url, i)
                 && (forall j :: 0 <= j < i ==> !ProxyAnswers(b, net, url, j))
        ensures scan.value == Some(i)
      {
        if scan.value.Some? && scan.value.value != i {
          assert false;
        }
      }
    }
  }

  /** Sum of the timeouts of a list of requests: the longest the list can take. */
  function TotalTimeout(requests: seq<Request>): nat
  {
    if requests == [] then 0 else requests[0].timeoutMs + TotalTimeout(requests[1..])
  }

  lemma {:induction false} TotalTimeoutAppend(a: seq<Request>, c: seq<Request>)
    ensures TotalTimeout(a + c) == TotalTimeout(a) + TotalTimeout(c)
  {
    if a != [] {
      assert (a + c)[0] == a[0];
      assert (a + c)[1..] == a[1..] + c;
      TotalTimeoutAppend(a[1..], c);
      assert TotalTimeout(a + c) == a[0].timeoutMs + TotalTimeout(a[1..] + c);
    } else {
      assert a + c == c;
    }
  }

  lemma {:induction false} ScanProxiesTimeout(b: Browser, net: Network, url: string, from: nat)
    requires from <= PROXY_COUNT
    ensures TotalTimeout(ScanProxies(b, net, url, from).requests) <= PROXY_PROBE_TIMEOUT_MS * (PROXY_COUNT - from)
    decreases PROXY_COUNT - from
  {
    if from < PROXY_COUNT && !ProxyAnswers(b, net, url, from) {
      ScanProxiesTimeout(b, net, url, from + 1);
      var probe := Head(ApplyCorsProxy(b, url, from), CorsMode, PROXY_PROBE_TIMEOUT_MS);
      TotalTimeoutAppend([probe], ScanProxies(b, net, url, from + 1).requests);
    }
  }

  /**
   * Resolution issues at most seven requests, the image probe (images only)
   * before the CORS probe before the proxies, and is bounded by their
   * timeouts: 3 s + 5 s + 5 * 8 s.
   */
  lemma ResolveRequests(b: Browser, net: Network, url: string)
    ensures var r := Resolve(b, net, url);
      && |r.requests| <= 7
      && TotalTimeout(r.requests) <= 48000
      && (!PassesThrough(b, url) && DetectDocumentType(url) == Image ==>
            r.requests[0] == Head(url, DefaultMode, IMAGE_PROBE_TIMEOUT_MS))
      && (!PassesThrough(b, url) && !ImageProbeAnswers(b, net, url) ==>
            var k := if DetectDocumentType(url) == Image then 1 else 0;
            |r.requests| > k && r.requests[k] == Head(url, CorsMode, DIRECT_PROBE_TIMEOUT_MS))
  {
    if !PassesThrough(b, url) && !ImageProbeAnswers(b, net, url) && !CorsProbeAnswers(net, url) {
      var imageProbe := if DetectDocumentType(url) == Image
                        then [Head(url, DefaultMode, IMAGE_PROBE_TIMEOUT_MS)] else [];
      var probes := imageProbe + [Head(url, CorsMode, DIRECT_PROBE_TIMEOUT_MS)];
      var scan := ScanProxies(b, net, url, 0);
      ScanProxiesTimeout(b, net, url, 0);
      TotalTimeoutAppend(probes, scan.requests);
      TotalTimeoutAppend(imageProbe, [Head(url, CorsMode, DIRECT_PROBE_TIMEOUT_MS)]);
    } else if !PassesThrough(b, url) && !ImageProbeAnswers(b, net, url) {
      var imageProbe := if DetectDocumentType(url) == Image
                        then [Head(url, DefaultMode, IMAGE_PROBE_TIMEOUT_MS)] else [];
      TotalTimeoutAppend(imageProbe, [Head(url, CorsMode, DIRECT_PROBE_TIMEOUT_MS)]);
    }
  }

  /**
   * One step of the proxy scan, seen from the whole scan: when the first `i`
   * proxies have been probed without an answer, probing proxy `i` either
   * ends the scan there or leaves the rest of it from `i + 1`.
   */
  lemma ScanProxiesAdvance(b: Browser, net: Network, url: string, i: nat, done: seq<Request>)
    requires i < PROXY_COUNT
    requires ScanProxies(b, net, url, 0) == Traced(ScanProxies(b, net, url, i).value, done + ScanProxies(b, net, url, i).requests)
    ensures var probe := Head(ApplyCorsProxy(b, url, i), CorsMode, PROXY_PROBE_TIMEOUT_MS);
      ProxyAnswers(b, net, url, i) ==> ScanProxies(b, net, url, 0) == Traced(Some(i), done + [probe])
    ensures var probe := Head(ApplyCorsProxy(b, url, i), CorsMode, PROXY_PROBE_TIMEOUT_MS);
      !ProxyAnswers(b, net, url, i) ==>
        ScanProxies(b, net, url, 0) == Traced(ScanProxies(b, net, url, i + 1).value, (done + [probe]) + ScanProxies(b, net, url, i + 1).requests)
  {
    var probe := Head(ApplyCorsProxy(b, url, i), CorsMode, PROXY_PROBE_TIMEOUT_MS);
    if !ProxyAnswers(b, net, url, i) {
      var rest := ScanProxies(b, net, url, i + 1).requests;
      assert ScanProxies(b, net, url, i).requests == [probe] + rest;
      assert done + ([probe] + rest) == (done + [probe]) + rest;
    }
  }

  /** The loop of `tryLoadWithProxy` over the proxy list, stopping at the first proxy that answers. */
  method ProbeProxies(b: Browser, net: Network, url: string) returns (found: Option<nat>, requests: seq<Request>)
    ensures Traced(found, requests) == ScanProxies(b, net, url, 0)
  {
    requests := [];
    var i := 0;
    while i < PROXY_COUNT
      invariant 0 <= i <= PROXY_COUNT
      invariant ScanProxies(b, net, url, 0) == Traced(ScanProxies(b, net, url, i).value, requests + ScanProxies(b, net, url, i).requests)
    {
      var proxiedUrl := ApplyCorsProxy(b, url, i);
      ScanProxiesAdvance(b, net, url, i, requests);
      requests := requests + [Head(proxiedUrl, CorsMode, PROXY_PROBE_TIMEOUT_MS)];
      if net.head(proxiedUrl, CorsMode, PROXY_PROBE_TIMEOUT_MS).Some? {
        return Some(i), requests;
      }
      i := i + 1;
    }
    return None, requests;
  }

  /** The image probe (images only) and the CORS probe of `tryLoadWithProxy`. */
  method ProbeDirect(b: Browser, net: Network, url: string) returns (answered: bool, requests: seq<Request>)
    ensures answered <==> ImageProbeAnswers(b, net, url) || CorsProbeAnswers(net, url)
    ensures requests == DirectProbes(b, net, url)
  {
    requests := [];
    if DetectDocumentType(url) == Image {
      requests := requests + [Head(url, DefaultMode, IMAGE_PROBE_TIMEOUT_MS)];
      if net.head(url, DefaultMode, IMAGE_PROBE_TIMEOUT_MS).Some? {
        return true, requests;
      }
    }
    requests := requests + [Head(url, CorsMode, DIRECT_PROBE_TIMEOUT_MS)];
    answered := net.head(url, CorsMode, DIRECT_PROBE_TIMEOUT_MS).Some?;
  }

  /** `tryLoadWithProxy`: the two direct probes, then the proxies. */
  method TryLoadWithProxy(b: Browser, net: Network, url: string) returns (r: string, requests: seq<Request>)
    ensures Traced(r, requests) == Resolve(b, net, url)
  {
    if StartsWith(url, "data:") || !IsExternalUrl(b, url) {
      return url, [];
    }
    var answered;
    answered, requests := ProbeDirect(b, net, url);
    if answered {
      return url, requests;
    }
    var found, proxyRequests := ProbeProxies(b, net, url);
    requests := requests + proxyRequests;
    r := if found.Some? then ApplyCorsProxy(b, url, found.value) else url;
  }

  // ---------------------------------------------------------------------------
  // Asynchronous classification (detectDocumentTypeAsync)

  /** `detectDocumentTypeBySignature`: resolve, fetch the first kilobyte, test the signature. */
  function SignatureProbe(b: Browser, net: Network, url: string): (r: Traced<DocumentType>)
    ensures r.value == BytesKind(net.firstBytes(Resolve(b, net, url).value, SIGNATURE_TIMEOUT_MS))
    ensures |r.requests| > 0 && Last(r.requests) == RangeGet(Resolve(b, net, url).value, SIGNATURE_TIMEOUT_MS)
  {
    var resolved := Resolve(b, net, url);
    Traced(BytesKind(net.firstBytes(resolved.value, SIGNATURE_TIMEOUT_MS)),
           resolved.requests + [RangeGet(resolved.value, SIGNATURE_TIMEOUT_MS)])
  }

  /** The answer of the proxied HEAD, asked only when resolution chose another URL. */
  function ProxiedHeaderKind(b: Browser, net: Network, url: string): DocumentType
  {
    var resolved := Resolve(b, net, url).value;
    if resolved != url then HeaderKind(net.head(resolved, CorsMode, PROXIED_HEADER_TIMEOUT_MS)) else Unknown
  }

  /**
   * `detectDocumentTypeAsync`: the extension, then the direct HEAD, then the
   * HEAD through the resolved proxy, then the signature, then `unknown`.
   */
  function Classify(b: Browser, net: Network, url: string): (r: Traced<DocumentType>)
    ensures DetectDocumentType(url) != Unknown ==> r == Traced(DetectDocumentType(url), [])
    ensures DetectDocumentType(url) == Unknown ==>
      |r.requests| > 0 && r.requests[0] == Head(url, CorsMode, HEADER_PROBE_TIMEOUT_MS)
  {
    var ext := DetectDocumentType(url);
    if ext != Unknown then Traced(ext, [])
    else
      var direct := HeaderKind(net.head(url, CorsMode, HEADER_PROBE_TIMEOUT_MS));
      var probes := [Head(url, CorsMode, HEADER_PROBE_TIMEOUT_MS)];
      if direct != Unknown then Traced(direct, probes)
      else
        var rest := ClassifyAfterDirectHead(b, net, url);
        Traced(rest.value, probes + rest.requests)
  }

  /** The cascade once the direct HEAD has not decided: resolution, the proxied HEAD, the signature. */
  function ClassifyAfterDirectHead(b: Browser, net: Network, url: string): Traced<DocumentType>
  {
    var resolved := Resolve(b, net, url);
    var probes := resolved.requests +
      (if resolved.value != url then [Head(resolved.value, CorsMode, PROXIED_HEADER_TIMEOUT_MS)] else []);
    var viaProxy := ProxiedHeaderKind(b, net, url);
    if viaProxy != Unknown then Traced(viaProxy, probes)
    else
      var signature := SignatureProbe(b, net, url);
      Traced(signature.value, probes + signature.requests)
  }

  /** The answer of the first definite strategy after the first one that is `Unknown`. */
  lemma FirstDefiniteSkip(kinds: seq<DocumentType>)
    requires |kinds| > 0 && kinds[0] == Unknown
    ensures FirstDefinite(kinds) == FirstDefinite(kinds[1..])
  {
  }

  /** The cascade is the first definite answer of its four strategies, in order. */
  lemma ClassifyIsFirstDefinite(b: Browser, net: Network, url: string)
    ensures Classify(b, net, url).value == FirstDefinite([
      DetectDocumentType(url),
      HeaderKind(net.head(url, CorsMode, HEADER_PROBE_TIMEOUT_MS)),
      ProxiedHeaderKind(b, net, url),
      SignatureProbe(b, net, url).value])
  {
    var k0, k1, k2, k3 := DetectDocumentType(url), HeaderKind(net.head(url, CorsMode, HEADER_PROBE_TIMEOUT_MS)),
                          ProxiedHeaderKind(b, net, url), SignatureProbe(b, net, url).value;
    var kinds := [k0, k1, k2, k3];
    if k0 == Unknown {
      FirstDefiniteSkip(kinds);
      assert kinds[1..] == [k1, k2, k3];
      if k1 == Unknown {
        FirstDefiniteSkip([k1, k2, k3]);
        assert [k1, k2, k3][1..] == [k2, k3];
        if k2 == Unknown {
          FirstDefiniteSkip([k2, k3]);
          assert [k2, k3][1..] == [k3];
          if k3 == Unknown {
            FirstDefiniteSkip([k3]);
            assert [k3][1..] == [];
          }
        }
      }
    }
  }

  /**
   * The extension short-circuits: whenever it names a kind, the answer is the
   * same whatever the network does, and no request is issued.
   */
  lemma ClassifyExtensionNeedsNoNetwork(b: Browser, net1: Network, net2: Network, url: string)
    requires DetectDocumentType(url) != Unknown
    ensures Classify(b, net1, url) == Classify(b, net2, url)
    ensures Classify(b, net1, url).requests == []
  {
  }

  /** When resolution keeps the URL, the proxied HEAD is skipped and the cascade has three strategies. */
  lemma ClassifyWithoutProxy(b: Browser, net: Network, url: string)
    requires Resolve(b, net, url).value == url
    ensures Classify(b, net, url).value == FirstDefinite([
      DetectDocumentType(url),
      HeaderKind(net.head(url, CorsMode, HEADER_PROBE_TIMEOUT_MS)),
      SignatureProbe(b, net, url).value])
  {
    ClassifyIsFirstDefinite(b, net, url);
    var k0, k1, k3 := DetectDocumentType(url), HeaderKind(net.head(url, CorsMode, HEADER_PROBE_TIMEOUT_MS)),
                      SignatureProbe(b, net, url).value;
    if k0 == Unknown {
      FirstDefiniteSkip([k0, k1, Unknown, k3]);
      FirstDefiniteSkip([k0, k1, k3]);
      assert [k0, k1, Unknown, k3][1..] == [k1, Unknown, k3];
      assert [k0, k1, k3][1..] == [k1, k3];
      if k1 == Unknown {
        FirstDefiniteSkip([k1, Unknown, k3]);
        FirstDefiniteSkip([k1, k3]);
        assert [k1, Unknown, k3][1..] == [Unknown, k3];
        assert [k1, k3][1..] == [k3];
        FirstDefiniteSkip([Unknown, k3]);
        assert [Unknown, k3][1..] == [k3];
      }
    }
  }

  /** `detectDocumentTypeBySignature`, issuing its own resolution first. */
  method DetectDocumentTypeBySignature(b: Browser, net: Network, url: string)
    returns (t: DocumentType, requests: seq<Request>)
    ensures Traced(t, requests) == SignatureProbe(b, net, url)
  {
    var proxiedUrl;
    proxiedUrl, requests := TryLoadWithProxy(b, net, url);
    requests := requests + [RangeGet(proxiedUrl, SIGNATURE_TIMEOUT_MS)];
    var body := net.firstBytes(proxiedUrl, SIGNATURE_TIMEOUT_MS);
    t := Unknown;
    if body.Some? {
      t := SignatureType(body.value);
    }
  }

  /** `detectDocumentTypeAsync`, step by step. */
  method DetectDocumentTypeAsync(b: Browser, net: Network, url: string)
    returns (t: DocumentType, requests: seq<Request>)
    ensures Traced(t, requests) == Classify(b, net, url)
  {
    var extensionType := DetectDocumentType(url);
    if extensionType != Unknown {
      return extensionType, [];
    }
    requests := [Head(url, CorsMode, HEADER_PROBE_TIMEOUT_MS)];
    var response := net.head(url, CorsMode, HEADER_PROBE_TIMEOUT_MS);
    if response.Some? {
      var detected := DetectDocumentTypeFromContentType(response.value);
      if detected != Unknown {
        return detected, requests;
      }
    }
    var rest;
    t, rest := DetectAfterDirectHead(b, net, url);
    requests := requests + rest;
  }

  /** The strategies of `detectDocumentTypeAsync` after the direct HEAD. */
  method DetectAfterDirectHead(b: Browser, net: Network, url: string)
    returns (t: DocumentType, requests: seq<Request>)
    ensures Traced(t, requests) == ClassifyAfterDirectHead(b, net, url)
  {
    var proxiedUrl;
    proxiedUrl, requests := TryLoadWithProxy(b, net, url);
    if proxiedUrl != url {
      requests := requests + [Head(proxiedUrl, CorsMode, PROXIED_HEADER_TIMEOUT_MS)];
      var proxied := net.head(proxiedUrl, CorsMode, PROXIED_HEADER_TIMEOUT_MS);
      if proxied.Some? {
        var detected := DetectDocumentTypeFromContentType(proxied.value);
        if detected != Unknown {
          return detected, requests;
        }
      }
    }
    var signatureRequests;
    t, signatureRequests := DetectDocumentTypeBySignature(b, net, url);
    requests := requests + signatureRequests;
  }

  // ---------------------------------------------------------------------------
  // Data URLs and document info

  /**
   * `dataUrl.split(',')[1]`: the text between the first comma and the next
   * one (or the end), or `"undefined"` when there is no comma.
   */
  function DataUrlPayload(dataUrl: string): (payload: string)
    ensures ',' !in dataUrl ==> payload == "undefined"
    ensures ',' in dataUrl ==> payload == FirstSegment(AfterFirst(dataUrl, ','), ',') && ',' !in payload
  {
    var parts := Split(dataUrl, ',');
    SplitCount(dataUrl, ',');
    SplitPartsFree(dataUrl, ',');
    if |parts| > 1 then
      SplitAfterFirst(dataUrl, ',');
      parts[1]
    else "undefined"
  }

  /** `charCodeAt` stored into a `Uint8Array`: the code modulo 256. */
  function CharCodeBytes(binary: string): (bytes: seq<byte>)
    ensures |bytes| == |binary|
    ensures forall i :: 0 <= i < |binary| && (binary[i] as int) < 256 ==> bytes[i] as int == binary[i] as int
  {
    seq(|binary|, i requires 0 <= i < |binary| => ((binary[i] as int) % 256) as byte)
  }

  /** The loop of `createBlobFromDataUrl` that fills the byte array. */
  method FillBytes(binary: string) returns (array': array<byte>)
    ensures array'[..] == CharCodeBytes(binary)
  {
    array' := new byte[|binary|];
    for i := 0 to |binary|
      invariant forall k :: 0 <= k < i ==> array'[k] == CharCodeBytes(binary)[k]
    {
      array'[i] := ((binary[i] as int) % 256) as byte;
    }
  }

  /** The object URL a data URL becomes: `None` exactly when `atob` rejects the payload. */
  function DataUrlBlob(b: Browser, dataUrl: string): (r: Option<string>)
    ensures r.None? <==> b.atob(DataUrlPayload(dataUrl)).None?
  {
    match b.atob(DataUrlPayload(dataUrl))
    case None => None
    case Some(binary) => Some(b.createObjectUrl(CharCodeBytes(binary)))
  }

  /** `createBlobFromDataUrl`: the decoded bytes, copied one by one, become an object URL. */
  method CreateBlobFromDataUrl(b: Browser, dataUrl: string) returns (r: Option<string>)
    ensures r == DataUrlBlob(b, dataUrl)
  {
    var parts := Split(dataUrl, ',');
    var base64Data := if |parts| > 1 then parts[1] else "undefined";
    var binaryData := b.atob(base64Data);
    if binaryData.None? {
      return None;
    }
    var bytes := FillBytes(binaryData.value);
    r := Some(b.createObjectUrl(bytes[..]));
  }

  /** `getDocumentInfo`. */
  function GetDocumentInfo(url: string, t: DocumentType): (info: DocumentInfo)
    ensures info.kind == t && info.fileName == GetFileName(url)
    ensures info.fileName != "" && '/' !in info.fileName
  {
    DocumentInfo(t, GetFileName(url))
  }
}
