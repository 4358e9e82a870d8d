/**
 * `ImgPdfViewerService.fileTypeChecker`: a substring test on the lower-cased
 * file name, in which `.pdf` anywhere wins over the image substrings.
 */
module Service {
  import opened Types
  import opened Text
  import Utils

  /** The substrings that mark a file the `<img>` tag can show, `.apng` and `.img` among them. */
  const IMG_TAG_SUPPORTABLE_TYPES: seq<string> := [".png", ".jpeg", ".gif", ".apng", ".svg", ".bmp", ".ico", ".jpg", ".img"]

  /** One of the listed substrings occurs in `s`. */
  predicate ContainsImageMarker(s: string)
  {
    exists k | 0 <= k < |IMG_TAG_SUPPORTABLE_TYPES| :: Contains(s, IMG_TAG_SUPPORTABLE_TYPES[k])
  }

  /** `fileTypeChecker`: `"pdf"`, `"image"` or `""`. */
  function FileTypeChecker(file: string): (r: string)
    ensures r == "" || r == "pdf" || r == "image"
    ensures file == "" ==> r == ""
    ensures r == "pdf" <==> Contains(ToLower(file), ".pdf")
    ensures r == "image" <==> !Contains(ToLower(file), ".pdf") && ContainsImageMarker(ToLower(file))
  {
    if file == "" then ""
    else
      var lowered := ToLower(file);
      if Contains(lowered, ".pdf") then "pdf"
      else if ContainsImageMarker(lowered) then "image"
      else ""
  }

  /** The check does not see case. */
  lemma FileTypeCheckerIgnoresCase(file: string)
    ensures FileTypeChecker(ToLower(file)) == FileTypeChecker(file)
  {
    ToLowerIdempotent(file);
  }

  /** `.pdf` wins over an image substring that follows it. */
  lemma PdfWinsOverImage()
    ensures FileTypeChecker("a.pdf.png") == "pdf"
  {
    assert ToLower("a.pdf.png") == "a.pdf.png";
    assert OccursAt("a.pdf.png", ".pdf", 1);
  }

  /**
   * The service and the extension classifier disagree on `.apng`: a substring
   * match finds `.apng` (and `.png` in it), the extension list has no `apng`.
   */
  lemma ApngDisagreement()
    ensures FileTypeChecker("x.apng") == "image"
    ensures Utils.DetectDocumentType("x.apng") == Unknown
  {
    assert ToLower("x.apng") == "x.apng";
    assert OccursAt("x.apng", ".apng", 1);
    assert Contains("x.apng", IMG_TAG_SUPPORTABLE_TYPES[3]);
    MissingCharNotContains("x.apng", ".pdf", 2);
    Utils.ApngExtensionUnknown("x");
    assert "x" + ".apng" == "x.apng";
  }
}
