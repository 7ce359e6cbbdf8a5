/** The output screen (src/screens/OutputScreen.tsx): cleaning of the data URLs
    (RFC 2397, section 3: `data:[<mediatype>][;base64],<data>`) that the
    generator returns, and the share, download and PDF-save flows. The file
    system, the share sheet and the permission dialog are outcomes passed in;
    files are a map from path to base64 content, and alerts, toasts and share
    requests are recorded in order. */
module Output {
  import opened Common

  // ------------------------------------------------------------------
  // Image data URLs: `replace(/^data:image\/[a-z]+;base64,/, "")`
  // ------------------------------------------------------------------

  const ImagePrefix := "data:image/"
  const Base64Marker := ";base64,"

  predicate IsLower(c: char)
  {
    'a' <= c <= 'z'
  }

  predicate IsLowerWord(t: string)
  {
    |t| > 0 && forall k :: 0 <= k < |t| ==> IsLower(t[k])
  }

  /** `data:image/<t>;base64,<d>`. */
  function ImageDataUrl(t: string, d: string): string
  {
    ImagePrefix + t + Base64Marker + d
  }

  /** The end of the run of lower-case letters starting at `i` (the greedy
      `[a-z]+`). */
  function LowerRunEnd(s: string, i: nat): (j: nat)
    requires i <= |s|
    ensures i <= j <= |s|
    ensures forall k :: i <= k < j ==> IsLower(s[k])
    ensures j < |s| ==> !IsLower(s[j])
    decreases |s| - i
  {
    if i < |s| && IsLower(s[i]) then LowerRunEnd(s, i + 1) else i
  }

  /** The header is removed only where it starts the string. */
  function StripImageHeader(s: string): (r: string)
    ensures |r| <= |s| && r == s[|s| - |r|..]
  {
    if |s| >= |ImagePrefix| && s[..|ImagePrefix|] == ImagePrefix then
      var j := LowerRunEnd(s, |ImagePrefix|);
      if j > |ImagePrefix| && j + |Base64Marker| <= |s| && s[j..j + |Base64Marker|] == Base64Marker
      then s[j + |Base64Marker|..]
      else s
    else s
  }

  /** An image data URL loses exactly its header. */
  lemma StripImageRoundTrip(t: string, d: string)
    requires IsLowerWord(t)
    ensures StripImageHeader(ImageDataUrl(t, d)) == d
  {
    var s := ImageDataUrl(t, d);
    var n := |ImagePrefix|;
    assert s == ImagePrefix + (t + (Base64Marker + d));
    assert s[..n] == ImagePrefix;
    assert s[n..n + |t|] == t;
    assert s[n + |t|..n + |t| + |Base64Marker|] == Base64Marker;
    assert s[n + |t| + |Base64Marker|..] == d;
    forall k | n <= k < n + |t| ensures IsLower(s[k]) {
      assert s[k] == t[k - n];
    }
    LowerRunEndAt(s, n, n + |t|);
  }

  /** The greedy run ends at the first character that is not a lower-case
      letter. */
  lemma {:induction false} LowerRunEndAt(s: string, i: nat, e: nat)
    requires i <= e < |s| && !IsLower(s[e])
    requires forall k :: i <= k < e ==> IsLower(s[k])
    ensures LowerRunEnd(s, i) == e
    decreases e - i
  {
    if i < e {
      LowerRunEndAt(s, i + 1, e);
    }
  }

  /** Anything else is returned unchanged: a string that is changed was an
      image data URL, and what is left is its data. */
  lemma StripImageOnlyHeader(s: string)
    requires StripImageHeader(s) != s
    ensures exists t, d :: IsLowerWord(t) && ImageDataUrl(t, d) == s && StripImageHeader(s) == d
  {
    var n, m := |ImagePrefix|, |Base64Marker|;
    var j := LowerRunEnd(s, n);
    var t, d := s[n..j], s[j + m..];
    var prefix, marker := s[..n], s[j..j + m];
    assert prefix == ImagePrefix && marker == Base64Marker && StripImageHeader(s) == d;
    assert ImageDataUrl(t, d) == prefix + t + marker + d;
    SplitAt4(s, n, j, j + m);
    assert IsLowerWord(t);
  }

  lemma SplitAt4(s: string, a: nat, b: nat, c: nat)
    requires a <= b <= c <= |s|
    ensures s == s[..a] + s[a..b] + s[b..c] + s[c..]
  {
    assert s[..c] == s[..a] + s[a..b] + s[b..c];
  }

  // ------------------------------------------------------------------
  // PDF payloads: `split(',').pop()?.replace(/\s/g, '') || ''`
  // ------------------------------------------------------------------

  const PdfUrlPrefix := "data:application/pdf;base64,"

  /** `s.split(',').pop()`: the text after the last comma, or all of it. */
  function AfterLastComma(s: string): (r: string)
    ensures ',' !in r
    ensures |r| <= |s| && r == s[|s| - |r|..]
    ensures |r| < |s| ==> s[|s| - |r| - 1] == ','
    ensures ',' !in s ==> r == s
    decreases |s|
  {
    if s == [] then []
    else if s[|s| - 1] == ',' then []
    else
      var init := s[..|s| - 1];
      var r := AfterLastComma(init);
      assert s[|s| - |r| - 1..] == init[|init| - |r|..] + [s[|s| - 1]];
      r + [s[|s| - 1]]
  }

  /** `replace(/\s/g, '')`. */
  function RemoveSpaces(s: string): (r: string)
    ensures NoSpace(r) && |r| <= |s|
    ensures forall c :: c in r ==> c in s
    ensures NoSpace(s) ==> r == s
    decreases |s|
  {
    if s == [] then []
    else
      var init, last := s[..|s| - 1], s[|s| - 1];
      assert s == init + [last];
      if IsJsSpace(last) then RemoveSpaces(init) else RemoveSpaces(init) + [last]
  }

  /** The cleaning of `handlePdfGenerated`: no comma and no whitespace left. */
  function CleanPdf(s: string): (r: string)
    ensures ',' !in r && NoSpace(r)
  {
    RemoveSpaces(AfterLastComma(s))
  }

  /** The payload after the last comma comes out with its whitespace
      removed, whatever header precedes it. */
  lemma CleanPdfAfterHeader(header: string, d: string)
    requires ',' !in d
    ensures CleanPdf(header + "," + d) == RemoveSpaces(d)
  {
    AfterCommaSuffix(header + ",", d);
  }

  /** The text after a comma that is followed by no other comma. */
  lemma {:induction false} AfterCommaSuffix(a: string, d: string)
    requires |a| > 0 && a[|a| - 1] == ',' && ',' !in d
    ensures AfterLastComma(a + d) == d
    decreases |d|
  {
    if d == [] {
      assert a + d == a;
    } else {
      var init := d[..|d| - 1];
      assert (a + d)[..|a + d| - 1] == a + init;
      AfterCommaSuffix(a, init);
      assert d == init + [d[|d| - 1]];
    }
  }

  /** A data URL whose payload has no comma or whitespace cleans back to the
      payload. */
  lemma CleanPdfRoundTrip(d: string)
    requires ',' !in d && NoSpace(d)
    ensures CleanPdf(PdfUrlPrefix + d) == d
  {
    assert PdfUrlPrefix + d == "data:application/pdf;base64" + "," + d;
    CleanPdfAfterHeader("data:application/pdf;base64", d);
  }

  /** Cleaning a cleaned payload changes nothing. */
  lemma CleanPdfIdempotent(s: string)
    ensures CleanPdf(CleanPdf(s)) == CleanPdf(s)
  {
    var c := CleanPdf(s);
    assert AfterLastComma(c) == c;
  }

  /** The URL shared when saving fails. */
  function FallbackShareUrl(s: string): string
  {
    PdfUrlPrefix + CleanPdf(s)
  }

  /** The fallback URL carries the very payload the save path would have
      written. */
  lemma FallbackCarriesCleanedPayload(s: string)
    ensures CleanPdf(FallbackShareUrl(s)) == CleanPdf(s)
  {
    CleanPdfRoundTrip(CleanPdf(s));
  }

  // ------------------------------------------------------------------
  // File names and paths
  // ------------------------------------------------------------------

  datatype Dir = Caches | Downloads | Documents

  datatype Path = Path(dir: Dir, name: string)

  /** `handwriting_<ts>_<index>.jpg`. */
  function ImageFileName(ts: nat, index: nat): string
  {
    "handwriting_" + NatToString(ts) + "_" + NatToString(index) + ".jpg"
  }

  /** `handwriting_<ts>.pdf`. */
  function PdfFileName(ts: nat): string
  {
    "handwriting_" + NatToString(ts) + ".pdf"
  }

  /** Within one timestamp every page index gets its own file name. */
  lemma ImageFileNamesDistinct(ts: nat, i: nat, j: nat)
    requires i != j
    ensures ImageFileName(ts, i) != ImageFileName(ts, j)
  {
    var p := "handwriting_" + NatToString(ts) + "_";
    var a, b := NatToString(i) + ".jpg", NatToString(j) + ".jpg";
    assert ImageFileName(ts, i) == p + a && ImageFileName(ts, j) == p + b;
    if p + a == p + b {
      assert a == (p + a)[|p|..] == (p + b)[|p|..] == b;
      assert NatToString(i) == a[..|a| - 4] == b[..|b| - 4] == NatToString(j);
      NatToStringInjective(i, j);
    }
  }

  /** An image file and a PDF file never share a name. */
  lemma ImageAndPdfNamesDiffer(ts: nat, index: nat, ts': nat)
    ensures ImageFileName(ts, index) != PdfFileName(ts')
  {
    var a, b := ImageFileName(ts, index), PdfFileName(ts');
    assert a[|a| - 3] == 'j' && b[|b| - 3] == 'p';
  }

  /** `downloadPath`: Downloads on Android, Documents elsewhere. */
  function DownloadDir(platform: Platform): (d: Dir)
    ensures d == Downloads <==> platform == Android
    ensures d != Caches
  {
    if platform == Android then Downloads else Documents
  }

  // ------------------------------------------------------------------
  // The screen
  // ------------------------------------------------------------------

  datatype OutputAlert =
    | PermissionDeniedAlert          // 'Permission Denied'
    | SavedToast(path: Path)         // the Android toast 'Saved to <path>'
    | SavedAlert                     // 'Saved'
    | SaveImageFailed                // 'Error', 'Failed to save image'
    | PdfSavedToDownloads(fileName: string)
    | PdfSavedToDocuments
    | SavePdfFailed                  // 'Error', 'Failed to save PDF.'

  /** `image/jpeg` and `application/pdf`. */
  datatype Mime = Jpeg | Pdf

  datatype ShareRequest =
    | ShareFile(path: Path, mime: Mime)
    | ShareUrl(url: string, mime: Mime)

  /** What the native calls of the PDF save flow do: the cache write, the
      copy to the public directory, the share of the cached file after a
      failed copy, and the share of the data URL after any failure. */
  datatype PdfIo = PdfIo(writeOk: bool, copyOk: bool, shareOk: bool, fallbackShareOk: bool)

  class OutputScreen {
    var generatedImages: seq<string>
    var isLoading: bool
    var files: map<Path, string>
    var alerts: seq<OutputAlert>
    var shares: seq<ShareRequest>

    constructor()
      ensures generatedImages == [] && isLoading && files == map[] && alerts == [] && shares == []
    {
      generatedImages := [];
      isLoading := true;
      files := map[];
      alerts := [];
      shares := [];
    }

    /** `handleImagesGenerated`. */
    method HandleImagesGenerated(images: seq<string>)
      modifies this`generatedImages, this`isLoading
      ensures generatedImages == images && !isLoading
    {
      generatedImages := images;
      isLoading := false;
    }

    /** `handleShare` with `saveToCache`: the stripped image goes to the cache
        and that file is shared; a failed write is only logged. */
    method HandleShare(base64: string, index: nat, ts: nat, writeOk: bool)
      modifies this`files, this`shares
      ensures var path := Path(Caches, ImageFileName(ts, index));
        if writeOk then files == old(files)[path := StripImageHeader(base64)] &&
                        shares == old(shares) + [ShareFile(path, Jpeg)]
        else files == old(files) && shares == old(shares)
    {
      if writeOk {
        var path := Path(Caches, ImageFileName(ts, index));
        files := files[path := StripImageHeader(base64)];
        shares := shares + [ShareFile(path, Jpeg)];
      }
    }

    /** `handleDownload`: below Android API 29 a refused permission stops
        with an alert; otherwise the stripped image is written to Downloads
        (Android) or Documents, followed by a toast or an alert, or by the
        error alert when the write fails. */
    method HandleDownload(base64: string, index: nat, ts: nat, platform: Platform, apiLevel: int,
                          granted: bool, writeOk: bool)
      modifies this`files, this`alerts
      ensures platform == Android && apiLevel < 29 && !granted ==>
        files == old(files) && alerts == old(alerts) + [PermissionDeniedAlert]
      ensures !(platform == Android && apiLevel < 29 && !granted) ==>
        var path := Path(DownloadDir(platform), ImageFileName(ts, index));
        if writeOk then
          files == old(files)[path := StripImageHeader(base64)] &&
          alerts == old(alerts) + [if platform == Android then SavedToast(path) else SavedAlert]
        else files == old(files) && alerts == old(alerts) + [SaveImageFailed]
    {
      if platform == Android && apiLevel < 29 && !granted {
        alerts := alerts + [PermissionDeniedAlert];
        return;
      }
      var path := Path(DownloadDir(platform), ImageFileName(ts, index));
      if !writeOk {
        alerts := alerts + [SaveImageFailed];
        return;
      }
      files := files[path := StripImageHeader(base64)];
      if platform == Android {
        alerts := alerts + [SavedToast(path)];
      } else {
        alerts := alerts + [SavedAlert];
      }
    }

    /** The outer `catch` of `handlePdfGenerated`: share the data URL rebuilt
        from the input; a missing input makes the rebuilding throw, and that
        or a failed share ends with the error alert. */
    method FallbackShare(pdf: Option<string>, fallbackShareOk: bool)
      modifies this`alerts, this`shares
      ensures shares == old(shares) + (if pdf.None? then [] else [ShareUrl(FallbackShareUrl(pdf.value), Pdf)])
      ensures alerts == old(alerts) + (if pdf.Some? && fallbackShareOk then [] else [SavePdfFailed])
    {
      if pdf.None? {
        alerts := alerts + [SavePdfFailed];
        return;
      }
      var url := FallbackShareUrl(pdf.value);
      shares := shares + [ShareUrl(url, Pdf)];
      if !fallbackShareOk {
        alerts := alerts + [SavePdfFailed];
      }
    }

    /** The part of `handlePdfGenerated` after a successful cache write of
        the cleaned payload `CleanPdf(pdf)`: the copy to Downloads (Android)
        or Documents; a failed copy shares the cached file instead, and a
        failed share of it falls back to the data URL. */
    method CopyOrSharePdf(pdf: string, name: string, platform: Platform, io: PdfIo)
      modifies this`files, this`alerts, this`shares
      ensures var dest := Path(DownloadDir(platform), name);
        io.copyOk ==>
          files == old(files)[dest := CleanPdf(pdf)] && shares == old(shares) &&
          alerts == old(alerts) + [if platform == Android then PdfSavedToDownloads(name) else PdfSavedToDocuments]
      ensures var cache := Path(Caches, name);
        !io.copyOk ==>
          files == old(files) &&
          shares == old(shares) + [ShareFile(cache, Pdf)] +
                    (if io.shareOk then [] else [ShareUrl(FallbackShareUrl(pdf), Pdf)]) &&
          alerts == old(alerts) + (if io.shareOk || io.fallbackShareOk then [] else [SavePdfFailed])
    {
      if io.copyOk {
        files := files[Path(DownloadDir(platform), name) := CleanPdf(pdf)];
        if platform == Android {
          alerts := alerts + [PdfSavedToDownloads(name)];
        } else {
          alerts := alerts + [PdfSavedToDocuments];
        }
      } else {
        shares := shares + [ShareFile(Path(Caches, name), Pdf)];
        if !io.shareOk {
          FallbackShare(Some(pdf), io.fallbackShareOk);
        }
      }
    }

    /** `handlePdfGenerated`: a missing or empty input, an input that is empty
        once cleaned, and a failed cache write all go to the fallback share.
        Otherwise the cleaned payload is written to the cache under
        `handwriting_<ts>.pdf` and then copied or shared. */
    method HandlePdfGenerated(pdf: Option<string>, ts: nat, platform: Platform, io: PdfIo)
      modifies this`files, this`alerts, this`shares
      ensures !Truthy(pdf) || CleanPdf(pdf.value) == "" || !io.writeOk ==>
        files == old(files) &&
        (pdf.None? ==> shares == old(shares) && alerts == old(alerts) + [SavePdfFailed]) &&
        (pdf.Some? ==>
           shares == old(shares) + [ShareUrl(FallbackShareUrl(pdf.value), Pdf)] &&
           alerts == old(alerts) + (if io.fallbackShareOk then [] else [SavePdfFailed]))
      ensures Truthy(pdf) && CleanPdf(pdf.value) != "" && io.writeOk ==>
        var name := PdfFileName(ts);
        var written := old(files)[Path(Caches, name) := CleanPdf(pdf.value)];
        && (io.copyOk ==>
              files == written[Path(DownloadDir(platform), name) := CleanPdf(pdf.value)] &&
              shares == old(shares) &&
              alerts == old(alerts) + [if platform == Android then PdfSavedToDownloads(name) else PdfSavedToDocuments])
        && (!io.copyOk ==>
              files == written &&
              shares == old(shares) + [ShareFile(Path(Caches, name), Pdf)] +
                        (if io.shareOk then [] else [ShareUrl(FallbackShareUrl(pdf.value), Pdf)]) &&
              alerts == old(alerts) + (if io.shareOk || io.fallbackShareOk then [] else [SavePdfFailed]))
    {
      if !Truthy(pdf) {
        // 'No PDF data received'
        FallbackShare(pdf, io.fallbackShareOk);
        return;
      }
      var clean := CleanPdf(pdf.value);
      if |clean| == 0 || !io.writeOk {
        // 'PDF data is empty after cleaning', or the cache write failed
        FallbackShare(pdf, io.fallbackShareOk);
        return;
      }
      var name := PdfFileName(ts);
      files := files[Path(Caches, name) := clean];
      CopyOrSharePdf(pdf.value, name, platform, io);
    }
  }

  /** Every PDF file the flow writes holds a cleaned, non-empty payload: no
      data-URL header, no comma, no whitespace. */
  lemma WrittenPdfIsClean(pdf: string)
    requires CleanPdf(pdf) != ""
    ensures var c := CleanPdf(pdf); |c| > 0 && ',' !in c && NoSpace(c) && CleanPdf(c) == c
  {
    CleanPdfIdempotent(pdf);
  }

  /** An empty input, or one that is only a header, still reaches the share
      sheet, as a data URL with no payload at all. */
  lemma EmptyPayloadSharesBareHeader(pdf: string)
    requires CleanPdf(pdf) == ""
    ensures FallbackShareUrl(pdf) == PdfUrlPrefix
  {
  }
}
