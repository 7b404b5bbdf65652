/** What happens when "Generate Report" is pressed: with no uploaded image
    only a warning is shown; otherwise the upload list is sorted in place by
    file-name key, every file is normalised into a temporary JPEG, and the
    report is built from the normalised images in that order. The form's
    text boxes are split into lines first. */
module App {
  import opened Images
  import opened UploadOrder
  import opened TextLines
  import opened Report

  datatype Outcome = NoImagesWarning | ReportReady(body: seq<Element>)

  /** The temporary JPEGs, one per file and in the same order. */
  function NormalizedImages(files: seq<UploadedFile>, maxDim: int, quality: int): seq<NormalizedImage> {
    seq(|files|, k requires 0 <= k < |files| => Normalized(files[k], maxDim, quality))
  }

  /** The `for file in uploaded_files` loop that appends one temporary image per file. */
  method NormalizeUploads(files: array<UploadedFile>, maxDim: int, quality: int) returns (tempImages: seq<NormalizedImage>)
    ensures tempImages == NormalizedImages(files[..], maxDim, quality)
  {
    tempImages := [];
    for k := 0 to files.Length
      invariant |tempImages| == k
      invariant forall j :: 0 <= j < k ==> tempImages[j] == Normalized(files[j], maxDim, quality)
    {
      tempImages := tempImages + [Normalized(files[k], maxDim, quality)];
    }
  }

  /** The handler of the "Generate Report" button. `today` stands for the
      formatted current date, which the source reads from the clock. */
  method OnGenerate(uploaded: array<UploadedFile>, weather: string, subcontractorText: string,
                    areaText: string, today: string, maxDim: int, quality: int) returns (outcome: Outcome)
    requires 500 <= maxDim <= 5000 && 1 <= quality <= 100
    modifies uploaded
    ensures outcome.NoImagesWarning? <==> uploaded.Length == 0
    ensures outcome.ReportReady? ==>
      && SortedByKey(uploaded[..], FileKey)
      && SameOrderPerKey(old(uploaded[..]), uploaded[..], FileKey)
      && multiset(uploaded[..]) == multiset(old(uploaded[..]))
      && outcome.body == Layout(NormalizedImages(uploaded[..], maxDim, quality), weather,
                                SplitLines(subcontractorText), SplitLines(areaText), today)
  {
    var subcontractors := SplitLines(subcontractorText);
    var areas := SplitLines(areaText);
    if uploaded.Length == 0 {
      outcome := NoImagesWarning;
    } else {
      SortByKey(uploaded, FileKey);
      var tempImages := NormalizeUploads(uploaded, maxDim, quality);
      var doc := GenerateReport(tempImages, weather, subcontractors, areas, today);
      outcome := ReportReady(doc.elements);
    }
  }

  /** The k-th picture of the report is made from the k-th file of the
      sorted upload list, and every file gives exactly one picture. */
  lemma PicturesFollowUploadOrder(files: seq<UploadedFile>, maxDim: int, quality: int, weather: string,
                                  subcontractors: seq<string>, areas: seq<string>, today: string)
    ensures var pictures := PicturesOf(Layout(NormalizedImages(files, maxDim, quality), weather, subcontractors, areas, today));
      && |pictures| == |files|
      && forall k :: 0 <= k < |files| ==> pictures[k].source == files[k]
  {
    LayoutPictures(NormalizedImages(files, maxDim, quality), weather, subcontractors, areas, today);
  }

  /** A text box with n newlines gives n + 1 bullets, the i-th reading
      `"    - "` followed by the i-th line. */
  lemma BulletsFromText(text: string)
    ensures var lines := SplitLines(text);
      && |Bullets(lines)| == multiset(text)['\n'] + 1
      && JoinLines(lines) == text
      && forall k :: 0 <= k < |lines| ==> Bullets(lines)[k].runs == [Run(BulletPrefix + lines[k], false)]
  {
    SplitThenJoin(text);
  }
}
