/** The body of the generated report. The word-processing document is a
    list of elements that grows one append at a time; `generate_report`
    fills it in a fixed order: title, blank line, seven labelled fields,
    blank line, the subcontractor and work-area lists under their headings,
    one page break, and then the pictures, two per loop step. Fonts, sizes
    and picture dimensions are not modelled; alignment is kept as a flag. */
module Report {
  import opened Images

  datatype Style = Normal | Heading2

  /** A run of text inside a paragraph; boldness is its only attribute kept here. */
  datatype Run = Run(text: string, bold: bool)

  datatype Element =
    | Paragraph(runs: seq<Run>, style: Style, centered: bool)
    | Picture(image: NormalizedImage, centered: bool)
    | PageBreak

  const Title := "Project Observation Report"
  const ProjectName := "National Fire Cache Building                                        -"
  const UserName := "Eli Whittington12"
  const Email := "eli.whittington@pc.gc.ca"
  const Address := "200 Hawk Ave, Banff AB T1L1K2"
  const Labels := ["Project", "Name", "Email", "Review Date", "Report Date", "Address", "Conditions"]
  const SubcontractorsHeading := "Subcontractors Present:"
  const AreasHeading := "Areas of Work/Progress:"
  const BulletPrefix := "    - "

  /** The values shown next to `Labels`; `today` is the formatted date, used
      for both the review date and the report date. */
  function FieldValues(today: string, weather: string): seq<string> {
    [ProjectName, UserName, Email, today, today, Address, weather + " °C"]
  }

  function TitleParagraph(): Element {
    Paragraph([Run(Title, false)], Normal, true)
  }

  function Blank(): Element {
    Paragraph([], Normal, false)
  }

  /** What `add_field(label, value)` appends: a bold `label: ` run and a value run. */
  function Field(caption: string, value: string): Element {
    Paragraph([Run(caption + ": ", true), Run(value, false)], Normal, false)
  }

  function Heading(text: string): Element {
    Paragraph([Run(text, false)], Heading2, false)
  }

  function Bullet(item: string): Element {
    Paragraph([Run(BulletPrefix + item, false)], Normal, false)
  }

  function Fields(today: string, weather: string): seq<Element> {
    seq(|Labels|, k requires 0 <= k < |Labels| => Field(Labels[k], FieldValues(today, weather)[k]))
  }

  function Bullets(items: seq<string>): seq<Element> {
    seq(|items|, k requires 0 <= k < |items| => Bullet(items[k]))
  }

  /** One centred picture per image, in list order. */
  function Plates(images: seq<NormalizedImage>): seq<Element> {
    seq(|images|, k requires 0 <= k < |images| => Picture(images[k], true))
  }

  /** The whole body `generate_report` builds. */
  function Layout(images: seq<NormalizedImage>, weather: string, subcontractors: seq<string>,
                  areas: seq<string>, today: string): seq<Element> {
    [TitleParagraph(), Blank()] + Fields(today, weather) + [Blank()]
    + [Heading(SubcontractorsHeading)] + Bullets(subcontractors)
    + [Heading(AreasHeading)] + Bullets(areas)
    + [PageBreak] + Plates(images)
  }

  /** Position of the page break in `Layout`. */
  function BreakIndex(subcontractors: seq<string>, areas: seq<string>): nat {
    12 + |subcontractors| + |areas|
  }

  /** The images of the picture elements of `d`, in document order. */
  function PicturesOf(d: seq<Element>): seq<NormalizedImage> {
    if d == [] then []
    else PicturesOf(d[..|d| - 1]) + (if d[|d| - 1].Picture? then [d[|d| - 1].image] else [])
  }

  lemma {:induction false} PicturesOfConcat(a: seq<Element>, b: seq<Element>)
    ensures PicturesOf(a + b) == PicturesOf(a) + PicturesOf(b)
  {
    if b == [] {
      assert a + b == a;
    } else {
      var b' := b[..|b| - 1];
      assert (a + b)[..|a + b| - 1] == a + b';
      PicturesOfConcat(a, b');
    }
  }

  lemma {:induction false} NoPictures(d: seq<Element>)
    requires forall k :: 0 <= k < |d| ==> !d[k].Picture?
    ensures PicturesOf(d) == []
  {
    if d != [] {
      NoPictures(d[..|d| - 1]);
    }
  }

  lemma {:induction false} PicturesOfPlates(images: seq<NormalizedImage>)
    ensures PicturesOf(Plates(images)) == images
  {
    if images != [] {
      var n := |images| - 1;
      assert Plates(images)[..n] == Plates(images[..n]);
      PicturesOfPlates(images[..n]);
      assert images[..n] + [images[n]] == images;
    }
  }

  /** The report has exactly one page break, right after the work-area list
      and before the first picture: every element before it is a paragraph
      and every element after it is a picture. */
  lemma LayoutPageBreak(images: seq<NormalizedImage>, weather: string, subcontractors: seq<string>,
                        areas: seq<string>, today: string)
    ensures var d := Layout(images, weather, subcontractors, areas, today);
      var b := BreakIndex(subcontractors, areas);
      && |d| == b + 1 + |images|
      && (forall k :: 0 <= k < |d| ==> (d[k].PageBreak? <==> k == b))
      && (forall k :: 0 <= k < b ==> d[k].Paragraph?)
      && (forall k :: b < k < |d| ==> d[k].Picture?)
      && d[b - 1] == (if areas == [] then Heading(AreasHeading) else Bullet(areas[|areas| - 1]))
  {
  }

  /** Every image is placed exactly once, in list order, centred, after the page break. */
  lemma LayoutPictures(images: seq<NormalizedImage>, weather: string, subcontractors: seq<string>,
                       areas: seq<string>, today: string)
    ensures var d := Layout(images, weather, subcontractors, areas, today);
      && PicturesOf(d) == images
      && forall k :: 0 <= k < |images| ==>
           d[BreakIndex(subcontractors, areas) + 1 + k] == Picture(images[k], true)
  {
    var d := Layout(images, weather, subcontractors, areas, today);
    var b := BreakIndex(subcontractors, areas);
    assert d == d[..b + 1] + Plates(images);
    PicturesOfConcat(d[..b + 1], Plates(images));
    NoPictures(d[..b + 1]);
    PicturesOfPlates(images);
  }

  /** The seven fields come in the fixed order Project, Name, Email, Review
      Date, Report Date, Address, Conditions, each a bold `label: ` run and
      a value run; both dates show `today` and the conditions show the
      weather followed by " °C". */
  lemma LayoutFields(images: seq<NormalizedImage>, weather: string, subcontractors: seq<string>,
                     areas: seq<string>, today: string)
    ensures var d := Layout(images, weather, subcontractors, areas, today);
      && d[0] == TitleParagraph() && d[1] == Blank() && d[9] == Blank()
      && (forall k :: 0 <= k < 7 ==>
            d[2 + k] == Paragraph([Run(Labels[k] + ": ", true), Run(FieldValues(today, weather)[k], false)], Normal, false))
      && d[5].runs[1] == d[6].runs[1] == Run(today, false)
      && d[8].runs[0].text == "Conditions: " && d[8].runs[1].text == weather + " °C"
  {
  }

  /** Each list entry becomes one bullet `"    - " + entry`, in order, under its heading. */
  lemma LayoutLists(images: seq<NormalizedImage>, weather: string, subcontractors: seq<string>,
                    areas: seq<string>, today: string)
    ensures var d := Layout(images, weather, subcontractors, areas, today);
      var s := |subcontractors|;
      && d[10] == Heading(SubcontractorsHeading)
      && (forall k :: 0 <= k < s ==> d[11 + k] == Paragraph([Run(BulletPrefix + subcontractors[k], false)], Normal, false))
      && d[11 + s] == Heading(AreasHeading)
      && (forall k :: 0 <= k < |areas| ==> d[12 + s + k] == Paragraph([Run(BulletPrefix + areas[k], false)], Normal, false))
  {
  }

  /** `d` with `r` appended to the runs of its last paragraph. */
  function WithRunAdded(d: seq<Element>, r: Run): (e: seq<Element>)
    requires d != [] && d[|d| - 1].Paragraph?
    ensures |e| == |d| && e[..|d| - 1] == d[..|d| - 1]
    ensures e[|d| - 1].Paragraph? && e[|d| - 1].runs == d[|d| - 1].runs + [r]
    ensures e[|d| - 1].style == d[|d| - 1].style && e[|d| - 1].centered == d[|d| - 1].centered
  {
    d[..|d| - 1] + [d[|d| - 1].(runs := d[|d| - 1].runs + [r])]
  }

  /** `d` with its last element centred. */
  function LastCentered(d: seq<Element>): (e: seq<Element>)
    requires d != [] && !d[|d| - 1].PageBreak?
    ensures |e| == |d| && e[..|d| - 1] == d[..|d| - 1]
    ensures e[|d| - 1] == d[|d| - 1].(centered := true)
  {
    d[..|d| - 1] + [d[|d| - 1].(centered := true)]
  }

  /** A python-docx document: its body is the list of elements appended so far. */
  class Document {
    var elements: seq<Element>

    constructor ()
      ensures elements == []
    {
      elements := [];
    }

    /** `add_paragraph(text, style)`: a run is added only for non-empty text. */
    method AddParagraph(text: string, style: Style)
      modifies this
      ensures elements == old(elements) + [Paragraph(if text == "" then [] else [Run(text, false)], style, false)]
    {
      elements := elements + [Paragraph(if text == "" then [] else [Run(text, false)], style, false)];
    }

    /** `p.add_run(text)` (and setting `bold`) on the paragraph just added,
        which is always the last element when the report calls it. */
    method AddRun(text: string, bold: bool)
      requires elements != [] && elements[|elements| - 1].Paragraph?
      modifies this
      ensures elements == WithRunAdded(old(elements), Run(text, bold))
    {
      elements := WithRunAdded(elements, Run(text, bold));
    }

    /** `paragraphs[-1].alignment = 1`. */
    method CenterLast()
      requires elements != [] && !elements[|elements| - 1].PageBreak?
      modifies this
      ensures elements == LastCentered(old(elements))
    {
      elements := LastCentered(elements);
    }

    method AddPageBreak()
      modifies this
      ensures elements == old(elements) + [PageBreak]
    {
      elements := elements + [PageBreak];
    }

    /** `add_picture(image, ...)`, before the caller centres it. */
    method AddPicture(image: NormalizedImage)
      modifies this
      ensures elements == old(elements) + [Picture(image, false)]
    {
      elements := elements + [Picture(image, false)];
    }

    /** `add_field(label, value)`: an empty paragraph, then the label run and the value run. */
    method AddField(caption: string, value: string)
      modifies this
      ensures elements == old(elements) + [Field(caption, value)]
    {
      AddParagraph("", Normal);
      assert elements[..|elements| - 1] == old(elements);
      AddRun(caption + ": ", true);
      assert [] + [Run(caption + ": ", true)] == [Run(caption + ": ", true)];
      assert elements == old(elements) + [Paragraph([Run(caption + ": ", true)], Normal, false)];
      assert elements[..|elements| - 1] == old(elements);
      AddRun(value, false);
      assert [Run(caption + ": ", true)] + [Run(value, false)] == [Run(caption + ": ", true), Run(value, false)];
    }

    /** The `for s in subcontractors` / `for a in areas` loops: one bullet per entry. */
    method AddBullets(items: seq<string>)
      modifies this
      ensures elements == old(elements) + Bullets(items)
    {
      for k := 0 to |items|
        invariant elements == old(elements) + Bullets(items[..k])
      {
        AddParagraph(BulletPrefix + items[k], Normal);
        assert Bullets(items[..k + 1]) == Bullets(items[..k]) + [Bullet(items[k])];
      }
      assert items[..|items|] == items;
    }

    /** The picture loop `for i in range(0, len(images), 2)`: the first slot
        always gets `images[i]`, the second gets `images[i + 1]` only when
        `i + 1 < len(images)`. It runs ceil(N/2) times and adds no page break. */
    method PlacePictures(images: seq<NormalizedImage>) returns (ghost steps: nat)
      modifies this
      ensures elements == old(elements) + Plates(images)
      ensures steps == (|images| + 1) / 2
    {
      var i := 0;
      steps := 0;
      while i < |images|
        invariant 0 <= i <= |images| + 1 && i % 2 == 0
        invariant steps == i / 2
        invariant elements == old(elements) + Plates(images)[..if i <= |images| then i else |images|]
      {
        AddPicture(images[i]);
        CenterLast();
        assert Plates(images)[..i + 1] == Plates(images)[..i] + [Picture(images[i], true)];
        if i + 1 < |images| {
          AddPicture(images[i + 1]);
          CenterLast();
          assert Plates(images)[..i + 2] == Plates(images)[..i + 1] + [Picture(images[i + 1], true)];
        }
        i := i + 2;
        steps := steps + 1;
      }
      assert Plates(images)[..|images|] == Plates(images);
    }
  }

  /** `generate_report`: builds the document in the order the source does.
      The clock is read by the caller and passed in as `today`. */
  method GenerateReport(images: seq<NormalizedImage>, weather: string, subcontractors: seq<string>,
                        areas: seq<string>, today: string) returns (doc: Document)
    ensures fresh(doc)
    ensures doc.elements == Layout(images, weather, subcontractors, areas, today)
  {
    doc := new Document();
    doc.AddParagraph("", Normal);
    doc.CenterLast();
    assert doc.elements == [Paragraph([], Normal, true)];
    doc.AddRun(Title, false);
    assert [] + [Run(Title, false)] == [Run(Title, false)];
    assert doc.elements == [TitleParagraph()];
    doc.AddParagraph("", Normal);

    doc.AddField("Project", ProjectName);
    doc.AddField("Name", UserName);
    doc.AddField("Email", Email);
    doc.AddField("Review Date", today);
    doc.AddField("Report Date", today);
    doc.AddField("Address", Address);
    doc.AddField("Conditions", weather + " °C");
    assert doc.elements == [TitleParagraph(), Blank()] + Fields(today, weather);

    doc.AddParagraph("", Normal);
    doc.AddParagraph(SubcontractorsHeading, Heading2);
    doc.AddBullets(subcontractors);
    doc.AddParagraph(AreasHeading, Heading2);
    doc.AddBullets(areas);
    doc.AddPageBreak();
    ghost var steps := doc.PlacePictures(images);
  }
}
