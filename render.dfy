/** `print_images` and `print_line`: the report written to standard output.
    Standard output is a `Stdout` object holding one string per `print`
    call, without the newline `print` adds. */
module Render {
  import opened Ansi
  import opened Text
  import opened Images

  class Stdout {
    var lines: seq<string>

    constructor ()
      ensures lines == []
    {
      lines := [];
    }

    /** One call of Python's `print` with one argument. */
    method Print(s: string)
      modifies this
      ensures lines == old(lines) + [s]
    {
      lines := lines + [s];
    }
  }

  const Header: string := "\nAll docker images"
  const FooterPrefix: string := "\nTotal images:\t"

  /** The footer: the fixed prefix, then the image count in decimal. */
  function Footer(count: nat): string {
    FooterPrefix + NatToString(count)
  }

  /** The footer reads back as the count it was given. */
  lemma FooterCount(count: nat)
    ensures |Footer(count)| > |FooterPrefix| && Footer(count)[..|FooterPrefix|] == FooterPrefix
    ensures DecimalValue(Footer(count)[|FooterPrefix|..]) == count
  {
    assert Footer(count)[|FooterPrefix|..] == NatToString(count);
    DecimalRoundTrip(count);
  }

  /** The default `width` of `print_line`. */
  const LabelWidth: nat := 24

  /** What `print_line` pads: a tab, then the title and a colon in bold. */
  function LabelPrefix(title: string): (p: string)
    ensures |p| == |title| + 10
  {
    "\t" + BOLD + title + ":" + ENDC
  }

  /** `print_line(title, value, width)`: the prefix left-justified to `width`
      (escape characters count; a longer prefix is kept whole), a space,
      then the value. */
  function DetailLine(title: string, value: string, width: nat := LabelWidth): string {
    LeftJustify(LabelPrefix(title), width) + " " + value
  }

  /** The prefix comes first, unchanged; spaces fill it up to `width` (none
      when it is longer) and separate it from the value, which ends the line. */
  lemma DetailLineShape(title: string, value: string, width: nat)
    ensures var p := LabelPrefix(title);
      var w := if |p| < width then width else |p|;
      var r := DetailLine(title, value, width);
      && |r| == w + 1 + |value|
      && r[..|p|] == p
      && (forall i :: |p| <= i <= w ==> r[i] == ' ')
      && r[w + 1..] == value
  {
    var padded := LeftJustify(LabelPrefix(title), width);
    assert (padded + " " + value)[..|padded|] == padded;
  }

  const InUseTag: string := GREEN + "[In Use]" + ENDC
  const UnusedTag: string := RED + "[Not Used]" + ENDC

  /** The value of the State line. */
  function StateValue(inUse: bool): string {
    if inUse then InUseTag else UnusedTag
  }

  /** The State line reads "[In Use]" in green exactly when the image is in
      use, and "[Not Used]" in red exactly when it is not. */
  lemma StateValueIff(inUse: bool)
    ensures StateValue(inUse) == InUseTag <==> inUse
    ensures StateValue(inUse) == UnusedTag <==> !inUse
  {
    assert InUseTag[3] != UnusedTag[3];
  }

  /** What the report needs of each record: a colour always, and the usage
      flag in detail mode. */
  predicate RenderableRecord(img: ImageRecord, slim: bool) {
    img.color.Some? && (!slim ==> img.inUse.Some?)
  }

  predicate Renderable(images: seq<ImageRecord>, slim: bool) {
    forall i :: 0 <= i < |images| ==> RenderableRecord(images[i], slim)
  }

  /** A `repository:tag` heading: the colour, then the name in bold. */
  function HeadingText(color: string, repository: string, tag: string): string {
    color + BOLD + repository + ":" + tag + ENDC
  }

  /** The heading of one image, in the colour it was given. */
  function Heading(img: ImageRecord): string
    requires img.color.Some?
  {
    HeadingText(img.color.value, img.repository, img.tag)
  }

  function LinesPerImage(slim: bool): nat {
    if slim then 2 else 6
  }

  /** The titles of the four labelled lines of detail mode. */
  const IdTitle: string := "Image ID"
  const CreatedTitle: string := "Created"
  const SizeTitle: string := "Size"
  const StateTitle: string := "State"

  /** The four labelled lines of detail mode. */
  function Details(img: ImageRecord): (d: seq<string>)
    requires img.inUse.Some?
    ensures |d| == 4
  {
    [DetailLine(IdTitle, img.id),
     DetailLine(CreatedTitle, img.createdSince),
     DetailLine(SizeTitle, img.size),
     DetailLine(StateTitle, StateValue(img.inUse.value))]
  }

  /** The lines printed for one image. */
  function Block(img: ImageRecord, slim: bool): (b: seq<string>)
    requires RenderableRecord(img, slim)
    ensures |b| == LinesPerImage(slim)
  {
    ["", Heading(img)] + if slim then [] else Details(img)
  }

  lemma AppendAssoc(a: seq<string>, b: seq<string>, c: seq<string>)
    ensures (a + b) + c == a + (b + c)
  {
  }

  /** The lines of a list of blocks, one block after the other. */
  function Concat(blocks: seq<seq<string>>): seq<string> {
    if blocks == [] then [] else Concat(blocks[..|blocks| - 1]) + blocks[|blocks| - 1]
  }

  lemma {:induction false} ConcatLength(blocks: seq<seq<string>>, m: nat)
    requires forall i :: 0 <= i < |blocks| ==> |blocks[i]| == m
    ensures |Concat(blocks)| == |blocks| * m
    decreases |blocks|
  {
    if blocks != [] {
      var init := blocks[..|blocks| - 1];
      ConcatLength(init, m);
      assert |Concat(blocks)| == |Concat(init)| + m;
      assert |blocks| * m == |init| * m + m;
    }
  }

  /** In a concatenation of blocks of m lines each, line j of block k is
      line k * m + j. */
  lemma {:induction false} ConcatLine(blocks: seq<seq<string>>, m: nat, k: nat, j: nat)
    requires forall i :: 0 <= i < |blocks| ==> |blocks[i]| == m
    requires k < |blocks| && j < m
    ensures k * m + m <= |Concat(blocks)|
    ensures Concat(blocks)[k * m + j] == blocks[k][j]
    decreases |blocks|
  {
    var init := blocks[..|blocks| - 1];
    assert Concat(blocks) == Concat(init) + blocks[|blocks| - 1];
    ConcatLength(init, m);
    if k < |init| {
      ConcatLine(init, m, k, j);
    } else {
      assert |Concat(init)| == k * m;
    }
  }

  /** The lines printed for each image, in list order. */
  function BlockList(images: seq<ImageRecord>, slim: bool): seq<seq<string>>
    requires Renderable(images, slim)
  {
    seq(|images|, i requires 0 <= i < |images| => Block(images[i], slim))
  }

  lemma BlockListSnoc(images: seq<ImageRecord>, slim: bool, i: nat)
    requires Renderable(images, slim)
    requires i < |images|
    ensures Blocks(images[..i + 1], slim) == Blocks(images[..i], slim) + Block(images[i], slim)
  {
    var done := BlockList(images[..i], slim);
    var b := Block(images[i], slim);
    var next := BlockList(images[..i + 1], slim);
    assert |next| == |done| + 1;
    forall j | 0 <= j < i ensures next[j] == done[j] {
      assert images[..i + 1][j] == images[..i][j];
    }
    assert next == done + [b];
    assert next[..i] == done;
  }

  /** The lines printed for all images. */
  function Blocks(images: seq<ImageRecord>, slim: bool): seq<string>
    requires Renderable(images, slim)
  {
    Concat(BlockList(images, slim))
  }

  /** The whole report: header, the image blocks, footer. */
  function Report(images: seq<ImageRecord>, slim: bool): seq<string>
    requires Renderable(images, slim)
  {
    [Header] + Blocks(images, slim) + [Footer(|images|)]
  }

  /** With no images the report is the header and the footer
      "Total images:\t0". */
  lemma EmptyReport(slim: bool)
    ensures Report([], slim) == [Header, FooterPrefix + "0"]
  {
    assert NatToString(0) == "0";
  }

  /** The report has 2 lines plus 2 per image in slim mode and 6 per image in
      detail mode; it opens with the header and closes with the footer. */
  lemma ReportShape(images: seq<ImageRecord>, slim: bool)
    requires Renderable(images, slim)
    ensures |Report(images, slim)| == 2 + |images| * LinesPerImage(slim)
    ensures Report(images, slim)[0] == Header
    ensures Report(images, slim)[|Report(images, slim)| - 1] == Footer(|images|)
  {
    ConcatLength(BlockList(images, slim), LinesPerImage(slim));
  }

  /** Where image k's block starts, after the header: 2 lines per image
      before it in slim mode, 6 in detail mode. */
  function BlockStart(slim: bool, k: nat): nat {
    if slim then 2 * k else 6 * k
  }

  /** Line j of image k's block is line BlockStart(slim, k) + j of the
      image blocks. */
  lemma BlocksLine(images: seq<ImageRecord>, slim: bool, k: nat, j: nat)
    requires Renderable(images, slim)
    requires k < |images| && j < LinesPerImage(slim)
    ensures BlockStart(slim, k) + LinesPerImage(slim) <= |Blocks(images, slim)|
    ensures Blocks(images, slim)[BlockStart(slim, k) + j] == Block(images[k], slim)[j]
  {
    if slim {
      ConcatLine(BlockList(images, slim), 2, k, j);
    } else {
      ConcatLine(BlockList(images, slim), 6, k, j);
    }
  }

  /** Line j of image k's block is line 1 + BlockStart(slim, k) + j of the
      report. */
  lemma ReportLine(images: seq<ImageRecord>, slim: bool, k: nat, j: nat)
    requires Renderable(images, slim)
    requires k < |images| && j < LinesPerImage(slim)
    ensures 1 + BlockStart(slim, k) + LinesPerImage(slim) <= |Report(images, slim)|
    ensures Report(images, slim)[1 + BlockStart(slim, k) + j] == Block(images[k], slim)[j]
  {
    BlocksLine(images, slim, k, j);
    var bs := Blocks(images, slim);
    assert Report(images, slim) == [Header] + bs + [Footer(|images|)];
  }

  /** The report lines of image k: a blank line, then its heading. */
  lemma ReportHeadingLines(images: seq<ImageRecord>, slim: bool, k: nat)
    requires Renderable(images, slim)
    requires k < |images|
    ensures var r := Report(images, slim);
      var at := BlockStart(slim, k);
      && 1 + at + LinesPerImage(slim) <= |r|
      && r[1 + at] == ""
      && r[2 + at] == Heading(images[k])
  {
    ReportLine(images, slim, k, 0);
    ReportLine(images, slim, k, 1);
  }

  /** In detail mode image k's heading is followed by its four labelled
      lines. */
  lemma ReportDetailLines(images: seq<ImageRecord>, k: nat)
    requires Renderable(images, false)
    requires k < |images|
    ensures 7 + 6 * k <= |Report(images, false)|
    ensures forall j :: 0 <= j < 4 ==> Report(images, false)[3 + 6 * k + j] == Details(images[k])[j]
  {
    ReportDetailLine(images, k, 0);
    forall j | 0 <= j < 4
      ensures Report(images, false)[3 + 6 * k + j] == Details(images[k])[j]
    {
      ReportDetailLine(images, k, j);
    }
  }

  /** In detail mode line j of image k's details (id, age, size, State) is
      line 3 + 6 * k + j of the report. */
  lemma ReportDetailLine(images: seq<ImageRecord>, k: nat, j: nat)
    requires Renderable(images, false)
    requires k < |images| && j < 4
    ensures 7 + 6 * k <= |Report(images, false)|
    ensures Report(images, false)[3 + 6 * k + j] == Details(images[k])[j]
  {
    ReportLine(images, false, k, 2 + j);
    assert Block(images[k], false)[2 + j] == Details(images[k])[j];
  }

  /** `print_line` with its default width. */
  method PrintLine(out: Stdout, title: string, value: string, width: nat := LabelWidth)
    modifies out
    ensures out.lines == old(out.lines) + [DetailLine(title, value, width)]
  {
    out.Print(LeftJustify(LabelPrefix(title), width) + " " + value);
  }

  /** One pass of the loop of `print_images`: the lines for one image. */
  method PrintImage(out: Stdout, img: ImageRecord, slim: bool)
    requires RenderableRecord(img, slim)
    modifies out
    ensures out.lines == old(out.lines) + Block(img, slim)
  {
    out.Print("");
    out.Print(Heading(img));
    if !slim {
      PrintLine(out, IdTitle, img.id);
      PrintLine(out, CreatedTitle, img.createdSince);
      PrintLine(out, SizeTitle, img.size);
      if img.inUse.value {
        PrintLine(out, StateTitle, InUseTag);
      } else {
        PrintLine(out, StateTitle, UnusedTag);
      }
    }
  }

  /** `print_images`. */
  method PrintImages(out: Stdout, images: seq<ImageRecord>, slim: bool)
    requires Renderable(images, slim)
    modifies out
    ensures out.lines == old(out.lines) + Report(images, slim)
  {
    out.Print(Header);
    ghost var headed := out.lines;
    for i := 0 to |images|
      invariant out.lines == headed + Blocks(images[..i], slim)
    {
      BlockListSnoc(images, slim, i);
      AppendAssoc(headed, Blocks(images[..i], slim), Block(images[i], slim));
      PrintImage(out, images[i], slim);
    }
    assert images[..|images|] == images;
    out.Print(Footer(|images|));
    AppendAssoc(headed, Blocks(images, slim), [Footer(|images|)]);
    AppendAssoc(old(out.lines), [Header], Blocks(images, slim) + [Footer(|images|)]);
    AppendAssoc([Header], Blocks(images, slim), [Footer(|images|)]);
  }
}
