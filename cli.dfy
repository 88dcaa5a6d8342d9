/** `main`: the whole run of one invocation, with the parsed flags as three
    booleans and the engine replaced by its outputs. */
module Cli {
  import opened Ansi
  import opened Text
  import opened Images
  import opened Engine
  import opened Annotate
  import opened Render

  /** The flags `-a/--all`, `-s/--slim` and `-v/--version`. */
  datatype Flags = Flags(all: bool, slim: bool, version: bool)

  datatype Outcome = Completed | Failed(error: Error)

  /** The one line printed for `--version`. */
  const VersionLine: string := BOLD + ProgramName + " v" + Version + ENDC

  /** The records after both annotation loops: colour by position, usage by
      the output of `docker ps -a --filter ancestor=<id>`, which `containers`
      gives for each id. */
  function Annotated(images: seq<ImageRecord>, containers: string -> string): (r: seq<ImageRecord>)
    ensures Renderable(r, false) && Renderable(r, true)
  {
    seq(|images|, i requires 0 <= i < |images| =>
      Marked(images[i].(color := Some(Palette[i % |Palette|])), containers))
  }

  /** The ids of a list of images, in order. */
  function Ids(images: seq<ImageRecord>): seq<string> {
    seq(|images|, i requires 0 <= i < |images| => images[i].id)
  }

  /** One usage query per id, in order. */
  function ContainerQueries(ids: seq<string>): seq<Query> {
    seq(|ids|, i requires 0 <= i < |ids| => ListContainers(ids[i]))
  }

  /** What `main` prints once it has the listing: the report over the
      survivors of the dangling filter, annotated. */
  function ListedReport(flags: Flags, listed: seq<ImageRecord>, containers: string -> string): seq<string> {
    Report(Annotated(Survivors(listed, flags.all), containers), flags.slim)
  }

  /** The lines `main` prints, given the flags, what `get_docker_images`
      returned (it is asked only without `--version`) and the outputs of
      `docker ps`. */
  function Printed(flags: Flags, parsed: Result<seq<ImageRecord>>, containers: string -> string): seq<string> {
    if flags.version then [VersionLine]
    else
      match parsed
      case Err(_) => []
      case Ok(listed) => ListedReport(flags, listed, containers)
  }

  /** The engine queries `main` makes, in order. */
  function Queries(flags: Flags, parsed: Result<seq<ImageRecord>>): seq<Query> {
    if flags.version then []
    else
      match parsed
      case Err(_) => [ListImages]
      case Ok(listed) => [ListImages] + ContainerQueries(Ids(Survivors(listed, flags.all)))
  }

  /** How `main` ends. */
  function Ending(flags: Flags, parsed: Result<seq<ImageRecord>>): Outcome {
    if flags.version then Completed
    else
      match parsed
      case Err(e) => Failed(e)
      case Ok(_) => Completed
  }

  /** `main`: version short-circuit, listing, then the report. */
  method Run(out: Stdout, flags: Flags, listing: string, decode: string -> Option<ImageRecord>,
             containers: string -> string)
    returns (queries: seq<Query>, outcome: Outcome)
    modifies out
    ensures out.lines == old(out.lines) + Printed(flags, ParseImages(listing, decode), containers)
    ensures queries == Queries(flags, ParseImages(listing, decode))
    ensures outcome == Ending(flags, ParseImages(listing, decode))
  {
    if flags.version {
      out.Print(VersionLine);
      return [], Completed;
    }
    var parsed := ParseImages(listing, decode);
    if parsed.Err? {
      return [ListImages], Failed(parsed.error);
    }
    var usage := ShowImages(out, flags, parsed.value, containers);
    queries := [ListImages] + usage;
    outcome := Completed;
  }

  /** The part of `main` after the listing: the dangling filter, the two
      annotation loops and `print_images`; `usage` is the `docker ps`
      queries made. */
  method ShowImages(out: Stdout, flags: Flags, listed: seq<ImageRecord>, containers: string -> string)
    returns (usage: seq<Query>)
    modifies out
    ensures out.lines == old(out.lines) + ListedReport(flags, listed, containers)
    ensures usage == ContainerQueries(Ids(Survivors(listed, flags.all)))
  {
    var images := listed;
    if !flags.all {
      images := Tagged(images);
    }
    assert images == Survivors(listed, flags.all);
    var annotated, ids := AnnotateAll(images, containers);
    usage := ContainerQueries(ids);
    PrintImages(out, annotated, flags.slim);
  }

  /** The two annotation loops of `main` run over the surviving list, held
      in an array: the annotated records, and the ids whose usage was asked. */
  method AnnotateAll(images: seq<ImageRecord>, containers: string -> string)
    returns (annotated: seq<ImageRecord>, queried: seq<string>)
    ensures annotated == Annotated(images, containers)
    ensures queried == Ids(images)
  {
    var a := new ImageRecord[|images|](i requires 0 <= i < |images| => images[i]);
    ApplyColors(a);
    ghost var colored := a[..];
    queried := MarkUsage(a, containers);
    annotated := a[..];
    AnnotationLoops(images, colored, annotated, containers);
  }

  /** What the two annotation loops of `main` leave behind is `Annotated`. */
  lemma AnnotationLoops(images: seq<ImageRecord>, colored: seq<ImageRecord>, annotated: seq<ImageRecord>,
                        containers: string -> string)
    requires |colored| == |images| && |annotated| == |images|
    requires forall i :: 0 <= i < |images| ==> colored[i] == images[i].(color := Some(Palette[i % |Palette|]))
    requires forall i :: 0 <= i < |images| ==> annotated[i] == Marked(colored[i], containers)
    ensures annotated == Annotated(images, containers)
  {
  }

  /** Without `--version`, a listing that decodes is printed as the report
      over its annotated survivors. */
  lemma PrintedListing(flags: Flags, listed: seq<ImageRecord>, containers: string -> string)
    requires !flags.version
    ensures Printed(flags, Ok(listed), containers)
            == Report(Annotated(Survivors(listed, flags.all), containers), flags.slim)
  {
  }

  /** `--version` prints exactly one line and asks the engine nothing,
      whatever the engine would have answered. */
  lemma VersionShortCircuit(flags: Flags, parsed: Result<seq<ImageRecord>>, containers: string -> string)
    requires flags.version
    ensures Printed(flags, parsed, containers) == [VersionLine]
    ensures Queries(flags, parsed) == []
    ensures Ending(flags, parsed) == Completed
  {
  }

  /** A listing line that does not decode stops the run after the listing
      query, before any usage query and before anything is printed. */
  lemma MalformedListingAborts(flags: Flags, listing: string, decode: string -> Option<ImageRecord>,
                               containers: string -> string, i: nat)
    requires !flags.version
    requires i < |ListingLines(listing)| && decode(ListingLines(listing)[i]).None?
    ensures Printed(flags, ParseImages(listing, decode), containers) == []
    ensures Queries(flags, ParseImages(listing, decode)) == [ListImages]
    ensures Ending(flags, ParseImages(listing, decode)) == Failed(MalformedOutput)
  {
  }

  /** After the listing query, the engine is asked about each surviving image
      exactly once, in list order. */
  lemma OneUsageQueryPerImage(flags: Flags, listed: seq<ImageRecord>)
    requires !flags.version
    ensures var q := Queries(flags, Ok(listed));
      var images := Survivors(listed, flags.all);
      && |q| == 1 + |images|
      && q[0] == ListImages
      && (forall i :: 0 <= i < |images| ==> q[1 + i] == ListContainers(images[i].id))
  {
    var images := Survivors(listed, flags.all);
    var usage := ContainerQueries(Ids(images));
    assert Queries(flags, Ok(listed)) == [ListImages] + usage;
    assert forall i :: 0 <= i < |images| ==> usage[i] == ListContainers(images[i].id);
  }

  /** The report has the header, 2 lines per image in slim mode or 6 in detail
      mode, and the footer with the number of surviving images. */
  lemma ReportLineCount(flags: Flags, listed: seq<ImageRecord>, containers: string -> string)
    requires !flags.version
    ensures var lines := Printed(flags, Ok(listed), containers);
      var n := |Survivors(listed, flags.all)|;
      && |lines| == 2 + n * (if flags.slim then 2 else 6)
      && lines[0] == Header
      && lines[|lines| - 1] == FooterPrefix + NatToString(n)
  {
    var images := Survivors(listed, flags.all);
    ReportShape(Annotated(images, containers), flags.slim);
    PrintedListing(flags, listed, containers);
  }

  /** Record k after annotation: image k with colour `Palette[k % 6]` and
      the `docker ps` answer for its id. */
  lemma AnnotatedAt(images: seq<ImageRecord>, containers: string -> string, k: nat)
    requires k < |images|
    ensures |Annotated(images, containers)| == |images|
    ensures Annotated(images, containers)[k]
            == images[k].(color := Some(Palette[k % |Palette|]), inUse := Some(IsImageInUse(containers(images[k].id))))
  {
  }

  /** Image k's block (a blank line, then its heading) shows its
      `repository:tag` in colour `Palette[k % 6]`. */
  lemma ImageHeading(flags: Flags, listed: seq<ImageRecord>, containers: string -> string, k: nat)
    requires !flags.version
    requires k < |Survivors(listed, flags.all)|
    ensures 1 + BlockStart(flags.slim, k) + LinesPerImage(flags.slim) <= |Printed(flags, Ok(listed), containers)|
    ensures var img := Survivors(listed, flags.all)[k];
      Printed(flags, Ok(listed), containers)[2 + BlockStart(flags.slim, k)]
      == HeadingText(Palette[k % |Palette|], img.repository, img.tag)
  {
    var images := Survivors(listed, flags.all);
    var annotated := Annotated(images, containers);
    ReportHeadingLines(annotated, flags.slim, k);
    AnnotatedAt(images, containers, k);
    PrintedListing(flags, listed, containers);
  }

  /** In detail mode the heading of image k is followed by its id, age and
      size, and by a State line that reads "[In Use]" exactly when
      `docker ps` listed a container for it. */
  lemma ImageDetails(flags: Flags, listed: seq<ImageRecord>, containers: string -> string, k: nat)
    requires !flags.version && !flags.slim
    requires k < |Survivors(listed, flags.all)|
    ensures var lines := Printed(flags, Ok(listed), containers);
      var img := Survivors(listed, flags.all)[k];
      && 7 + 6 * k <= |lines|
      && lines[3 + 6 * k] == DetailLine(IdTitle, img.id)
      && lines[4 + 6 * k] == DetailLine(CreatedTitle, img.createdSince)
      && lines[5 + 6 * k] == DetailLine(SizeTitle, img.size)
      && lines[6 + 6 * k] == DetailLine(StateTitle, StateValue(IsImageInUse(containers(img.id))))
  {
    var images := Survivors(listed, flags.all);
    var annotated := Annotated(images, containers);
    ReportDetailLines(annotated, k);
    AnnotatedAt(images, containers, k);
    PrintedListing(flags, listed, containers);
    var d := Details(annotated[k]);
    assert d[0] == DetailLine(IdTitle, images[k].id);
    assert d[1] == DetailLine(CreatedTitle, images[k].createdSince);
    assert d[2] == DetailLine(SizeTitle, images[k].size);
    assert d[3] == DetailLine(StateTitle, StateValue(IsImageInUse(containers(images[k].id))));
  }
}
