/** What the program makes of the two `docker` commands it runs. The
    commands themselves are not modelled: their standard output is an input,
    and so is the JSON decoding of one listing line. */
module Engine {
  import opened Text
  import opened Images

  /** The queries the program puts to the engine, in the order it makes them. */
  datatype Query =
    | ListImages                       // docker images --format '{{json .}}'
    | ListContainers(ancestor: string) // docker ps -a --filter ancestor=<id> --format '{{.ID}}'

  datatype Error = MalformedOutput

  datatype Result<T> = Ok(value: T) | Err(error: Error)

  /** The lines of the listing: standard output stripped, then split. */
  function ListingLines(stdout: string): (lines: seq<string>)
    ensures lines == [] <==> AllSpace(stdout)
    ensures forall i :: 0 <= i < |lines| ==> NoLineBreak(lines[i])
  {
    StripEmptyIff(stdout);
    SplitLines(Strip(stdout))
  }

  /** Decodes every line; one line that does not decode spoils the whole
      listing. */
  function DecodeAll(lines: seq<string>, decode: string -> Option<ImageRecord>): (r: Result<seq<ImageRecord>>)
    ensures r.Ok? <==> forall i :: 0 <= i < |lines| ==> decode(lines[i]).Some?
    ensures r.Ok? ==> |r.value| == |lines|
    ensures r.Ok? ==> forall i :: 0 <= i < |lines| ==> r.value[i] == decode(lines[i]).value
  {
    if lines == [] then Ok([])
    else
      match decode(lines[0])
      case None => Err(MalformedOutput)
      case Some(img) =>
        match DecodeAll(lines[1..], decode)
        case Err(e) => Err(e)
        case Ok(rest) =>
          assert forall i :: 1 <= i < |lines| ==> lines[i] == lines[1..][i - 1];
          Ok([img] + rest)
  }

  /** `get_docker_images` once the engine's standard output is known. */
  function ParseImages(stdout: string, decode: string -> Option<ImageRecord>): Result<seq<ImageRecord>> {
    DecodeAll(ListingLines(stdout), decode)
  }

  /** An empty (or all-whitespace) listing is zero images, not an error. */
  lemma EmptyListing(stdout: string, decode: string -> Option<ImageRecord>)
    requires AllSpace(stdout)
    ensures ParseImages(stdout, decode) == Ok([])
  {
  }

  /** Output in the form the image listing prints, one JSON object per line
      (`{` first, `}` last), each line ending in "\n": the listing's lines are
      exactly those lines, and `get_docker_images` gives one record per
      line, in order, or fails when some line does not decode. */
  lemma RecordPerLine(lines: seq<string>, decode: string -> Option<ImageRecord>)
    requires forall i :: 0 <= i < |lines| ==> NoLineBreak(lines[i])
    requires lines != [] ==> lines[0] != [] && !IsSpace(lines[0][0])
    requires lines != [] ==> lines[|lines| - 1] != [] && !IsSpace(lines[|lines| - 1][|lines[|lines| - 1]| - 1])
    ensures ListingLines(Terminated(lines)) == lines
    ensures var r := ParseImages(Terminated(lines), decode);
      && (r.Ok? <==> forall i :: 0 <= i < |lines| ==> decode(lines[i]).Some?)
      && (r.Ok? ==> |r.value| == |lines| && forall i :: 0 <= i < |lines| ==> r.value[i] == decode(lines[i]).value)
  {
    StripSplitTerminated(lines);
  }

  /** `is_image_in_use` once the output of `docker ps` is known. */
  function IsImageInUse(stdout: string): bool {
    Strip(stdout) != []
  }

  /** An image is in use exactly when the output of `docker ps` holds a
      non-whitespace character, that is, names at least one container. */
  lemma InUseIff(stdout: string)
    ensures IsImageInUse(stdout) <==> !AllSpace(stdout)
  {
    StripEmptyIff(stdout);
  }
}
