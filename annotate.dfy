/** The two loops of `main` that annotate the surviving images in place:
    `apply_colors_to_images` and the usage loop. The list they update is an
    array of records; each slot is overwritten with its annotated record. */
module Annotate {
  import opened Ansi
  import opened Images
  import opened Engine

  /** `apply_colors_to_images`: the record at index i gets colour
      `Palette[i % 6]`; nothing else in any record changes. */
  method ApplyColors(images: array<ImageRecord>)
    modifies images
    ensures forall i :: 0 <= i < images.Length ==>
              images[i] == old(images[i]).(color := Some(Palette[i % |Palette|]))
  {
    for i := 0 to images.Length
      invariant forall k :: 0 <= k < i ==> images[k] == old(images[k]).(color := Some(Palette[k % |Palette|]))
      invariant forall k :: i <= k < images.Length ==> images[k] == old(images[k])
    {
      images[i] := images[i].(color := Some(Palette[i % |Palette|]));
    }
  }

  /** A record with `inUse` set to what `is_image_in_use` makes of the
      `docker ps` output for its id; `containers` gives that output. */
  function Marked(img: ImageRecord, containers: string -> string): ImageRecord {
    img.(inUse := Some(IsImageInUse(containers(img.id))))
  }

  /** The usage loop: calls `is_image_in_use` once per image, in list order,
      and records its answer in `inUse`; `queried` lists the ids whose
      containers it asked for. */
  method MarkUsage(images: array<ImageRecord>, containers: string -> string) returns (queried: seq<string>)
    modifies images
    ensures |queried| == images.Length
    ensures forall i :: 0 <= i < images.Length ==> queried[i] == old(images[i]).id
    ensures forall i :: 0 <= i < images.Length ==>
              images[i] == Marked(old(images[i]), containers)
  {
    queried := [];
    for i := 0 to images.Length
      invariant |queried| == i
      invariant forall k :: 0 <= k < i ==> queried[k] == old(images[k]).id
      invariant forall k :: 0 <= k < i ==>
                  images[k] == Marked(old(images[k]), containers)
      invariant forall k :: i <= k < images.Length ==> images[k] == old(images[k])
    {
      var id := images[i].id;
      queried := queried + [id];
      images[i] := Marked(images[i], containers);
    }
  }
}
