/** One row of `docker images`, and the dangling-image filter that `main`
    applies unless `--all` is given. */
module Images {

  datatype Option<T> = None | Some(value: T)

  /** An image record. The five engine fields come from the listing;
      `color` and `inUse` are absent until the pipeline annotates the record. */
  datatype ImageRecord = ImageRecord(
    repository: string,
    tag: string,
    id: string,
    createdSince: string,
    size: string,
    color: Option<string>,
    inUse: Option<bool>)

  /** The engine's placeholder for a missing repository or tag. */
  const NoneMarker: string := "<none>"

  /** Kept by the filter: neither the repository nor the tag is "<none>". */
  predicate IsTagged(img: ImageRecord) {
    img.repository != NoneMarker && img.tag != NoneMarker
  }

  /** The list comprehension of `main` that drops dangling images. */
  function Tagged(images: seq<ImageRecord>): (r: seq<ImageRecord>)
    ensures |r| <= |images|
  {
    if images == [] then []
    else (if IsTagged(images[0]) then [images[0]] else []) + Tagged(images[1..])
  }

  /** The filter keeps each tagged record as often as it occurs and drops
      every record with "<none>" as repository or tag. */
  lemma {:induction false} TaggedCount(images: seq<ImageRecord>)
    ensures forall x :: multiset(Tagged(images))[x] == if IsTagged(x) then multiset(images)[x] else 0
    decreases |images|
  {
    if images != [] {
      assert images == [images[0]] + images[1..];
      TaggedCount(images[1..]);
    }
  }

  lemma TaggedMembers(images: seq<ImageRecord>)
    ensures forall x :: x in Tagged(images) <==> x in images && x.repository != NoneMarker && x.tag != NoneMarker
  {
    TaggedCount(images);
    forall x ensures x in Tagged(images) <==> x in images && IsTagged(x) {
      assert x in Tagged(images) <==> multiset(Tagged(images))[x] > 0;
      assert x in images <==> multiset(images)[x] > 0;
    }
  }

  /** The filter works element by element and keeps relative order: it
      distributes over concatenation. */
  lemma {:induction false} TaggedAppend(a: seq<ImageRecord>, b: seq<ImageRecord>)
    ensures Tagged(a + b) == Tagged(a) + Tagged(b)
    decreases |a|
  {
    if a != [] {
      assert (a + b)[0] == a[0];
      assert (a + b)[1..] == a[1..] + b;
      assert Tagged(a + b) == (if IsTagged(a[0]) then [a[0]] else []) + Tagged(a[1..] + b);
      assert Tagged(a) == (if IsTagged(a[0]) then [a[0]] else []) + Tagged(a[1..]);
      TaggedAppend(a[1..], b);
    } else {
      assert a + b == b;
    }
  }

  lemma TaggedSingleton(x: ImageRecord)
    ensures Tagged([x]) == if IsTagged(x) then [x] else []
  {
    assert [x][1..] == [];
  }

  /** The images `main` goes on with: the whole listing with `--all`,
      otherwise only the tagged ones. */
  function Survivors(listed: seq<ImageRecord>, all: bool): seq<ImageRecord> {
    if all then listed else Tagged(listed)
  }

  /** With `--all` the listing passes unchanged. Without it every survivor
      has a real repository and tag, and every record left out had "<none>"
      as its repository or its tag. */
  lemma SurvivorsSpec(listed: seq<ImageRecord>, all: bool)
    ensures all ==> Survivors(listed, all) == listed
    ensures !all ==> forall i :: 0 <= i < |Survivors(listed, all)| ==>
              Survivors(listed, all)[i].repository != NoneMarker && Survivors(listed, all)[i].tag != NoneMarker
    ensures !all ==> forall i :: 0 <= i < |listed| && listed[i] !in Survivors(listed, all) ==>
              listed[i].repository == NoneMarker || listed[i].tag == NoneMarker
  {
    TaggedMembers(listed);
  }
}
