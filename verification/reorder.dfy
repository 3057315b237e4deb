/** `BaseAiCOCOImageInferenceModel._update_images`: re-ordering the image
    list after the data reader reports the order in which it used the files. */
module Reorder {
  import opened Outcomes
  import opened Images
  import opened Seqs

  /** `files.index(name)`: the position of the first occurrence, if any. */
  function IndexOf(files: seq<string>, name: string): (r: Option<nat>)
    ensures r.Some? ==> r.value < |files| && files[r.value] == name
    ensures r.Some? ==> forall j :: 0 <= j < r.value ==> files[j] != name
    ensures r.None? <==> name !in files
  {
    FirstWhere(files, f => f == name)
  }

  /** The loop building `updated_indices`: one `files.index` per name, in
      order, failing at the first name that is not a file. */
  function Indices(files: seq<string>, names: seq<string>): (r: Result<seq<nat>>)
    ensures r.Ok? <==> forall k :: 0 <= k < |names| ==> names[k] in files
    ensures r.Ok? ==> |r.value| == |names|
    ensures r.Ok? ==> forall k :: 0 <= k < |names| ==> IndexOf(files, names[k]) == Some(r.value[k])
    ensures r.Err? ==> r.error.NameNotInFiles? && r.error.name in names && r.error.name !in files
    // the failure is at the first name, in report order, that is not a file
    ensures r.Err? ==>
              exists j :: 0 <= j < |names| && names[j] == r.error.name
                && (forall i :: 0 <= i < j ==> names[i] in files)
  {
    if |names| == 0 then Ok([])
    else match IndexOf(files, names[0])
      case None => Err(NameNotInFiles(names[0]))
      case Some(i) =>
        match Indices(files, names[1..])
        case Err(e) =>
          assert forall k :: 1 <= k < |names| ==> names[k] == names[1..][k - 1];
          Err(e)
        case Ok(rest) => Ok([i] + rest)
  }

  /** `[images[i] for i in indices]`, raising `IndexError` at the first
      index past the end of `images`. */
  function Gather(images: seq<Image>, indices: seq<nat>): (r: Result<seq<Image>>)
    ensures r.Ok? <==> forall k :: 0 <= k < |indices| ==> indices[k] < |images|
    ensures r.Ok? ==> |r.value| == |indices|
    ensures r.Ok? ==> forall k :: 0 <= k < |indices| ==> r.value[k] == images[indices[k]]
    ensures r.Err? ==>
              r.error.ImageIndexOutOfRange? && r.error.index in indices
              && r.error.images == |images| <= r.error.index
  {
    if |indices| == 0 then Ok([])
    else if indices[0] >= |images| then Err(ImageIndexOutOfRange(indices[0], |images|))
    else match Gather(images, indices[1..])
      case Err(e) => Err(e)
      case Ok(rest) => Ok([images[indices[0]]] + rest)
  }

  /** `_update_images(files, modified_filenames)` applied to `images`;
      `None` for `modified_filenames` is `None` here. */
  function UpdateImages(images: seq<Image>, files: seq<string>, modified: Option<seq<string>>): (r: Result<seq<Image>>)
    // the second length check can never fire: the errors are the count
    // check, the lookup and the gather
    ensures r.Err? ==> r.error.ReorderCountMismatch? || r.error.NameNotInFiles? || r.error.ImageIndexOutOfRange?
  {
    if modified.None? || |files| == 0 then Ok(images)
    else if |images| != |modified.value| then
      Err(ReorderCountMismatch(|images|, |modified.value|))
    else
      var indices :- Indices(files, modified.value);
      if |images| != |indices| then Err(ReorderIndexMismatch)
      else Gather(images, indices)
  }

  /** With no reported order, or no files, the records stay as they are. */
  lemma NoReportKeepsOrder(images: seq<Image>, files: seq<string>, modified: Option<seq<string>>)
    requires modified.None? || |files| == 0
    ensures UpdateImages(images, files, modified) == Ok(images)
  {
  }

  /** The count check comes first: a report whose length differs from the
      number of records is refused before any name is looked up. */
  lemma CountMismatchRefused(images: seq<Image>, files: seq<string>, names: seq<string>)
    requires |files| > 0 && |images| != |names|
    ensures UpdateImages(images, files, Some(names)) == Err(ReorderCountMismatch(|images|, |names|))
  {
  }

  /** With matching counts, a reported name that is not a file is refused by
      the lookup, naming the first reported name that is missing from the
      files. */
  lemma UnknownNameRefused(images: seq<Image>, files: seq<string>, names: seq<string>)
    requires |files| > 0 && |images| == |names|
    requires exists k :: 0 <= k < |names| && names[k] !in files
    ensures UpdateImages(images, files, Some(names)).Err?
    ensures var e := UpdateImages(images, files, Some(names)).error;
            && e.NameNotInFiles? && e.name !in files
            && exists j :: 0 <= j < |names| && names[j] == e.name
                 && (forall i :: 0 <= i < j ==> names[i] in files)
  {
  }

  /** A report succeeds exactly when the counts agree and every name is a
      file at a position that has a record; entry k of the result is then
      the record at the position of the k-th name in `files`. */
  lemma ReorderGathers(images: seq<Image>, files: seq<string>, names: seq<string>)
    requires |files| > 0
    ensures UpdateImages(images, files, Some(names)).Ok? <==>
              && |images| == |names|
              && forall k :: 0 <= k < |names| ==>
                   IndexOf(files, names[k]).Some? && IndexOf(files, names[k]).value < |images|
    ensures UpdateImages(images, files, Some(names)).Ok? ==>
              var r := UpdateImages(images, files, Some(names)).value;
              && |r| == |images|
              && forall k :: 0 <= k < |names| ==>
                   IndexOf(files, names[k]).Some?
                   && IndexOf(files, names[k]).value < |images|
                   && r[k] == images[IndexOf(files, names[k]).value]
  {
  }

  /** With distinct file names, the k-th reordered record is the record
      that stood at the position of the k-th reported name in `files`: the
      records move exactly as their files moved. */
  lemma ReorderFollowsFiles(images: seq<Image>, files: seq<string>, names: seq<string>)
    requires Distinct(files)
    requires |images| == |files| == |names| > 0
    requires forall k :: 0 <= k < |names| ==> names[k] in files
    ensures UpdateImages(images, files, Some(names)).Ok?
    ensures |UpdateImages(images, files, Some(names)).value| == |images|
    ensures forall k, j :: 0 <= k < |names| && 0 <= j < |files| && files[j] == names[k] ==>
              UpdateImages(images, files, Some(names)).value[k] == images[j]
  {
    ReorderGathers(images, files, names);
  }

  /** Reordering by a permutation `names` of distinct `files` and then
      reordering back, with the roles of the two lists swapped, restores the
      original order. */
  lemma {:induction false} ReorderRoundTrip(images: seq<Image>, files: seq<string>, names: seq<string>)
    requires Distinct(files) && Distinct(names)
    requires |images| == |files| == |names| > 0
    requires forall x :: x in names <==> x in files
    ensures UpdateImages(images, files, Some(names)).Ok?
    ensures UpdateImages(UpdateImages(images, files, Some(names)).value, names, Some(files)) == Ok(images)
  {
    ReorderFollowsFiles(images, files, names);
    var there := UpdateImages(images, files, Some(names)).value;
    assert forall j :: 0 <= j < |files| ==> files[j] in names;
    ReorderFollowsFiles(there, names, files);
    var back := UpdateImages(there, names, Some(files)).value;
    forall j | 0 <= j < |files|
      ensures back[j] == images[j]
    {
      var k :| 0 <= k < |names| && names[k] == files[j];
      assert back[j] == there[k];
      assert there[k] == images[j];
    }
    assert back == images;
  }

  /** When there are no more files than records, every position `files.index`
      returns is a valid record position, so the gather never raises
      `IndexError`. */
  lemma InRangeWhenFilesFit(images: seq<Image>, files: seq<string>, modified: Option<seq<string>>)
    requires |files| <= |images|
    ensures !(UpdateImages(images, files, modified).Err? && UpdateImages(images, files, modified).error.ImageIndexOutOfRange?)
  {
    if modified.Some? && |files| > 0 && |images| == |modified.value| {
      var names := modified.value;
      if forall k :: 0 <= k < |names| ==> names[k] in files {
        assert forall k :: 0 <= k < |names| ==> IndexOf(files, names[k]).Some? && IndexOf(files, names[k]).value < |images|;
      }
    }
  }
}
