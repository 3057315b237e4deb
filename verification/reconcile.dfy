/** `BaseAiCOCOImageInferenceModel._set_images`: reconciling the input files
    with the given `AiImage` records into the image list of one call. */
module Reconcile {
  import opened Outcomes
  import opened Images
  import opened Seqs
  import Text

  /** `format_image["file_name"].replace("/", "_") in file`: the name, with
      every slash made an underscore, occurs somewhere in the file. */
  predicate Matches(image: Image, file: string)
    ensures Matches(image, file) <==> Text.IsSubstring(Text.ReplaceSlash(image.fileName), file)
  {
    Text.ContainsIsSubstring(file, Text.ReplaceSlash(image.fileName));
    Text.Contains(file, Text.ReplaceSlash(image.fileName))
  }

  /** What `next(...)` over the matching records yields for one file: the
      position of the first record whose normalised name occurs in the file. */
  function FirstMatch(images: seq<Image>, file: string): (r: Option<nat>)
    ensures r.Some? ==> r.value < |images| && Matches(images[r.value], file)
    ensures r.Some? ==> forall j :: 0 <= j < r.value ==> !Matches(images[j], file)
    ensures r.None? <==> forall j :: 0 <= j < |images| ==> !Matches(images[j], file)
  {
    FirstWhere(images, image => Matches(image, file))
  }

  /** The equal-count branch: for each file in turn, the first matching
      record, failing at the first file that nothing matches. */
  function MatchAll(files: seq<string>, images: seq<Image>): (r: Result<seq<Image>>)
    ensures r.Ok? ==> |r.value| == |files|
    ensures r.Err? ==> r.error.FileNotMatched? && r.error.file in files
    // the failure is at the first file, in `files` order, that nothing matches
    ensures r.Err? ==>
              exists j :: 0 <= j < |files| && files[j] == r.error.file
                && FirstMatch(images, files[j]).None?
                && forall i :: 0 <= i < j ==> FirstMatch(images, files[i]).Some?
  {
    if |files| == 0 then Ok([])
    else match FirstMatch(images, files[0])
      case None => Err(FileNotMatched(files[0]))
      case Some(i) =>
        match MatchAll(files[1..], images)
        case Err(e) =>
          assert forall k :: 1 <= k < |files| ==> files[k] == files[1..][k - 1];
          Err(e)
        case Ok(rest) => Ok([images[i]] + rest)
  }

  /** The loop succeeds exactly when every file has a match; entry k is then
      the first record matching file k; a failure names the first file, in
      `files` order, that no record matches. */
  lemma {:induction false} MatchAllFindsFirstMatches(files: seq<string>, images: seq<Image>)
    ensures MatchAll(files, images).Ok? <==> forall k :: 0 <= k < |files| ==> FirstMatch(images, files[k]).Some?
    ensures MatchAll(files, images).Ok? ==>
              forall k :: 0 <= k < |files| ==>
                FirstMatch(images, files[k]).Some?
                && MatchAll(files, images).value[k] == images[FirstMatch(images, files[k]).value]
    ensures MatchAll(files, images).Err? ==>
              exists j :: 0 <= j < |files| && files[j] == MatchAll(files, images).error.file
                && FirstMatch(images, files[j]).None?
                && forall i :: 0 <= i < j ==> FirstMatch(images, files[i]).Some?
  {
    if |files| > 0 {
      var tail := files[1..];
      MatchAllFindsFirstMatches(tail, images);
      assert forall k :: 1 <= k < |files| ==> files[k] == tail[k - 1];
      match FirstMatch(images, files[0])
      case None =>
      case Some(i) =>
        match MatchAll(tail, images)
        case Err(e) =>
        case Ok(rest) =>
          var r := MatchAll(files, images).value;
          assert r == [images[i]] + rest;
          forall k | 0 <= k < |files|
            ensures r[k] == images[FirstMatch(images, files[k]).value]
          {
            if k > 0 {
              assert r[k] == rest[k - 1];
            }
          }
    }
  }

  /** The files-only branch: one fresh record per file, in file order;
      `freshId(k)` is the id `generate()` returns on its k-th call. */
  function SynthesiseAll(files: seq<string>, freshId: nat -> string): (r: seq<Image>)
    ensures |r| == |files|
  {
    seq(|files|, k requires 0 <= k < |files| => Synthesised(freshId(k), files[k]))
  }

  /** The image list `_set_images` leaves in `self.images`, and whether it
      issued the "not specified" warning. */
  datatype Resolved = Resolved(images: seq<Image>, warned: bool)

  /** `_set_images(files, images)`. An absent argument is the empty sequence:
      the method only tests truthiness, for which `None` and `[]` agree. */
  function SetImages(files: seq<string>, images: seq<Image>, freshId: nat -> string): (r: Result<Resolved>)
    // the only errors are those of the matching branches
    ensures r.Err? ==> r.error.FileNotMatched? || r.error.UnsupportedCounts?
    ensures r.Err? ==> ClassOf(r.error) == BareException || ClassOf(r.error) == ValueError
  {
    if |files| > 0 && |images| > 0 then
      if |files| == |images| then
        match MatchAll(files, images)
        case Ok(matched) => Ok(Resolved(matched, false))
        case Err(e) => Err(e)
      else if |files| == 1 && |images| > 1 then
        Ok(Resolved(images, false))
      else
        Err(UnsupportedCounts(|files|, |images|))
    else if |files| > 0 then
      Ok(Resolved(SynthesiseAll(files, freshId), false))
    else if |images| > 0 then
      Ok(Resolved(images, false))
    else
      Ok(Resolved([], true))
  }

  /** Both given with the same count: the call succeeds exactly when every
      file has a match; entry k is then the first record matching file k, so
      the result follows `files`; otherwise it fails on the first file that
      nothing matches. */
  lemma EqualCountsMatchInFilesOrder(files: seq<string>, images: seq<Image>, freshId: nat -> string)
    requires 0 < |files| == |images|
    ensures SetImages(files, images, freshId).Ok? <==>
              forall k :: 0 <= k < |files| ==> FirstMatch(images, files[k]).Some?
    ensures SetImages(files, images, freshId).Ok? ==>
              var r := SetImages(files, images, freshId).value;
              && !r.warned
              && |r.images| == |files|
              && forall k :: 0 <= k < |files| ==>
                   FirstMatch(images, files[k]).Some?
                   && r.images[k] == images[FirstMatch(images, files[k]).value]
    ensures SetImages(files, images, freshId).Err? ==>
              var e := SetImages(files, images, freshId).error;
              && e.FileNotMatched?
              && exists j :: 0 <= j < |files| && files[j] == e.file
                   && FirstMatch(images, files[j]).None?
                   && forall i :: 0 <= i < j ==> FirstMatch(images, files[i]).Some?
  {
    MatchAllFindsFirstMatches(files, images);
  }

  /** One file standing for several records: the records pass through. */
  lemma OneFileManyRecordsPassThrough(files: seq<string>, images: seq<Image>, freshId: nat -> string)
    requires |files| == 1 && |images| > 1
    ensures SetImages(files, images, freshId) == Ok(Resolved(images, false))
  {
  }

  /** Any other pair of non-empty sequences of different lengths is refused
      with a `ValueError` naming both counts. */
  lemma OtherCountsRefused(files: seq<string>, images: seq<Image>, freshId: nat -> string)
    requires |files| > 0 && |images| > 0 && |files| != |images|
    requires !(|files| == 1 && |images| > 1)
    ensures SetImages(files, images, freshId) == Err(UnsupportedCounts(|files|, |images|))
    ensures ClassOf(SetImages(files, images, freshId).error) == ValueError
  {
  }

  /** Files only: one record per file, in file order, with a fresh id, the
      file as its name, index 0 and no links. */
  lemma FilesOnlySynthesised(files: seq<string>, freshId: nat -> string)
    requires |files| > 0
    ensures SetImages(files, [], freshId).Ok?
    ensures
      var r := SetImages(files, [], freshId).value;
      && !r.warned
      && |r.images| == |files|
      && forall k :: 0 <= k < |files| ==> r.images[k] == Image(freshId(k), files[k], 0, None, None)
  {
  }

  /** Records only: they pass through unchanged. */
  lemma ImagesOnlyPassThrough(images: seq<Image>, freshId: nat -> string)
    requires |images| > 0
    ensures SetImages([], images, freshId) == Ok(Resolved(images, false))
  {
  }

  /** Neither: an empty image list and the warning, not an error. */
  lemma NeitherWarns(freshId: nat -> string)
    ensures SetImages([], [], freshId) == Ok(Resolved([], true))
  {
  }

  /** After a successful reconciliation with files, there are at least as
      many records as files: either one per file or one file for many. */
  lemma ReconciledCoversFiles(files: seq<string>, images: seq<Image>, freshId: nat -> string)
    requires SetImages(files, images, freshId).Ok?
    ensures |files| <= |SetImages(files, images, freshId).value.images|
  {
  }

  /** When records were given, reconciliation never invents one: every
      resulting record is one of the given records. */
  lemma ReconciledFromGiven(files: seq<string>, images: seq<Image>, freshId: nat -> string)
    requires |images| > 0
    requires SetImages(files, images, freshId).Ok?
    ensures forall x :: x in SetImages(files, images, freshId).value.images ==> x in images
  {
    var r := SetImages(files, images, freshId).value.images;
    if 0 < |files| == |images| {
      EqualCountsMatchInFilesOrder(files, images, freshId);
    }
    forall x | x in r
      ensures x in images
    {
      var k :| 0 <= k < |r| && r[k] == x;
      if 0 < |files| == |images| {
        assert r[k] == images[FirstMatch(images, files[k]).value];
      }
    }
  }

  /** In the equal-count branch each resulting record matches the file at
      the same position, so the result is ordered by `files`. */
  lemma ReconciledMatchesFiles(files: seq<string>, images: seq<Image>, freshId: nat -> string)
    requires 0 < |files| == |images|
    requires SetImages(files, images, freshId).Ok?
    ensures forall k :: 0 <= k < |files| ==> Matches(SetImages(files, images, freshId).value.images[k], files[k])
  {
    EqualCountsMatchInFilesOrder(files, images, freshId);
  }

  /** The warning is issued exactly when neither files nor records are given. */
  lemma WarnsOnlyWithoutInput(files: seq<string>, images: seq<Image>, freshId: nat -> string)
    requires SetImages(files, images, freshId).Ok?
    ensures SetImages(files, images, freshId).value.warned <==> |files| == 0 && |images| == 0
    ensures |SetImages(files, images, freshId).value.images| == 0 <==> |files| == 0 && |images| == 0
  {
  }
}
