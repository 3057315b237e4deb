/** Concrete calls of the reconciliation and reordering functions, worked
    out on small inputs. */
module Scenarios {
  import opened Outcomes
  import opened Images
  import opened Reconcile
  import opened Reorder
  import Text

  /** A record with the given name and ordinal and no id or links. */
  function Named(name: string, index: int): Image
  {
    Image("", name, index, None, None)
  }

  /** One bare file: one synthesised record, index 0, a fresh id, no links. */
  lemma SingleFileSynthesised(freshId: nat -> string)
    ensures SetImages(["a.png"], [], freshId) == Ok(Resolved([Image(freshId(0), "a.png", 0, None, None)], false))
  {
    var r := SetImages(["a.png"], [], freshId).value;
    assert r.images[0] == Image(freshId(0), "a.png", 0, None, None);
    assert r.images == [Image(freshId(0), "a.png", 0, None, None)];
  }

  /** Several bare files: every synthesised record has index 0, not its position. */
  lemma SynthesisedIndicesAreZero(freshId: nat -> string)
    ensures SetImages(["a.png", "b.png"], [], freshId).Ok?
    ensures SetImages(["a.png", "b.png"], [], freshId).value.images[1].index == 0
  {
    FilesOnlySynthesised(["a.png", "b.png"], freshId);
  }

  /** Files `b.png, a.png` with records `a, b`: the result follows the files. */
  lemma MatchedInFilesOrder(freshId: nat -> string)
    ensures SetImages(["b.png", "a.png"], [Named("a", 0), Named("b", 1)], freshId)
            == Ok(Resolved([Named("b", 1), Named("a", 0)], false))
  {
    Text.ReplaceSlashFixesSlashFree("a");
    Text.ReplaceSlashFixesSlashFree("b");
    var images := [Named("a", 0), Named("b", 1)];
    assert !Matches(Named("a", 0), "b.png");
    assert Matches(Named("b", 1), "b.png");
    assert Matches(Named("a", 0), "a.png");
    assert FirstMatch(images, "b.png") == Some(1);
    assert FirstMatch(images, "a.png") == Some(0);
    var r := SetImages(["b.png", "a.png"], images, freshId).value.images;
    assert r[0] == Named("b", 1) && r[1] == Named("a", 0);
    assert r == [Named("b", 1), Named("a", 0)];
  }

  /** A slash in a record's name matches an underscore in the file name. */
  lemma SlashMatchesUnderscore()
    ensures Matches(Named("a/b", 0), "a_b.png")
  {
    var r := Text.ReplaceSlash("a/b");
    assert r[0] == 'a' && r[1] == '_' && r[2] == 'b';
    assert r == "a_b";
  }

  /** Matching takes the first record that fits and does not check that the
      match is unique: here one record is used twice and the other dropped. */
  lemma FirstMatchNotUnique(freshId: nat -> string)
    ensures SetImages(["a.png", "ab.png"], [Named("a", 0), Named("b", 1)], freshId)
            == Ok(Resolved([Named("a", 0), Named("a", 0)], false))
  {
    Text.ReplaceSlashFixesSlashFree("a");
    Text.ReplaceSlashFixesSlashFree("b");
    var images := [Named("a", 0), Named("b", 1)];
    assert Matches(Named("a", 0), "a.png");
    assert Matches(Named("a", 0), "ab.png");
    assert FirstMatch(images, "a.png") == Some(0);
    assert FirstMatch(images, "ab.png") == Some(0);
    var r := SetImages(["a.png", "ab.png"], images, freshId).value.images;
    assert r[0] == Named("a", 0) && r[1] == Named("a", 0);
    assert r == [Named("a", 0), Named("a", 0)];
  }

  /** A file nothing matches fails with the bare exception. */
  lemma UnmatchedFileFails(freshId: nat -> string)
    ensures SetImages(["c.png"], [Named("a", 0)], freshId) == Err(FileNotMatched("c.png"))
  {
    Text.ReplaceSlashFixesSlashFree("a");
    assert !Matches(Named("a", 0), "c.png");
  }

  /** Of two unmatched files, the failure names the first. */
  lemma FirstUnmatchedFileReported(freshId: nat -> string)
    ensures SetImages(["c.png", "d.png"], [Named("a", 0), Named("b", 1)], freshId) == Err(FileNotMatched("c.png"))
  {
    Text.ReplaceSlashFixesSlashFree("a");
    Text.ReplaceSlashFixesSlashFree("b");
    assert !Matches(Named("a", 0), "c.png") && !Matches(Named("b", 1), "c.png");
  }

  /** Only the record's name has its slashes replaced, not the file: a
      record named by a path with a directory part does not match that same
      path. */
  lemma PathRecordNotMatched(freshId: nat -> string)
    ensures SetImages(["d/x"], [Named("d/x", 0)], freshId) == Err(FileNotMatched("d/x"))
  {
    var r := Text.ReplaceSlash("d/x");
    assert r[0] == 'd' && r[1] == '_' && r[2] == 'x';
    assert r == "d_x";
    assert !Text.Contains("x", "d_x");
    assert !Text.Contains("/x", "d_x");
    assert !Text.Contains("d/x", "d_x");
  }

  /** One volume file and three records: the records pass through. */
  lemma OneFileManyRecords(freshId: nat -> string, i0: Image, i1: Image, i2: Image)
    ensures SetImages(["vol.dcm"], [i0, i1, i2], freshId) == Ok(Resolved([i0, i1, i2], false))
  {
  }

  /** Two files and one record: an unsupported count pair, a `ValueError`. */
  lemma TwoFilesOneRecord(freshId: nat -> string, image: Image)
    ensures SetImages(["x", "y"], [image], freshId) == Err(UnsupportedCounts(2, 1))
    ensures ClassOf(SetImages(["x", "y"], [image], freshId).error) == ValueError
  {
  }

  /** The data reader swapping two files swaps the two records. */
  lemma SwapReversesTwo(a: Image, b: Image)
    ensures UpdateImages([a, b], ["x", "y"], Some(["y", "x"])) == Ok([b, a])
  {
    ReorderGathers([a, b], ["x", "y"], ["y", "x"]);
    assert IndexOf(["x", "y"], "y") == Some(1);
    assert IndexOf(["x", "y"], "x") == Some(0);
    var r := UpdateImages([a, b], ["x", "y"], Some(["y", "x"])).value;
    assert r[0] == b && r[1] == a;
    assert r == [b, a];
  }

  /** A reported name that is not one of the files fails the lookup. */
  lemma UnknownNameFails(a: Image, b: Image)
    ensures UpdateImages([a, b], ["x", "y"], Some(["y", "z"])) == Err(NameNotInFiles("z"))
  {
    assert "z" !in ["x", "y"];
    assert Indices(["x", "y"], ["y", "z"]) == Err(NameNotInFiles("z"));
  }

  /** A one-file, many-record call whose reader reports the file for every
      record gathers the first record every time. */
  lemma OneFileReorderRepeatsFirst(i0: Image, i1: Image)
    ensures UpdateImages([i0, i1], ["vol.dcm"], Some(["vol.dcm", "vol.dcm"])) == Ok([i0, i0])
  {
    ReorderGathers([i0, i1], ["vol.dcm"], ["vol.dcm", "vol.dcm"]);
    assert IndexOf(["vol.dcm"], "vol.dcm") == Some(0);
    var r := UpdateImages([i0, i1], ["vol.dcm"], Some(["vol.dcm", "vol.dcm"])).value;
    assert r[0] == i0 && r[1] == i0;
    assert r == [i0, i0];
  }
}
