/** The laws of the three-way merge (utils/atomic_io.py) on nested objects of any
    depth, with the exact conditions under which they hold. */
module JsonMergeLaws {
  import opened Collections
  import opened JsonMerge

  // ---------------------------------------------------------------------------
  // When the merge refuses
  // ---------------------------------------------------------------------------

  /** The snapshot changed a list in place, here or somewhere under objects it kept. */
  predicate ListEditAt(b: Json, e: Json)
    decreases b
  {
    if b.Object? && e.Object? then exists k | k in b.fields && k in e.fields :: ListEditAt(b.fields[k], e.fields[k])
    else b.List? && !PyEq(e, b)
  }

  lemma {:induction false} ListEditDiffers(b: Json, e: Json)
    requires ListEditAt(b, e)
    ensures !PyEq(e, b)
    decreases b
  {
    if b.Object? && e.Object? {
      var k :| k in b.fields && k in e.fields && ListEditAt(b.fields[k], e.fields[k]);
      ListEditDiffers(b.fields[k], e.fields[k]);
    }
  }

  /** Without list edits no latest value can make the merge raise. */
  lemma {:induction false} MergesWithoutListEdits(l: Json, b: Json, e: Json)
    requires l.Object? && b.Object? && e.Object? && !ListEditAt(b, e)
    ensures Merge(l, b, e).Some?
    decreases b
  {
    forall k | k in e.fields ensures !SlotOf(l, b, e, k).ListMutation? {
      if k in b.fields && b.fields[k].Object? && e.fields[k].Object? && k in l.fields && l.fields[k].Object? {
        assert !ListEditAt(b.fields[k], e.fields[k]);
        MergesWithoutListEdits(l.fields[k], b.fields[k], e.fields[k]);
      }
    }
  }

  // ---------------------------------------------------------------------------
  // An unedited snapshot changes nothing
  // ---------------------------------------------------------------------------

  lemma {:induction false} UneditedKeepsLatest(l: Json, b: Json, e: Json)
    requires l.Object? && b.Object? && e.Object? && PyEq(e, b)
    ensures Merge(l, b, e) == Some(l)
    decreases b, 0
  {
    forall k ensures SlotOf(l, b, e, k) == Holds(Get(l, k)) {
      if k in e.fields {
        UneditedValue(Get(l, k), b.fields[k], e.fields[k]);
      }
    }
    MergeIs(l, b, e, l);
  }

  lemma {:induction false} UneditedValue(l: Option<Json>, b: Json, e: Json)
    requires PyEq(e, b)
    ensures MergeValue(l, b, e) == Holds(l)
    decreases b, 1
  {
    if b.Object? && e.Object? && l.Some? && l.value.Object? {
      UneditedKeepsLatest(l.value, b, e);
    }
  }

  // ---------------------------------------------------------------------------
  // Merging into the unchanged baseline
  // ---------------------------------------------------------------------------

  /** Every edit is one that the comparison can see: no list is edited, and no value
      is replaced by another of equal number (true for 1, 1.0 for 1). */
  predicate Visible(b: Json, e: Json)
    decreases b
  {
    if b.Object? && e.Object? then forall k | k in b.fields && k in e.fields :: Visible(b.fields[k], e.fields[k])
    else b == e || (!b.List? && !PyEq(e, b))
  }

  /** Into its own baseline a snapshot merges as it is, exactly when every edit is
      visible to the comparison. */
  lemma {:induction false} BaselineYieldsEditedIff(b: Json, e: Json)
    requires b.Object? && e.Object?
    ensures Merge(b, b, e) == Some(e) <==> Visible(b, e)
    decreases b, 0
  {
    if Visible(b, e) {
      forall k ensures SlotOf(b, b, e, k) == Holds(Get(e, k)) {
        if k in b.fields && k in e.fields {
          BaselineValueIff(b.fields[k], e.fields[k]);
        }
      }
      MergeIs(b, b, e, e);
    } else {
      var k :| k in b.fields && k in e.fields && !Visible(b.fields[k], e.fields[k]);
      BaselineValueIff(b.fields[k], e.fields[k]);
      if Merge(b, b, e).Some? {
        MergeAt(b, b, e, k);
      }
    }
  }

  lemma {:induction false} BaselineValueIff(b: Json, e: Json)
    ensures MergeValue(Some(b), b, e) == Holds(Some(e)) <==> Visible(b, e)
    decreases b, 1
  {
    if b.Object? && e.Object? {
      BaselineYieldsEditedIff(b, e);
    }
    PyEqReflexive(b);
  }

  /** Up to the comparison itself, the merge into the baseline is the edited value. */
  lemma {:induction false} BaselineYieldsEqual(b: Json, e: Json)
    requires b.Object? && e.Object? && !ListEditAt(b, e)
    ensures Merge(b, b, e).Some? && PyEq(e, Merge(b, b, e).value)
    decreases b
  {
    MergesWithoutListEdits(b, b, e);
    var r := Merge(b, b, e).value;
    forall k ensures k in r.fields <==> k in e.fields
             ensures k in e.fields ==> PyEq(e.fields[k], r.fields[k])
    {
      MergeAt(b, b, e, k);
      if k in e.fields {
        PyEqReflexive(e.fields[k]);
        if k in b.fields {
          assert !ListEditAt(b.fields[k], e.fields[k]);
          if b.fields[k].Object? && e.fields[k].Object? {
            BaselineYieldsEqual(b.fields[k], e.fields[k]);
          }
        }
      }
    }
    SameSet(r.fields.Keys, e.fields.Keys);
  }

  /** A real edit the merge loses: 1 edited to true compares equal. */
  lemma InvisibleEdit()
    ensures var b, e := Object(map["a" := Int(1)]), Object(map["a" := Bool(true)]);
      Merge(b, b, e) == Some(b) && b != e
  {
    var b, e := Object(map["a" := Int(1)]), Object(map["a" := Bool(true)]);
    assert PyEq(e.fields["a"], b.fields["a"]);
    UneditedKeepsLatest(b, b, e);
    assert b.fields["a"] != e.fields["a"];
  }

  // ---------------------------------------------------------------------------
  // Idempotence
  // ---------------------------------------------------------------------------

  lemma {:induction false} EditedAbsorbs(b: Json, e: Json)
    requires b.Object? && e.Object? && !ListEditAt(b, e)
    ensures Merge(e, b, e) == Some(e)
    decreases b
  {
    forall k ensures SlotOf(e, b, e, k) == Holds(Get(e, k)) {
      if k in b.fields && k in e.fields {
        assert !ListEditAt(b.fields[k], e.fields[k]);
        if b.fields[k].Object? && e.fields[k].Object? {
          EditedAbsorbs(b.fields[k], e.fields[k]);
        }
      }
    }
    MergeIs(e, b, e, e);
  }

  lemma {:induction false} AbsorbedValue(l: Option<Json>, b: Json, e: Json)
    requires MergeValue(l, b, e).Holds?
    ensures !ListEditAt(b, e) ==> MergeValue(MergeValue(l, b, e).value, b, e) == MergeValue(l, b, e)
    ensures ListEditAt(b, e) ==> MergeValue(MergeValue(l, b, e).value, b, e).ListMutation?
    decreases b, 1
  {
    if b.Object? && e.Object? {
      if l.Some? && l.value.Object? {
        IdempotentIff(l.value, b, e);
      } else if !PyEq(e, b) {
        if !ListEditAt(b, e) { EditedAbsorbs(b, e); } else { EditedRefuses(e, b, e); }
      } else if ListEditAt(b, e) {
        ListEditDiffers(b, e);
      }
    }
  }

  /** A latest value that has every object of the snapshot meets every list edit. */
  lemma {:induction false} EditedRefuses(l: Json, b: Json, e: Json)
    requires b.Object? && e.Object? && ListEditAt(b, e) && l == e
    ensures Merge(l, b, e).None?
    decreases b
  {
    var k :| k in b.fields && k in e.fields && ListEditAt(b.fields[k], e.fields[k]);
    if b.fields[k].Object? && e.fields[k].Object? {
      EditedRefuses(e.fields[k], b.fields[k], e.fields[k]);
    }
    assert SlotOf(l, b, e, k).ListMutation?;
  }

  /** A merge that succeeded can be repeated without effect, exactly when the snapshot
      edits no list; otherwise the second merge raises. */
  lemma {:induction false} IdempotentIff(l: Json, b: Json, e: Json)
    requires l.Object? && b.Object? && e.Object? && Merge(l, b, e).Some?
    ensures Merge(Merge(l, b, e).value, b, e) == (if ListEditAt(b, e) then None else Merge(l, b, e))
    decreases b, 0
  {
    var r := Merge(l, b, e).value;
    if ListEditAt(b, e) {
      var k :| k in b.fields && k in e.fields && ListEditAt(b.fields[k], e.fields[k]);
      MergeAt(l, b, e, k);
      AbsorbedValue(Get(l, k), b.fields[k], e.fields[k]);
      assert SlotOf(r, b, e, k).ListMutation?;
    } else {
      forall k ensures SlotOf(r, b, e, k) == Holds(Get(r, k)) {
        MergeAt(l, b, e, k);
        if k in b.fields && k in e.fields {
          assert !ListEditAt(b.fields[k], e.fields[k]);
          AbsorbedValue(Get(l, k), b.fields[k], e.fields[k]);
        }
      }
      MergeIs(r, b, e, r);
    }
  }

  // ---------------------------------------------------------------------------
  // Paths the snapshot did not change
  // ---------------------------------------------------------------------------

  type Path = seq<string>

  function Lookup(j: Option<Json>, path: Path): Option<Json>
    decreases |path|
  {
    if |path| == 0 then j
    else if j.Some? && j.value.Object? then Lookup(Get(j.value, path[0]), path[1..])
    else None
  }

  /** The snapshot left this path as it was: absent on both sides, or equal. */
  predicate Unchanged(b: Json, e: Json, path: Path)
    requires b.Object? && e.Object?
    decreases |path|
  {
    |path| > 0 &&
    var k := path[0];
    if k in b.fields && k in e.fields then
      PyEq(e.fields[k], b.fields[k])
      || (b.fields[k].Object? && e.fields[k].Object? && Unchanged(b.fields[k], e.fields[k], path[1..]))
    else k !in b.fields && k !in e.fields
  }

  /** Every changed ancestor of the path is still an object in the latest value. */
  predicate AncestorsKept(l: Json, b: Json, e: Json, path: Path)
    requires l.Object? && b.Object? && e.Object?
    decreases |path|
  {
    |path| > 0 &&
    var k := path[0];
    k !in b.fields || k !in e.fields || PyEq(e.fields[k], b.fields[k])
    || (b.fields[k].Object? && e.fields[k].Object? && k in l.fields && l.fields[k].Object?
        && AncestorsKept(l.fields[k], b.fields[k], e.fields[k], path[1..]))
  }

  /** A path the snapshot did not change keeps the latest value, exactly when every
      ancestor it did change is still an object there, or the snapshot has nothing at
      the path: an ancestor replaced by another kind of value is overwritten whole. */
  lemma {:induction false} UnchangedPathKeptIff(l: Json, b: Json, e: Json, path: Path)
    requires l.Object? && b.Object? && e.Object? && Merge(l, b, e).Some?
    requires Unchanged(b, e, path)
    ensures Lookup(Merge(l, b, e), path) == Lookup(Some(l), path)
            <==> AncestorsKept(l, b, e, path) || Lookup(Some(e), path) == None
    decreases |path|
  {
    var k := path[0];
    MergeAt(l, b, e, k);
    if k in b.fields && k in e.fields {
      if PyEq(e.fields[k], b.fields[k]) {
        UneditedValue(Get(l, k), b.fields[k], e.fields[k]);
      } else if k in l.fields && l.fields[k].Object? {
        UnchangedPathKeptIff(l.fields[k], b.fields[k], e.fields[k], path[1..]);
      } else {
        UnchangedIsDeeper(b.fields[k], e.fields[k], path[1..]);
      }
    }
  }

  // ---------------------------------------------------------------------------
  // Paths the snapshot did change
  // ---------------------------------------------------------------------------

  /** The snapshot added, removed or replaced the value at the path, or one that
      contains it: any change but that of an object into an object, which is a
      change of the paths below it. */
  predicate Edited(b: Json, e: Json, path: Path)
    requires b.Object? && e.Object?
    decreases |path|
  {
    |path| > 0 &&
    var k := path[0];
    if k in b.fields && k in e.fields then
      if b.fields[k].Object? && e.fields[k].Object? then Edited(b.fields[k], e.fields[k], path[1..])
      else !PyEq(e.fields[k], b.fields[k])
    else k in b.fields || k in e.fields
  }

  lemma {:induction false} EditedDiffers(b: Json, e: Json, path: Path)
    requires b.Object? && e.Object? && Edited(b, e, path)
    ensures !PyEq(e, b)
    decreases |path|
  {
    var k := path[0];
    if k in b.fields && k in e.fields && b.fields[k].Object? && e.fields[k].Object? {
      EditedDiffers(b.fields[k], e.fields[k], path[1..]);
    }
  }

  /** Every edit takes effect, whatever the latest value has become: after a merge
      that does not raise, each changed path is exactly what the snapshot has there,
      an addition, a replacement or a removal. */
  lemma {:induction false} EditedPathTakesEffect(l: Json, b: Json, e: Json, path: Path)
    requires l.Object? && b.Object? && e.Object? && Merge(l, b, e).Some?
    requires Edited(b, e, path)
    ensures Lookup(Merge(l, b, e), path) == Lookup(Some(e), path)
    decreases |path|
  {
    var k := path[0];
    MergeAt(l, b, e, k);
    if k in b.fields && k in e.fields && b.fields[k].Object? && e.fields[k].Object? {
      if k in l.fields && l.fields[k].Object? {
        EditedPathTakesEffect(l.fields[k], b.fields[k], e.fields[k], path[1..]);
      } else {
        EditedDiffers(b.fields[k], e.fields[k], path[1..]);
      }
    }
  }

  function Under(key: string, value: Json): Json {
    Object(map[key := value])
  }

  /** A changed object whose place in the latest value holds something else comes back
      whole. */
  lemma ReplacedComesBack(latest: Json, was: Json, now: Json)
    requires !latest.Object? && was.Object? && now.Object? && !PyEq(now, was)
    ensures Merge(Under("a", latest), Under("a", was), Under("a", now)) == Some(Under("a", now))
  {
    var l, b, e := Under("a", latest), Under("a", was), Under("a", now);
    forall k ensures SlotOf(l, b, e, k) == Holds(Get(e, k)) {
      assert k in e.fields <==> k == "a";
    }
    MergeIs(l, b, e, e);
  }

  /** The path a/y is unchanged by the snapshot and gone from the latest value, where a
      became a number; the merge brings its stale value back. */
  lemma OverwrittenPath()
    ensures var was, now := Object(map["x" := Int(1), "y" := Int(1)]), Object(map["x" := Int(2), "y" := Int(1)]);
      var l, b, e := Under("a", Int(0)), Under("a", was), Under("a", now);
      && Unchanged(b, e, ["a", "y"])
      && Lookup(Some(l), ["a", "y"]) == None
      && Lookup(Merge(l, b, e), ["a", "y"]) == Some(Int(1))
  {
    var was, now := Object(map["x" := Int(1), "y" := Int(1)]), Object(map["x" := Int(2), "y" := Int(1)]);
    assert !PyEq(now.fields["x"], was.fields["x"]);
    assert PyEq(now.fields["y"], was.fields["y"]);
    ReplacedComesBack(Int(0), was, now);
    var path := ["a", "y"];
    assert path[1..] == ["y"] && path[1..][1..] == [];
    assert Lookup(Some(Under("a", now)), path) == Lookup(Some(now), ["y"]) == Lookup(Some(Int(1)), []);
    assert Lookup(Some(Under("a", Int(0))), path) == Lookup(Some(Int(0)), ["y"]);
  }

  /** A list edit under an ancestor that the latest value replaced passes the first time
      and raises the second. */
  lemma RepeatedListEdit()
    ensures var was, now := Object(map["x" := List([])]), Object(map["x" := List([Int(1)])]);
      var l, b, e := Under("a", Int(0)), Under("a", was), Under("a", now);
      Merge(l, b, e) == Some(e) && Merge(e, b, e) == None
  {
    var was, now := Object(map["x" := List([])]), Object(map["x" := List([Int(1)])]);
    var l, b, e := Under("a", Int(0)), Under("a", was), Under("a", now);
    assert !PyEq(now.fields["x"], was.fields["x"]);
    assert ListEditAt(was.fields["x"], now.fields["x"]);
    assert ListEditAt(b.fields["a"], e.fields["a"]);
    ReplacedComesBack(Int(0), was, now);
    IdempotentIff(l, b, e);
  }

  lemma UnchangedIsDeeper(b: Json, e: Json, path: Path)
    requires b.Object? && e.Object? && Unchanged(b, e, path)
    ensures |path| > 0
  {
  }
}
