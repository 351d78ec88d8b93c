/** Snapshots of one baseline edited on disjoint paths (utils/atomic_io.py): committed in
    either order they give values that compare equal, and the same value exactly when no
    order loses an edit the comparison cannot see. */
module JsonMergeCommute {
  import opened Collections
  import opened JsonMerge
  import opened JsonMergeLaws

  predicate SameAt(b: Json, e: Json, k: string)
    requires b.Object? && e.Object?
  {
    Get(b, k) == Get(e, k)
  }

  /** No path is edited by both snapshots. */
  ghost predicate Apart(b: Json, e1: Json, e2: Json)
    requires b.Object? && e1.Object? && e2.Object?
    decreases b
  {
    forall k ::
      SameAt(b, e1, k) || SameAt(b, e2, k)
      || (k in b.fields && k in e1.fields && k in e2.fields
          && b.fields[k].Object? && e1.fields[k].Object? && e2.fields[k].Object?
          && Apart(b.fields[k], e1.fields[k], e2.fields[k]))
  }

  /** Two snapshots of b without list edits, edited on disjoint paths. */
  ghost predicate Disjoint(b: Json, e1: Json, e2: Json) {
    b.Object? && e1.Object? && e2.Object? && !ListEditAt(b, e1) && !ListEditAt(b, e2) && Apart(b, e1, e2)
  }

  lemma DisjointBelow(b: Json, e1: Json, e2: Json, k: string)
    requires Disjoint(b, e1, e2) && !SameAt(b, e1, k) && !SameAt(b, e2, k)
    ensures k in b.fields && k in e1.fields && k in e2.fields && Disjoint(b.fields[k], e1.fields[k], e2.fields[k])
  {
    assert k in b.fields && k in e1.fields && k in e2.fields;
    assert !ListEditAt(b.fields[k], e1.fields[k]) && !ListEditAt(b.fields[k], e2.fields[k]);
  }

  /** A key one snapshot left alone passes through its merge. */
  lemma SameAtPasses(l: Json, b: Json, e: Json, k: string)
    requires l.Object? && b.Object? && e.Object? && SameAt(b, e, k)
    ensures SlotOf(l, b, e, k) == Holds(Get(l, k))
  {
    if k in b.fields {
      assert b.fields[k] == e.fields[k];
      PyEqReflexive(b.fields[k]);
      UneditedValue(Get(l, k), b.fields[k], e.fields[k]);
    }
  }

  /** A slot depends on the latest value of its key alone. */
  lemma SameLatest(l: Json, m: Json, b: Json, e: Json, k: string)
    requires l.Object? && m.Object? && b.Object? && e.Object? && Get(l, k) == Get(m, k)
    ensures SlotOf(l, b, e, k) == SlotOf(m, b, e, k)
  {
  }

  // ---------------------------------------------------------------------------
  // Equal as the source compares
  // ---------------------------------------------------------------------------

  predicate SameValue(a: Option<Json>, c: Option<Json>) {
    if a.Some? && c.Some? then PyEq(a.value, c.value) else a.None? && c.None?
  }

  lemma {:induction false} PyEqSymmetric(a: Json, c: Json)
    requires PyEq(a, c)
    ensures PyEq(c, a)
    decreases a
  {
    match a
    case List(items) =>
      forall i | 0 <= i < |items| ensures PyEq(c.items[i], items[i]) { PyEqSymmetric(items[i], c.items[i]); }
    case Object(fields) =>
      forall k | k in fields ensures PyEq(c.fields[k], fields[k]) { PyEqSymmetric(fields[k], c.fields[k]); }
    case _ =>
  }

  lemma SameValues(a: Json, c: Json)
    requires a.Object? && c.Object? && forall k :: SameValue(Get(a, k), Get(c, k))
    ensures PyEq(a, c)
  {
    forall k ensures k in a.fields <==> k in c.fields ensures k in a.fields ==> PyEq(a.fields[k], c.fields[k]) {
      assert SameValue(Get(a, k), Get(c, k));
    }
    SameSet(a.fields.Keys, c.fields.Keys);
  }

  /** From the baseline's own value an edit yields its equal. */
  lemma FromBaselineEqual(l: Json, b: Json, e: Json, k: string)
    requires l.Object? && b.Object? && e.Object? && !ListEditAt(b, e) && Get(l, k) == Get(b, k)
    ensures SlotOf(l, b, e, k).Holds? && SameValue(SlotOf(l, b, e, k).value, Get(e, k))
  {
    if k in e.fields {
      PyEqReflexive(e.fields[k]);
      if k in b.fields {
        assert !ListEditAt(b.fields[k], e.fields[k]);
        if b.fields[k].Object? && e.fields[k].Object? {
          BaselineYieldsEqual(b.fields[k], e.fields[k]);
          PyEqSymmetric(e.fields[k], Merge(b.fields[k], b.fields[k], e.fields[k]).value);
        } else if PyEq(e.fields[k], b.fields[k]) {
          PyEqSymmetric(e.fields[k], b.fields[k]);
        }
      }
    }
  }

  lemma {:induction false} CrossMergeEqual(b: Json, e1: Json, e2: Json)
    requires Disjoint(b, e1, e2)
    ensures Merge(e1, b, e2).Some? && Merge(e2, b, e1).Some?
    ensures PyEq(Merge(e1, b, e2).value, Merge(e2, b, e1).value)
    decreases b
  {
    MergesWithoutListEdits(e1, b, e2);
    MergesWithoutListEdits(e2, b, e1);
    var r1, r2 := Merge(e1, b, e2).value, Merge(e2, b, e1).value;
    forall k ensures SameValue(Get(r1, k), Get(r2, k)) {
      MergeAt(e1, b, e2, k);
      MergeAt(e2, b, e1, k);
      if SameAt(b, e1, k) {
        FromBaselineEqual(e1, b, e2, k);
        SameAtPasses(e2, b, e1, k);
      } else if SameAt(b, e2, k) {
        FromBaselineEqual(e2, b, e1, k);
        SameAtPasses(e1, b, e2, k);
        if k in e1.fields && Get(r2, k).Some? {
          PyEqSymmetric(Get(r2, k).value, e1.fields[k]);
        }
      } else {
        DisjointBelow(b, e1, e2, k);
        CrossMergeEqual(b.fields[k], e1.fields[k], e2.fields[k]);
      }
    }
    SameValues(r1, r2);
  }

  /** Both orders, into any latest value: neither raises, and the results compare equal. */
  lemma {:induction false} DisjointEditsCommute(l: Json, b: Json, e1: Json, e2: Json)
    requires l.Object? && Disjoint(b, e1, e2)
    ensures Merge(l, b, e1).Some? && Merge(l, b, e2).Some?
    ensures Merge(Merge(l, b, e1).value, b, e2).Some? && Merge(Merge(l, b, e2).value, b, e1).Some?
    ensures PyEq(Merge(Merge(l, b, e1).value, b, e2).value, Merge(Merge(l, b, e2).value, b, e1).value)
    decreases b, 0
  {
    BothMerge(l, b, e1, e2);
    var m1, m2 := Merge(l, b, e1).value, Merge(l, b, e2).value;
    var r1, r2 := Merge(m1, b, e2).value, Merge(m2, b, e1).value;
    forall k ensures SameValue(Get(r1, k), Get(r2, k)) {
      BothAt(l, b, e1, e2, k);
      if SameAt(b, e1, k) || SameAt(b, e2, k) {
        if Get(r1, k).Some? { PyEqReflexive(Get(r1, k).value); }
      } else {
        DisjointBelow(b, e1, e2, k);
        CommuteAt(Get(l, k), b.fields[k], e1.fields[k], e2.fields[k]);
      }
    }
    SameValues(r1, r2);
  }

  lemma BothMerge(l: Json, b: Json, e1: Json, e2: Json)
    requires l.Object? && Disjoint(b, e1, e2)
    ensures Merge(l, b, e1).Some? && Merge(l, b, e2).Some?
    ensures Merge(Merge(l, b, e1).value, b, e2).Some? && Merge(Merge(l, b, e2).value, b, e1).Some?
  {
    MergesWithoutListEdits(l, b, e1);
    MergesWithoutListEdits(l, b, e2);
    MergesWithoutListEdits(Merge(l, b, e1).value, b, e2);
    MergesWithoutListEdits(Merge(l, b, e2).value, b, e1);
  }

  /** One key after both merges, in either order. */
  lemma BothAt(l: Json, b: Json, e1: Json, e2: Json, k: string)
    requires l.Object? && Disjoint(b, e1, e2)
    requires Merge(l, b, e1).Some? && Merge(l, b, e2).Some?
    requires Merge(Merge(l, b, e1).value, b, e2).Some? && Merge(Merge(l, b, e2).value, b, e1).Some?
    ensures var r1 := Merge(Merge(l, b, e1).value, b, e2).value;
      var r2 := Merge(Merge(l, b, e2).value, b, e1).value;
      && (SameAt(b, e1, k) || SameAt(b, e2, k) ==> Get(r1, k) == Get(r2, k))
      && (!SameAt(b, e1, k) && !SameAt(b, e2, k) ==>
            && k in b.fields && k in e1.fields && k in e2.fields
            && MergeValue(Get(l, k), b.fields[k], e1.fields[k]).Holds? && MergeValue(Get(l, k), b.fields[k], e2.fields[k]).Holds?
            && MergeValue(MergeValue(Get(l, k), b.fields[k], e1.fields[k]).value, b.fields[k], e2.fields[k]) == Holds(Get(r1, k))
            && MergeValue(MergeValue(Get(l, k), b.fields[k], e2.fields[k]).value, b.fields[k], e1.fields[k]) == Holds(Get(r2, k)))
  {
    var m1, m2 := Merge(l, b, e1).value, Merge(l, b, e2).value;
    MergeAt(l, b, e1, k);
    MergeAt(l, b, e2, k);
    MergeAt(m1, b, e2, k);
    MergeAt(m2, b, e1, k);
    if SameAt(b, e1, k) {
      SameAtPasses(l, b, e1, k);
      SameAtPasses(m2, b, e1, k);
      SameLatest(l, m1, b, e2, k);
    } else if SameAt(b, e2, k) {
      SameAtPasses(l, b, e2, k);
      SameAtPasses(m1, b, e2, k);
      SameLatest(l, m2, b, e1, k);
    } else {
      DisjointBelow(b, e1, e2, k);
    }
  }

  /** A key both snapshots changed, below it on disjoint paths. */
  lemma {:induction false} CommuteAt(l: Option<Json>, b: Json, e1: Json, e2: Json)
    requires Disjoint(b, e1, e2)
    requires MergeValue(l, b, e1).Holds? && MergeValue(l, b, e2).Holds?
    ensures var r1 := MergeValue(MergeValue(l, b, e1).value, b, e2);
      var r2 := MergeValue(MergeValue(l, b, e2).value, b, e1);
      r1.Holds? && r2.Holds? && SameValue(r1.value, r2.value)
    decreases b, 1
  {
    if l.Some? && l.value.Object? {
      DisjointEditsCommute(l.value, b, e1, e2);
    } else {
      ReplacedAt(l, b, e1, e2);
      CrossMergeEqual(b, e1, e2);
      if l.Some? { PyEqReflexive(l.value); }
      PyEqReflexive(e1);
      PyEqReflexive(e2);
    }
  }

  /** Where the latest value holds no object: a snapshot equal to the baseline changes
      nothing, and two that differ are merged into each other. */
  lemma ReplacedAt(l: Option<Json>, b: Json, e1: Json, e2: Json)
    requires Disjoint(b, e1, e2) && !(l.Some? && l.value.Object?)
    ensures var r1 := MergeValue(MergeValue(l, b, e1).value, b, e2);
      var r2 := MergeValue(MergeValue(l, b, e2).value, b, e1);
      if PyEq(e1, b) || PyEq(e2, b) then r1 == r2 && r1.Holds? && (r1.value == l || r1.value == Some(e1) || r1.value == Some(e2))
      else r1 == (if Merge(e1, b, e2).Some? then Holds(Merge(e1, b, e2)) else ListMutation)
           && r2 == (if Merge(e2, b, e1).Some? then Holds(Merge(e2, b, e1)) else ListMutation)
  {
    if PyEq(e2, b) { UneditedKeepsLatest(e1, b, e2); }
    if PyEq(e1, b) { UneditedKeepsLatest(e2, b, e1); }
  }

  // ---------------------------------------------------------------------------
  // Exactly the same value
  // ---------------------------------------------------------------------------

  /** Merging either of two edited values into the other loses nothing: where one left a
      key alone, the other's edit of it is visible. */
  ghost predicate Crosses(b: Json, e1: Json, e2: Json)
    requires Disjoint(b, e1, e2)
    decreases b, 1
  {
    forall k :: CrossesAt(b, e1, e2, k)
  }

  ghost predicate CrossesAt(b: Json, e1: Json, e2: Json, k: string)
    requires Disjoint(b, e1, e2)
    decreases b, 0
  {
    if SameAt(b, e1, k) then k in b.fields && k in e2.fields ==> Visible(b.fields[k], e2.fields[k])
    else if SameAt(b, e2, k) then k in b.fields && k in e1.fields ==> Visible(b.fields[k], e1.fields[k])
    else
      DisjointBelow(b, e1, e2, k);
      Crosses(b.fields[k], e1.fields[k], e2.fields[k])
  }

  /** Wherever the latest value replaced an object that both snapshots changed as the source
      compares, the two edits cross. */
  ghost predicate Commutes(l: Json, b: Json, e1: Json, e2: Json)
    requires l.Object? && Disjoint(b, e1, e2)
    decreases b, 1
  {
    forall k :: CommutesAt(l, b, e1, e2, k)
  }

  ghost predicate CommutesAt(l: Json, b: Json, e1: Json, e2: Json, k: string)
    requires l.Object? && Disjoint(b, e1, e2)
    decreases b, 0
  {
    SameAt(b, e1, k) || SameAt(b, e2, k) || (
      DisjointBelow(b, e1, e2, k);
      if k in l.fields && l.fields[k].Object? then Commutes(l.fields[k], b.fields[k], e1.fields[k], e2.fields[k])
      else PyEq(e1.fields[k], b.fields[k]) || PyEq(e2.fields[k], b.fields[k]) || Crosses(b.fields[k], e1.fields[k], e2.fields[k]))
  }

  lemma FromBaselineIff(l: Json, b: Json, e: Json, k: string)
    requires l.Object? && b.Object? && e.Object? && Get(l, k) == Get(b, k)
    ensures SlotOf(l, b, e, k) == Holds(Get(e, k)) <==> (k in b.fields && k in e.fields ==> Visible(b.fields[k], e.fields[k]))
  {
    if k in b.fields && k in e.fields {
      BaselineValueIff(b.fields[k], e.fields[k]);
    }
  }

  lemma {:induction false} CrossMergeIff(b: Json, e1: Json, e2: Json)
    requires Disjoint(b, e1, e2)
    ensures Merge(e1, b, e2) == Merge(e2, b, e1) <==> Crosses(b, e1, e2)
    decreases b
  {
    MergesWithoutListEdits(e1, b, e2);
    MergesWithoutListEdits(e2, b, e1);
    var r1, r2 := Merge(e1, b, e2).value, Merge(e2, b, e1).value;
    forall k ensures Get(r1, k) == Get(r2, k) <==> CrossesAt(b, e1, e2, k) {
      MergeAt(e1, b, e2, k);
      MergeAt(e2, b, e1, k);
      if SameAt(b, e1, k) {
        FromBaselineIff(e1, b, e2, k);
        SameAtPasses(e2, b, e1, k);
      } else if SameAt(b, e2, k) {
        FromBaselineIff(e2, b, e1, k);
        SameAtPasses(e1, b, e2, k);
      } else {
        DisjointBelow(b, e1, e2, k);
        MergesWithoutListEdits(e1.fields[k], b.fields[k], e2.fields[k]);
        MergesWithoutListEdits(e2.fields[k], b.fields[k], e1.fields[k]);
        CrossMergeIff(b.fields[k], e1.fields[k], e2.fields[k]);
      }
    }
    if Crosses(b, e1, e2) {
      forall k ensures Get(r1, k) == Get(r2, k) {
        assert CrossesAt(b, e1, e2, k);
      }
      SameObject(r1, r2);
    }
  }

  /** Both orders give exactly the same value if and only if the snapshots commute at every
      key the latest value replaced. */
  lemma {:induction false} SameValueIff(l: Json, b: Json, e1: Json, e2: Json)
    requires l.Object? && Disjoint(b, e1, e2)
    requires Merge(l, b, e1).Some? && Merge(l, b, e2).Some?
    ensures Merge(Merge(l, b, e1).value, b, e2) == Merge(Merge(l, b, e2).value, b, e1) <==> Commutes(l, b, e1, e2)
    decreases b
  {
    BothMerge(l, b, e1, e2);
    var r1 := Merge(Merge(l, b, e1).value, b, e2).value;
    var r2 := Merge(Merge(l, b, e2).value, b, e1).value;
    forall k ensures Get(r1, k) == Get(r2, k) <==> CommutesAt(l, b, e1, e2, k) {
      BothAt(l, b, e1, e2, k);
      if !SameAt(b, e1, k) && !SameAt(b, e2, k) {
        DisjointBelow(b, e1, e2, k);
        if k in l.fields && l.fields[k].Object? {
          BothMerge(l.fields[k], b.fields[k], e1.fields[k], e2.fields[k]);
          SameValueIff(l.fields[k], b.fields[k], e1.fields[k], e2.fields[k]);
        } else {
          ReplacedAt(Get(l, k), b.fields[k], e1.fields[k], e2.fields[k]);
          MergesWithoutListEdits(e1.fields[k], b.fields[k], e2.fields[k]);
          MergesWithoutListEdits(e2.fields[k], b.fields[k], e1.fields[k]);
          CrossMergeIff(b.fields[k], e1.fields[k], e2.fields[k]);
        }
      }
    }
    if Commutes(l, b, e1, e2) {
      forall k ensures Get(r1, k) == Get(r2, k) {
        assert CommutesAt(l, b, e1, e2, k);
      }
      SameObject(r1, r2);
    }
  }

  /** Snapshots whose every edit is visible commute, into any latest value. */
  lemma {:induction false} VisibleEditsCommute(l: Json, b: Json, e1: Json, e2: Json)
    requires l.Object? && Disjoint(b, e1, e2) && Visible(b, e1) && Visible(b, e2)
    ensures Commutes(l, b, e1, e2)
    decreases b
  {
    forall k ensures CommutesAt(l, b, e1, e2, k) {
      if !SameAt(b, e1, k) && !SameAt(b, e2, k) {
        DisjointBelow(b, e1, e2, k);
        if k in l.fields && l.fields[k].Object? {
          VisibleEditsCommute(l.fields[k], b.fields[k], e1.fields[k], e2.fields[k]);
        } else {
          VisibleEditsCross(b.fields[k], e1.fields[k], e2.fields[k]);
        }
      }
    }
  }

  lemma {:induction false} VisibleEditsCross(b: Json, e1: Json, e2: Json)
    requires Disjoint(b, e1, e2) && Visible(b, e1) && Visible(b, e2)
    ensures Crosses(b, e1, e2)
    decreases b
  {
    forall k ensures CrossesAt(b, e1, e2, k) {
      if !SameAt(b, e1, k) && !SameAt(b, e2, k) {
        DisjointBelow(b, e1, e2, k);
        VisibleEditsCross(b.fields[k], e1.fields[k], e2.fields[k]);
      }
    }
  }

  /** Two snapshots under a key whose latest value is no object. */
  lemma OrderShowsUnder(latest: Json, was: Json, first: Json, second: Json)
    requires !latest.Object? && Disjoint(was, first, second)
    requires !PyEq(first, was) && !PyEq(second, was) && !Crosses(was, first, second)
    ensures var l, b, e1, e2 := Under("a", latest), Under("a", was), Under("a", first), Under("a", second);
      && Disjoint(b, e1, e2) && Merge(l, b, e1).Some? && Merge(l, b, e2).Some?
      && Merge(Merge(l, b, e1).value, b, e2) != Merge(Merge(l, b, e2).value, b, e1)
  {
    var l, b, e1, e2 := Under("a", latest), Under("a", was), Under("a", first), Under("a", second);
    PyEqReflexive(was);
    assert forall k :: k != "a" ==> SameAt(b, e1, k);
    assert Apart(b, e1, e2);
    assert !ListEditAt(b, e1) && !ListEditAt(b, e2);
    BothMerge(l, b, e1, e2);
    assert !CommutesAt(l, b, e1, e2, "a");
    SameValueIff(l, b, e1, e2);
  }

  /** Edits on disjoint paths whose order shows: a/x ends as true or as 1. */
  lemma OrderShows()
    ensures var was := Object(map["x" := Int(1), "y" := Int(1)]);
      var first := Object(map["x" := Bool(true), "y" := Int(1), "z" := Int(5)]);
      var second := Object(map["x" := Int(1), "y" := Int(2)]);
      var l, b, e1, e2 := Under("a", Int(0)), Under("a", was), Under("a", first), Under("a", second);
      && Disjoint(b, e1, e2) && Merge(l, b, e1).Some? && Merge(l, b, e2).Some?
      && Merge(Merge(l, b, e1).value, b, e2) != Merge(Merge(l, b, e2).value, b, e1)
  {
    var was := Object(map["x" := Int(1), "y" := Int(1)]);
    var first := Object(map["x" := Bool(true), "y" := Int(1), "z" := Int(5)]);
    var second := Object(map["x" := Int(1), "y" := Int(2)]);
    assert forall k :: k != "x" && k != "y" && k != "z" ==> SameAt(was, second, k);
    assert Disjoint(was, first, second);
    assert "z" in first.fields && "z" !in was.fields;
    assert !PyEq(second.fields["y"], was.fields["y"]);
    assert !CrossesAt(was, first, second, "x");
    hide Disjoint, Crosses, PyEq, Merge, Under;
    OrderShowsUnder(Int(0), was, first, second);
  }
}
