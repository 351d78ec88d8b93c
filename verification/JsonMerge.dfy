/** The three-way merge of a stale JSON snapshot (utils/atomic_io.py): only what the
    snapshot edited since its baseline is applied to the latest value. */
module JsonMerge {
  import opened Collections

  datatype Json =
    | Null
    | Bool(b: bool)
    | Int(i: int)
    | Float(r: real)
    | Str(s: string)
    | List(items: seq<Json>)
    | Object(fields: map<string, Json>)

  // ---------------------------------------------------------------------------
  // The equality the source compares with: numbers and booleans by value
  // ---------------------------------------------------------------------------

  predicate IsNumber(j: Json) {
    j.Bool? || j.Int? || j.Float?
  }

  function Number(j: Json): real
    requires IsNumber(j)
  {
    match j
    case Bool(b) => if b then 1.0 else 0.0
    case Int(i) => i as real
    case Float(r) => r
  }

  predicate PyEq(a: Json, b: Json) {
    match a
    case Null => b.Null?
    case Str(s) => b == a
    case List(items) =>
      b.List? && |items| == |b.items| && forall i | 0 <= i < |items| :: PyEq(items[i], b.items[i])
    case Object(fields) =>
      b.Object? && fields.Keys == b.fields.Keys && forall k | k in fields :: PyEq(fields[k], b.fields[k])
    case _ => IsNumber(b) && Number(a) == Number(b)
  }

  lemma {:induction false} PyEqReflexive(a: Json)
    ensures PyEq(a, a)
  {
    match a
    case List(items) =>
      forall i | 0 <= i < |items| ensures PyEq(items[i], items[i]) { PyEqReflexive(items[i]); }
    case Object(fields) =>
      forall k | k in fields ensures PyEq(fields[k], fields[k]) { PyEqReflexive(fields[k]); }
    case _ =>
  }

  // ---------------------------------------------------------------------------
  // What _merge_changes computes
  // ---------------------------------------------------------------------------

  /** A key's value after the merge, or the refusal to merge a list. */
  datatype Slot = ListMutation | Holds(value: Option<Json>)

  function Get(o: Json, k: string): Option<Json>
    requires o.Object?
  {
    if k in o.fields then Some(o.fields[k]) else None
  }

  /** A key present in both the baseline and the edited snapshot. */
  function MergeValue(l: Option<Json>, b: Json, e: Json): Slot
    decreases b, 2
  {
    if b.Object? && e.Object? then
      if l.Some? && l.value.Object? then
        var r := Merge(l.value, b, e);
        if r.Some? then Holds(r) else ListMutation
      else Holds(if PyEq(e, b) then l else Some(e))
    else if PyEq(e, b) then Holds(l)
    else if b.List? then ListMutation
    else Holds(Some(e))
  }

  function SlotOf(l: Json, b: Json, e: Json, k: string): Slot
    requires l.Object? && b.Object? && e.Object?
    decreases b, 0
  {
    if k !in e.fields then Holds(if k in b.fields then None else Get(l, k))
    else if k !in b.fields then Holds(Some(e.fields[k]))
    else MergeValue(Get(l, k), b.fields[k], e.fields[k])
  }

  /** The merged object; None when the source raises on a list mutation. */
  function Merge(l: Json, b: Json, e: Json): (r: Option<Json>)
    requires l.Object? && b.Object? && e.Object?
    ensures r.Some? ==> r.value.Object?
    decreases b, 1
  {
    if exists k | k in e.fields.Keys :: SlotOf(l, b, e, k).ListMutation? then None
    else
      Some(Object(map k | k in l.fields.Keys + e.fields.Keys && SlotOf(l, b, e, k).value.Some?
                  :: SlotOf(l, b, e, k).value.value))
  }

  lemma MergeAt(l: Json, b: Json, e: Json, k: string)
    requires l.Object? && b.Object? && e.Object? && Merge(l, b, e).Some?
    ensures SlotOf(l, b, e, k) == Holds(Get(Merge(l, b, e).value, k))
  {
  }

  lemma SameObject(a: Json, c: Json)
    requires a.Object? && c.Object?
    requires forall k :: Get(a, k) == Get(c, k)
    ensures a == c
  {
    forall k ensures k in a.fields <==> k in c.fields
             ensures k in a.fields ==> a.fields[k] == c.fields[k]
    {
      assert Get(a, k) == Get(c, k);
    }
    SameMap(a.fields, c.fields);
  }

  /** The merge is exactly what its slots say. */
  lemma MergeIs(l: Json, b: Json, e: Json, r: Json)
    requires l.Object? && b.Object? && e.Object? && r.Object?
    requires forall k :: SlotOf(l, b, e, k) == Holds(Get(r, k))
    ensures Merge(l, b, e) == Some(r)
  {
    assert Merge(l, b, e).Some?;
    forall k ensures Get(Merge(l, b, e).value, k) == Get(r, k) {
      MergeAt(l, b, e, k);
    }
    SameObject(Merge(l, b, e).value, r);
  }

  // ---------------------------------------------------------------------------
  // The loops of _merge_changes
  // ---------------------------------------------------------------------------

  /** One turn of the loop for a key present on both sides. */
  method MergeEntry(current: Option<Json>, oldValue: Json, value: Json) returns (slot: Slot)
    ensures slot == MergeValue(current, oldValue, value)
    decreases oldValue, 1
  {
    if oldValue.Object? && value.Object? {
      if current.None? || !current.value.Object? {
        return Holds(if PyEq(value, oldValue) then current else Some(value));
      }
      var inner := MergeChanges(current.value, oldValue, value);
      return if inner.None? then ListMutation else Holds(inner);
    }
    if oldValue.List? && !PyEq(value, oldValue) {
      return ListMutation;
    }
    slot := Holds(if PyEq(value, oldValue) then current else Some(value));
  }

  method RemoveDeleted(latest: Json, baseline: Json, edited: Json) returns (fields: map<string, Json>)
    requires latest.Object? && baseline.Object? && edited.Object?
    ensures forall k :: k in fields <==> k in latest.fields && !(k in baseline.fields && k !in edited.fields)
    ensures forall k :: k in fields ==> fields[k] == latest.fields[k]
  {
    fields := latest.fields;
    var removed := baseline.fields.Keys - edited.fields.Keys;
    var todo := removed;
    while todo != {}
      invariant todo <= removed
      invariant forall k :: k in fields <==> k in latest.fields && (k in removed ==> k in todo)
      invariant forall k :: k in fields ==> fields[k] == latest.fields[k]
      decreases |todo|
    {
      var key :| key in todo;
      todo := todo - {key};
      fields := fields - {key};
    }
  }

  /** _merge_changes: deletions, then each edited key, in any order of iteration. */
  method MergeChanges(latest: Json, baseline: Json, edited: Json) returns (merged: Option<Json>)
    requires latest.Object? && baseline.Object? && edited.Object?
    ensures merged == Merge(latest, baseline, edited)
    decreases baseline, 0
  {
    var fields := RemoveDeleted(latest, baseline, edited);
    var todo := edited.fields.Keys;
    while todo != {}
      invariant todo <= edited.fields.Keys
      invariant forall k :: k in edited.fields && k in todo ==> Get(Object(fields), k) == Get(latest, k)
      invariant forall k :: k !in todo ==> SlotOf(latest, baseline, edited, k) == Holds(Get(Object(fields), k))
      decreases |todo|
    {
      hide MergeValue, PyEq;
      var key :| key in todo;
      todo := todo - {key};
      var value := edited.fields[key];
      if key !in baseline.fields {
        fields := fields[key := value];
      } else {
        var slot := MergeEntry(Get(Object(fields), key), baseline.fields[key], value);
        assert slot == SlotOf(latest, baseline, edited, key);
        if slot.ListMutation? {
          return None;
        }
        fields := if slot.value.Some? then fields[key := slot.value.value] else fields - {key};
      }
    }
    MergeIs(latest, baseline, edited, Object(fields));
    merged := Some(Object(fields));
  }
}
