/** One node's bounded replay memory (utils/log_observations.py): the
    insertion-ordered cache of admitted fingerprints and its lazy expiry index. */
module ReplayMemory {
  import opened Collections

  type Time = real
  type Fingerprint = int

  /** An entry of the expiry index. */
  datatype Stamp = Stamp(at: Time, id: Fingerprint)

  /** `order` and `at` are the ordered dict `seen[node]`; `index` is the contents
      of the heap `_seen_expiry[node]`, of which only the least element, the
      length and the pushed and popped entries are ever observed. */
  datatype Memory = Memory(order: seq<Fingerprint>, at: map<Fingerprint, Time>, index: multiset<Stamp>) {

    ghost predicate Valid() {
      && Distinct(order)
      && (forall id :: id in order <==> id in at)
      && (forall id :: id in at ==> Stamp(at[id], id) in index)
    }

    /** The cache kept within `capacity` and the index within twice the cache. */
    ghost predicate Bounded(capacity: nat) {
      |order| <= capacity && |index| <= 2 * |order|
    }
  }

  const EMPTY := Memory([], map[], multiset{})

  ghost predicate Distinct(s: seq<Fingerprint>) {
    forall i, j :: 0 <= i < j < |s| ==> s[i] != s[j]
  }

  // ---------------------------------------------------------------------------
  // The heap: least element of a multiset of stamps, by time and then identity
  // ---------------------------------------------------------------------------

  predicate Before(a: Stamp, b: Stamp) {
    a.at < b.at || (a.at == b.at && a.id < b.id)
  }

  ghost predicate IsLeast(s: Stamp, heap: multiset<Stamp>) {
    s in heap && forall o :: o in heap ==> !Before(o, s)
  }

  lemma {:induction false} LeastExists(heap: multiset<Stamp>) returns (s: Stamp)
    requires heap != multiset{}
    ensures IsLeast(s, heap)
    decreases |heap|
  {
    var first :| first in heap;
    var rest := heap - multiset{first};
    if rest == multiset{} {
      s := first;
      assert heap == multiset{first};
    } else {
      var other := LeastExists(rest);
      s := if Before(first, other) then first else other;
      forall o | o in heap ensures !Before(o, s) {
        if o != first { assert o in rest; }
      }
    }
  }

  /** heapq.heappop, seen as the value it yields. */
  method Peek(heap: multiset<Stamp>) returns (s: Stamp)
    requires heap != multiset{}
    ensures IsLeast(s, heap)
  {
    ghost var least := LeastExists(heap);
    assert exists c :: IsLeast(c, heap);
    s :| s in heap && forall o :: o in heap ==> !Before(o, s);
  }

  // ---------------------------------------------------------------------------
  // Specification of the memory's operations
  // ---------------------------------------------------------------------------

  /** The elements of `order` that are still keys, in their order. */
  function Keep(order: seq<Fingerprint>, keys: set<Fingerprint>): (r: seq<Fingerprint>)
    ensures |r| <= |order|
    ensures forall id :: id in r <==> id in order && id in keys
  {
    if |order| == 0 then []
    else if order[0] in keys then [order[0]] + Keep(order[1..], keys)
    else Keep(order[1..], keys)
  }

  /** The stamps later than the cutoff, with their multiplicities. */
  ghost function Later(index: multiset<Stamp>, cutoff: Time): (r: multiset<Stamp>)
    ensures forall s: Stamp :: r[s] == if s.at <= cutoff then 0 else index[s]
    decreases |index|
  {
    if index == multiset{} then multiset{}
    else
      var s :| s in index;
      var rest := Later(index - multiset{s}, cutoff);
      if s.at <= cutoff then rest else rest + multiset{s}
  }

  /** The cached identities later than the cutoff. */
  function Since(at: map<Fingerprint, Time>, cutoff: Time): (r: map<Fingerprint, Time>)
    ensures forall id :: id in r <==> id in at && at[id] > cutoff
    ensures forall id :: id in r ==> r[id] == at[id]
  {
    map id | id in at && at[id] > cutoff :: at[id]
  }

  /** Exactly the entries at or before the cutoff are gone, in cache and index. */
  ghost function Expired(m: Memory, cutoff: Time): Memory {
    var at := Since(m.at, cutoff);
    Memory(Keep(m.order, at.Keys), at, Later(m.index, cutoff))
  }

  function Pushed(m: Memory, id: Fingerprint, at: Time): Memory {
    Memory(m.order + [id], m.at[id := at], m.index + multiset{Stamp(at, id)})
  }

  /** FIFO eviction: the index keeps the evicted stamp. */
  function WithoutOldest(m: Memory): Memory
    requires |m.order| > 0
  {
    Memory(m.order[1..], m.at - {m.order[0]}, m.index)
  }

  /** The cache's entries, oldest first, as the rebuild lists them. */
  function Entries(order: seq<Fingerprint>, at: map<Fingerprint, Time>): (r: seq<Stamp>)
    requires forall id :: id in order ==> id in at
    ensures |r| == |order|
    ensures forall id :: id in order ==> Stamp(at[id], id) in r
  {
    if |order| == 0 then []
    else
      var id := order[0];
      [Stamp(at[id], id)] + Entries(order[1..], at)
  }

  /** Number of entries rebuilt by a compaction, zero when none is due. */
  function RebuildCost(m: Memory): nat {
    if |m.index| > 2 * |m.order| then |m.order| else 0
  }

  function Compacted(m: Memory): Memory
    requires forall id :: id in m.order ==> id in m.at
  {
    if |m.index| > 2 * |m.order| then m.(index := multiset(Entries(m.order, m.at))) else m
  }

  // ---------------------------------------------------------------------------
  // What the operations keep
  // ---------------------------------------------------------------------------

  lemma {:induction false} KeepAll(order: seq<Fingerprint>, keys: set<Fingerprint>)
    requires forall id :: id in order ==> id in keys
    ensures Keep(order, keys) == order
  {
    if |order| > 0 {
      var id := order[0];
      assert id in order && id in keys;
      KeepAll(order[1..], keys);
      assert order == [order[0]] + order[1..];
    }
  }

  lemma {:induction false} KeepTwice(order: seq<Fingerprint>, a: set<Fingerprint>, b: set<Fingerprint>)
    requires b <= a
    ensures Keep(Keep(order, a), b) == Keep(order, b)
  {
    if |order| > 0 { KeepTwice(order[1..], a, b); }
  }

  lemma {:induction false} KeepDistinct(order: seq<Fingerprint>, keys: set<Fingerprint>)
    requires Distinct(order)
    ensures Distinct(Keep(order, keys))
  {
    if |order| > 0 {
      assert forall i, j :: 0 <= i < j < |order[1..]| ==> order[1..][i] == order[i + 1] && order[1..][j] == order[j + 1];
      KeepDistinct(order[1..], keys);
      assert order[0] !in order[1..];
      assert order[0] !in Keep(order[1..], keys);
    }
  }

  lemma LaterShrinks(index: multiset<Stamp>, cutoff: Time)
    ensures Later(index, cutoff) <= index
    ensures |Later(index, cutoff)| <= |index|
  {
    var r := Later(index, cutoff);
    assert r <= index;
    assert index == r + (index - r);
  }

  /** Expiry keeps the index invariant; the cache loses exactly its expired keys. */
  lemma ExpiredKeeps(m: Memory, cutoff: Time)
    requires m.Valid()
    ensures Expired(m, cutoff).Valid()
    ensures forall id :: id in Expired(m, cutoff).at <==> id in m.at && m.at[id] > cutoff
    ensures forall id :: id in Expired(m, cutoff).at ==> Expired(m, cutoff).at[id] == m.at[id]
    ensures |Expired(m, cutoff).order| <= |m.order| && |Expired(m, cutoff).index| <= |m.index|
  {
    var e := Expired(m, cutoff);
    KeepDistinct(m.order, e.at.Keys);
    LaterShrinks(m.index, cutoff);
    forall id | id in e.at ensures Stamp(e.at[id], id) in e.index {
      assert m.index[Stamp(m.at[id], id)] > 0;
    }
  }

  lemma PushedKeeps(m: Memory, id: Fingerprint, at: Time)
    requires m.Valid() && id !in m.at
    ensures Pushed(m, id, at).Valid()
    ensures |Pushed(m, id, at).index| == |m.index| + 1
  {
    var p := Pushed(m, id, at);
    forall k ensures k in p.order <==> k in p.at {
      assert k in p.order <==> k in m.order || k == id;
    }
    forall k | k in p.at ensures Stamp(p.at[k], k) in p.index {
      if k != id { assert Stamp(m.at[k], k) in m.index; }
    }
  }

  lemma WithoutOldestKeeps(m: Memory)
    requires m.Valid() && |m.order| > 0
    ensures WithoutOldest(m).Valid()
  {
    var w := WithoutOldest(m);
    assert m.order == [m.order[0]] + w.order;
    forall i, j | 0 <= i < j < |w.order| ensures w.order[i] != w.order[j] {
      assert w.order[i] == m.order[i + 1] && w.order[j] == m.order[j + 1];
    }
    assert m.order[0] !in w.order;
  }

  /** Compaction restores the size bound and never loses an index entry in use. */
  lemma CompactedKeeps(m: Memory)
    requires m.Valid()
    ensures Compacted(m).Valid()
    ensures |Compacted(m).index| <= 2 * |m.order|
    ensures RebuildCost(m) + |Compacted(m).index| <= |m.index|
  {
    if |m.index| > 2 * |m.order| {
      var entries := Entries(m.order, m.at);
      assert |multiset(entries)| == |entries|;
    }
  }

  // ---------------------------------------------------------------------------
  // The loop of the source
  // ---------------------------------------------------------------------------

  /** What the pop loop keeps: only due entries have left the heap and the cache. */
  ghost predicate Expiring(m: Memory, r: Memory, cutoff: Time) {
    && r.index <= m.index
    && (forall s: Stamp :: s.at > cutoff ==> r.index[s] == m.index[s])
    && r.at.Keys <= m.at.Keys
    && (forall id :: id in r.at ==> r.at[id] == m.at[id] && Stamp(m.at[id], id) in r.index)
    && (forall id :: id in m.at && m.at[id] > cutoff ==> id in r.at)
    && r.order == Keep(m.order, r.at.Keys)
  }

  /** One pop of a due stamp, with the cache entry it owns (if it still does). */
  function Popped(r: Memory, s: Stamp): Memory {
    var at := if s.id in r.at && r.at[s.id] == s.at then r.at - {s.id} else r.at;
    Memory(Keep(r.order, at.Keys), at, r.index - multiset{s})
  }

  lemma PoppedStep(m: Memory, r: Memory, s: Stamp, cutoff: Time)
    requires Expiring(m, r, cutoff) && s in r.index && s.at <= cutoff
    ensures Expiring(m, Popped(r, s), cutoff)
  {
    KeepTwice(m.order, r.at.Keys, Popped(r, s).at.Keys);
  }

  lemma ExpiringDone(m: Memory, r: Memory, cutoff: Time)
    requires Expiring(m, r, cutoff) && forall s: Stamp :: s in r.index ==> s.at > cutoff
    ensures r == Expired(m, cutoff)
  {
    var e := Expired(m, cutoff);
    assert forall s: Stamp :: r.index[s] == e.index[s];
    assert r.index == e.index;
    forall id
      ensures id in r.at <==> id in e.at
      ensures id in r.at ==> r.at[id] == e.at[id]
    {
      if id in r.at {
        assert Stamp(m.at[id], id) in r.index;
        assert m.at[id] > cutoff;
      }
    }
    SameMap(r.at, e.at);
  }

  /** _expire_replay_cache: pop the heap while its least time is due. */
  method ExpireReplayCache(m: Memory, cutoff: Time) returns (r: Memory)
    requires m.Valid()
    ensures r == Expired(m, cutoff)
  {
    r := m;
    KeepAll(m.order, m.at.Keys);
    while r.index != multiset{}
      invariant Expiring(m, r, cutoff)
      decreases |r.index|
    {
      var least := Peek(r.index);
      if least.at > cutoff {
        break;
      }
      PoppedStep(m, r, least, cutoff);
      r := Popped(r, least);
    }
    ExpiringDone(m, r, cutoff);
  }
}
