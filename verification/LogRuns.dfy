/** Runs of the log evidence machine: every reachable state, under any order of
    its events and a clock that never goes back. */
module LogRuns {
  import opened Collections
  import opened ReplayMemory
  import opened LogState

  datatype Event =
    | SourceChanged
    | Configured(settings: Settings, fleetOrder: seq<NodeId>, cacheOrder: seq<NodeId>)
    | FleetRegistered(panel: Option<map<NodeId, Status>>, order: seq<NodeId>)
    | TransportGap(node: Option<NodeId>, when: Time)
    | Uncertain(node: Option<NodeId>, until: Option<Time>)
    | Observed(source: NodeId, id: Fingerprint, at: Option<Time>)

  datatype Timed = Timed(now: Time, event: Event)

  ghost function Step(s: State, e: Timed): (r: State)
    requires s.ValidMemories()
    ensures r.ValidMemories()
  {
    match e.event
    case SourceChanged => Invalidate(s, e.now)
    case Configured(c, fleetOrder, cacheOrder) => Configure(s, c, fleetOrder, cacheOrder, e.now).0
    case FleetRegistered(panel, order) => RegisterFleet(s, panel, order, e.now)
    case TransportGap(n, when) => NoteTransportGap(s, n, when)
    case Uncertain(n, until) =>
      MarkUncertain(s, n, if until.Some? then until.value else e.now + s.sampling.freshness, e.now)
    case Observed(n, id, at) => Admit(s, n, id, at, e.now).0
  }

  /** What the source guarantees of an event: a normalized freshness, and loops
      that visit every entry of the dict they iterate. */
  ghost predicate Enabled(s: State, e: Timed) {
    match e.event
    case Configured(c, fleetOrder, cacheOrder) =>
      && c.freshness > 0.0
      && (s.fleet.panel.Some? ==> forall n :: n in s.fleet.panel.value ==> n in fleetOrder)
      && (forall n :: n in s.seen ==> n in cacheOrder)
    case FleetRegistered(panel, order) =>
      panel.Some? ==> forall n :: n in panel.value ==> n in order
    case _ => true
  }

  /** An admitted record: its node, the identity of its line, its source time. */
  datatype Record = Record(node: NodeId, id: Fingerprint, at: Time)

  ghost predicate Accepted(s: State, e: Timed)
    requires s.ValidMemories()
  {
    e.event.Observed? && Admit(s, e.event.source, e.event.id, e.event.at, e.now).1
  }

  /** The unbounded memory: every record ever admitted. */
  ghost function Logged(s: State, log: set<Record>, e: Timed): set<Record>
    requires s.ValidMemories()
  {
    if Accepted(s, e) && e.event.at.Some? then log + {Record(e.event.source, e.event.id, e.event.at.value)} else log
  }

  // ---------------------------------------------------------------------------
  // The invariant
  // ---------------------------------------------------------------------------

  ghost predicate LivesOk(l: Lives) {
    forall n :: n in l.nodes ==> 1 <= l.nodes[n].epoch <= l.nextEpoch
  }

  ghost predicate Shape(s: State) {
    && s.sampling.freshness > 0.0 && s.sampling.capacity >= 1
    && (forall n :: n in s.seen ==> s.seen[n].Valid() && s.seen[n].Bounded(s.sampling.capacity))
    && (forall n :: s.Requires(n) ==> n in s.lives.nodes)
    && LivesOk(s.lives)
  }

  predicate Cached(s: State, r: Record) {
    r.node in s.seen && r.id in s.seen[r.node].at && s.seen[r.node].at[r.id] == r.at
  }

  ghost predicate Backed(s: State, log: set<Record>) {
    forall r :: Cached(s, r) ==> r in log
  }

  /** A record may be missing from its cache only if it has left Last seen, or a
      floor or an uncertainty deadline still stands in the way of readiness. */
  predicate Excused(s: State, r: Record, now: Time) {
    || !s.Requires(r.node)
    || Cached(s, r)
    || r.at + s.sampling.freshness <= now
    || r.at <= s.marks.floor
    || r.at + s.sampling.freshness <= s.marks.uncertainUntil
    || (r.node in s.lives.nodes &&
        (r.at <= s.lives.nodes[r.node].floor || r.at + s.sampling.freshness <= s.lives.nodes[r.node].uncertainUntil))
  }

  ghost predicate Covered(s: State, log: set<Record>, now: Time) {
    forall r :: r in log ==> r.at <= now && Excused(s, r, now)
  }

  ghost predicate Inv(s: State, log: set<Record>, now: Time) {
    Shape(s) && Backed(s, log) && Covered(s, log, now)
  }

  lemma InitialInv(now: Time)
    ensures Inv(Initial(now), {}, now)
  {
  }

  // ---------------------------------------------------------------------------
  // Node lives
  // ---------------------------------------------------------------------------

  /** Floors, deadlines and epochs of a node that stays only ever rise. */
  ghost predicate Raised(a: Lives, b: Lives, n: NodeId) {
    && a.nextEpoch <= b.nextEpoch
    && (n in b.nodes ==> 1 <= b.nodes[n].epoch <= b.nextEpoch)
    && (n in a.nodes ==>
          && n in b.nodes && a.nodes[n].floor <= b.nodes[n].floor && a.nodes[n].epoch <= b.nodes[n].epoch
          && a.nodes[n].uncertainUntil <= b.nodes[n].uncertainUntil)
  }

  /** Retiring raises the floor and renews the epoch of exactly the changed nodes. */
  lemma {:induction false} RetireChangedAt(l: Lives, previous: Option<map<NodeId, bool>>, fleet: map<NodeId, bool>,
                                           order: seq<NodeId>, now: Time, n: NodeId)
    requires n in l.nodes ==> 1 <= l.nodes[n].epoch <= l.nextEpoch
    ensures var r := RetireChanged(l, previous, fleet, order, now);
      && Raised(l, r, n)
      && (n in order && Changed(previous, fleet, n) ==>
            n in r.nodes && r.nodes[n].floor >= now && r.nodes[n].epoch > l.nextEpoch)
      && (!Changed(previous, fleet, n) ==> (n in r.nodes <==> n in l.nodes) && (n in l.nodes ==> r.nodes[n] == l.nodes[n]))
    decreases |order|
  {
    if |order| > 0 {
      var first := order[0];
      var t := if Changed(previous, fleet, first) then RetireNode(l, first, now) else l;
      RetireChangedAt(t, previous, fleet, order[1..], now, n);
      assert n in order ==> n == first || n in order[1..];
    }
  }

  lemma {:induction false} RetireChangedEpoch(l: Lives, previous: Option<map<NodeId, bool>>, fleet: map<NodeId, bool>,
                                              order: seq<NodeId>, now: Time)
    ensures RetireChanged(l, previous, fleet, order, now).nextEpoch >= l.nextEpoch
    decreases |order|
  {
    if |order| > 0 {
      var t := if Changed(previous, fleet, order[0]) then RetireNode(l, order[0], now) else l;
      RetireChangedEpoch(t, previous, fleet, order[1..], now);
    }
  }

  // ---------------------------------------------------------------------------
  // Fleet operations
  // ---------------------------------------------------------------------------

  /** The facts a fleet refresh leaves behind: a required node either stayed with
      its memory, or starts a new life whose floor is now. */
  ghost predicate Refreshed(s: State, r: State, now: Time) {
    && r.sampling == s.sampling && r.marks.floor == s.marks.floor && r.marks.uncertainUntil == s.marks.uncertainUntil
    && r.lives.nextEpoch >= s.lives.nextEpoch && LivesOk(r.lives)
    && (forall n :: n in r.seen ==> n in s.seen && r.seen[n] == s.seen[n])
    && (if r.fleet.required.None? then r.lives == s.lives else r.lives.nodes.Keys <= r.fleet.required.value.Keys)
    && (forall n :: r.Requires(n) ==>
          && n in r.lives.nodes
          && (Reborn(s, r, n, now) || Stayed(s, r, n)))
  }

  predicate Reborn(s: State, r: State, n: NodeId, now: Time) {
    n in r.lives.nodes && r.lives.nodes[n].floor >= now && r.lives.nodes[n].epoch > s.lives.nextEpoch
  }

  predicate Stayed(s: State, r: State, n: NodeId) {
    && s.Requires(n) && r.Requires(n) && s.fleet.required.value[n] == r.fleet.required.value[n]
    && n in s.lives.nodes && n in r.lives.nodes && r.lives.nodes[n] == s.lives.nodes[n]
    && (n in s.seen ==> n in r.seen)
  }

  lemma RefreshFacts(s: State, order: seq<NodeId>, now: Time)
    requires s.fleet.panel.Some? ==> forall n :: n in s.fleet.panel.value ==> n in order
    requires forall n :: s.Requires(n) ==> n in s.lives.nodes
    requires LivesOk(s.lives)
    ensures Refreshed(s, RefreshRequired(s, order, now), now)
  {
    var fleet := RequiredOf(s.fleet.panel, s.sampling.disabledNodes);
    if fleet.Some? {
      var r := RefreshRequired(s, order, now);
      RetireChangedEpoch(s.lives, s.fleet.required, fleet.value, order, now);
      forall n ensures n in r.lives.nodes ==> 1 <= r.lives.nodes[n].epoch <= r.lives.nextEpoch
               ensures r.Requires(n) ==> n in r.lives.nodes && (Reborn(s, r, n, now) || Stayed(s, r, n))
      {
        RetireChangedAt(s.lives, s.fleet.required, fleet.value, order, now, n);
      }
    }
  }

  lemma RefreshKeeps(s: State, r: State, log: set<Record>, was: Time, now: Time)
    requires Inv(s, log, was) && was <= now && Refreshed(s, r, now)
    ensures Inv(r, log, now)
  {
    forall e | e in log ensures e.at <= now && Excused(r, e, now) {
      assert Excused(s, e, was);
    }
    forall e | Cached(r, e) ensures e in log {
      assert Cached(s, e);
    }
  }

  lemma RegisterKeeps(s: State, log: set<Record>, was: Time, panel: Option<map<NodeId, Status>>, order: seq<NodeId>, now: Time)
    requires Inv(s, log, was) && was <= now
    requires panel.Some? ==> forall n :: n in panel.value ==> n in order
    ensures Inv(RegisterFleet(s, panel, order, now), log, now)
  {
    var a := FleetLost(s, s.fleet.required.Some? && now - s.fleet.seenAt > Silence(s.sampling.interval), now);
    var p := a.(fleet := a.fleet.(panel := panel));
    RefreshFacts(p, order, now);
    hide RefreshRequired, Inv;
    var r := RefreshRequired(p, order, now);
    RefreshedFrom(s, p, r, now);
    RefreshKeeps(s, r.(fleet := r.fleet.(seenAt := now)), log, was, now);
  }

  lemma RefreshedFrom(s: State, p: State, r: State, now: Time)
    requires Refreshed(p, r, now)
    requires p.sampling == s.sampling && p.lives == s.lives && p.seen == s.seen && p.fleet.required == s.fleet.required
    requires p.marks.floor == s.marks.floor && p.marks.uncertainUntil == s.marks.uncertainUntil
    ensures Refreshed(s, r.(fleet := r.fleet.(seenAt := now)), now)
  {
    var f := r.(fleet := r.fleet.(seenAt := now));
    forall n | f.Requires(n) ensures Reborn(s, f, n, now) || Stayed(s, f, n) {
      assert r.Requires(n);
    }
  }

  // ---------------------------------------------------------------------------
  // Faults and evictions
  // ---------------------------------------------------------------------------

  /** Operations on one memory and on fault deadlines only move excuses forward. */
  ghost predicate Forward(s: State, r: State) {
    && r.sampling == s.sampling && r.fleet == s.fleet
    && r.marks.floor == s.marks.floor && r.marks.uncertainUntil >= s.marks.uncertainUntil
    && LivesOk(r.lives)
    && s.lives.nextEpoch <= r.lives.nextEpoch
    && (forall n :: n in s.lives.nodes ==> Raised(s.lives, r.lives, n))
  }

  lemma ForwardTrans(a: State, b: State, c: State)
    requires Forward(a, b) && Forward(b, c)
    ensures Forward(a, c)
  {
    forall n | n in a.lives.nodes ensures Raised(a.lives, c.lives, n) {
      assert Raised(a.lives, b.lives, n) && Raised(b.lives, c.lives, n);
    }
  }

  lemma ForwardExcuses(s: State, r: State, e: Record, was: Time, now: Time)
    requires Forward(s, r) && was <= now && Excused(s, e, was)
    requires Cached(s, e) ==> Cached(r, e) || e.at + r.sampling.freshness <= now
    ensures Excused(r, e, now)
  {
    if e.node in s.lives.nodes {
      assert Raised(s.lives, r.lives, e.node);
    }
  }

  lemma UncertainForward(s: State, n: Option<NodeId>, deadline: Time, now: Time)
    requires LivesOk(s.lives)
    ensures var r := MarkUncertain(s, n, deadline, now);
      && Forward(s, r) && r.seen == s.seen
      && (n.Some? ==> r.marks.uncertainUntil >= deadline
                      || (n.value in r.lives.nodes && r.lives.nodes[n.value].uncertainUntil >= deadline))
  {
  }

  lemma GapForward(s: State, n: Option<NodeId>, when: Time)
    requires LivesOk(s.lives)
    ensures Forward(s, NoteTransportGap(s, n, when)) && NoteTransportGap(s, n, when).seen == s.seen
  {
  }

  lemma MemoryForward(s: State, n: NodeId, m: Memory)
    requires LivesOk(s.lives)
    ensures Forward(s, WithMemory(s, n, m))
  {
  }

  lemma EvictOldestFacts(s: State, n: NodeId, now: Time)
    requires n in s.seen && LivesOk(s.lives)
    requires |s.seen[n].order| > 0 && s.seen[n].order[0] in s.seen[n].at
    ensures var t := EvictOldest(s, n, now);
      Forward(s, t) && t.seen == s.seen[n := WithoutOldest(s.seen[n])]
  {
    var m := s.seen[n];
    var w := WithMemory(s, n, WithoutOldest(m));
    MemoryForward(s, n, WithoutOldest(m));
    UncertainForward(w, Some(n), m.at[m.order[0]] + s.sampling.freshness, now);
    if m.at[m.order[0]] + s.sampling.freshness > now {
      ForwardTrans(s, w, EvictOldest(s, n, now));
    }
  }

  /** The one record an eviction drops is expired or leaves a deadline behind. */
  lemma EvictOldestExcuses(s: State, n: NodeId, now: Time, e: Record)
    requires n in s.seen && LivesOk(s.lives)
    requires |s.seen[n].order| > 0 && s.seen[n].order[0] in s.seen[n].at
    requires Cached(s, e)
    ensures Excused(EvictOldest(s, n, now), e, now)
  {
    EvictOldestFacts(s, n, now);
    var m := s.seen[n];
    UncertainForward(WithMemory(s, n, WithoutOldest(m)), Some(n), m.at[m.order[0]] + s.sampling.freshness, now);
    if e.node != n || e.id != m.order[0] {
      assert Cached(EvictOldest(s, n, now), e);
    }
  }

  ghost predicate SubMemory(a: Memory, b: Memory) {
    forall id :: id in a.at ==> id in b.at && a.at[id] == b.at[id]
  }

  /** Eviction down to the capacity: every record it drops is excused. */
  lemma {:induction false} EvictFacts(s: State, n: NodeId, now: Time)
    requires n in s.seen && s.ValidMemories() && LivesOk(s.lives)
    ensures var r := EvictOver(s, n, now);
      && Forward(s, r)
      && (forall k :: k in s.seen && k != n ==> r.seen[k] == s.seen[k])
      && r.seen[n].index == s.seen[n].index
      && |r.seen[n].order| <= |s.seen[n].order| && |r.seen[n].order| <= s.sampling.capacity
      && SubMemory(r.seen[n], s.seen[n])
      && (forall e :: Cached(s, e) ==> Excused(r, e, now))
    decreases |s.seen[n].order|
  {
    var m := s.seen[n];
    if |m.order| > s.sampling.capacity {
      var oldest := m.order[0];
      assert oldest in m.order && oldest in m.at;
      WithoutOldestKeeps(m);
      EvictOldestFacts(s, n, now);
      var t := EvictOldest(s, n, now);
      EvictFacts(t, n, now);
      var r := EvictOver(t, n, now);
      ForwardTrans(s, t, r);
      forall e | Cached(s, e) ensures Excused(r, e, now) {
        EvictOldestExcuses(s, n, now, e);
        if !Cached(t, e) {
          ForwardExcuses(t, r, e, now, now);
        }
      }
    }
  }

  /** Eviction and compaction bound one memory and excuse what they drop. */
  lemma SettledFacts(s: State, n: NodeId, now: Time)
    requires n in s.seen && s.ValidMemories() && LivesOk(s.lives)
    ensures var r := Settled(s, n, now);
      && Forward(s, r)
      && r.seen.Keys == s.seen.Keys
      && (forall k :: k in s.seen && k != n ==> r.seen[k] == s.seen[k])
      && r.seen[n].Valid() && r.seen[n].Bounded(s.sampling.capacity)
      && SubMemory(r.seen[n], s.seen[n])
      && (forall e :: Cached(s, e) ==> Excused(r, e, now))
  {
    EvictFacts(s, n, now);
    var t := EvictOver(s, n, now);
    CompactedKeeps(t.seen[n]);
    MemoryForward(t, n, Compacted(t.seen[n]));
    var r := Settled(s, n, now);
    ForwardTrans(s, t, r);
    forall e | Cached(s, e) ensures Excused(r, e, now) {
      assert Excused(t, e, now);
      assert Cached(t, e) ==> Cached(r, e);
      ForwardExcuses(t, r, e, now, now);
    }
  }

  /** One memory was rewritten: the others and the settings are as before. */
  ghost predicate OnlyMemory(s: State, r: State, n: NodeId) {
    && Forward(s, r) && n in r.seen
    && (forall k :: k in r.seen && k != n ==> k in s.seen && r.seen[k] == s.seen[k])
    && (forall k :: k in s.seen && k != n ==> k in r.seen)
    && r.seen[n].Valid() && r.seen[n].Bounded(r.sampling.capacity)
  }

  lemma OnlyMemoryKeeps(s: State, r: State, n: NodeId, log: set<Record>, more: set<Record>, was: Time, now: Time)
    requires Inv(s, log, was) && was <= now && OnlyMemory(s, r, n)
    requires forall e :: Cached(r, e) && e.node == n ==> e in log + more
    requires forall e :: Cached(s, e) && e.node == n ==> Excused(r, e, now)
    requires forall e :: e in more ==> e.at <= now && Excused(r, e, now)
    ensures Inv(r, log + more, now)
  {
    forall e | e in log ensures e.at <= now && Excused(r, e, now) {
      assert Excused(s, e, was);
      if !(e.node == n && Cached(s, e)) {
        ForwardExcuses(s, r, e, was, now);
      }
    }
    forall e | Cached(r, e) ensures e in log + more {
      assert e.node != n ==> Cached(s, e);
    }
    forall k | r.Requires(k) ensures k in r.lives.nodes {
      assert s.Requires(k);
      assert Raised(s.lives, r.lives, k);
    }
  }

  // ---------------------------------------------------------------------------
  // Admission
  // ---------------------------------------------------------------------------

  lemma SweptFacts(s: State, n: NodeId, now: Time)
    requires s.ValidMemories()
    ensures var m := Swept(s, n, now);
      && m.Valid()
      && (forall id :: id in m.at ==> Cached(s, Record(n, id, m.at[id])))
      && (forall id :: n in s.seen && id in s.seen[n].at && s.seen[n].at[id] > now - s.sampling.freshness ==>
            id in m.at && m.at[id] == s.seen[n].at[id])
      && (forall id :: id in m.at ==> m.at[id] > now - s.sampling.freshness)
      && |m.order| <= (if n in s.seen then |s.seen[n].order| else 0)
  {
    ExpiredKeeps(MemoryOf(s, n), now - s.sampling.freshness);
    hide Expired;
  }

  lemma DuplicateKeeps(s: State, log: set<Record>, was: Time, n: NodeId, id: Fingerprint, at: Time, now: Time)
    requires Inv(s, log, was) && was <= now && id in Swept(s, n, now).at
    ensures Inv(AdmitFresh(s, n, id, at, now).0, log, now)
  {
    SweptFacts(s, n, now);
    var m := Swept(s, n, now);
    CompactedKeeps(m);
    hide Settled, Swept, Compacted;
    MemoryForward(s, n, Compacted(m));
    var r := WithMemory(s, n, Compacted(m));
    forall e | Cached(r, e) && e.node == n ensures e in log + {} {
      assert Cached(s, e);
    }
    OnlyMemoryKeeps(s, r, n, log, {}, was, now);
    assert log + {} == log;
  }

  lemma AcceptKeeps(s: State, log: set<Record>, was: Time, n: NodeId, id: Fingerprint, at: Time, now: Time)
    requires Inv(s, log, was) && was <= now && at <= now && id !in Swept(s, n, now).at
    ensures Inv(AdmitFresh(s, n, id, at, now).0, log + {Record(n, id, at)}, now)
  {
    hide Settled, Swept, Excused, Cached;
    SweptFacts(s, n, now);
    var m := Swept(s, n, now);
    PushedKeeps(m, id, at);
    MemoryForward(s, n, Pushed(m, id, at));
    var p := WithMemory(s, n, Pushed(m, id, at));
    SettledFacts(p, n, now);
    var r := Settled(p, n, now);
    ForwardTrans(s, p, r);
    AcceptExcuses(s, p, r, log, n, id, at, now);
    OnlyMemoryKeeps(s, r, n, log, {Record(n, id, at)}, was, now);
  }

  lemma AcceptExcuses(s: State, p: State, r: State, log: set<Record>, n: NodeId, id: Fingerprint, at: Time, now: Time)
    requires Backed(s, log) && Forward(s, r) && n in r.seen && n in p.seen && s.ValidMemories()
    requires id !in Swept(s, n, now).at
    requires p == WithMemory(s, n, Pushed(Swept(s, n, now), id, at))
    requires SubMemory(r.seen[n], p.seen[n])
    requires forall e :: Cached(p, e) ==> Excused(r, e, now)
    ensures Excused(r, Record(n, id, at), now)
    ensures forall e :: Cached(s, e) && e.node == n ==> Excused(r, e, now)
    ensures forall e :: Cached(r, e) && e.node == n ==> e in log + {Record(n, id, at)}
  {
    SweptFacts(s, n, now);
    assert Cached(p, Record(n, id, at));
    forall e | Cached(s, e) && e.node == n ensures Excused(r, e, now) {
      if e.at > now - s.sampling.freshness {
        assert Cached(p, e);
      }
    }
    forall e | Cached(r, e) && e.node == n ensures e in log + {Record(n, id, at)} {
      assert Cached(p, e);
      assert e.id != id ==> Cached(s, e);
    }
  }

  lemma ObserveKeeps(s: State, log: set<Record>, was: Time, n: NodeId, id: Fingerprint, at: Option<Time>, now: Time)
    requires Inv(s, log, was) && was <= now
    ensures var (r, accepted) := Admit(s, n, id, at, now);
      Inv(r, if accepted && at.Some? then log + {Record(n, id, at.value)} else log, now)
  {
    hide Settled, MarkUncertain, Swept, Covered, Backed;
    if at.None? || at.value > now {
      var deadline := if at.None? then now + s.sampling.freshness else at.value + s.sampling.freshness;
      UncertainForward(s, Some(n), deadline, now);
      ForwardKeeps(s, MarkUncertain(s, Some(n), deadline, now), log, was, now);
    } else if at.value < s.marks.floor || now - at.value >= s.sampling.freshness {
      LaterKeeps(s, log, was, now);
    } else if id in Swept(s, n, now).at {
      DuplicateKeeps(s, log, was, n, id, at.value, now);
    } else {
      AcceptKeeps(s, log, was, n, id, at.value, now);
    }
  }

  // ---------------------------------------------------------------------------
  // Configuration
  // ---------------------------------------------------------------------------

  lemma ResizedFacts(s: State, n: NodeId, now: Time)
    requires s.ValidMemories() && LivesOk(s.lives)
    ensures var r := Resized(s, n, now);
      && Forward(s, r) && r.seen.Keys == s.seen.Keys
      && (forall k :: k in s.seen && k != n ==> r.seen[k] == s.seen[k])
      && (n in s.seen ==> r.seen[n].Bounded(r.sampling.capacity) && SubMemory(r.seen[n], s.seen[n]))
  {
    if n in s.seen {
      var m := Swept(s, n, now);
      SweptSub(s, n, now);
      hide Settled, Excused, Swept, Cached, SubMemory;
      MemoryForward(s, n, m);
      var p := WithMemory(s, n, m);
      SettledFacts(p, n, now);
      ForwardTrans(s, p, Settled(p, n, now));
      SubMemoryTrans(Settled(p, n, now).seen[n], m, s.seen[n]);
    }
  }

  lemma SweptSub(s: State, n: NodeId, now: Time)
    requires s.ValidMemories() && n in s.seen
    ensures SubMemory(Swept(s, n, now), s.seen[n])
  {
    ExpiredKeeps(s.seen[n], now - s.sampling.freshness);
  }

  lemma SubMemoryTrans(a: Memory, b: Memory, c: Memory)
    requires SubMemory(a, b) && SubMemory(b, c)
    ensures SubMemory(a, c)
  {
  }

  lemma {:induction false} ResizedAllForward(s: State, order: seq<NodeId>, now: Time)
    requires s.ValidMemories() && LivesOk(s.lives)
    ensures Forward(s, ResizedAll(s, order, now)) && ResizedAll(s, order, now).seen.Keys == s.seen.Keys
    decreases |order|
  {
    if |order| > 0 {
      ResizedFacts(s, order[0], now);
      var t := Resized(s, order[0], now);
      ResizedAllForward(t, order[1..], now);
      ForwardTrans(s, t, ResizedAll(t, order[1..], now));
    }
  }

  /** A visited memory ends within bounds, holding nothing it did not hold. */
  lemma {:induction false} ResizedAllAt(s: State, order: seq<NodeId>, now: Time, k: NodeId)
    requires s.ValidMemories() && LivesOk(s.lives) && k in s.seen
    ensures var r := ResizedAll(s, order, now);
      && r.sampling == s.sampling && k in r.seen
      && SubMemory(r.seen[k], s.seen[k])
      && (k in order || s.seen[k].Bounded(s.sampling.capacity) ==> r.seen[k].Bounded(r.sampling.capacity))
    decreases |order|
  {
    if |order| > 0 {
      ResizedFacts(s, order[0], now);
      ResizedAllAt(Resized(s, order[0], now), order[1..], now, k);
      assert k in order ==> k == order[0] || k in order[1..];
    }
  }

  /** Every floor set by a new configuration excuses all that was admitted before. */
  lemma ConfigureKeeps(s: State, log: set<Record>, was: Time, c: Settings,
                       fleetOrder: seq<NodeId>, cacheOrder: seq<NodeId>, now: Time)
    requires Inv(s, log, was) && was <= now
    requires Enabled(s, Timed(now, Configured(c, fleetOrder, cacheOrder)))
    ensures Inv(Configure(s, c, fleetOrder, cacheOrder, now).0, log, now)
  {
    if s.sampling.signature == Some(c) {
      LaterKeeps(s, log, was, now);
    } else {
      InvShape(s, log, was);
      hide Inv, RefreshRequired, ResizedAll;
      var a := Reconfigured(s, c, now);
      RefreshFacts(a, fleetOrder, now);
      var b := RefreshRequired(a, fleetOrder, now);
      var d := b.(sampling := Parsed(b.sampling, c));
      ResizedAllForward(d, cacheOrder, now);
      var r := ResizedAll(d, cacheOrder, now);
      forall k | k in r.seen ensures r.seen[k].Bounded(r.sampling.capacity) && k in s.seen && SubMemory(r.seen[k], s.seen[k]) {
        assert k in b.seen;
        ResizedAllAt(d, cacheOrder, now, k);
      }
      forall n | r.Requires(n) ensures n in r.lives.nodes {
        assert b.Requires(n);
        assert Raised(d.lives, r.lives, n);
      }
      FloorKeeps(s, r, log, was, now);
    }
  }

  lemma InvShape(s: State, log: set<Record>, now: Time)
    requires Inv(s, log, now)
    ensures Shape(s)
  {
  }

  /** A floor raised to now excuses everything admitted so far. */
  lemma FloorKeeps(s: State, r: State, log: set<Record>, was: Time, now: Time)
    requires Inv(s, log, was) && was <= now
    requires r.marks.floor == now && r.sampling.freshness > 0.0 && r.sampling.capacity >= 1 && LivesOk(r.lives)
    requires forall n :: r.Requires(n) ==> n in r.lives.nodes
    requires forall k :: k in r.seen ==>
               r.seen[k].Valid() && r.seen[k].Bounded(r.sampling.capacity) && k in s.seen && SubMemory(r.seen[k], s.seen[k])
    ensures Inv(r, log, now)
  {
    forall e | Cached(r, e) ensures e in log {
      assert Cached(s, e);
    }
  }

  lemma LaterKeeps(s: State, log: set<Record>, was: Time, now: Time)
    requires Inv(s, log, was) && was <= now
    ensures Inv(s, log, now)
  {
    forall e | e in log ensures e.at <= now && Excused(s, e, now) {
      assert Excused(s, e, was);
    }
  }

  lemma ForwardKeeps(s: State, r: State, log: set<Record>, was: Time, now: Time)
    requires Inv(s, log, was) && was <= now
    requires Forward(s, r) && r.seen == s.seen
    ensures Inv(r, log, now)
  {
    forall e | e in log ensures e.at <= now && Excused(r, e, now) {
      ForwardExcuses(s, r, e, was, now);
    }
    forall e | Cached(r, e) ensures e in log {
      assert Cached(s, e);
    }
    forall n | r.Requires(n) ensures n in r.lives.nodes {
      assert Raised(s.lives, r.lives, n);
    }
  }

  // ---------------------------------------------------------------------------
  // Every step keeps the invariant, over every run
  // ---------------------------------------------------------------------------

  lemma StepKeeps(s: State, log: set<Record>, was: Time, e: Timed)
    requires Inv(s, log, was) && was <= e.now && Enabled(s, e)
    ensures Inv(Step(s, e), Logged(s, log, e), e.now)
  {
    hide Settled, AdmitFresh, RefreshRequired, ResizedAll, RegisterFleet, Configure, Swept;
    match e.event
    case SourceChanged =>
      forall r | r in log ensures Excused(Invalidate(s, e.now), r, e.now) {}
      forall r | Cached(Invalidate(s, e.now), r) ensures r in log { assert Cached(s, r); }
    case Configured(c, fleetOrder, cacheOrder) => ConfigureKeeps(s, log, was, c, fleetOrder, cacheOrder, e.now);
    case FleetRegistered(panel, order) => RegisterKeeps(s, log, was, panel, order, e.now);
    case TransportGap(n, when) =>
      GapForward(s, n, when);
      ForwardKeeps(s, NoteTransportGap(s, n, when), log, was, e.now);
    case Uncertain(n, until) =>
      var deadline := if until.Some? then until.value else e.now + s.sampling.freshness;
      UncertainForward(s, n, deadline, e.now);
      ForwardKeeps(s, MarkUncertain(s, n, deadline, e.now), log, was, e.now);
    case Observed(n, id, at) => ObserveKeeps(s, log, was, n, id, at, e.now);
  }

  /** A machine: the state, the unbounded memory and the time of the last event. */
  datatype Machine = Machine(state: State, log: set<Record>, time: Time)

  ghost predicate Possible(m: Machine, es: seq<Timed>)
    requires m.state.ValidMemories()
    decreases |es|
  {
    |es| == 0 || (m.time <= es[0].now && Enabled(m.state, es[0]) && Possible(Next(m, es[0]), es[1..]))
  }

  ghost function Next(m: Machine, e: Timed): (r: Machine)
    requires m.state.ValidMemories()
    ensures r.state.ValidMemories()
  {
    Machine(Step(m.state, e), Logged(m.state, m.log, e), e.now)
  }

  ghost function Run(m: Machine, es: seq<Timed>): (r: Machine)
    requires m.state.ValidMemories()
    ensures r.state.ValidMemories()
    decreases |es|
  {
    if |es| == 0 then m else Run(Next(m, es[0]), es[1..])
  }

  lemma {:induction false} RunKeeps(m: Machine, es: seq<Timed>)
    requires Inv(m.state, m.log, m.time) && Possible(m, es)
    ensures var r := Run(m, es); Inv(r.state, r.log, r.time) && m.time <= r.time
    decreases |es|
  {
    if |es| > 0 {
      StepKeeps(m.state, m.log, m.time, es[0]);
      RunKeeps(Next(m, es[0]), es[1..]);
    }
  }

  function Start(now: Time): Machine {
    Machine(Initial(now), {}, now)
  }
}
