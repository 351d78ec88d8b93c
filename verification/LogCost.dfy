/** The amortized cost of the lazy expiry index (utils/log_observations.py:425-431). */
module LogCost {
  import opened Collections
  import opened ReplayMemory
  import opened LogState
  import opened LogRuns

  function IndexSize(s: State, n: NodeId): nat {
    if n in s.seen then |s.seen[n].index| else 0
  }

  /** Entries rebuilt when the node's memory is settled. */
  ghost function SettledWork(s: State, k: NodeId, now: Time, n: NodeId): nat
    requires k in s.seen && s.ValidMemories()
  {
    if k == n then RebuildCost(EvictOver(s, k, now).seen[n]) else 0
  }

  ghost function ResizedWork(s: State, k: NodeId, now: Time, n: NodeId): nat
    requires s.ValidMemories()
  {
    if k !in s.seen then 0 else SettledWork(WithMemory(s, k, Swept(s, k, now)), k, now, n)
  }

  ghost function ResizedAllWork(s: State, order: seq<NodeId>, now: Time, n: NodeId): nat
    requires s.ValidMemories()
    decreases |order|
  {
    if |order| == 0 then 0
    else ResizedWork(s, order[0], now, n) + ResizedAllWork(Resized(s, order[0], now), order[1..], now, n)
  }

  ghost function AdmitFreshWork(s: State, k: NodeId, id: Fingerprint, at: Time, now: Time, n: NodeId): nat
    requires s.ValidMemories()
  {
    var m := Swept(s, k, now);
    if id in m.at then if k == n then RebuildCost(m) else 0
    else
      PushedKeeps(m, id, at);
      SettledWork(WithMemory(s, k, Pushed(m, id, at)), k, now, n)
  }

  /** Entries of the node's index rebuilt by one event. */
  ghost function StepWork(s: State, e: Timed, n: NodeId): nat
    requires s.ValidMemories()
  {
    match e.event
    case Configured(c, fleetOrder, cacheOrder) =>
      if s.sampling.signature == Some(c) then 0
      else
        RefreshSeenOnly(Reconfigured(s, c, e.now), fleetOrder, e.now);
        var b := RefreshRequired(Reconfigured(s, c, e.now), fleetOrder, e.now);
        ResizedAllWork(b.(sampling := Parsed(b.sampling, c)), cacheOrder, e.now, n)
    case Observed(k, id, at) =>
      if at.None? || at.value > e.now || at.value < s.marks.floor || e.now - at.value >= s.sampling.freshness then 0
      else AdmitFreshWork(s, k, id, at.value, e.now, n)
    case _ => 0
  }

  ghost function AdmittedBy(s: State, e: Timed, n: NodeId): nat
    requires s.ValidMemories()
  {
    if Accepted(s, e) && e.event.source == n then 1 else 0
  }

  lemma RefreshSeenOnly(s: State, order: seq<NodeId>, now: Time)
    requires s.ValidMemories()
    ensures RefreshRequired(s, order, now).ValidMemories()
    ensures forall n :: IndexSize(RefreshRequired(s, order, now), n) <= IndexSize(s, n)
  {
  }

  lemma {:induction false} EvictIndex(s: State, k: NodeId, now: Time)
    requires k in s.seen && s.ValidMemories()
    ensures var r := EvictOver(s, k, now);
      && r.seen[k].index == s.seen[k].index
      && (forall j :: j in s.seen && j != k ==> r.seen[j] == s.seen[j])
    decreases |s.seen[k].order|
  {
    var m := s.seen[k];
    if |m.order| > s.sampling.capacity {
      EvictStep(s, k, now);
      hide EvictOldest;
      EvictIndex(EvictOldest(s, k, now), k, now);
    }
  }

  lemma SettledPays(s: State, k: NodeId, now: Time, n: NodeId)
    requires k in s.seen && s.ValidMemories()
    ensures SettledWork(s, k, now, n) + IndexSize(Settled(s, k, now), n) <= IndexSize(s, n)
  {
    EvictIndex(s, k, now);
    CompactedKeeps(EvictOver(s, k, now).seen[k]);
  }

  lemma ResizedPays(s: State, k: NodeId, now: Time, n: NodeId)
    requires s.ValidMemories()
    ensures ResizedWork(s, k, now, n) + IndexSize(Resized(s, k, now), n) <= IndexSize(s, n)
  {
    SweptIndex(s, k, now);
    hide SettledWork, Settled, Swept;
    if k in s.seen {
      SettledPays(WithMemory(s, k, Swept(s, k, now)), k, now, n);
    }
  }

  lemma {:induction false} ResizedAllPays(s: State, order: seq<NodeId>, now: Time, n: NodeId)
    requires s.ValidMemories()
    ensures ResizedAllWork(s, order, now, n) + IndexSize(ResizedAll(s, order, now), n) <= IndexSize(s, n)
    decreases |order|
  {
    hide ResizedWork, Resized;
    if |order| > 0 {
      ResizedPays(s, order[0], now, n);
      ResizedAllPays(Resized(s, order[0], now), order[1..], now, n);
    }
  }

  lemma SweptIndex(s: State, k: NodeId, now: Time)
    requires s.ValidMemories()
    ensures |Swept(s, k, now).index| <= IndexSize(s, k)
  {
    ExpiredKeeps(MemoryOf(s, k), now - s.sampling.freshness);
    hide Expired;
  }

  lemma AdmitPays(s: State, k: NodeId, id: Fingerprint, at: Time, now: Time, n: NodeId)
    requires s.ValidMemories()
    ensures var (r, accepted) := AdmitFresh(s, k, id, at, now);
      AdmitFreshWork(s, k, id, at, now, n) + IndexSize(r, n) <= IndexSize(s, n) + (if accepted && k == n then 1 else 0)
  {
    SweptIndex(s, k, now);
    hide SettledWork, Settled, Swept;
    var m := Swept(s, k, now);
    if id in m.at {
      CompactedKeeps(m);
    } else {
      PushedKeeps(m, id, at);
      SettledPays(WithMemory(s, k, Pushed(m, id, at)), k, now, n);
    }
  }

  lemma StepPays(s: State, e: Timed, n: NodeId)
    requires s.ValidMemories()
    ensures StepWork(s, e, n) + IndexSize(Step(s, e), n) <= IndexSize(s, n) + AdmittedBy(s, e, n)
  {
    hide AdmitFresh, AdmitFreshWork, ResizedAll, ResizedAllWork, RefreshRequired;
    match e.event
    case Configured(c, fleetOrder, cacheOrder) =>
      if s.sampling.signature != Some(c) {
        var a := Reconfigured(s, c, e.now);
        RefreshSeenOnly(a, fleetOrder, e.now);
        var b := RefreshRequired(a, fleetOrder, e.now);
        ResizedAllPays(b.(sampling := Parsed(b.sampling, c)), cacheOrder, e.now, n);
        assert IndexSize(b, n) <= IndexSize(a, n);
      }
    case FleetRegistered(panel, order) =>
      var a := FleetLost(s, s.fleet.required.Some? && e.now - s.fleet.seenAt > Silence(s.sampling.interval), e.now);
      RefreshSeenOnly(a.(fleet := a.fleet.(panel := panel)), order, e.now);
      assert IndexSize(RefreshRequired(a.(fleet := a.fleet.(panel := panel)), order, e.now), n) <= IndexSize(a, n);
    case Observed(k, id, at) =>
      if at.Some? { AdmitPays(s, k, id, at.value, e.now, n); }
    case _ =>
  }

  ghost function RunWork(m: Machine, es: seq<Timed>, n: NodeId): nat
    requires m.state.ValidMemories()
    decreases |es|
  {
    if |es| == 0 then 0 else StepWork(m.state, es[0], n) + RunWork(Next(m, es[0]), es[1..], n)
  }

  ghost function RunAdmissions(m: Machine, es: seq<Timed>, n: NodeId): nat
    requires m.state.ValidMemories()
    decreases |es|
  {
    if |es| == 0 then 0 else AdmittedBy(m.state, es[0], n) + RunAdmissions(Next(m, es[0]), es[1..], n)
  }

  lemma {:induction false} RunPays(m: Machine, es: seq<Timed>, n: NodeId)
    requires m.state.ValidMemories()
    ensures RunWork(m, es, n) + IndexSize(Run(m, es).state, n) <= IndexSize(m.state, n) + RunAdmissions(m, es, n)
    decreases |es|
  {
    if |es| > 0 {
      StepPays(m.state, es[0], n);
      RunPays(Next(m, es[0]), es[1..], n);
    }
  }

  /** Over every run, a node's index is rebuilt by at most one entry per admission
      in total, and every memory ends within capacity with an index at most twice
      its cache that still holds a stamp for every cached identity. */
  lemma RebuildsAreAmortized(start: Time, es: seq<Timed>, n: NodeId)
    requires Possible(Start(start), es)
    ensures RunWork(Start(start), es, n) <= RunAdmissions(Start(start), es, n)
    ensures var s := Run(Start(start), es).state;
      n in s.seen ==> s.seen[n].Valid() && s.seen[n].Bounded(s.sampling.capacity)
  {
    RunPays(Start(start), es, n);
    InitialInv(start);
    RunKeeps(Start(start), es);
  }
}
