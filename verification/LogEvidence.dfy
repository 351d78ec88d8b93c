/** Readiness, captured evidence and the main results of the log evidence machine
    (utils/log_observations.py). */
module LogEvidence {
  import opened Collections
  import opened ReplayMemory
  import opened LogState
  import opened LogRuns

  // ---------------------------------------------------------------------------
  // Readiness: the cases in which the source reports an empty reason
  // ---------------------------------------------------------------------------

  function Window(s: State): Time {
    Max(s.sampling.interval, s.sampling.freshness)
  }

  predicate GlobalReady(s: State, now: Time) {
    && s.sampling.source == "logs" && !s.sampling.configError
    && s.fleet.required.Some? && now - s.fleet.seenAt <= Silence(s.sampling.interval)
    && now >= s.marks.uncertainUntil
    && now - Window(s) >= Max(s.marks.floor, Max(s.fleet.floor, s.marks.transportFloor))
  }

  /** `heard` is the last event of each node's stream, kept outside the machine. */
  predicate NodeReady(s: State, heard: map<NodeId, Time>, n: NodeId, now: Time) {
    && s.Requires(n)
    && (if n in s.sampling.zones then s.sampling.zones[n] else s.sampling.defaultZone)
    && s.fleet.required.value[n]
    && n in heard && now - heard[n] <= Silence(s.sampling.interval)
    && n in s.lives.nodes && now >= s.lives.nodes[n].uncertainUntil
    && now - Window(s) >= s.lives.nodes[n].floor
  }

  predicate FleetReady(s: State, heard: map<NodeId, Time>, now: Time) {
    GlobalReady(s, now) && forall n <- s.fleet.required.value.Keys :: NodeReady(s, heard, n, now)
  }

  // ---------------------------------------------------------------------------
  // Bounded memory agrees with unbounded memory whenever the machine is ready
  // ---------------------------------------------------------------------------

  /** In every reachable state, at any later time, every record admitted from a
      ready node of a ready fleet and still inside Last seen is in its cache. */
  lemma ReadyRemembers(start: Time, es: seq<Timed>, heard: map<NodeId, Time>, now: Time, r: Record)
    requires Possible(Start(start), es)
    requires var m := Run(Start(start), es);
      && m.time <= now && r in m.log && now - r.at < m.state.sampling.freshness
      && GlobalReady(m.state, now) && NodeReady(m.state, heard, r.node, now)
    ensures Cached(Run(Start(start), es).state, r)
  {
    InitialInv(start);
    RunKeeps(Start(start), es);
    var m := Run(Start(start), es);
    assert Excused(m.state, r, m.time);
  }

  /** What a memory that never forgets would admit. */
  ghost predicate UnboundedAdmits(s: State, log: set<Record>, n: NodeId, id: Fingerprint, at: Option<Time>, now: Time) {
    && at.Some? && s.marks.floor <= at.value <= now && now - at.value < s.sampling.freshness
    && !exists t :: Record(n, id, t) in log && now - t < s.sampling.freshness
  }

  /** The bounded memory never turns away what an unbounded one would admit. */
  lemma BoundedNeverRejectsMore(start: Time, es: seq<Timed>, n: NodeId, id: Fingerprint, at: Option<Time>, now: Time)
    requires Possible(Start(start), es)
    requires var m := Run(Start(start), es);
      m.time <= now && UnboundedAdmits(m.state, m.log, n, id, at, now)
    ensures Admit(Run(Start(start), es).state, n, id, at, now).1
  {
    InitialInv(start);
    RunKeeps(Start(start), es);
    var m := Run(Start(start), es);
    SweptFacts(m.state, n, now);
    var swept := Swept(m.state, n, now);
    forall x | x in swept.at ensures Record(n, x, swept.at[x]) in m.log {
      assert Cached(m.state, Record(n, x, swept.at[x]));
    }
  }

  /** Whenever the node and the fleet are ready, the two memories agree exactly. */
  lemma ReadyAgreesWithUnbounded(start: Time, es: seq<Timed>, heard: map<NodeId, Time>,
                                 n: NodeId, id: Fingerprint, at: Option<Time>, now: Time)
    requires Possible(Start(start), es)
    requires var m := Run(Start(start), es);
      m.time <= now && GlobalReady(m.state, now) && NodeReady(m.state, heard, n, now)
    ensures var m := Run(Start(start), es);
      Admit(m.state, n, id, at, now).1 <==> UnboundedAdmits(m.state, m.log, n, id, at, now)
  {
    var m := Run(Start(start), es);
    if UnboundedAdmits(m.state, m.log, n, id, at, now) {
      BoundedNeverRejectsMore(start, es, n, id, at, now);
    }
    SweptFacts(m.state, n, now);
    forall t | Record(n, id, t) in m.log && now - t < m.state.sampling.freshness
      ensures id in Swept(m.state, n, now).at
    {
      ReadyRemembers(start, es, heard, now, Record(n, id, t));
    }
  }

  // ---------------------------------------------------------------------------
  // Captured evidence
  // ---------------------------------------------------------------------------

  datatype Evidence = Evidence(
    generation: nat, configRevision: int, intervalStart: Time, intervalEnd: Time, faultVersion: nat,
    unavailable: bool, eligible: Option<set<NodeId>>, required: Option<set<NodeId>>,
    versions: map<NodeId, nat>, complete: bool, freshness: Time)

  function RequiredNodes(s: State): Option<set<NodeId>> {
    if s.fleet.required.Some? then Some(s.fleet.required.value.Keys) else None
  }

  function EligibleNodes(s: State, heard: map<NodeId, Time>, now: Time): Option<set<NodeId>> {
    if s.fleet.required.None? then None
    else if !GlobalReady(s, now) then Some({})
    else Some(set n | n in s.fleet.required.value && NodeReady(s, heard, n, now))
  }

  function Capture(s: State, revision: int, heard: map<NodeId, Time>, now: Time): Evidence {
    var required := RequiredNodes(s);
    var eligible := EligibleNodes(s, heard, now);
    Evidence(
      s.marks.generation, revision, now - s.sampling.freshness, now, s.marks.faultVersion,
      !FleetReady(s, heard, now), eligible, required,
      if eligible.None? then map[] else map n | n in eligible.value :: s.lives.nodes[n].epoch,
      required.Some? && eligible == required && GlobalReady(s, now), s.sampling.freshness)
  }

  predicate IsCurrent(s: State, revision: int, heard: map<NodeId, Time>, now: Time, ev: Evidence, allowPartial: bool) {
    && ev.generation == s.marks.generation && ev.configRevision == revision && ev.faultVersion == s.marks.faultVersion
    && ev.required.Some? && GlobalReady(s, now)
    && (ev.complete ==> ev.required == RequiredNodes(s))
    && (!allowPartial ==>
          ev.complete && !ev.unavailable && ev.required == RequiredNodes(s) && FleetReady(s, heard, now))
    && (ev.complete || (ev.eligible.Some? && ev.eligible.value != {}))
    && forall n <- ev.versions.Keys ::
         n in s.lives.nodes && s.lives.nodes[n].epoch == ev.versions[n] && NodeReady(s, heard, n, now)
  }

  function NodeEpoch(s: State, n: NodeId): nat {
    if n in s.lives.nodes then s.lives.nodes[n].epoch else 0
  }

  function RetainedVersions(s: State, heard: map<NodeId, Time>, now: Time, ev: Evidence): map<NodeId, nat> {
    map n | n in ev.versions && NodeEpoch(s, n) == ev.versions[n] && NodeReady(s, heard, n, now) :: ev.versions[n]
  }

  function RetainCurrentNodes(s: State, revision: int, heard: map<NodeId, Time>, now: Time, ev: Evidence): Option<Evidence> {
    if IsCurrent(s, revision, heard, now, ev, true) then Some(ev)
    else
      var versions := RetainedVersions(s, heard, now, ev);
      var retained := ev.(versions := versions, eligible := Some(versions.Keys),
        complete := ev.complete && ev.eligible == Some(versions.Keys)
                    && ev.required == Some(if s.fleet.required.Some? then s.fleet.required.value.Keys else {}));
      if IsCurrent(s, revision, heard, now, retained, true) then Some(retained) else None
  }

  /** Captured evidence, or a part of it kept by retention. */
  predicate PartOf(kept: Evidence, ev: Evidence) {
    && kept.generation == ev.generation && kept.faultVersion == ev.faultVersion && kept.required == ev.required
    && kept.configRevision == ev.configRevision
    && kept.intervalStart == ev.intervalStart && kept.intervalEnd == ev.intervalEnd
    && kept.versions.Keys <= ev.versions.Keys
    && (forall n <- kept.versions.Keys :: kept.versions[n] == ev.versions[n])
    && (kept.complete ==> ev.complete)
  }

  /** Eligible nodes are exactly the witnesses, and completeness means all required nodes. */
  predicate Coherent(ev: Evidence) {
    && (ev.eligible.Some? ==> ev.eligible.value == ev.versions.Keys)
    && (ev.complete ==> ev.required == Some(ev.versions.Keys))
  }

  lemma CaptureCoherent(s: State, revision: int, heard: map<NodeId, Time>, now: Time)
    ensures Coherent(Capture(s, revision, heard, now))
  {
    var eligible := EligibleNodes(s, heard, now);
    if eligible.Some? {
      SameSet(Capture(s, revision, heard, now).versions.Keys, eligible.value);
    }
  }

  /** Retention only shrinks the node set, keeps the interval, and never turns
      incomplete coverage complete; what it returns is current. */
  lemma RetentionOnlyShrinks(s: State, revision: int, heard: map<NodeId, Time>, now: Time, ev: Evidence)
    requires Coherent(ev)
    ensures var r := RetainCurrentNodes(s, revision, heard, now, ev);
      r.Some? ==>
        && PartOf(r.value, ev) && Coherent(r.value) && IsCurrent(s, revision, heard, now, r.value, true)
        && (forall n <- ev.versions.Keys ::
              n in r.value.versions <==>
                n in s.lives.nodes && s.lives.nodes[n].epoch == ev.versions[n] && NodeReady(s, heard, n, now))
  {
  }

  // ---------------------------------------------------------------------------
  // Evidence is free of ABA
  // ---------------------------------------------------------------------------

  /** The node joined, left, or changed connection in a fleet that stays known. */
  predicate MembershipChanged(s: State, r: State, n: NodeId) {
    && r.fleet.required.Some?
    && (s.Requires(n) != r.Requires(n)
        || (s.Requires(n) && r.Requires(n) && s.fleet.required.value[n] != r.fleet.required.value[n]))
  }

  /** The event ends what was captured of this node: a stream gap, a timestamp or
      replay fault, the loss of a live replay identity, or a fleet change. */
  ghost predicate Disturbs(s: State, e: Timed, n: NodeId)
    requires s.ValidMemories()
  {
    || MembershipChanged(s, Step(s, e), n)
    || (match e.event
        case TransportGap(k, _) => k == Some(n)
        case Uncertain(k, _) => k == Some(n) && s.Requires(n)
        case Observed(k, id, at) =>
          && k == n && s.Requires(n)
          && (at.None? || at.value > e.now
              || (Accepted(s, e) && |Swept(s, n, e.now).order| >= s.sampling.capacity))
        case _ => false)
  }

  /** The event ends every captured sample. */
  ghost predicate DisturbsAll(s: State, e: Timed)
    requires s.ValidMemories()
  {
    || s.fleet.required.None? != Step(s, e).fleet.required.None?
    || (match e.event
        case SourceChanged => true
        case Configured(c, _, _) => s.sampling.signature != Some(c)
        case FleetRegistered(_, _) =>
          s.fleet.required.Some? && e.now - s.fleet.seenAt > Silence(s.sampling.interval)
        case TransportGap(k, _) => k.None?
        case Uncertain(k, _) => k.None? || !s.Requires(k.value)
        case Observed(n, id, at) =>
          && !s.Requires(n)
          && (at.None? || at.value > e.now
              || (Accepted(s, e) && |Swept(s, n, e.now).order| >= s.sampling.capacity)))
  }

  ghost predicate Undisturbed(m: Machine, es: seq<Timed>, n: NodeId)
    requires m.state.ValidMemories()
    decreases |es|
  {
    |es| == 0 || (!Disturbs(m.state, es[0], n) && Undisturbed(Next(m, es[0]), es[1..], n))
  }

  ghost predicate UndisturbedAll(m: Machine, es: seq<Timed>)
    requires m.state.ValidMemories()
    decreases |es|
  {
    |es| == 0 || (!DisturbsAll(m.state, es[0]) && UndisturbedAll(Next(m, es[0]), es[1..]))
  }

  /** Epochs come from a counter that only rises: after a step a node has its old
      epoch or one never issued before. */
  predicate EpochStep(a: Lives, b: Lives, n: NodeId) {
    && a.nextEpoch <= b.nextEpoch
    && (n in b.nodes ==> (n in a.nodes && b.nodes[n].epoch == a.nodes[n].epoch) || b.nodes[n].epoch > a.nextEpoch)
  }

  /** The node lost its epoch for good. */
  predicate Renewed(a: Lives, b: Lives, n: NodeId) {
    n in b.nodes ==> b.nodes[n].epoch > a.nextEpoch
  }

  predicate CountersStep(a: Marks, b: Marks) {
    a.generation <= b.generation && a.faultVersion <= b.faultVersion
  }

  predicate CountersRise(a: Marks, b: Marks) {
    CountersStep(a, b) && (a.generation < b.generation || a.faultVersion < b.faultVersion)
  }

  lemma EpochStepTrans(a: Lives, b: Lives, c: Lives, n: NodeId)
    requires EpochStep(a, b, n) && EpochStep(b, c, n)
    ensures EpochStep(a, c, n)
    ensures Renewed(a, b, n) || Renewed(b, c, n) ==> Renewed(a, c, n)
  {
  }

  lemma UncertainEpochs(s: State, k: Option<NodeId>, deadline: Time, now: Time, n: NodeId)
    ensures var r := MarkUncertain(s, k, deadline, now);
      && EpochStep(s.lives, r.lives, n) && CountersStep(s.marks, r.marks) && r.fleet == s.fleet
      && r.marks.floor == s.marks.floor
      && (k == Some(n) && s.Requires(n) ==> Renewed(s.lives, r.lives, n))
      && (k.None? || !s.Requires(k.value) ==> CountersRise(s.marks, r.marks))
  {
  }

  lemma {:induction false} EvictEpochs(s: State, k: NodeId, now: Time, n: NodeId)
    requires k in s.seen && s.ValidMemories()
    ensures var r := EvictOver(s, k, now);
      && EpochStep(s.lives, r.lives, n) && CountersStep(s.marks, r.marks) && r.fleet == s.fleet
      && (|s.seen[k].order| > s.sampling.capacity && s.seen[k].order[0] in s.seen[k].at
          && s.seen[k].at[s.seen[k].order[0]] + s.sampling.freshness > now ==>
            if s.Requires(k) then k == n ==> Renewed(s.lives, r.lives, n) else CountersRise(s.marks, r.marks))
    decreases |s.seen[k].order|
  {
    var m := s.seen[k];
    if |m.order| > s.sampling.capacity {
      var oldest := m.order[0];
      assert oldest in m.order && oldest in m.at;
      WithoutOldestKeeps(m);
      var t := EvictOldest(s, k, now);
      var w := WithMemory(s, k, WithoutOldest(m));
      UncertainEpochs(w, Some(k), m.at[oldest] + s.sampling.freshness, now, n);
      EvictEpochs(t, k, now, n);
      EpochStepTrans(s.lives, t.lives, EvictOver(t, k, now).lives, n);
    }
  }

  lemma SettledEpochs(s: State, k: NodeId, now: Time, n: NodeId)
    requires k in s.seen && s.ValidMemories()
    ensures var r := Settled(s, k, now);
      && EpochStep(s.lives, r.lives, n) && CountersStep(s.marks, r.marks) && r.fleet == s.fleet
      && (|s.seen[k].order| > s.sampling.capacity && s.seen[k].order[0] in s.seen[k].at
          && s.seen[k].at[s.seen[k].order[0]] + s.sampling.freshness > now ==>
            if s.Requires(k) then k == n ==> Renewed(s.lives, r.lives, n) else CountersRise(s.marks, r.marks))
  {
    EvictEpochs(s, k, now, n);
  }

  lemma SameEpochs(l: Lives, n: NodeId)
    ensures EpochStep(l, l, n)
  {
  }

  lemma ResizedEpochs(s: State, k: NodeId, now: Time, n: NodeId)
    requires s.ValidMemories()
    ensures var r := Resized(s, k, now);
      EpochStep(s.lives, r.lives, n) && CountersStep(s.marks, r.marks) && r.fleet == s.fleet
  {
    hide Settled, Swept, EpochStep;
    if k in s.seen {
      SettledEpochs(WithMemory(s, k, Swept(s, k, now)), k, now, n);
    } else {
      SameEpochs(s.lives, n);
    }
  }

  lemma {:induction false} ResizedAllEpochs(s: State, order: seq<NodeId>, now: Time, n: NodeId)
    requires s.ValidMemories()
    ensures var r := ResizedAll(s, order, now);
      EpochStep(s.lives, r.lives, n) && CountersStep(s.marks, r.marks) && r.fleet == s.fleet
    decreases |order|
  {
    hide Resized;
    if |order| > 0 {
      ResizedEpochs(s, order[0], now, n);
      var t := Resized(s, order[0], now);
      ResizedAllEpochs(t, order[1..], now, n);
      EpochStepTrans(s.lives, t.lives, ResizedAll(t, order[1..], now).lives, n);
    }
  }

  lemma RefreshEpochs(s: State, order: seq<NodeId>, now: Time, n: NodeId)
    requires s.fleet.panel.Some? ==> forall k :: k in s.fleet.panel.value ==> k in order
    requires forall k :: s.Requires(k) ==> k in s.lives.nodes
    requires LivesOk(s.lives) && s.ValidMemories()
    ensures var r := RefreshRequired(s, order, now);
      && r.ValidMemories()
      && EpochStep(s.lives, r.lives, n) && CountersStep(s.marks, r.marks)
      && (MembershipChanged(s, r, n) ==> Renewed(s.lives, r.lives, n))
      && (s.fleet.required.None? != r.fleet.required.None? ==> CountersRise(s.marks, r.marks))
  {
    RefreshFacts(s, order, now);
    var r := RefreshRequired(s, order, now);
    if n in r.lives.nodes && r.fleet.required.Some? {
      assert r.Requires(n);
    }
  }

  lemma ObserveEpochs(s: State, k: NodeId, id: Fingerprint, at: Option<Time>, now: Time, n: NodeId)
    requires s.ValidMemories() && s.sampling.capacity >= 1
    ensures var (r, accepted) := Admit(s, k, id, at, now);
      && EpochStep(s.lives, r.lives, n) && CountersStep(s.marks, r.marks) && r.fleet == s.fleet
      && (at.None? || at.value > now || (accepted && |Swept(s, k, now).order| >= s.sampling.capacity) ==>
            if s.Requires(k) then k == n ==> Renewed(s.lives, r.lives, n) else CountersRise(s.marks, r.marks))
  {
    if at.None? || at.value > now {
      UncertainEpochs(s, Some(k), (if at.None? then now else at.value) + s.sampling.freshness, now, n);
    } else if at.value >= s.marks.floor && now - at.value < s.sampling.freshness && id !in Swept(s, k, now).at {
      SweptFacts(s, k, now);
      var m := Swept(s, k, now);
      PushedKeeps(m, id, at.value);
      var p := WithMemory(s, k, Pushed(m, id, at.value));
      if |m.order| >= s.sampling.capacity {
        var oldest := m.order[0];
        assert oldest in m.order && oldest in m.at;
        assert p.seen[k].order[0] == oldest && p.seen[k].at[oldest] == m.at[oldest];
      }
      SettledEpochs(p, k, now, n);
    }
  }

  /** One step: epochs and counters never go back, and a disturbance moves them. */
  lemma StepEpochs(s: State, e: Timed, n: NodeId)
    requires Shape(s) && s.ValidMemories() && Enabled(s, e)
    ensures var r := Step(s, e);
      && EpochStep(s.lives, r.lives, n) && CountersStep(s.marks, r.marks)
      && (Disturbs(s, e, n) ==> Renewed(s.lives, r.lives, n))
      && (DisturbsAll(s, e) ==> CountersRise(s.marks, r.marks))
  {
    hide AdmitFresh, RefreshRequired, ResizedAll, Swept, Settled;
    match e.event
    case SourceChanged =>
    case Configured(c, fleetOrder, cacheOrder) =>
      if s.sampling.signature != Some(c) {
        var a := Reconfigured(s, c, e.now);
        RefreshEpochs(a, fleetOrder, e.now, n);
        var b := RefreshRequired(a, fleetOrder, e.now);
        ResizedAllEpochs(b.(sampling := Parsed(b.sampling, c)), cacheOrder, e.now, n);
        EpochStepTrans(s.lives, b.lives, Step(s, e).lives, n);
      }
    case FleetRegistered(panel, order) =>
      var a := FleetLost(s, s.fleet.required.Some? && e.now - s.fleet.seenAt > Silence(s.sampling.interval), e.now);
      RefreshEpochs(a.(fleet := a.fleet.(panel := panel)), order, e.now, n);
    case TransportGap(k, when) =>
    case Uncertain(k, until) =>
      UncertainEpochs(s, k, if until.Some? then until.value else e.now + s.sampling.freshness, e.now, n);
    case Observed(k, id, at) => ObserveEpochs(s, k, id, at, e.now, n);
  }

  /** An epoch that is still a node's epoch was its epoch all along, undisturbed. */
  lemma {:induction false} EpochUndisturbed(m: Machine, es: seq<Timed>, n: NodeId, epoch: nat)
    requires Inv(m.state, m.log, m.time) && Possible(m, es) && epoch <= m.state.lives.nextEpoch
    requires var r := Run(m, es).state; n in r.lives.nodes && r.lives.nodes[n].epoch == epoch
    ensures n in m.state.lives.nodes && m.state.lives.nodes[n].epoch == epoch
    ensures Undisturbed(m, es, n)
    decreases |es|
  {
    if |es| > 0 {
      StepKeeps(m.state, m.log, m.time, es[0]);
      StepEpochs(m.state, es[0], n);
      EpochUndisturbed(Next(m, es[0]), es[1..], n, epoch);
    }
  }

  lemma {:induction false} CountersUndisturbed(m: Machine, es: seq<Timed>)
    requires Inv(m.state, m.log, m.time) && Possible(m, es)
    ensures CountersStep(m.state.marks, Run(m, es).state.marks)
    ensures !CountersRise(m.state.marks, Run(m, es).state.marks) ==> UndisturbedAll(m, es)
    decreases |es|
  {
    if |es| > 0 {
      StepKeeps(m.state, m.log, m.time, es[0]);
      StepEpochs(m.state, es[0], 0);
      CountersUndisturbed(Next(m, es[0]), es[1..]);
    }
  }

  /** Evidence captured in any reachable state, retained any way, and accepted as
      current any number of events later: in between no event disturbed the whole
      sample, and none retired, faulted, removed or re-added a retained node. */
  lemma EvidenceIsAbaFree(start: Time, before: seq<Timed>, after: seq<Timed>,
                          revision: int, heard: map<NodeId, Time>, taken: Time, kept: Evidence,
                          laterRevision: int, laterHeard: map<NodeId, Time>, now: Time, n: NodeId)
    requires Possible(Start(start), before)
    requires Possible(Run(Start(start), before), after)
    requires PartOf(kept, Capture(Run(Start(start), before).state, revision, heard, taken))
    requires IsCurrent(Run(Run(Start(start), before), after).state, laterRevision, laterHeard, now, kept, true)
    requires n in kept.versions
    ensures laterRevision == revision
    ensures UndisturbedAll(Run(Start(start), before), after)
    ensures Undisturbed(Run(Start(start), before), after, n)
    ensures NodeReady(Run(Start(start), before).state, heard, n, taken)
  {
    InitialInv(start);
    RunKeeps(Start(start), before);
    var m := Run(Start(start), before);
    CountersUndisturbed(m, after);
    EpochUndisturbed(m, after, n, kept.versions[n]);
  }

  /** A complete sample accepted later still speaks for exactly the required fleet. */
  lemma CompleteSpeaksForFleet(s: State, revision: int, heard: map<NodeId, Time>, now: Time, ev: Evidence, allowPartial: bool)
    requires Coherent(ev) && ev.complete && IsCurrent(s, revision, heard, now, ev, allowPartial)
    ensures FleetReady(s, heard, now)
    ensures ev.versions.Keys == s.fleet.required.value.Keys
  {
  }
}
