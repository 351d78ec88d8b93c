/** What the log evidence machine requires and what its evidence may be used for
    (utils/log_observations.py): the fleet and the settings in force, and the strict
    and the partial form of currency. */
module LogFleet {
  import opened Collections
  import opened ReplayMemory
  import opened LogState
  import opened LogRuns
  import opened LogEvidence
  import opened LogGaps

  /** The last fleet the panel reported, and the last settings. */
  function LastPanel(p: Option<map<NodeId, Status>>, es: seq<Timed>): Option<map<NodeId, Status>>
    decreases |es|
  {
    if |es| == 0 then p
    else LastPanel(if es[0].event.FleetRegistered? then es[0].event.panel else p, es[1..])
  }

  function LastSettings(c: Option<Settings>, es: seq<Timed>): Option<Settings>
    decreases |es|
  {
    if |es| == 0 then c
    else LastSettings(if es[0].event.Configured? then Some(es[0].event.settings) else c, es[1..])
  }

  /** Settings that parse are used as given, others are an error. */
  predicate InForce(p: Sampling, c: Settings) {
    && p.source == c.source && p.freshness == c.freshness && p.disabledNodes == c.disabledNodes
    && (p.configError <==> !SettingsParse(c) || c.zones.None?)
    && (!p.configError ==>
          Some(p.interval) == c.interval && Some(p.capacity as int) == c.capacity
          && Some(p.zones) == c.zones && p.defaultZone == c.defaultZone)
  }

  function DisabledBy(c: Option<Settings>): set<NodeId> {
    if c.Some? then c.value.disabledNodes else {}
  }

  /** The requirement follows the panel and the settings in force. */
  predicate Follows(s: State, p: Option<map<NodeId, Status>>, c: Option<Settings>) {
    && s.fleet.panel == p && s.fleet.required == RequiredOf(p, s.sampling.disabledNodes)
    && s.sampling.disabledNodes == DisabledBy(c)
    && (c.Some? ==> InForce(s.sampling, c.value))
    && (s.sampling.signature.Some? ==> s.sampling.signature == c)
  }

  lemma RefreshFollows(s: State, order: seq<NodeId>, now: Time)
    ensures var r := RefreshRequired(s, order, now);
      && r.fleet.required == RequiredOf(s.fleet.panel, s.sampling.disabledNodes)
      && r.fleet.panel == s.fleet.panel && r.sampling == s.sampling
  {
  }

  lemma StepFollows(s: State, e: Timed, p: Option<map<NodeId, Status>>, c: Option<Settings>)
    requires Shape(s) && s.ValidMemories() && Enabled(s, e) && Follows(s, p, c)
    ensures Follows(Step(s, e), if e.event.FleetRegistered? then e.event.panel else p,
                    if e.event.Configured? then Some(e.event.settings) else c)
  {
    hide AdmitFresh, RefreshRequired, ResizedAll, RequiredOf;
    match e.event
    case Configured(n, fleetOrder, cacheOrder) =>
      if s.sampling.signature != Some(n) {
        var a := Reconfigured(s, n, e.now);
        RefreshFacts(a, fleetOrder, e.now);
        RefreshFollows(a, fleetOrder, e.now);
        var b := RefreshRequired(a, fleetOrder, e.now);
        ResizedAllForward(b.(sampling := Parsed(b.sampling, n)), cacheOrder, e.now);
      }
    case FleetRegistered(panel, order) =>
      var a := FleetLost(s, s.fleet.required.Some? && e.now - s.fleet.seenAt > Silence(s.sampling.interval), e.now);
      RefreshFollows(a.(fleet := a.fleet.(panel := panel)), order, e.now);
    case Observed(k, id, at) => AdmitForward(s, k, id, at, e.now);
    case _ =>
  }

  lemma {:induction false} RunFollows(m: Machine, es: seq<Timed>, p: Option<map<NodeId, Status>>, c: Option<Settings>)
    requires Inv(m.state, m.log, m.time) && Possible(m, es) && Follows(m.state, p, c)
    ensures Follows(Run(m, es).state, LastPanel(p, es), LastSettings(c, es))
    decreases |es|
  {
    if |es| > 0 {
      StepKeeps(m.state, m.log, m.time, es[0]);
      StepFollows(m.state, es[0], p, c);
      RunFollows(Next(m, es[0]), es[1..], if es[0].event.FleetRegistered? then es[0].event.panel else p,
                 if es[0].event.Configured? then Some(es[0].event.settings) else c);
    }
  }

  /** In every reachable state the required nodes are those of the panel's last
      fleet that neither the panel nor the last settings exclude. */
  lemma RequiredIff(start: Time, es: seq<Timed>, n: NodeId)
    requires Possible(Start(start), es)
    ensures var s := Run(Start(start), es).state; var p := LastPanel(None, es);
      && (s.fleet.required.Some? <==> p.Some?)
      && (s.Requires(n) <==> p.Some? && n in p.value && n !in DisabledBy(LastSettings(None, es)) && p.value[n] in {Connected, OtherStatus})
      && (s.Requires(n) ==> (s.fleet.required.value[n] <==> p.value[n] == Connected))
  {
    InitialInv(start);
    RunFollows(Start(start), es, None, None);
  }

  /** In every reachable state the last settings are in force, and settings that do
      not parse keep the machine from being ready. */
  lemma SettingsInForce(start: Time, es: seq<Timed>, now: Time)
    requires Possible(Start(start), es) && LastSettings(None, es).Some?
    ensures var s := Run(Start(start), es).state; var c := LastSettings(None, es).value;
      && InForce(s.sampling, c)
      && (GlobalReady(s, now) ==> SettingsParse(c) && c.zones.Some? && c.source == "logs")
      && (GlobalReady(s, now) ==> Window(s) >= c.interval.value && Window(s) >= c.freshness)
  {
    InitialInv(start);
    RunFollows(Start(start), es, None, None);
  }

  /** Fresh evidence is current in the strict form exactly when the whole fleet is
      ready, and in the partial form exactly when the fleet or some node is. */
  lemma CapturedIsCurrentIff(s: State, revision: int, heard: map<NodeId, Time>, now: Time)
    ensures var ev := Capture(s, revision, heard, now);
      && (IsCurrent(s, revision, heard, now, ev, false) <==> FleetReady(s, heard, now))
      && (IsCurrent(s, revision, heard, now, ev, true) <==>
            FleetReady(s, heard, now) || (GlobalReady(s, now) && exists n :: NodeReady(s, heard, n, now)))
  {
    if GlobalReady(s, now) {
      var eligible := EligibleNodes(s, heard, now).value;
      assert forall n :: n in eligible <==> NodeReady(s, heard, n, now);
      if FleetReady(s, heard, now) {
        SameSet(eligible, s.fleet.required.value.Keys);
      }
      CaptureCoherent(s, revision, heard, now);
      if n :| n in eligible {
        assert eligible != {};
      }
    }
  }

  /** Evidence the strict form accepts later was complete when captured, and speaks
      for a fleet that is the same and ready at both times. */
  lemma StrictMeansWholeFleet(s: State, revision: int, heard: map<NodeId, Time>, taken: Time, kept: Evidence,
                              r: State, laterRevision: int, laterHeard: map<NodeId, Time>, now: Time)
    requires PartOf(kept, Capture(s, revision, heard, taken))
    requires IsCurrent(r, laterRevision, laterHeard, now, kept, false)
    ensures FleetReady(s, heard, taken) && FleetReady(r, laterHeard, now)
    ensures RequiredNodes(s) == RequiredNodes(r)
  {
  }

  // ---------------------------------------------------------------------------
  // What the memories hold
  // ---------------------------------------------------------------------------

  /** A refresh of a known fleet keeps the memory of exactly its required nodes. */
  lemma DepartedAreForgotten(s: State, panel: map<NodeId, Status>, order: seq<NodeId>, now: Time, n: NodeId)
    ensures var r := RegisterFleet(s, Some(panel), order, now);
      && (n in r.seen <==> n in s.seen && r.Requires(n))
      && (n in r.seen ==> r.seen[n] == s.seen[n])
  {
  }

  /** The last `count` elements. */
  function Newest<T>(s: seq<T>, count: nat): seq<T> {
    if |s| <= count then s else s[|s| - count..]
  }

  lemma {:induction false} EvictKeepsNewest(s: State, n: NodeId, now: Time)
    requires n in s.seen && s.ValidMemories()
    ensures EvictOver(s, n, now).seen[n].order == Newest(s.seen[n].order, s.sampling.capacity)
    decreases |s.seen[n].order|
  {
    if |s.seen[n].order| > s.sampling.capacity {
      EvictStep(s, n, now);
      EvictKeepsNewest(EvictOldest(s, n, now), n, now);
    }
  }

  lemma SettledKeepsNewest(s: State, n: NodeId, now: Time)
    requires n in s.seen && s.ValidMemories()
    ensures n in Settled(s, n, now).seen
    ensures Settled(s, n, now).seen[n].order == Newest(s.seen[n].order, s.sampling.capacity)
  {
    EvictKeepsNewest(s, n, now);
    hide EvictOver, Newest;
  }

  /** An admitted line is the newest of its node's memory, which holds the newest of
      the lines that have not expired, as many as fit. */
  lemma AdmissionKeepsNewest(s: State, n: NodeId, id: Fingerprint, at: Time, now: Time)
    requires s.ValidMemories() && Admit(s, n, id, Some(at), now).1
    ensures n in Admit(s, n, id, Some(at), now).0.seen
    ensures Admit(s, n, id, Some(at), now).0.seen[n].order == Newest(Swept(s, n, now).order + [id], s.sampling.capacity)
  {
    var m := Swept(s, n, now);
    hide Swept, Settled, Newest, Memory.Valid;
    PushedKeeps(m, id, at);
    SettledKeepsNewest(WithMemory(s, n, Pushed(m, id, at)), n, now);
  }
}
