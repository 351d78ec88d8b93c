/** Readiness waits for a complete interval and for doubts to end
    (utils/log_observations.py): over every run, a node that reports counts exactly
    when nothing broke its sampling since the interval began. */
module LogGaps {
  import opened Collections
  import opened ReplayMemory
  import opened LogState
  import opened LogRuns
  import opened LogEvidence

  /** The interval collected starts over at `t`: the source or its settings changed,
      the fleet was lost, found or emptied, or the transport went silent; for a
      node also when it joined or changed connection, or its own stream went silent. */
  ghost predicate Breaks(s: State, e: Timed, n: Option<NodeId>, t: Time)
    requires s.ValidMemories()
  {
    || (t == e.now && (FleetTurned(s, Step(s, e)) || (n.Some? && MembershipChanged(s, Step(s, e), n.value))))
    || (match e.event
        case SourceChanged => t == e.now
        case Configured(c, _, _) => t == e.now && s.sampling.signature != Some(c)
        case FleetRegistered(_, _) =>
          t == e.now && s.fleet.required.Some? && e.now - s.fleet.seenAt > Silence(s.sampling.interval)
        case TransportGap(k, when) =>
          if k.None? then t == when else n == k && t == (if when < e.now then when else e.now)
        case _ => false)
  }

  /** The required fleet became known or unknown, or lost its last node. */
  predicate FleetTurned(s: State, r: State) {
    || s.fleet.required.None? != r.fleet.required.None?
    || (s.fleet.required.Some? && r.fleet.required.Some? && |s.fleet.required.value| > 0 && |r.fleet.required.value| == 0)
  }

  /** Some event of the run broke the interval of the node, or of the whole sample, at `t`. */
  ghost predicate Broken(m: Machine, es: seq<Timed>, n: Option<NodeId>, t: Time)
    requires m.state.ValidMemories()
    decreases |es|
  {
    |es| > 0 && (Breaks(m.state, es[0], n, t) || Broken(Next(m, es[0]), es[1..], n, t))
  }

  /** Nothing broke the interval that begins at `began`. */
  ghost predicate Unbroken(m: Machine, es: seq<Timed>, n: Option<NodeId>, began: Time)
    requires m.state.ValidMemories()
  {
    forall t: Time :: Broken(m, es, n, t) ==> t <= began
  }

  /** A gap is noted when it is discovered, never ahead of the clock. */
  predicate Prompt(e: Timed) {
    e.event.TransportGap? ==> e.event.when <= e.now
  }

  // ---------------------------------------------------------------------------
  // Floors over one step
  // ---------------------------------------------------------------------------

  /** Faults, evictions and admissions move deadlines and epochs, never a floor. */
  predicate SameFloors(s: State, r: State, n: NodeId) {
    && r.sampling == s.sampling && r.fleet == s.fleet && r.marks.floor == s.marks.floor && r.marks.transportFloor == s.marks.transportFloor
    && (n in r.lives.nodes <==> n in s.lives.nodes)
    && (n in s.lives.nodes ==> r.lives.nodes[n].floor == s.lives.nodes[n].floor)
  }

  lemma UncertainFloors(s: State, k: Option<NodeId>, deadline: Time, now: Time, n: NodeId)
    requires s.Requires(n) ==> n in s.lives.nodes
    ensures SameFloors(s, MarkUncertain(s, k, deadline, now), n)
  {
  }

  lemma {:induction false} EvictFloors(s: State, k: NodeId, now: Time, n: NodeId)
    requires k in s.seen && s.ValidMemories() && (s.Requires(n) ==> n in s.lives.nodes)
    ensures SameFloors(s, EvictOver(s, k, now), n)
    decreases |s.seen[k].order|
  {
    if |s.seen[k].order| > s.sampling.capacity {
      EvictStep(s, k, now);
      var m := s.seen[k];
      UncertainFloors(WithMemory(s, k, WithoutOldest(m)), Some(k), m.at[m.order[0]] + s.sampling.freshness, now, n);
      hide MarkUncertain, WithoutOldest;
      EvictFloors(EvictOldest(s, k, now), k, now, n);
    }
  }

  lemma SettledFloors(s: State, k: NodeId, now: Time, n: NodeId)
    requires k in s.seen && s.ValidMemories() && (s.Requires(n) ==> n in s.lives.nodes)
    ensures SameFloors(s, Settled(s, k, now), n)
  {
    EvictFloors(s, k, now, n);
  }

  lemma {:induction false} ResizedAllFloors(s: State, order: seq<NodeId>, now: Time, n: NodeId)
    requires s.ValidMemories() && (s.Requires(n) ==> n in s.lives.nodes)
    ensures SameFloors(s, ResizedAll(s, order, now), n)
    decreases |order|
  {
    hide Settled, Swept;
    if |order| > 0 {
      if order[0] in s.seen {
        SettledFloors(WithMemory(s, order[0], Swept(s, order[0], now)), order[0], now, n);
      }
      ResizedAllFloors(Resized(s, order[0], now), order[1..], now, n);
    }
  }

  lemma AdmitFloors(s: State, k: NodeId, id: Fingerprint, at: Option<Time>, now: Time, n: NodeId)
    requires s.ValidMemories() && (s.Requires(n) ==> n in s.lives.nodes)
    ensures SameFloors(s, Admit(s, k, id, at, now).0, n)
  {
    hide Settled, Swept, Compacted, Pushed;
    if at.Some? && s.marks.floor <= at.value <= now && now - at.value < s.sampling.freshness
       && id !in Swept(s, k, now).at {
      PushedKeeps(Swept(s, k, now), id, at.value);
      SettledFloors(WithMemory(s, k, Pushed(Swept(s, k, now), id, at.value)), k, now, n);
    }
  }

  lemma {:induction false} RetireChangedFloor(l: Lives, previous: Option<map<NodeId, bool>>, fleet: map<NodeId, bool>,
                                              order: seq<NodeId>, now: Time, n: NodeId)
    requires n in l.nodes ==> l.nodes[n].floor <= now
    ensures var r := RetireChanged(l, previous, fleet, order, now);
      n in r.nodes ==> (n in l.nodes && r.nodes[n].floor == l.nodes[n].floor)
                       || (Changed(previous, fleet, n) && r.nodes[n].floor == now)
    decreases |order|
  {
    if |order| > 0 {
      var t := if Changed(previous, fleet, order[0]) then RetireNode(l, order[0], now) else l;
      RetireChangedFloor(t, previous, fleet, order[1..], now, n);
    }
  }

  /** A refresh moves the fleet's floor exactly when the fleet turned, and the
      floors of exactly the nodes that joined or changed connection. */
  lemma RefreshFloors(s: State, order: seq<NodeId>, now: Time, n: NodeId)
    requires s.fleet.panel.Some? ==> forall k :: k in s.fleet.panel.value ==> k in order
    requires forall k :: s.Requires(k) ==> k in s.lives.nodes
    requires LivesOk(s.lives)
    ensures var r := RefreshRequired(s, order, now);
      && r.marks.floor == s.marks.floor && r.marks.transportFloor == s.marks.transportFloor
      && r.fleet.floor == (if FleetTurned(s, r) then now else s.fleet.floor)
      && (r.Requires(n) ==> n in r.lives.nodes && (r.lives.nodes[n].floor >= now || Stayed(s, r, n)))
      && (n in r.lives.nodes && (n in s.lives.nodes ==> s.lives.nodes[n].floor <= now) ==>
            || (n in s.lives.nodes && r.lives.nodes[n].floor == s.lives.nodes[n].floor)
            || (MembershipChanged(s, r, n) && r.lives.nodes[n].floor == now))
  {
    RefreshFacts(s, order, now);
    var fleet := RequiredOf(s.fleet.panel, s.sampling.disabledNodes);
    if fleet.Some? && (n in s.lives.nodes ==> s.lives.nodes[n].floor <= now) {
      RetireChangedFloor(s.lives, s.fleet.required, fleet.value, order, now, n);
    }
  }

  /** A break at `t` still stands in the way of an interval that began before it. */
  predicate Behind(s: State, n: Option<NodeId>, t: Time, now: Time) {
    || t <= s.marks.transportFloor
    || (t <= now && (t <= s.marks.floor || t <= s.fleet.floor || (n.Some? && !s.Requires(n.value))
                     || (n.Some? && n.value in s.lives.nodes && t <= s.lives.nodes[n.value].floor)))
  }

  /** Every floor of the node's readiness is where a break put it, or where the run began. */
  ghost predicate Explained(s: State, e: Timed, n: Option<NodeId>, r: State)
    requires s.ValidMemories()
  {
    && (r.marks.floor == s.marks.floor || Breaks(s, e, n, r.marks.floor))
    && (r.fleet.floor == s.fleet.floor || Breaks(s, e, n, r.fleet.floor))
    && (r.marks.transportFloor == s.marks.transportFloor || Breaks(s, e, n, r.marks.transportFloor))
    && (Prompt(e) && n.Some? && n.value in r.lives.nodes && (n.value in s.lives.nodes ==> s.lives.nodes[n.value].floor <= e.now) ==>
          || (n.value in s.lives.nodes && r.lives.nodes[n.value].floor == s.lives.nodes[n.value].floor)
          || Breaks(s, e, n, r.lives.nodes[n.value].floor))
  }

  /** The source's and the fleet's floors never pass the clock. */
  predicate Clocked(s: State, now: Time) {
    s.marks.floor <= now && s.fleet.floor <= now
  }

  ghost predicate FloorStep(s: State, e: Timed, n: Option<NodeId>, t: Time, was: Time, r: State)
    requires s.ValidMemories()
  {
    && Clocked(r, e.now) && Explained(s, e, n, r)
    && (Behind(s, n, t, was) || Breaks(s, e, n, t) ==> Behind(r, n, t, e.now))
  }

  lemma SameFloorStep(s: State, e: Timed, n: Option<NodeId>, t: Time, was: Time)
    requires Clocked(s, was) && was <= e.now && s.ValidMemories()
    requires SameFloors(s, Step(s, e), if n.Some? then n.value else 0)
    requires !e.event.SourceChanged? && !e.event.TransportGap? && !e.event.FleetRegistered?
    requires e.event.Configured? ==> s.sampling.signature == Some(e.event.settings)
    ensures FloorStep(s, e, n, t, was, Step(s, e))
  {
    hide Step;
  }

  lemma ConfiguredFloorStep(s: State, e: Timed, n: Option<NodeId>, t: Time, was: Time)
    requires Shape(s) && s.ValidMemories() && Clocked(s, was) && was <= e.now && Enabled(s, e)
    requires e.event.Configured? && s.sampling.signature != Some(e.event.settings)
    ensures FloorStep(s, e, n, t, was, Step(s, e))
  {
    hide RefreshRequired, ResizedAll;
    var k := if n.Some? then n.value else 0;
    var c := e.event.settings;
    var a := Reconfigured(s, c, e.now);
    RefreshFloors(a, e.event.fleetOrder, e.now, k);
    var b := RefreshRequired(a, e.event.fleetOrder, e.now);
    ResizedAllFloors(b.(sampling := Parsed(b.sampling, c)), e.event.cacheOrder, e.now, k);
  }

  lemma RegisteredFloorStep(s: State, e: Timed, n: Option<NodeId>, t: Time, was: Time)
    requires Shape(s) && s.ValidMemories() && Clocked(s, was) && was <= e.now && Enabled(s, e)
    requires e.event.FleetRegistered?
    ensures FloorStep(s, e, n, t, was, Step(s, e))
  {
    hide RefreshRequired;
    var k := if n.Some? then n.value else 0;
    var a := FleetLost(s, s.fleet.required.Some? && e.now - s.fleet.seenAt > Silence(s.sampling.interval), e.now);
    RefreshFloors(a.(fleet := a.fleet.(panel := e.event.panel)), e.event.order, e.now, k);
  }

  lemma StepFloors(s: State, e: Timed, n: Option<NodeId>, t: Time, was: Time)
    requires Shape(s) && s.ValidMemories() && Clocked(s, was) && was <= e.now && Enabled(s, e)
    ensures FloorStep(s, e, n, t, was, Step(s, e))
  {
    hide Admit, RefreshRequired, ResizedAll, RegisterFleet;
    match e.event
    case SourceChanged =>
    case Configured(c, fleetOrder, cacheOrder) =>
      if s.sampling.signature != Some(c) {
        ConfiguredFloorStep(s, e, n, t, was);
      } else {
        SameFloorStep(s, e, n, t, was);
      }
    case FleetRegistered(_, _) => RegisteredFloorStep(s, e, n, t, was);
    case TransportGap(_, _) =>
    case Uncertain(_, _) => SameFloorStep(s, e, n, t, was);
    case Observed(k, id, at) =>
      AdmitFloors(s, k, id, at, e.now, if n.Some? then n.value else 0);
      SameFloorStep(s, e, n, t, was);
  }

  // ---------------------------------------------------------------------------
  // Floors over every run
  // ---------------------------------------------------------------------------

  /** A break stays in the way until the interval begins after it. */
  lemma {:induction false} BreakStays(m: Machine, es: seq<Timed>, n: Option<NodeId>, t: Time)
    requires Inv(m.state, m.log, m.time) && Clocked(m.state, m.time) && Possible(m, es)
    requires Behind(m.state, n, t, m.time) || Broken(m, es, n, t)
    ensures var r := Run(m, es); Behind(r.state, n, t, r.time)
    decreases |es|
  {
    if |es| > 0 {
      StepKeeps(m.state, m.log, m.time, es[0]);
      StepFloors(m.state, es[0], n, t, m.time);
      BreakStays(Next(m, es[0]), es[1..], n, t);
    }
  }

  predicate Punctual(es: seq<Timed>) {
    forall i :: 0 <= i < |es| ==> Prompt(es[i])
  }

  /** The floors the node's readiness is measured against. */
  predicate IsFloor(s: State, n: Option<NodeId>, t: Time) {
    || t == s.marks.floor || t == s.fleet.floor || t == s.marks.transportFloor
    || (n.Some? && n.value in s.lives.nodes && t == s.lives.nodes[n.value].floor)
  }

  /** No floor is invented: each is the time of a break, or was there at the beginning. */
  lemma {:induction false} FloorsExplained(m: Machine, es: seq<Timed>, n: Option<NodeId>, t: Time)
    requires Inv(m.state, m.log, m.time) && Clocked(m.state, m.time) && Possible(m, es) && Punctual(es)
    requires n.Some? && n.value in m.state.lives.nodes ==> m.state.lives.nodes[n.value].floor <= m.time
    requires IsFloor(Run(m, es).state, n, t)
    ensures IsFloor(m.state, n, t) || Broken(m, es, n, t)
    decreases |es|
  {
    if |es| > 0 {
      StepKeeps(m.state, m.log, m.time, es[0]);
      StepFloors(m.state, es[0], n, t, m.time);
      var next := Next(m, es[0]);
      FloorsExplained(next, es[1..], n, t);
    }
  }

  // ---------------------------------------------------------------------------
  // Readiness means an unbroken interval
  // ---------------------------------------------------------------------------

  /** A gap delays exactly what it interrupts: its own node, or the whole sample. */
  lemma GapDelaysReadiness(s: State, heard: map<NodeId, Time>, n: NodeId, when: Time, now: Time)
    requires n in s.lives.nodes
    ensures NodeReady(NoteTransportGap(s, Some(n), when), heard, n, now) <==> NodeReady(s, heard, n, now) && when <= now - Window(s)
    ensures GlobalReady(NoteTransportGap(s, None, when), now) <==> GlobalReady(s, now) && when <= now - Window(s)
    ensures GlobalReady(NoteTransportGap(s, Some(n), when), now) <==> GlobalReady(s, now)
    ensures forall k :: k != n ==>
      (NodeReady(NoteTransportGap(s, Some(n), when), heard, k, now) <==> NodeReady(s, heard, k, now))
  {
  }

  /** Everything readiness asks besides a complete interval: the source, the fleet,
      no pending uncertainty, a time zone, a connection and a stream that is heard. */
  predicate Reporting(s: State, heard: map<NodeId, Time>, n: NodeId, now: Time) {
    && s.sampling.source == "logs" && !s.sampling.configError
    && s.Requires(n) && now - s.fleet.seenAt <= Silence(s.sampling.interval)
    && now >= s.marks.uncertainUntil
    && (if n in s.sampling.zones then s.sampling.zones[n] else s.sampling.defaultZone)
    && s.fleet.required.value[n]
    && n in heard && now - heard[n] <= Silence(s.sampling.interval)
    && n in s.lives.nodes && now >= s.lives.nodes[n].uncertainUntil
  }

  lemma EligibleBegan(start: Time, es: seq<Timed>, heard: map<NodeId, Time>, now: Time, n: NodeId, t: Time)
    requires Possible(Start(start), es) && Run(Start(start), es).time <= now
    requires var s := Run(Start(start), es).state; GlobalReady(s, now) && NodeReady(s, heard, n, now)
    requires t == start || t == 0.0 || Broken(Start(start), es, Some(n), t)
    ensures t <= now - Window(Run(Start(start), es).state)
  {
    InitialInv(start);
    BreakStays(Start(start), es, Some(n), t);
  }

  /** Evidence that counts a node was collected without a break of its stream, of
      the transport, of the source or of the fleet inside the interval. */
  lemma EligibleMeansUnbroken(start: Time, es: seq<Timed>, revision: int, heard: map<NodeId, Time>, now: Time, n: NodeId, t: Time)
    requires Possible(Start(start), es)
    requires var m := Run(Start(start), es);
      m.time <= now && n in Capture(m.state, revision, heard, now).versions
    requires t == start || Broken(Start(start), es, Some(n), t)
    ensures var s := Run(Start(start), es).state; t <= now - Window(s)
    ensures t <= Capture(Run(Start(start), es).state, revision, heard, now).intervalStart
  {
    EligibleBegan(start, es, heard, now, n, t);
  }

  /** Complete evidence was collected without a break of the whole sample, and
      without a break of any required node. */
  lemma CompleteMeansUnbroken(start: Time, es: seq<Timed>, revision: int, heard: map<NodeId, Time>, now: Time, n: Option<NodeId>, t: Time)
    requires Possible(Start(start), es)
    requires var m := Run(Start(start), es);
      m.time <= now && Capture(m.state, revision, heard, now).complete && (n.Some? ==> m.state.Requires(n.value))
    requires t == start || Broken(Start(start), es, n, t)
    ensures t <= now - Window(Run(Start(start), es).state)
  {
    InitialInv(start);
    BreakStays(Start(start), es, n, t);
  }

  /** A node counts exactly when it reports and every floor lies before the interval. */
  lemma CountsIff(s: State, revision: int, heard: map<NodeId, Time>, now: Time, n: NodeId)
    ensures n in Capture(s, revision, heard, now).versions <==> GlobalReady(s, now) && NodeReady(s, heard, n, now)
    ensures GlobalReady(s, now) && NodeReady(s, heard, n, now) <==>
      && Reporting(s, heard, n, now)
      && (forall t: Time :: IsFloor(s, Some(n), t) ==> t <= now - Window(s))
  {
    if Reporting(s, heard, n, now) && (forall t: Time :: IsFloor(s, Some(n), t) ==> t <= now - Window(s)) {
      assert IsFloor(s, Some(n), s.lives.nodes[n].floor);
      assert IsFloor(s, Some(n), s.marks.floor) && IsFloor(s, Some(n), s.fleet.floor) && IsFloor(s, Some(n), s.marks.transportFloor);
    }
  }

  /** Over every run: a node that reports counts exactly when its whole interval is unbroken. */
  lemma EligibleIff(start: Time, es: seq<Timed>, revision: int, heard: map<NodeId, Time>, now: Time, n: NodeId)
    requires Possible(Start(start), es) && Punctual(es) && Run(Start(start), es).time <= now
    ensures var s := Run(Start(start), es).state;
      n in Capture(s, revision, heard, now).versions <==>
        && Reporting(s, heard, n, now)
        && Max(0.0, start) <= now - Window(s) && Unbroken(Start(start), es, Some(n), now - Window(s))
  {
    hide Capture, GlobalReady, NodeReady, Reporting, Run, Possible, Inv;
    InitialInv(start);
    var s := Run(Start(start), es).state;
    CountsIff(s, revision, heard, now, n);
    var began := now - Window(s);
    if n in Capture(s, revision, heard, now).versions {
      EligibleBegan(start, es, heard, now, n, start);
      EligibleBegan(start, es, heard, now, n, 0.0);
      forall t: Time | Broken(Start(start), es, Some(n), t) ensures t <= began {
        EligibleBegan(start, es, heard, now, n, t);
      }
    } else if Max(0.0, start) <= began && Unbroken(Start(start), es, Some(n), began) {
      forall t: Time | IsFloor(s, Some(n), t) ensures t <= began {
        FloorsExplained(Start(start), es, Some(n), t);
      }
    }
  }

  // ---------------------------------------------------------------------------
  // Readiness waits for doubts to end
  // ---------------------------------------------------------------------------

  /** A fault delays exactly what it puts in doubt: its required node, or the whole sample. */
  lemma FaultDelaysReadiness(s: State, heard: map<NodeId, Time>, n: NodeId, k: NodeId, deadline: Time, at: Time, now: Time)
    requires s.Requires(n) ==> n in s.lives.nodes
    ensures var r := MarkUncertain(s, Some(n), deadline, at);
      && (NodeReady(r, heard, k, now) <==> NodeReady(s, heard, k, now) && (k == n ==> deadline <= now || !s.Requires(n)))
      && (GlobalReady(r, now) <==> GlobalReady(s, now) && (s.Requires(n) || deadline <= now))
    ensures GlobalReady(MarkUncertain(s, None, deadline, at), now) <==> GlobalReady(s, now) && deadline <= now
  {
  }

  /** The event leaves the node's records in doubt until `d`: an announced fault, or
      a line without a usable or with a future time. */
  predicate Faults(s: State, e: Timed, n: NodeId, d: Time) {
    match e.event
    case Uncertain(k, until) =>
      && (k == Some(n) || k.None? || !s.Requires(k.value))
      && d == (if until.Some? then until.value else e.now + s.sampling.freshness)
    case Observed(k, id, at) =>
      && (k == n || !s.Requires(k)) && (at.None? || at.value > e.now)
      && d == (if at.None? then e.now else at.value) + s.sampling.freshness
    case _ => false
  }

  /** The node is outside a known fleet after the event, which drops its state. */
  ghost predicate Left(s: State, e: Timed, n: NodeId)
    requires s.ValidMemories()
  {
    Step(s, e).fleet.required.Some? && !Step(s, e).Requires(n)
  }

  ghost predicate Remains(m: Machine, es: seq<Timed>, n: NodeId)
    requires m.state.ValidMemories()
    decreases |es|
  {
    |es| == 0 || (!Left(m.state, es[0], n) && Remains(Next(m, es[0]), es[1..], n))
  }

  /** Some event put the node in doubt until `d`, and the node has not left since. */
  ghost predicate Doubted(m: Machine, es: seq<Timed>, n: NodeId, d: Time)
    requires m.state.ValidMemories()
    decreases |es|
  {
    |es| > 0 && ((Faults(m.state, es[0], n, d) && Remains(Next(m, es[0]), es[1..], n))
                 || Doubted(Next(m, es[0]), es[1..], n, d))
  }

  predicate Held(s: State, n: NodeId, d: Time) {
    d <= s.marks.uncertainUntil || (n in s.lives.nodes && d <= s.lives.nodes[n].uncertainUntil)
  }

  lemma ForwardHolds(s: State, r: State, n: NodeId, d: Time)
    requires Forward(s, r) && Held(s, n, d)
    ensures Held(r, n, d)
  {
    assert n in s.lives.nodes ==> Raised(s.lives, r.lives, n);
  }

  lemma RefreshHolds(s: State, order: seq<NodeId>, now: Time, n: NodeId, d: Time)
    requires LivesOk(s.lives) && Held(s, n, d)
    ensures var r := RefreshRequired(s, order, now);
      Held(r, n, d) || (r.fleet.required.Some? && !r.Requires(n))
  {
    var fleet := RequiredOf(s.fleet.panel, s.sampling.disabledNodes);
    if fleet.Some? {
      RetireChangedAt(s.lives, s.fleet.required, fleet.value, order, now, n);
    }
  }

  lemma AdmitForward(s: State, n: NodeId, id: Fingerprint, at: Option<Time>, now: Time)
    requires s.ValidMemories() && LivesOk(s.lives)
    ensures Forward(s, Admit(s, n, id, at, now).0)
  {
    hide Settled, Swept, MarkUncertain;
    if at.None? || at.value > now {
      UncertainForward(s, Some(n), (if at.None? then now else at.value) + s.sampling.freshness, now);
    } else if s.marks.floor <= at.value && now - at.value < s.sampling.freshness {
      var m := Swept(s, n, now);
      if id in m.at {
        MemoryForward(s, n, Compacted(m));
      } else {
        PushedKeeps(m, id, at.value);
        var p := WithMemory(s, n, Pushed(m, id, at.value));
        MemoryForward(s, n, Pushed(m, id, at.value));
        SettledFacts(p, n, now);
        ForwardTrans(s, p, Settled(p, n, now));
      }
    }
  }

  lemma StepHolds(s: State, e: Timed, n: NodeId, d: Time)
    requires Shape(s) && s.ValidMemories() && Enabled(s, e)
    requires Faults(s, e, n, d) || (Held(s, n, d) && !Left(s, e, n))
    ensures Held(Step(s, e), n, d)
  {
    hide AdmitFresh, RefreshRequired, ResizedAll;
    match e.event
    case SourceChanged =>
    case Configured(c, fleetOrder, cacheOrder) =>
      if s.sampling.signature != Some(c) {
        var a := Reconfigured(s, c, e.now);
        RefreshFacts(a, fleetOrder, e.now);
        RefreshHolds(a, fleetOrder, e.now, n, d);
        var b := RefreshRequired(a, fleetOrder, e.now);
        var p := b.(sampling := Parsed(b.sampling, c));
        ResizedAllForward(p, cacheOrder, e.now);
        ForwardHolds(p, Step(s, e), n, d);
      }
    case FleetRegistered(panel, order) =>
      var a := FleetLost(s, s.fleet.required.Some? && e.now - s.fleet.seenAt > Silence(s.sampling.interval), e.now);
      RefreshHolds(a.(fleet := a.fleet.(panel := panel)), order, e.now, n, d);
    case TransportGap(k, when) =>
    case Uncertain(k, until) =>
    case Observed(k, id, at) =>
      if Held(s, n, d) {
        AdmitForward(s, k, id, at, e.now);
        ForwardHolds(s, Step(s, e), n, d);
      }
  }

  lemma {:induction false} RunHolds(m: Machine, es: seq<Timed>, n: NodeId, d: Time)
    requires Inv(m.state, m.log, m.time) && Possible(m, es)
    requires Doubted(m, es, n, d) || (Held(m.state, n, d) && Remains(m, es, n))
    ensures Held(Run(m, es).state, n, d)
    decreases |es|
  {
    if |es| > 0 {
      StepKeeps(m.state, m.log, m.time, es[0]);
      if Faults(m.state, es[0], n, d) || (Held(m.state, n, d) && !Left(m.state, es[0], n)) {
        StepHolds(m.state, es[0], n, d);
      }
      RunHolds(Next(m, es[0]), es[1..], n, d);
    }
  }

  /** In every reachable state no evidence counts a node whose records are in doubt. */
  lemma EligibleMeansUndoubted(start: Time, es: seq<Timed>, revision: int, heard: map<NodeId, Time>, now: Time, n: NodeId, d: Time)
    requires Possible(Start(start), es) && Doubted(Start(start), es, n, d)
    requires n in Capture(Run(Start(start), es).state, revision, heard, now).versions
    ensures d <= now
  {
    InitialInv(start);
    RunHolds(Start(start), es, n, d);
  }
}
