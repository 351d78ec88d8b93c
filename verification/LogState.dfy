/** The state of LogObservations (utils/log_observations.py) and the meaning of
    its operations, as functions of the state, the clock and the arguments. */
module LogState {
  import opened Collections
  import opened ReplayMemory

  type NodeId = int

  datatype NodeState = NodeState(epoch: nat, floor: Time, uncertainUntil: Time)

  datatype Status = Connected | Disabled | Limited | OtherStatus

  /** The sampling settings compared and parsed by `configure`. `raw` stands for
      the text the signature is compared on; `None` is an unparseable field. */
  datatype Settings = Settings(
    raw: string, source: string, interval: Option<Time>, capacity: Option<int>,
    zones: Option<map<NodeId, bool>>, defaultZone: bool,
    disabledNodes: set<NodeId>, freshness: Time)

  datatype Sampling = Sampling(
    signature: Option<Settings>, source: string, interval: Time, freshness: Time, capacity: nat,
    zones: map<NodeId, bool>, defaultZone: bool, configError: bool, disabledNodes: set<NodeId>)

  datatype Fleet = Fleet(panel: Option<map<NodeId, Status>>, required: Option<map<NodeId, bool>>, seenAt: Time, floor: Time)

  /** Whole-machine counters and deadlines; the counters are never reset. */
  datatype Marks = Marks(generation: nat, faultVersion: nat, floor: Time, transportFloor: Time, uncertainUntil: Time)

  /** `node_states` and the counter their epochs are drawn from. */
  datatype Lives = Lives(nodes: map<NodeId, NodeState>, nextEpoch: nat)

  datatype State = State(sampling: Sampling, fleet: Fleet, marks: Marks, lives: Lives, seen: map<NodeId, Memory>)
  {
    predicate Requires(n: NodeId) {
      fleet.required.Some? && n in fleet.required.value
    }

    ghost predicate ValidMemories() {
      forall n :: n in seen ==> seen[n].Valid()
    }
  }

  function Max(a: Time, b: Time): Time {
    if a < b then b else a
  }

  function Initial(now: Time): State {
    State(Sampling(None, "logs", 60.0, 60.0, 10000, map[], false, false, {}),
          Fleet(None, None, 0.0, now), Marks(0, 0, now, 0.0, 0.0), Lives(map[], 0), map[])
  }

  // ---------------------------------------------------------------------------
  // Faults
  // ---------------------------------------------------------------------------

  function Invalidate(s: State, now: Time): State {
    s.(marks := s.marks.(generation := s.marks.generation + 1, floor := now),
       sampling := s.sampling.(signature := None))
  }

  function RetireNode(l: Lives, n: NodeId, when: Time): Lives {
    var epoch := l.nextEpoch + 1;
    var node := if n in l.nodes
                then l.nodes[n].(epoch := epoch, floor := Max(l.nodes[n].floor, when))
                else NodeState(epoch, when, 0.0);
    Lives(l.nodes[n := node], epoch)
  }

  function NoteTransportGap(s: State, n: Option<NodeId>, when: Time): State {
    if n.Some? then s.(lives := RetireNode(s.lives, n.value, when))
    else
      s.(marks := s.marks.(transportFloor := Max(s.marks.transportFloor, when),
                           faultVersion := s.marks.faultVersion + 1))
  }

  /** A node fault renews the node's epoch, without moving its floor. */
  function FaultNode(l: Lives, n: NodeId, deadline: Time, now: Time): Lives {
    var t := if n in l.nodes then l else RetireNode(l, n, now);
    var epoch := t.nextEpoch + 1;
    Lives(t.nodes[n := t.nodes[n].(epoch := epoch, uncertainUntil := Max(t.nodes[n].uncertainUntil, deadline))], epoch)
  }

  function MarkUncertain(s: State, n: Option<NodeId>, deadline: Time, now: Time): State {
    if n.Some? && s.Requires(n.value) then s.(lives := FaultNode(s.lives, n.value, deadline, now))
    else
      s.(marks := s.marks.(uncertainUntil := Max(s.marks.uncertainUntil, deadline),
                           faultVersion := s.marks.faultVersion + 1))
  }

  // ---------------------------------------------------------------------------
  // Fleet
  // ---------------------------------------------------------------------------

  /** Panel-disabled, limited and locally disabled nodes are outside the fleet. */
  function RequiredOf(panel: Option<map<NodeId, Status>>, disabledNodes: set<NodeId>): Option<map<NodeId, bool>> {
    if panel.None? then None
    else
      Some(map n | n in panel.value && n !in disabledNodes && panel.value[n] !in {Disabled, Limited}
           :: panel.value[n] == Connected)
  }

  predicate Changed(previous: Option<map<NodeId, bool>>, fleet: map<NodeId, bool>, n: NodeId) {
    n in fleet && (previous.None? || n !in previous.value || previous.value[n] != fleet[n])
  }

  function Only<T>(m: map<NodeId, T>, keys: set<NodeId>): (r: map<NodeId, T>)
    ensures forall n :: n in r <==> n in m && n in keys
    ensures forall n :: n in r ==> r[n] == m[n]
  {
    map n | n in m && n in keys :: m[n]
  }

  /** Retire each node that joined or whose connection changed, in dict order. */
  function RetireChanged(l: Lives, previous: Option<map<NodeId, bool>>, fleet: map<NodeId, bool>,
                         order: seq<NodeId>, now: Time): Lives
    decreases |order|
  {
    if |order| == 0 then l
    else
      var t := if Changed(previous, fleet, order[0]) then RetireNode(l, order[0], now) else l;
      RetireChanged(t, previous, fleet, order[1..], now)
  }

  /** A fleet that becomes known or unknown, or was not seen for too long, retires
      every parser and pending snapshot. */
  function FleetLost(s: State, lost: bool, now: Time): State {
    if lost then
      s.(marks := s.marks.(generation := s.marks.generation + 1, faultVersion := s.marks.faultVersion + 1),
         fleet := s.fleet.(floor := now))
    else s
  }

  function RefreshRequired(s: State, order: seq<NodeId>, now: Time): (r: State)
    ensures s.ValidMemories() ==> r.ValidMemories()
  {
    var fleet := RequiredOf(s.fleet.panel, s.sampling.disabledNodes);
    var previous := s.fleet.required;
    var a := FleetLost(s, fleet.None? != previous.None?, now);
    var b := a.(fleet := a.fleet.(required := fleet));
    if fleet.None? then b else Rejoined(b, previous, fleet.value, order, now)
  }

  function Rejoined(s: State, previous: Option<map<NodeId, bool>>, fleet: map<NodeId, bool>,
                    order: seq<NodeId>, now: Time): State
  {
    var l := RetireChanged(s.lives, previous, fleet, order, now);
    s.(lives := l.(nodes := Only(l.nodes, fleet.Keys)),
       fleet := if |fleet| == 0 && previous.Some? && |previous.value| > 0 then s.fleet.(floor := now) else s.fleet,
       seen := Only(s.seen, fleet.Keys))
  }

  function Silence(interval: Time): Time {
    Max(120.0, interval * 3.0)
  }

  function RegisterFleet(s: State, panel: Option<map<NodeId, Status>>, order: seq<NodeId>, now: Time): State {
    var a := FleetLost(s, s.fleet.required.Some? && now - s.fleet.seenAt > Silence(s.sampling.interval), now);
    var r := RefreshRequired(a.(fleet := a.fleet.(panel := panel)), order, now);
    r.(fleet := r.fleet.(seenAt := now))
  }

  // ---------------------------------------------------------------------------
  // Replay memory
  // ---------------------------------------------------------------------------

  function WithMemory(s: State, n: NodeId, m: Memory): (r: State)
    ensures s.ValidMemories() && m.Valid() ==> r.ValidMemories()
  {
    s.(seen := s.seen[n := m])
  }

  /** Evict oldest first down to the capacity; a still-live eviction is a fault. */
  ghost function EvictOver(s: State, n: NodeId, now: Time): (r: State)
    requires n in s.seen && s.ValidMemories()
    ensures r.seen.Keys == s.seen.Keys && r.ValidMemories()
    decreases |s.seen[n].order|
  {
    var m := s.seen[n];
    if |m.order| <= s.sampling.capacity then s
    else
      var oldest := m.order[0];
      assert oldest in m.order && oldest in m.at;
      WithoutOldestKeeps(m);
      EvictOver(EvictOldest(s, n, now), n, now)
  }

  function EvictOldest(s: State, n: NodeId, now: Time): State
    requires n in s.seen && |s.seen[n].order| > 0 && s.seen[n].order[0] in s.seen[n].at
  {
    var m := s.seen[n];
    var expiry := m.at[m.order[0]] + s.sampling.freshness;
    var t := WithMemory(s, n, WithoutOldest(m));
    if expiry > now then MarkUncertain(t, Some(n), expiry, now) else t
  }

  /** What one turn of the eviction loop does, and leaves to do. */
  lemma EvictStep(s: State, n: NodeId, now: Time)
    requires n in s.seen && s.ValidMemories() && |s.seen[n].order| > s.sampling.capacity
    ensures s.seen[n].order[0] in s.seen[n].at
    ensures var t := EvictOldest(s, n, now);
      && t.seen == s.seen[n := WithoutOldest(s.seen[n])] && t.ValidMemories() && t.sampling == s.sampling
      && |t.seen[n].order| < |s.seen[n].order|
      && EvictOver(s, n, now) == EvictOver(t, n, now)
  {
    var m := s.seen[n];
    var oldest := m.order[0];
    assert oldest in m.order && oldest in m.at;
    WithoutOldestKeeps(m);
  }

  ghost function Settled(s: State, n: NodeId, now: Time): (r: State)
    requires n in s.seen && s.ValidMemories()
    ensures r.ValidMemories()
  {
    var t := EvictOver(s, n, now);
    CompactedKeeps(t.seen[n]);
    WithMemory(t, n, Compacted(t.seen[n]))
  }

  /** The node's cache, created empty if absent. */
  function MemoryOf(s: State, n: NodeId): (m: Memory)
    requires s.ValidMemories()
    ensures m.Valid()
  {
    if n in s.seen then s.seen[n] else EMPTY
  }

  /** The node's memory after the expiry that precedes every admission and resize. */
  ghost function Swept(s: State, n: NodeId, now: Time): (m: Memory)
    requires s.ValidMemories()
    ensures m.Valid()
  {
    hide Expired, Memory.Valid;
    ExpiredKeeps(MemoryOf(s, n), now - s.sampling.freshness);
    Expired(MemoryOf(s, n), now - s.sampling.freshness)
  }

  /** What a capacity or freshness change does to one node's memory. */
  ghost function Resized(s: State, n: NodeId, now: Time): (r: State)
    requires s.ValidMemories()
    ensures r.ValidMemories()
  {
    if n !in s.seen then s
    else Settled(WithMemory(s, n, Swept(s, n, now)), n, now)
  }

  ghost function ResizedAll(s: State, order: seq<NodeId>, now: Time): (r: State)
    requires s.ValidMemories()
    ensures r.ValidMemories()
    decreases |order|
  {
    if |order| == 0 then s else ResizedAll(Resized(s, order[0], now), order[1..], now)
  }

  predicate SettingsParse(c: Settings) {
    c.interval.Some? && c.interval.value > 0.0 && c.capacity.Some? && c.capacity.value >= 1
  }

  function Parsed(p: Sampling, c: Settings): Sampling {
    p.(interval := if SettingsParse(c) then c.interval.value else 60.0,
       capacity := if SettingsParse(c) then c.capacity.value else 10000,
       configError := !SettingsParse(c) || c.zones.None?,
       zones := if c.zones.Some? then c.zones.value else map[],
       defaultZone := c.defaultZone)
  }

  /** The state in which a new configuration refreshes the fleet. */
  function Reconfigured(s: State, c: Settings, now: Time): State {
    var a := Invalidate(s, now);
    a.(sampling := a.sampling.(signature := Some(c), source := c.source,
                               disabledNodes := c.disabledNodes, freshness := c.freshness))
  }

  /** `configure`: unchanged settings do nothing, changed ones reset the floors. */
  ghost function Configure(s: State, c: Settings, fleetOrder: seq<NodeId>, cacheOrder: seq<NodeId>, now: Time): (r: (State, bool))
    requires s.ValidMemories()
    ensures r.0.ValidMemories()
  {
    if s.sampling.signature == Some(c) then (s, false)
    else
      var b := RefreshRequired(Reconfigured(s, c, now), fleetOrder, now);
      (ResizedAll(b.(sampling := Parsed(b.sampling, c)), cacheOrder, now), true)
  }

  /** `admit`: the new state and whether the record was admitted. `None` stands
      for an observation time that is not a finite number. */
  ghost function Admit(s: State, n: NodeId, id: Fingerprint, at: Option<Time>, now: Time): (r: (State, bool))
    requires s.ValidMemories()
    ensures r.0.ValidMemories()
  {
    if at.None? then (MarkUncertain(s, Some(n), now + s.sampling.freshness, now), false)
    else if at.value > now then (MarkUncertain(s, Some(n), at.value + s.sampling.freshness, now), false)
    else if at.value < s.marks.floor || now - at.value >= s.sampling.freshness then (s, false)
    else AdmitFresh(s, n, id, at.value, now)
  }

  ghost function AdmitFresh(s: State, n: NodeId, id: Fingerprint, at: Time, now: Time): (r: (State, bool))
    requires s.ValidMemories()
    ensures r.0.ValidMemories()
  {
    var m := Swept(s, n, now);
    if id in m.at then
      CompactedKeeps(m);
      (WithMemory(s, n, Compacted(m)), false)
    else
      PushedKeeps(m, id, at);
      (Settled(WithMemory(s, n, Pushed(m, id, at)), n, now), true)
  }
}
