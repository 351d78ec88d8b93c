/** LogObservations (utils/log_observations.py) as an object whose methods update
    its fields in place, each proved against the state function of LogState. */
module LogObservations {
  import opened Collections
  import opened ReplayMemory
  import opened LogState

  /** The source's attributes, grouped by what updates them together. */
  class LogObservations {
    var sampling: Sampling
    var fleet: Fleet
    var marks: Marks
    var lives: Lives
    var seen: map<NodeId, Memory>

    ghost function View(): State
      reads this
    {
      State(sampling, fleet, marks, lives, seen)
    }

    constructor (now: Time)
      ensures View() == Initial(now)
    {
      sampling := Sampling(None, "logs", 60.0, 60.0, 10000, map[], false, false, {});
      fleet := Fleet(None, None, 0.0, now);
      marks := Marks(0, 0, now, 0.0, 0.0);
      lives := Lives(map[], 0);
      seen := map[];
    }

    method Invalidate(now: Time)
      modifies this
      ensures View() == LogState.Invalidate(old(View()), now)
    {
      marks := marks.(generation := marks.generation + 1);
      sampling := sampling.(signature := None);
      marks := marks.(floor := now);
    }

    method RetireNode(n: NodeId, when: Time)
      modifies this`lives
      ensures lives == LogState.RetireNode(old(lives), n, when)
    {
      lives := lives.(nextEpoch := lives.nextEpoch + 1);
      if n !in lives.nodes {
        lives := lives.(nodes := lives.nodes[n := NodeState(lives.nextEpoch, when, 0.0)]);
      } else {
        var node := lives.nodes[n];
        node := node.(epoch := lives.nextEpoch);
        node := node.(floor := Max(node.floor, when));
        lives := lives.(nodes := lives.nodes[n := node]);
      }
    }

    method NoteTransportGap(when: Time, n: Option<NodeId>)
      modifies this
      ensures View() == LogState.NoteTransportGap(old(View()), n, when)
    {
      if n.Some? {
        RetireNode(n.value, when);
      } else {
        marks := marks.(transportFloor := Max(marks.transportFloor, when));
        marks := marks.(faultVersion := marks.faultVersion + 1);
      }
    }

    method MarkUncertain(deadline: Time, n: Option<NodeId>, now: Time)
      modifies this`lives, this`marks
      ensures View() == LogState.MarkUncertain(old(View()), n, deadline, now)
    {
      if n.Some? && fleet.required.Some? && n.value in fleet.required.value {
        if n.value !in lives.nodes {
          RetireNode(n.value, now);
        }
        lives := lives.(nextEpoch := lives.nextEpoch + 1);
        var node := lives.nodes[n.value];
        node := node.(epoch := lives.nextEpoch);
        node := node.(uncertainUntil := Max(node.uncertainUntil, deadline));
        lives := lives.(nodes := lives.nodes[n.value := node]);
      } else {
        marks := marks.(uncertainUntil := Max(marks.uncertainUntil, deadline));
        marks := marks.(faultVersion := marks.faultVersion + 1);
      }
    }

    /** The part of the fleet bookkeeping that retires every parser and snapshot. */
    method LoseFleet(now: Time)
      modifies this`marks, this`fleet
      ensures View() == FleetLost(old(View()), true, now)
    {
      marks := marks.(generation := marks.generation + 1);
      marks := marks.(faultVersion := marks.faultVersion + 1);
      fleet := fleet.(floor := now);
    }

    method RetireChangedNodes(previous: Option<map<NodeId, bool>>, required: map<NodeId, bool>, order: seq<NodeId>, now: Time)
      modifies this`lives
      ensures lives == RetireChanged(old(lives), previous, required, order, now)
    {
      var i := 0;
      while i < |order|
        invariant 0 <= i <= |order|
        invariant RetireChanged(lives, previous, required, order[i..], now)
               == RetireChanged(old(lives), previous, required, order, now)
      {
        if Changed(previous, required, order[i]) {
          RetireNode(order[i], now);
        }
        assert order[i..][1..] == order[i + 1..];
        i := i + 1;
      }
    }

    /** _refresh_required_nodes */
    method RefreshRequiredNodes(order: seq<NodeId>, now: Time)
      modifies this
      ensures View() == RefreshRequired(old(View()), order, now)
    {
      var required := RequiredOf(fleet.panel, sampling.disabledNodes);
      var previous := fleet.required;
      if required.None? != previous.None? {
        LoseFleet(now);
      }
      fleet := fleet.(required := required);
      if required.Some? {
        RetireChangedNodes(previous, required.value, order, now);
        lives := lives.(nodes := Only(lives.nodes, required.value.Keys));
        if |required.value| == 0 && previous.Some? && |previous.value| > 0 {
          fleet := fleet.(floor := now);
        }
        seen := Only(seen, required.value.Keys);
      }
    }

    method RegisterFleet(panel: Option<map<NodeId, Status>>, order: seq<NodeId>, now: Time)
      modifies this
      ensures View() == LogState.RegisterFleet(old(View()), panel, order, now)
    {
      hide RefreshRequired;
      if fleet.required.Some? && now - fleet.seenAt > Silence(sampling.interval) {
        LoseFleet(now);
      }
      fleet := fleet.(panel := panel);
      RefreshRequiredNodes(order, now);
      fleet := fleet.(seenAt := now);
    }

    /** One turn of the eviction loop. */
    method EvictOldestEntry(n: NodeId, now: Time)
      requires n in seen && |seen[n].order| > 0 && seen[n].order[0] in seen[n].at
      modifies this`seen, this`lives, this`marks
      ensures View() == EvictOldest(old(View()), n, now)
    {
      var cache := seen[n];
      var evictedAt := cache.at[cache.order[0]];
      seen := seen[n := WithoutOldest(cache)];
      if evictedAt + sampling.freshness > now {
        MarkUncertain(evictedAt + sampling.freshness, Some(n), now);
      }
    }

    /** The eviction loop shared by admission and reconfiguration, then compaction. */
    method SettleMemory(n: NodeId, now: Time)
      requires n in seen && View().ValidMemories()
      modifies this`seen, this`lives, this`marks
      ensures View() == Settled(old(View()), n, now)
      ensures View().ValidMemories()
    {
      hide EvictOldest, Compacted;
      while |seen[n].order| > sampling.capacity
        invariant n in seen && View().ValidMemories()
        invariant EvictOver(View(), n, now) == EvictOver(old(View()), n, now)
        decreases |seen[n].order|
      {
        EvictStep(View(), n, now);
        EvictOldestEntry(n, now);
      }
      seen := seen[n := Compacted(seen[n])];
    }

    method Configure(c: Settings, fleetOrder: seq<NodeId>, cacheOrder: seq<NodeId>, now: Time) returns (reset: bool)
      requires View().ValidMemories()
      modifies this
      ensures (View(), reset) == LogState.Configure(old(View()), c, fleetOrder, cacheOrder, now)
      ensures View().ValidMemories()
    {
      hide RefreshRequired;
      if sampling.signature == Some(c) {
        return false;
      }
      Invalidate(now);
      sampling := sampling.(signature := Some(c), source := c.source,
                            disabledNodes := c.disabledNodes, freshness := c.freshness);
      RefreshRequiredNodes(fleetOrder, now);
      ParseSettings(c);
      ResizeMemories(cacheOrder, now);
      reset := true;
    }

    method ParseSettings(c: Settings)
      modifies this`sampling
      ensures sampling == Parsed(old(sampling), c)
    {
      sampling := sampling.(configError := false);
      if SettingsParse(c) {
        sampling := sampling.(interval := c.interval.value, capacity := c.capacity.value);
      } else {
        sampling := sampling.(interval := 60.0, capacity := 10000, configError := true);
      }
      if c.zones.Some? {
        sampling := sampling.(zones := c.zones.value);
      } else {
        sampling := sampling.(zones := map[], configError := true);
      }
      sampling := sampling.(defaultZone := c.defaultZone);
    }

    method ResizeMemories(order: seq<NodeId>, now: Time)
      requires View().ValidMemories()
      modifies this`seen, this`lives, this`marks
      ensures View() == ResizedAll(old(View()), order, now)
      ensures View().ValidMemories()
    {
      var i := 0;
      while i < |order|
        invariant 0 <= i <= |order| && View().ValidMemories()
        invariant ResizedAll(View(), order[i..], now) == ResizedAll(old(View()), order, now)
      {
        ResizeMemory(order[i], now);
        assert order[i..][1..] == order[i + 1..];
        i := i + 1;
      }
    }

    /** The node's cache (created empty if absent) after its due entries expired. */
    method SweepMemory(n: NodeId, now: Time) returns (cache: Memory)
      requires View().ValidMemories()
      ensures cache == Swept(View(), n, now)
    {
      hide Expired;
      cache := ExpireReplayCache(if n in seen then seen[n] else EMPTY, now - sampling.freshness);
    }

    method ResizeMemory(n: NodeId, now: Time)
      requires View().ValidMemories()
      modifies this`seen, this`lives, this`marks
      ensures View() == Resized(old(View()), n, now)
      ensures View().ValidMemories()
    {
      hide Settled, Swept;
      if n in seen {
        var cache := SweepMemory(n, now);
        seen := seen[n := cache];
        SettleMemory(n, now);
      }
    }

    method Admit(n: NodeId, id: Fingerprint, at: Option<Time>, now: Time) returns (admitted: bool)
      requires View().ValidMemories()
      modifies this
      ensures (View(), admitted) == LogState.Admit(old(View()), n, id, at, now)
      ensures View().ValidMemories()
    {
      hide AdmitFresh;
      if at.None? || at.value > now {
        MarkUncertain((if at.None? then now else at.value) + sampling.freshness, Some(n), now);
        return false;
      }
      if at.value < marks.floor || now - at.value >= sampling.freshness {
        return false;
      }
      admitted := AdmitInWindow(n, id, at.value, now);
    }

    method AdmitInWindow(n: NodeId, id: Fingerprint, at: Time, now: Time) returns (admitted: bool)
      requires View().ValidMemories()
      modifies this`seen, this`lives, this`marks
      ensures (View(), admitted) == AdmitFresh(old(View()), n, id, at, now)
      ensures View().ValidMemories()
    {
      hide Settled, Swept;
      var cache := SweepMemory(n, now);
      if id in cache.at {
        seen := seen[n := Compacted(cache)];
        return false;
      }
      PushedKeeps(cache, id, at);
      seen := seen[n := Pushed(cache, id, at)];
      SettleMemory(n, now);
      admitted := true;
    }
  }
}
