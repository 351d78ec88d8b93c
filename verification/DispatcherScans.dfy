/** Warning scans and the life of their chunks (telegram_bot/dispatcher.py): every chunk is
    an item of DispatcherItem, run by the worker and by callers in any interleaving with
    newer scans. */
module DispatcherScans {
  import opened DispatcherItem
  import W = DispatcherWarnings

  type Scope = W.Scope
  type BatchId = W.BatchId

  datatype Scan = Scan(scope: Scope, chunks: seq<Item>)

  /** `reports` is `_warning_reports`, `scans` every scan ever admitted. */
  datatype World = World(reports: map<Scope, BatchId>, scans: map<BatchId, Scan>)

  datatype Act =
    | Admit(scan: BatchId, scope: Scope, count: nat)
    | Move(scan: BatchId, chunk: nat, action: Action)
    | Settle(scan: BatchId)

  /** The item is finished for good: its future is resolved, or about to be, and no worker
      holds it before or in a transport. */
  predicate Done(i: Item) {
    || (i.state in {Delivered, Failed, Uncertain} && i.worker in {Away, InFinish, InErrorPause})
    || (i.state == Cancelled && i.worker in {Away, InFinish, InErrorPause, InBucket, InBackoff})
  }

  predicate Silent(i: Item) {
    i.superseded || Done(i)
  }

  ghost predicate Allowed(w: World, a: Act) {
    match a
    case Admit(b, _, _) => b !in w.scans
    case Move(b, n, action) =>
      b in w.scans && n < |w.scans[b].chunks| && !action.Supersede? && Enabled(w.scans[b].chunks[n], action)
    case Settle(b) => b in w.scans && forall i :: i in w.scans[b].chunks ==> Done(i)
  }

  function Superseded(chunks: seq<Item>): (r: seq<Item>)
    ensures |r| == |chunks| && forall n :: 0 <= n < |r| ==> r[n] == Step(chunks[n], Supersede)
  {
    seq(|chunks|, n requires 0 <= n < |chunks| => Step(chunks[n], Supersede))
  }

  /** The scan is queued whole before its predecessor is superseded; an empty one leaves no
      report behind. */
  function Next(w: World, a: Act): World {
    match a
    case Admit(b, scope, count) =>
      var scans := if scope in w.reports && w.reports[scope] in w.scans then
          w.scans[w.reports[scope] := w.scans[w.reports[scope]].(chunks := Superseded(w.scans[w.reports[scope]].chunks))]
        else w.scans;
      World(if count == 0 then w.reports - {scope} else w.reports[scope := b],
            scans[b := Scan(scope, seq(count, _ => Admitted(false, false)))])
    case Move(b, n, action) =>
      if b in w.scans && n < |w.scans[b].chunks| then
        w.(scans := w.scans[b := w.scans[b].(chunks := w.scans[b].chunks[n := Step(w.scans[b].chunks[n], action)])])
      else w
    case Settle(b) =>
      if b in w.scans && w.scans[b].scope in w.reports && w.reports[w.scans[b].scope] == b
      then w.(reports := w.reports - {w.scans[b].scope})
      else w
  }

  ghost predicate ScanOk(w: World, b: BatchId) {
    b in w.scans ==>
      forall i :: i in w.scans[b].chunks ==> (DispatcherItem.Inv(i) && !i.critical &&
        ((w.scans[b].scope in w.reports && w.reports[w.scans[b].scope] == b) || Silent(i)))
  }

  ghost predicate Inv(w: World) {
    && (forall b :: ScanOk(w, b))
    && (forall s :: s in w.reports ==> w.reports[s] in w.scans && w.scans[w.reports[s]].scope == s)
  }

  lemma DoneStays(i: Item, a: Action)
    requires Done(i) && DispatcherItem.Inv(i) && !i.critical && Enabled(i, a)
    ensures Done(Step(i, a)) && Step(i, a).log.sends == i.log.sends
  {
    StepKeeps(i, a);
  }

  /** A superseded or finished chunk stays so and starts no transport. */
  lemma SilentStays(i: Item, a: Action)
    requires Silent(i) && DispatcherItem.Inv(i) && !i.critical && Enabled(i, a)
    ensures Silent(Step(i, a)) && Step(i, a).log.sends == i.log.sends
    ensures DispatcherItem.Inv(Step(i, a)) && !Step(i, a).critical
  {
    StepKeeps(i, a);
    if !i.superseded {
      DoneStays(i, a);
    }
    hide Step, Enabled;
  }

  lemma NextScan(w: World, a: Act, b: BatchId)
    requires Inv(w) && Allowed(w, a)
    ensures ScanOk(Next(w, a), b)
  {
    assert ScanOk(w, b);
    match a
    case Admit(k, scope, count) =>
      forall i | i in Superseded(if b in w.scans then w.scans[b].chunks else [])
        ensures DispatcherItem.Inv(i) && !i.critical && i.superseded
      {
        var chunks := w.scans[b].chunks;
        var n :| 0 <= n < |chunks| && Superseded(chunks)[n] == i;
        assert chunks[n] in chunks;
        StepKeeps(chunks[n], Supersede);
      }
      assert DispatcherItem.Inv(Admitted(false, false));
    case Move(k, n, action) =>
      var item := w.scans[k].chunks[n];
      assert item in w.scans[k].chunks && ScanOk(w, k);
      StepKeeps(item, action);
      if Silent(item) {
        SilentStays(item, action);
      }
    case Settle(k) =>
  }

  lemma NextKeeps(w: World, a: Act)
    requires Inv(w) && Allowed(w, a)
    ensures Inv(Next(w, a))
  {
    forall b ensures ScanOk(Next(w, a), b) {
      NextScan(w, a, b);
    }
  }

  // ---------------------------------------------------------------------------
  // Runs
  // ---------------------------------------------------------------------------

  ghost predicate Possible(w: World, acts: seq<Act>)
    decreases |acts|
  {
    |acts| == 0 || (Allowed(w, acts[0]) && Possible(Next(w, acts[0]), acts[1..]))
  }

  function After(w: World, acts: seq<Act>): World
    decreases |acts|
  {
    if |acts| == 0 then w else After(Next(w, acts[0]), acts[1..])
  }

  const EMPTY := World(map[], map[])

  lemma {:induction false} RunKeeps(w: World, acts: seq<Act>)
    requires Inv(w) && Possible(w, acts)
    ensures Inv(After(w, acts))
    decreases |acts|
  {
    if |acts| > 0 {
      NextKeeps(w, acts[0]);
      hide Inv, Next, Allowed;
      RunKeeps(Next(w, acts[0]), acts[1..]);
    }
  }

  /** An old scan: its chunks are all superseded or finished. */
  ghost predicate Quiet(w: World, b: BatchId) {
    b in w.scans && forall i :: i in w.scans[b].chunks ==> Silent(i)
  }

  predicate SameSends(w: World, v: World, b: BatchId) {
    b in w.scans && b in v.scans && |w.scans[b].chunks| == |v.scans[b].chunks|
    && forall n | 0 <= n < |w.scans[b].chunks| :: v.scans[b].chunks[n].log.sends == w.scans[b].chunks[n].log.sends
  }

  lemma QuietStays(w: World, a: Act, b: BatchId)
    requires Inv(w) && Allowed(w, a) && Quiet(w, b)
    ensures Quiet(Next(w, a), b) && SameSends(w, Next(w, a), b)
  {
    assert ScanOk(w, b);
    var chunks := w.scans[b].chunks;
    match a
    case Move(k, n, action) =>
      if k == b {
        assert chunks[n] in chunks;
        SilentStays(chunks[n], action);
      }
    case Admit(_, _, _) =>
      forall n | 0 <= n < |chunks| ensures Silent(Superseded(chunks)[n]) {
        assert chunks[n] in chunks;
      }
    case Settle(_) =>
  }

  lemma {:induction false} QuietRun(w: World, acts: seq<Act>, b: BatchId)
    requires Inv(w) && Possible(w, acts) && Quiet(w, b)
    ensures SameSends(w, After(w, acts), b)
    decreases |acts|
  {
    if |acts| > 0 {
      NextKeeps(w, acts[0]);
      QuietStays(w, acts[0], b);
      hide Inv, Next, Allowed, Quiet;
      QuietRun(Next(w, acts[0]), acts[1..], b);
    }
  }

  /** In every reachable state, admitting a scan, even an empty one, silences every older
      scan of its scope: whatever state its chunks were in, none of them starts a transport
      in any run from there on. */
  lemma NewerScanSilencesOlder(before: seq<Act>, b: BatchId, scope: Scope, count: nat, later: seq<Act>, older: BatchId)
    requires Possible(EMPTY, before)
    requires var w := After(EMPTY, before);
      && Allowed(w, Admit(b, scope, count)) && Possible(Next(w, Admit(b, scope, count)), later)
      && older in w.scans && w.scans[older].scope == scope
    ensures SameSends(After(EMPTY, before), After(Next(After(EMPTY, before), Admit(b, scope, count)), later), older)
  {
    assert Inv(EMPTY);
    RunKeeps(EMPTY, before);
    var w := After(EMPTY, before);
    hide After, Possible;
    SilencedNow(w, b, scope, count, older);
    NextKeeps(w, Admit(b, scope, count));
    QuietRun(Next(w, Admit(b, scope, count)), later, older);
  }

  lemma SilencedNow(w: World, b: BatchId, scope: Scope, count: nat, older: BatchId)
    requires Inv(w) && b !in w.scans && older in w.scans && w.scans[older].scope == scope
    ensures Quiet(Next(w, Admit(b, scope, count)), older)
    ensures SameSends(w, Next(w, Admit(b, scope, count)), older)
  {
    assert ScanOk(w, older);
  }

  // ---------------------------------------------------------------------------
  // The newest scan of a scope goes on
  // ---------------------------------------------------------------------------

  lemma RequeueKeepsIt(i: Item)
    ensures Retry(i).superseded == i.superseded && Retried(i).superseded == i.superseded
    ensures Released(i).superseded == i.superseded
  {
  }

  lemma TransportKeepsIt(i: Item, reply: Reply, accepted: bool)
    ensures AfterReply(i, reply).superseded == i.superseded && Interrupt(i, accepted).superseded == i.superseded
  {
    hide Retried, Released, Classify;
    forall j: Item ensures Retried(j).superseded == j.superseded && Released(j).superseded == j.superseded {
      RequeueKeepsIt(j);
    }
  }

  lemma BoundaryKeepsIt(i: Item, paused: bool, ready: bool)
    ensures Boundary(i, paused, ready).superseded == i.superseded
  {
    RequeueKeepsIt(i);
    hide Retried;
  }

  /** Nothing but a newer report supersedes an item. */
  lemma OnlySupersedeSupersedes(i: Item, a: Action)
    requires a != Supersede
    ensures Step(i, a).superseded == i.superseded
  {
    hide Boundary, Retry, Released, AfterReply, Interrupt, Obsolete;
    RequeueKeepsIt(i);
    match a
    case Prepare(paused, _, ready) => BoundaryKeepsIt(i.(state := Sending), paused, ready);
    case Reported(_, paused, ready) => BoundaryKeepsIt(i, paused, ready);
    case Replied(reply) => TransportKeepsIt(i, reply, false);
    case InterruptWorker(accepted) => TransportKeepsIt(i, Acked, accepted);
    case _ =>
  }

  ghost predicate Current(w: World, b: BatchId, scope: Scope) {
    b in w.scans && w.scans[b].scope == scope && forall i :: i in w.scans[b].chunks ==> !i.superseded
  }

  lemma CurrentStays(w: World, a: Act, b: BatchId, scope: Scope)
    requires Inv(w) && Allowed(w, a) && Current(w, b, scope) && (a.Admit? ==> a.scope != scope)
    ensures Current(Next(w, a), b, scope)
  {
    match a
    case Move(k, n, action) => OnlySupersedeSupersedes(w.scans[k].chunks[n], action); hide Step;
    case Admit(_, _, _) =>
    case Settle(_) =>
  }

  lemma {:induction false} CurrentRun(w: World, acts: seq<Act>, b: BatchId, scope: Scope)
    requires Inv(w) && Possible(w, acts) && Current(w, b, scope)
    requires forall a <- acts :: a.Admit? ==> a.scope != scope
    ensures Current(After(w, acts), b, scope)
    decreases |acts|
  {
    if |acts| > 0 {
      assert acts[0] in acts && forall a <- acts[1..] :: a in acts;
      NextKeeps(w, acts[0]);
      CurrentStays(w, acts[0], b, scope);
      hide Inv, Next, Allowed, Current;
      CurrentRun(Next(w, acts[0]), acts[1..], b, scope);
    }
  }

  /** In every reachable state, a scan is queued whole, and none of its chunks is
      superseded in any run from there on that admits no newer scan of its scope:
      scans of other scopes do not disturb it. */
  lemma NewestScanGoesOn(before: seq<Act>, b: BatchId, scope: Scope, count: nat, later: seq<Act>)
    requires Possible(EMPTY, before) && Allowed(After(EMPTY, before), Admit(b, scope, count))
    requires Possible(Next(After(EMPTY, before), Admit(b, scope, count)), later)
    requires forall a <- later :: a.Admit? ==> a.scope != scope
    ensures var w := Next(After(EMPTY, before), Admit(b, scope, count));
      && |w.scans[b].chunks| == count && (forall n :: 0 <= n < count ==> w.scans[b].chunks[n] == Admitted(false, false))
      && Current(After(w, later), b, scope)
  {
    assert Inv(EMPTY);
    RunKeeps(EMPTY, before);
    NextKeeps(After(EMPTY, before), Admit(b, scope, count));
    CurrentRun(Next(After(EMPTY, before), Admit(b, scope, count)), later, b, scope);
  }
}
