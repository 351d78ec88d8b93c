/** The life of one outbound message of the Telegram dispatcher
    (telegram_bot/dispatcher.py): the worker, a caller that cancels, a newer report
    that supersedes and an interrupted worker, interleaved at every point where the
    source really suspends. Code between two such points is one action. */
module DispatcherItem {

  datatype DeliveryState = Queued | Preparing | Sending | Delivered | Cancelled | Failed | Uncertain

  /** Where the worker is suspended with this item. `Reporting` and `Requeueing` are
      the durable state writes around a daily report's transport. */
  datatype Worker =
    | Away | InBucket | Reporting | InTransport | Requeueing(failed: bool) | InFinish | InBackoff | InErrorPause

  /** How a transport ends. `RetryAfter`, `BadPayload`, `Refused` (BadRequest or
      Forbidden) and `NoConnection` prove that Telegram did not accept the message;
      the two kinds of lost reply look the same to the dispatcher. */
  datatype Reply = Acked | RetryAfter | BadPayload | Refused | NoConnection | LostAccepted | LostRefused

  datatype Outcome = ToDelivered | ToRetry | ToFailed | ToUncertain

  /** History of a run, read by no action: transports started and accepted, whether
      one is still unresolved, whether the item expired or was unsendable, and how
      many transports started after the item was superseded. */
  datatype Log = Log(sends: nat, accepted: nat, open: bool, rejected: bool, lateSends: nat)

  /** One send item. */
  datatype Item = Item(
    critical: bool, report: bool, state: DeliveryState, worker: Worker, interrupted: bool,
    enqueued: bool, superseded: bool, retries: nat, log: Log)

  const MAX_RETRIES := 3

  function Admitted(critical: bool, report: bool): Item {
    Item(critical, report, Queued, Away, false, true, false, 0, Log(0, 0, false, false, 0))
  }

  predicate Proves(reply: Reply) {
    reply in {RetryAfter, BadPayload, Refused, NoConnection}
  }

  predicate Settled(s: DeliveryState) {
    s == Delivered || s == Uncertain
  }

  // ---------------------------------------------------------------------------
  // Actions
  // ---------------------------------------------------------------------------

  /** `paused` is a monitoring pause or a changed destination, `ready` a known bot
      and destination, `expired` a passed time to live, `ok` a write that succeeds. */
  datatype Action =
    | Take(paused: bool)
    | Prepare(paused: bool, expired: bool, ready: bool)
    | Reported(ok: bool, paused: bool, ready: bool)
    | Replied(reply: Reply)
    | Requeued(ok: bool)
    | Finished(ok: bool)
    | WakeUp
    | Reload
    | InterruptWorker(accepted: bool)
    | CancelItem
    | Supersede

  predicate Enabled(i: Item, a: Action) {
    match a
    case Take(_) => i.worker == Away && i.enqueued
    case Prepare(_, _, _) => i.worker == InBucket
    case Reported(_, _, _) => i.worker == Reporting
    case Replied(_) => i.worker == InTransport
    case Requeued(_) => i.worker.Requeueing?
    case Finished(_) => i.worker == InFinish
    case WakeUp => i.worker == InBackoff || i.worker == InErrorPause
    case Reload => i.critical && i.worker == Away && !i.enqueued && i.state != Failed && i.state != Cancelled
    case InterruptWorker(_) => i.worker != Away
    case CancelItem => !Settled(i.state)
    case Supersede => true
  }

  /** _observation_obsolete */
  predicate Obsolete(i: Item, paused: bool) {
    !i.critical && (i.superseded || paused)
  }

  /** The transport boundary: nothing suspends between the last check and the send. */
  function Boundary(i: Item, paused: bool, ready: bool): Item {
    if !ready then Retried(i)
    else if Obsolete(i, paused) then i.(state := Cancelled, worker := InFinish)
    else
      i.(worker := InTransport,
         log := i.log.(sends := i.log.sends + 1, open := true,
                       lateSends := if i.superseded then i.log.lateSends + 1 else i.log.lateSends))
  }

  /** A retry outcome; a report first writes its state back. */
  function Retried(i: Item): Item {
    if i.report then i.(state := Queued, worker := Requeueing(false)) else Retry(i)
  }

  /** _retry */
  function Retry(i: Item): Item {
    if i.superseded then i.(state := Cancelled, worker := InFinish)
    else if !i.critical && i.retries + 1 > MAX_RETRIES then
      i.(retries := i.retries + 1, state := Failed, worker := InFinish)
    else i.(retries := i.retries + 1, state := Queued, worker := InBackoff)
  }

  /** _execute_item's classification of a reply. */
  function Classify(i: Item, reply: Reply): Outcome {
    match reply
    case Acked => ToDelivered
    case RetryAfter => ToRetry
    case BadPayload => ToFailed
    case Refused => ToRetry
    case NoConnection => if i.report then ToUncertain else ToRetry
    case _ => if i.report || !i.critical then ToUncertain else ToRetry
  }

  function AfterReply(i: Item, reply: Reply): Item {
    var j := i.(log := i.log.(accepted := if reply == Acked || reply == LostAccepted then i.log.accepted + 1 else i.log.accepted,
                              open := i.log.open && !Proves(reply),
                              rejected := i.log.rejected || reply == BadPayload));
    match Classify(i, reply)
    case ToDelivered => j.(state := Delivered, worker := InFinish)
    case ToUncertain => j.(state := Uncertain, worker := InFinish)
    case ToFailed =>
      if i.report then j.(state := Queued, worker := Requeueing(true)) else j.(state := Failed, worker := InFinish)
    case ToRetry => Retried(j)
  }

  /** What the handler of an interrupted worker leaves behind. */
  function Released(i: Item): Item {
    var j := i.(worker := Away, interrupted := false);
    if i.state == Cancelled || i.state == Failed || (i.state == Uncertain && !i.report) then j
    else if Settled(i.state) then j.(enqueued := true)
    else j.(state := Queued, enqueued := true)
  }

  function Interrupt(i: Item, accepted: bool): Item {
    match i.worker
    case Reporting => i.(interrupted := true)
    case Requeueing(_) => i.(interrupted := true)
    case InTransport =>
      if i.report then i.(interrupted := true)
      else
        var j := i.(log := i.log.(accepted := if accepted then i.log.accepted + 1 else i.log.accepted));
        if i.critical then Released(j) else j.(state := Uncertain, worker := InFinish)
    case InErrorPause => i.(worker := Away, enqueued := true)
    case _ => Released(i)
  }

  function Step(i: Item, a: Action): Item {
    match a
    case Take(paused) =>
      var j := i.(enqueued := false);
      if Settled(i.state) || i.state == Cancelled || i.state == Failed then j.(worker := InFinish)
      else if Obsolete(i, paused) then j.(state := Cancelled, worker := InFinish)
      else j.(state := Preparing, worker := InBucket)
    case Prepare(paused, expired, ready) =>
      if i.state == Cancelled || Obsolete(i, paused) then i.(state := Cancelled, worker := InFinish)
      else if expired then i.(state := Failed, worker := InFinish, log := i.log.(rejected := true))
      else if i.report then i.(state := Sending, worker := Reporting)
      else Boundary(i.(state := Sending), paused, ready)
    case Reported(ok, paused, ready) =>
      if ok then Boundary(i, paused, ready) else if i.interrupted then Released(i) else Retry(i)
    case Replied(reply) => AfterReply(i, reply)
    case Requeued(ok) =>
      if i.interrupted then Released(i)
      else if ok && i.worker.Requeueing? && i.worker.failed then i.(state := Failed, worker := InFinish)
      else Retry(i)
    case Finished(ok) =>
      if i.interrupted then Released(i)
      else if ok then i.(worker := Away)
      else i.(worker := InErrorPause)
    case WakeUp =>
      if i.worker == InBackoff && i.state == Cancelled then i.(worker := Away)
      else i.(worker := Away, enqueued := true)
    case Reload => i.(enqueued := true)
    case InterruptWorker(accepted) => Interrupt(i, accepted)
    case CancelItem => i.(state := Cancelled)
    case Supersede =>
      if i.state == Queued || i.state == Preparing then i.(superseded := true, state := Cancelled)
      else i.(superseded := true)
  }

  // ---------------------------------------------------------------------------
  // Runs
  // ---------------------------------------------------------------------------

  predicate Possible(i: Item, actions: seq<Action>)
    decreases |actions|
  {
    |actions| == 0 || (Enabled(i, actions[0]) && Possible(Step(i, actions[0]), actions[1..]))
  }

  function Run(i: Item, actions: seq<Action>): Item
    decreases |actions|
  {
    if |actions| == 0 then i else Run(Step(i, actions[0]), actions[1..])
  }

  /** Kept by every action, for critical and other items alike. */
  predicate Inv(i: Item) {
    && (i.report ==> !i.critical)
    && (Settled(i.state) ==> i.worker == Away || i.worker == InFinish || i.worker == InErrorPause)
    && (i.state == Uncertain ==> !i.critical)
    && (i.worker == InFinish ==> i.state !in {Queued, Preparing, Sending})
    && (i.worker == InTransport ==> i.log.open)
    && (i.worker.Requeueing? ==> i.report)
    && (i.critical && i.state == Failed ==> i.log.rejected)
    && (!i.critical ==>
          && i.log.lateSends == 0
          && i.log.accepted <= 1
          && (i.log.accepted == 1 ==> i.log.open && Settled(i.state))
          && (i.log.open ==> i.worker == InTransport || Settled(i.state)))
  }

  /** What one action keeps. */
  predicate Keeps(i: Item, j: Item) {
    && Inv(j) && j.critical == i.critical && j.report == i.report
    && (i.superseded ==> j.superseded)
    && (Settled(i.state) ==> j.state == i.state && j.log.sends == i.log.sends)
    && (j.log.sends > i.log.sends ==> j.worker == InTransport && (!i.critical ==> !i.log.open && !i.superseded))
    && i.log.sends <= j.log.sends
  }

  lemma RetryKeeps(i: Item, j: Item)
    requires Inv(i) && !Settled(i.state) && i.worker != InTransport
    requires j == i.(state := j.state) && !Settled(j.state)
    ensures Keeps(i, Retry(j)) && Keeps(i, Retried(j))
  {
  }

  lemma BoundaryKeeps(i: Item, paused: bool, ready: bool)
    requires i.worker == InBucket || i.worker == Reporting
    requires Inv(i) && !Settled(i.state)
    ensures Keeps(i, Boundary(i.(state := Sending), paused, ready))
    ensures i.worker == Reporting ==> Keeps(i, Boundary(i, paused, ready))
  {
    RetryKeeps(i, i.(state := Sending));
    RetryKeeps(i, i);
    hide Retried;
  }

  lemma ReplyKeeps(i: Item, reply: Reply)
    requires Inv(i) && i.worker == InTransport
    ensures Keeps(i, AfterReply(i, reply))
  {
  }

  lemma InterruptKeeps(i: Item, accepted: bool)
    requires Inv(i) && i.worker != Away
    ensures Keeps(i, Interrupt(i, accepted))
    ensures Keeps(i, Released(i)) || i.worker == InTransport
  {
  }

  lemma PrepareKeeps(i: Item, paused: bool, expired: bool, ready: bool)
    requires Inv(i) && i.worker == InBucket
    ensures Keeps(i, Step(i, Prepare(paused, expired, ready)))
  {
    BoundaryKeeps(i, paused, ready);
    hide Boundary;
  }

  lemma ReportedKeeps(i: Item, ok: bool, paused: bool, ready: bool)
    requires Inv(i) && i.worker == Reporting
    ensures Keeps(i, Step(i, Reported(ok, paused, ready)))
  {
    BoundaryKeeps(i, paused, ready);
    RetryKeeps(i, i);
    InterruptKeeps(i, false);
    hide Boundary, Retry, Released, Keeps, Inv;
  }

  lemma RequeuedKeeps(i: Item, ok: bool)
    requires Inv(i) && i.worker.Requeueing?
    ensures Keeps(i, Step(i, Requeued(ok)))
  {
    RetryKeeps(i, i);
    InterruptKeeps(i, false);
    hide Retry, Released;
  }

  lemma FinishedKeeps(i: Item, ok: bool)
    requires Inv(i) && i.worker == InFinish
    ensures Keeps(i, Step(i, Finished(ok)))
  {
    InterruptKeeps(i, false);
    hide Released;
  }

  lemma TakeKeeps(i: Item, paused: bool)
    requires Inv(i) && i.worker == Away
    ensures Keeps(i, Step(i, Take(paused)))
  {
  }

  lemma CallerKeeps(i: Item, a: Action)
    requires Inv(i) && Enabled(i, a) && (a.CancelItem? || a.Supersede?)
    ensures Keeps(i, Step(i, a))
  {
  }

  lemma WakeKeeps(i: Item, a: Action)
    requires Inv(i) && Enabled(i, a) && (a.WakeUp? || a.Reload?)
    ensures Keeps(i, Step(i, a))
  {
  }

  lemma StepKeeps(i: Item, a: Action)
    requires Inv(i) && Enabled(i, a)
    ensures Keeps(i, Step(i, a))
  {
    match a
    case Prepare(paused, expired, ready) => PrepareKeeps(i, paused, expired, ready);
    case Reported(ok, paused, ready) => ReportedKeeps(i, ok, paused, ready);
    case Replied(reply) => ReplyKeeps(i, reply); hide AfterReply, Keeps, Inv;
    case Requeued(ok) => RequeuedKeeps(i, ok);
    case Finished(ok) => FinishedKeeps(i, ok);
    case InterruptWorker(accepted) => InterruptKeeps(i, accepted); hide Interrupt, Keeps, Inv;
    case Take(paused) => TakeKeeps(i, paused);
    case CancelItem => CallerKeeps(i, a);
    case Supersede => CallerKeeps(i, a);
    case WakeUp => WakeKeeps(i, a);
    case Reload => WakeKeeps(i, a);
  }

  lemma {:induction false} RunKeeps(i: Item, actions: seq<Action>)
    requires Inv(i) && Possible(i, actions)
    ensures Inv(Run(i, actions)) && Run(i, actions).critical == i.critical && Run(i, actions).report == i.report
    ensures Settled(i.state) ==> Run(i, actions).state == i.state && Run(i, actions).log.sends == i.log.sends
    ensures !i.critical && i.superseded ==> Run(i, actions).log.sends == i.log.sends
    decreases |actions|
  {
    hide Step, Inv, Enabled;
    if |actions| > 0 {
      StepKeeps(i, actions[0]);
      RunKeeps(Step(i, actions[0]), actions[1..]);
    }
  }

  // ---------------------------------------------------------------------------
  // Main results
  // ---------------------------------------------------------------------------

  /** Over every run of worker, callers and interruptions, Telegram accepts a
      non-critical message at most once; and once it may have, nothing moves. */
  lemma AcceptedAtMostOnce(report: bool, before: seq<Action>, after: seq<Action>)
    requires Possible(Admitted(false, report), before)
    requires Possible(Run(Admitted(false, report), before), after)
    ensures var i := Run(Admitted(false, report), before);
      var j := Run(i, after);
      && j.log.accepted <= 1
      && (i.log.accepted == 1 ==> Settled(i.state) && j.state == i.state && j.log.sends == i.log.sends)
      && (Settled(i.state) ==> j.state == i.state && j.log.sends == i.log.sends)
  {
    RunKeeps(Admitted(false, report), before);
    RunKeeps(Run(Admitted(false, report), before), after);
  }

  /** Whenever a transport starts again, every earlier one ended in a reply that
      proves Telegram refused it. */
  lemma {:induction false} ResendNeedsProof(start: Item, before: seq<Action>, a: Action)
    requires start == Admitted(false, start.report) && Possible(start, before)
    requires Enabled(Run(start, before), a) && StartsTransport(Run(start, before), a)
    ensures ProvedRefused(start, before)
  {
    RunKeeps(start, before);
    StepKeeps(Run(start, before), a);
    ClosedMeansProved(start, before);
  }

  predicate StartsTransport(i: Item, a: Action) {
    Step(i, a).log.sends > i.log.sends
  }

  /** Every transport started in the run was followed, before any other action ended
      it, by a proving reply. */
  ghost predicate ProvedRefused(i: Item, actions: seq<Action>)
    decreases |actions|
  {
    |actions| == 0
    || (ProvedRefused(Step(i, actions[0]), actions[1..])
        && (Step(i, actions[0]).log.sends > i.log.sends ==> RefusedNext(Step(i, actions[0]), actions[1..])))
  }

  /** The transport in progress ends with a reply that proves a refusal. */
  ghost predicate RefusedNext(i: Item, actions: seq<Action>)
    decreases |actions|
  {
    |actions| > 0
    && (if i.worker == InTransport && actions[0].Replied? then Proves(actions[0].reply)
        else Step(i, actions[0]).worker == InTransport && RefusedNext(Step(i, actions[0]), actions[1..]))
  }

  /** How a transport in progress can go on. */
  lemma TransportStep(i: Item, a: Action)
    requires Inv(i) && !i.critical && Enabled(i, a) && i.worker == InTransport
    ensures var j := Step(i, a);
      || (j.log.open && Settled(j.state))
      || (if a.Replied? then Proves(a.reply) else j.worker == InTransport)
  {
  }

  lemma {:induction false} ClosedMeansProved(i: Item, actions: seq<Action>)
    requires Inv(i) && !i.critical && Possible(i, actions) && !Run(i, actions).log.open
    ensures ProvedRefused(i, actions)
    ensures i.worker == InTransport ==> RefusedNext(i, actions)
    decreases |actions|
  {
    if |actions| == 0 {
      OpenInTransport(i);
    } else {
      StepKeeps(i, actions[0]);
      var j := Step(i, actions[0]);
      if j.log.open && Settled(j.state) {
        OpenStaysOpen(j, actions[1..]);
      }
      if i.worker == InTransport {
        TransportStep(i, actions[0]);
      }
      hide Step, Inv, Enabled;
      ClosedMeansProved(j, actions[1..]);
    }
  }

  lemma OpenInTransport(i: Item)
    requires Inv(i)
    ensures i.worker == InTransport ==> i.log.open
  {
  }

  /** A settled or cancelled-in-doubt transport is never forgotten. */
  lemma {:induction false} OpenStaysOpen(i: Item, actions: seq<Action>)
    requires Inv(i) && !i.critical && Possible(i, actions) && i.log.open && Settled(i.state)
    ensures Run(i, actions).log.open
    decreases |actions|
  {
    if |actions| > 0 {
      StepKeeps(i, actions[0]);
      OpenStaysOpen(Step(i, actions[0]), actions[1..]);
    }
  }

  /** A critical message never fails by exhausting retries: only an expired time to
      live or a rejected payload can fail it. */
  lemma CriticalFailsOnlyIfRejected(actions: seq<Action>)
    requires Possible(Admitted(true, false), actions)
    ensures Run(Admitted(true, false), actions).state == Failed ==> Run(Admitted(true, false), actions).log.rejected
  {
    RunKeeps(Admitted(true, false), actions);
  }

  /** A run in which a superseded critical chunk is sent again. */
  function LateRun(): seq<Action> {
    [Take(false), Prepare(false, false, true), Supersede, InterruptWorker(false), Take(false), Prepare(false, false, true)]
  }

  lemma LateRunIsLate()
    ensures Possible(Admitted(true, false), LateRun())
    ensures Run(Admitted(true, false), LateRun()).log.lateSends == 1
  {
    var i0 := Admitted(true, false);
    var i1 := i0.(enqueued := false, state := Preparing, worker := InBucket);
    var i2 := i1.(state := Sending, worker := InTransport, log := Log(1, 0, true, false, 0));
    var i3 := i2.(superseded := true);
    var i4 := i3.(state := Queued, worker := Away, enqueued := true);
    var i5 := i4.(enqueued := false, state := Preparing, worker := InBucket);
    var i6 := i5.(state := Sending, worker := InTransport, log := Log(2, 0, true, false, 1));
    assert Step(i0, Take(false)) == i1 && Step(i1, Prepare(false, false, true)) == i2;
    assert Step(i2, Supersede) == i3 && Step(i3, InterruptWorker(false)) == i4;
    assert Step(i4, Take(false)) == i5 && Step(i5, Prepare(false, false, true)) == i6;
    hide Step, Enabled, Run, Possible;
    var r := LateRun();
    assert r == [r[0]] + [r[1], r[2], r[3], r[4], r[5]];
    RunLast(i5, r[5]);
    RunFirst(i4, r[4], [r[5]]);
    RunFirst(i3, r[3], [r[4], r[5]]);
    RunFirst(i2, r[2], [r[3], r[4], r[5]]);
    RunFirst(i1, r[1], [r[2], r[3], r[4], r[5]]);
    RunFirst(i0, r[0], [r[1], r[2], r[3], r[4], r[5]]);
  }

  lemma RunFirst(i: Item, a: Action, rest: seq<Action>)
    ensures Run(i, [a] + rest) == Run(Step(i, a), rest)
    ensures Enabled(i, a) && Possible(Step(i, a), rest) ==> Possible(i, [a] + rest)
  {
    assert ([a] + rest)[1..] == rest;
  }

  lemma RunLast(i: Item, a: Action)
    ensures Run(i, [a]) == Step(i, a)
    ensures Enabled(i, a) ==> Possible(i, [a])
  {
    assert Run(Step(i, a), [a][1..]) == Step(i, a);
  }

  /** No chunk of a superseded report ever starts a transport, whatever its state was
      when the newer scan was admitted, exactly when it is not critical. */
  lemma SupersededNeverSendsIff(critical: bool)
    ensures (forall actions :: Possible(Admitted(critical, false), actions) ==> Run(Admitted(critical, false), actions).log.lateSends == 0)
            <==> !critical
  {
    if critical {
      LateRunIsLate();
    } else {
      forall actions | Possible(Admitted(critical, false), actions)
        ensures Run(Admitted(critical, false), actions).log.lateSends == 0
      {
        RunKeeps(Admitted(critical, false), actions);
      }
    }
  }
}
