/** What the dispatcher's worker owes an admitted message (telegram_bot/dispatcher.py):
    it is never dropped, each way it can end has its cause, and an undisturbed turn
    delivers it or puts it back. */
module DispatcherProgress {
  import opened DispatcherItem

  predicate Ended(s: DeliveryState) {
    s in {Delivered, Uncertain, Cancelled, Failed}
  }

  // ---------------------------------------------------------------------------
  // Nothing is dropped
  // ---------------------------------------------------------------------------

  /** With the worker, in the queue, or at an end. */
  predicate OnItsWay(i: Item) {
    i.worker == Away && !i.enqueued ==> Ended(i.state)
  }

  lemma StepOnItsWay(i: Item, a: Action)
    requires Inv(i) && OnItsWay(i) && Enabled(i, a)
    ensures OnItsWay(Step(i, a))
  {
  }

  lemma {:induction false} RunOnItsWay(i: Item, actions: seq<Action>)
    requires Inv(i) && OnItsWay(i) && Possible(i, actions)
    ensures OnItsWay(Run(i, actions))
    decreases |actions|
  {
    hide Step, Inv, Enabled, OnItsWay;
    if |actions| > 0 {
      StepKeeps(i, actions[0]);
      StepOnItsWay(i, actions[0]);
      RunOnItsWay(Step(i, actions[0]), actions[1..]);
    }
  }

  /** In every run, through cancelled workers, failed writes and backoffs alike: an
      admitted message is with the worker, in the queue, or at an end. */
  lemma NothingIsLost(critical: bool, report: bool, actions: seq<Action>)
    requires (report ==> !critical) && Possible(Admitted(critical, report), actions)
    ensures OnItsWay(Run(Admitted(critical, report), actions))
  {
    RunOnItsWay(Admitted(critical, report), actions);
  }

  /** The message is delivered and yet nobody will complete it any more. */
  predicate Closed(i: Item) {
    i.worker == Away && !i.enqueued && (i.state == Delivered || (i.report && i.state == Uncertain))
  }

  lemma StepCloses(i: Item, a: Action)
    requires Inv(i) && !Closed(i) && Enabled(i, a) && Closed(Step(i, a))
    ensures a == Finished(true)
  {
  }

  /** A delivery leaves the worker's hands only through a completion that was written;
      one whose write failed, or whose worker was cancelled, is completed again. */
  lemma {:induction false} ClosedMeansWritten(i: Item, actions: seq<Action>)
    requires Inv(i) && !Closed(i) && Possible(i, actions) && Closed(Run(i, actions))
    ensures Finished(true) in actions
    decreases |actions|
  {
    hide Step, Inv, Enabled, Closed;
    if |actions| > 0 {
      StepKeeps(i, actions[0]);
      if Closed(Step(i, actions[0])) {
        StepCloses(i, actions[0]);
      } else {
        ClosedMeansWritten(Step(i, actions[0]), actions[1..]);
      }
    }
  }

  // ---------------------------------------------------------------------------
  // Every end has its cause
  // ---------------------------------------------------------------------------

  /** A delivered message was accepted; a failed one expired, was rejected, or is not
      critical and out of retries; an uncertain one was sent. */
  predicate Caused(i: Item) {
    && (i.state == Delivered ==> i.log.accepted >= 1)
    && (i.state == Failed ==> i.log.rejected || (!i.critical && i.retries > MAX_RETRIES))
    && (i.state == Uncertain ==> i.log.sends >= 1)
    && (i.worker == InTransport ==> i.log.sends >= 1)
    && (i.worker == Requeueing(true) ==> i.log.rejected)
  }

  lemma StepCaused(i: Item, a: Action)
    requires Inv(i) && Caused(i) && Enabled(i, a)
    ensures Caused(Step(i, a))
  {
    hide Caused, Boundary, AfterReply, Interrupt, Retry, Released;
    match a
    case Prepare(_, _, _) => PrepareCaused(i, a); hide Step;
    case Reported(_, _, _) => ReportedCaused(i, a); hide Step;
    case Requeued(_) => RequeuedCaused(i, a); hide Step;
    case Replied(reply) => ReplyCaused(i, reply);
    case InterruptWorker(accepted) => InterruptCaused(i, accepted);
    case Take(_) => WorkerStepCaused(i, a); hide Step;
    case Finished(_) => WorkerStepCaused(i, a); hide Step;
    case WakeUp => WorkerStepCaused(i, a); hide Step;
    case _ => CallerStepCaused(i, a); hide Step;
  }

  lemma BoundaryCaused(i: Item, paused: bool, ready: bool)
    requires Caused(i)
    ensures Caused(Boundary(i, paused, ready))
  {
    RetryCaused(i);
    hide Retried;
  }

  lemma PrepareCaused(i: Item, a: Action)
    requires Inv(i) && Caused(i) && Enabled(i, a) && a.Prepare?
    ensures Caused(Step(i, a))
  {
    BoundaryCaused(i.(state := Sending), a.paused, a.ready);
    hide Boundary;
  }

  lemma ReportedCaused(i: Item, a: Action)
    requires Inv(i) && Caused(i) && Enabled(i, a) && a.Reported?
    ensures Caused(Step(i, a))
  {
    BoundaryCaused(i, a.paused, a.ready);
    ReleasedCaused(i);
    RetryCaused(i);
    hide Boundary, Retry, Released, Caused;
  }

  lemma ReleasedCaused(i: Item)
    requires Caused(i)
    ensures Caused(Released(i))
  {
  }

  lemma RequeuedCaused(i: Item, a: Action)
    requires Caused(i) && Enabled(i, a) && a.Requeued?
    ensures Caused(Step(i, a))
  {
    RetryCaused(i);
    ReleasedCaused(i);
    hide Retry, Released;
  }

  lemma InterruptCaused(i: Item, accepted: bool)
    requires Inv(i) && Caused(i) && i.worker != Away
    ensures Caused(Interrupt(i, accepted))
  {
  }

  lemma WorkerStepCaused(i: Item, a: Action)
    requires Caused(i) && Enabled(i, a) && (a.Take? || a.Finished? || a.WakeUp?)
    ensures Caused(Step(i, a))
  {
    hide Boundary, AfterReply, Retry, Interrupt, Released;
    ReleasedCaused(i);
  }

  lemma CallerStepCaused(i: Item, a: Action)
    requires Caused(i) && Enabled(i, a) && (a.Reload? || a.CancelItem? || a.Supersede?)
    ensures Caused(Step(i, a))
  {
    hide Boundary, AfterReply, Retry, Interrupt, Released;
  }

  lemma RetryCaused(i: Item)
    requires Caused(i)
    ensures Caused(Retry(i)) && Caused(Retried(i))
  {
  }

  lemma ReplyCaused(i: Item, reply: Reply)
    requires Inv(i) && Caused(i) && i.worker == InTransport
    ensures Caused(AfterReply(i, reply))
  {
  }

  /** Somebody asked for the cancellation: a caller, a newer report, or a pause. */
  predicate Asks(a: Action) {
    match a
    case CancelItem => true
    case Supersede => true
    case Take(paused) => paused
    case Prepare(paused, _, _) => paused
    case Reported(_, paused, _) => paused
    case _ => false
  }

  lemma StepAsked(i: Item, a: Action)
    requires Enabled(i, a) && !Asks(a) && i.state != Cancelled && !i.superseded
    ensures Step(i, a).state != Cancelled && !Step(i, a).superseded
  {
    match a
    case Replied(reply) => ReplyAsked(i, reply); hide AfterReply;
    case Prepare(_, _, _) => BoundaryAsked(i, a); hide Step;
    case Reported(_, _, _) => BoundaryAsked(i, a); hide Step;
    case Requeued(ok) => RetryAsked(i); hide Retry;
    case _ => OtherStepAsked(i, a); hide Step;
  }

  lemma BoundaryAsked(i: Item, a: Action)
    requires Enabled(i, a) && !Asks(a) && i.state != Cancelled && !i.superseded && (a.Prepare? || a.Reported?)
    ensures Step(i, a).state != Cancelled && !Step(i, a).superseded
  {
    RetryAsked(i.(state := Sending));
    RetryAsked(i);
    hide Retried, Retry;
  }

  lemma OtherStepAsked(i: Item, a: Action)
    requires Enabled(i, a) && !Asks(a) && i.state != Cancelled && !i.superseded
    requires !a.Prepare? && !a.Reported? && !a.Requeued? && !a.Replied?
    ensures Step(i, a).state != Cancelled && !Step(i, a).superseded
  {
    hide Boundary, AfterReply, Retry, Interrupt, Released;
    ReleasedAsked(i);
    if a.InterruptWorker? {
      InterruptAsked(i, a.accepted);
    }
  }

  lemma ReleasedAsked(i: Item)
    requires i.state != Cancelled && !i.superseded
    ensures Released(i).state != Cancelled && !Released(i).superseded
  {
  }

  lemma InterruptAsked(i: Item, accepted: bool)
    requires i.state != Cancelled && !i.superseded
    ensures Interrupt(i, accepted).state != Cancelled && !Interrupt(i, accepted).superseded
  {
  }

  lemma RetryAsked(i: Item)
    requires i.state != Cancelled && !i.superseded
    ensures Retry(i).state != Cancelled && !Retry(i).superseded
    ensures Retried(i).state != Cancelled && !Retried(i).superseded
  {
  }

  lemma ReplyAsked(i: Item, reply: Reply)
    requires i.state != Cancelled && !i.superseded
    ensures AfterReply(i, reply).state != Cancelled && !AfterReply(i, reply).superseded
  {
    RetryAsked(i.(log := AfterReply(i, reply).log));
    hide Retried, Retry;
  }

  lemma {:induction false} RunAsked(i: Item, actions: seq<Action>)
    requires Possible(i, actions) && i.state != Cancelled && !i.superseded
    requires forall a <- actions :: !Asks(a)
    ensures Run(i, actions).state != Cancelled && !Run(i, actions).superseded
    decreases |actions|
  {
    hide Step, Enabled, Asks;
    if |actions| > 0 {
      assert actions[0] in actions;
      StepAsked(i, actions[0]);
      RunAsked(Step(i, actions[0]), actions[1..]);
    }
  }

  lemma {:induction false} RunCaused(i: Item, actions: seq<Action>)
    requires Inv(i) && Caused(i) && Possible(i, actions)
    ensures Caused(Run(i, actions))
    decreases |actions|
  {
    hide Step, Inv, Enabled, Caused;
    if |actions| > 0 {
      StepKeeps(i, actions[0]);
      StepCaused(i, actions[0]);
      RunCaused(Step(i, actions[0]), actions[1..]);
    }
  }

  /** Over every run a message ends only for a reason. */
  lemma EveryEndHasACause(critical: bool, report: bool, actions: seq<Action>)
    requires (report ==> !critical) && Possible(Admitted(critical, report), actions)
    ensures var i := Run(Admitted(critical, report), actions);
      && (i.state == Delivered ==> i.log.accepted >= 1)
      && (i.state == Failed ==> i.log.rejected || (!critical && i.retries > MAX_RETRIES))
      && (i.state == Uncertain ==> i.log.sends >= 1)
      && (i.state == Cancelled ==> exists a <- actions :: Asks(a))
  {
    RunKeeps(Admitted(critical, report), actions);
    RunCaused(Admitted(critical, report), actions);
    if forall a <- actions :: !Asks(a) {
      RunAsked(Admitted(critical, report), actions);
    }
    hide Run, Possible;
  }

  // ---------------------------------------------------------------------------
  // An undisturbed turn
  // ---------------------------------------------------------------------------

  /** A message waiting for its turn that nothing has ended or superseded. */
  predicate Waiting(i: Item) {
    && i.worker == Away && i.enqueued && !i.interrupted && !Ended(i.state)
    && (i.critical || !i.superseded) && (i.report ==> !i.critical)
  }

  function Sent(i: Item): Item {
    i.(enqueued := false, state := Sending, worker := InTransport,
       log := i.log.(sends := i.log.sends + 1, open := true,
                     lateSends := if i.superseded then i.log.lateSends + 1 else i.log.lateSends))
  }

  /** Up to the transport; a report records first that it is being sent. */
  function Outset(i: Item): seq<Action> {
    if i.report then [Take(false), Prepare(false, false, true), Reported(true, false, true)]
    else [Take(false), Prepare(false, false, true)]
  }

  lemma RunCons(i: Item, a: Action, rest: seq<Action>)
    requires Enabled(i, a)
    ensures Run(i, [a] + rest) == Run(Step(i, a), rest)
    ensures Possible(Step(i, a), rest) ==> Possible(i, [a] + rest)
  {
    assert ([a] + rest)[1..] == rest;
  }

  lemma {:induction false} RunJoin(i: Item, first: seq<Action>, rest: seq<Action>)
    requires Possible(i, first)
    ensures Run(i, first + rest) == Run(Run(i, first), rest)
    ensures Possible(Run(i, first), rest) ==> Possible(i, first + rest)
    decreases |first|
  {
    hide Step, Enabled;
    if |first| == 0 {
      assert first + rest == rest;
    } else {
      assert (first + rest)[1..] == first[1..] + rest;
      RunJoin(Step(i, first[0]), first[1..], rest);
    }
  }

  lemma OutsetSends(i: Item)
    requires Waiting(i)
    ensures Possible(i, Outset(i)) && Run(i, Outset(i)) == Sent(i)
  {
    var j := Step(i, Take(false));
    var k := Step(j, Prepare(false, false, true));
    hide Run, Possible;
    if i.report {
      LastRun(k, Reported(true, false, true));
      RunCons(j, Prepare(false, false, true), [Reported(true, false, true)]);
      RunCons(i, Take(false), [Prepare(false, false, true), Reported(true, false, true)]);
      assert Outset(i) == [Take(false)] + [Prepare(false, false, true), Reported(true, false, true)];
      assert [Prepare(false, false, true), Reported(true, false, true)] == [Prepare(false, false, true)] + [Reported(true, false, true)];
    } else {
      LastRun(j, Prepare(false, false, true));
      RunCons(i, Take(false), [Prepare(false, false, true)]);
      assert Outset(i) == [Take(false)] + [Prepare(false, false, true)];
    }
  }

  lemma LastRun(i: Item, a: Action)
    requires Enabled(i, a)
    ensures Run(i, [a]) == Step(i, a) && Possible(i, [a])
  {
    RunLast(i, a);
  }

  /** A turn that nobody disturbs and Telegram acknowledges delivers the message. */
  lemma UndisturbedTurnDelivers(i: Item)
    requires Waiting(i)
    ensures var turn := Outset(i) + [Replied(Acked), Finished(true)];
      && Possible(i, turn)
      && Run(i, turn) == i.(enqueued := false, state := Delivered,
                            log := Sent(i).log.(accepted := i.log.accepted + 1))
  {
    OutsetSends(i);
    var s := Sent(i);
    var r := Step(s, Replied(Acked));
    hide Run, Possible;
    LastRun(r, Finished(true));
    RunCons(s, Replied(Acked), [Finished(true)]);
    assert [Replied(Acked), Finished(true)] == [Replied(Acked)] + [Finished(true)];
    RunJoin(i, Outset(i), [Replied(Acked), Finished(true)]);
  }

  /** After the transport was refused: a report writes its state back first. */
  function Aftermath(i: Item): seq<Action> {
    if i.report then [Replied(RetryAfter), Requeued(true), WakeUp] else [Replied(RetryAfter), WakeUp]
  }

  /** A turn that Telegram turns away puts the message back, one retry poorer. */
  lemma RefusedTurnRequeues(i: Item)
    requires Waiting(i) && !i.superseded && (i.critical || i.retries < MAX_RETRIES)
    ensures var turn := Outset(i) + Aftermath(i);
      && Possible(i, turn)
      && Run(i, turn) == i.(state := Queued, retries := i.retries + 1,
                            log := Sent(i).log.(open := false))
  {
    OutsetSends(i);
    AftermathRequeues(i);
    hide Run, Possible, Aftermath;
    RunJoin(i, Outset(i), Aftermath(i));
  }

  lemma AftermathRequeues(i: Item)
    requires Waiting(i) && !i.superseded && (i.critical || i.retries < MAX_RETRIES)
    ensures Possible(Sent(i), Aftermath(i))
    ensures Run(Sent(i), Aftermath(i)) == i.(state := Queued, retries := i.retries + 1, log := Sent(i).log.(open := false))
  {
    var s := Sent(i);
    var r := Step(s, Replied(RetryAfter));
    hide Run, Possible;
    if i.report {
      var q := Step(r, Requeued(true));
      LastRun(q, WakeUp);
      RunCons(r, Requeued(true), [WakeUp]);
      RunCons(s, Replied(RetryAfter), [Requeued(true), WakeUp]);
      assert [Requeued(true), WakeUp] == [Requeued(true)] + [WakeUp];
      assert Aftermath(i) == [Replied(RetryAfter)] + [Requeued(true), WakeUp];
    } else {
      LastRun(r, WakeUp);
      RunCons(s, Replied(RetryAfter), [WakeUp]);
      assert Aftermath(i) == [Replied(RetryAfter)] + [WakeUp];
    }
  }

  // ---------------------------------------------------------------------------
  // Replies that leave acceptance in doubt
  // ---------------------------------------------------------------------------

  /** A message that is not critical is never sent again once a reply was lost, and a
      report not even when the connection was refused: whatever happens later. */
  lemma DoubtIsFinal(start: Item, before: seq<Action>, reply: Reply, after: seq<Action>)
    requires start == Admitted(false, start.report) && Possible(start, before)
    requires Run(start, before).worker == InTransport
    requires reply in {LostAccepted, LostRefused} || (reply == NoConnection && start.report)
    requires Possible(Step(Run(start, before), Replied(reply)), after)
    ensures var i := Run(start, before); var j := Run(Step(i, Replied(reply)), after);
      j.state == Uncertain && j.log.sends == i.log.sends
  {
    RunKeeps(start, before);
    var i := Run(start, before);
    StepKeeps(i, Replied(reply));
    hide Run, Possible, Inv;
    RunKeeps(Step(i, Replied(reply)), after);
  }

  /** A critical message that was neither acknowledged nor rejected waits to be sent
      again, however often it was sent, unless a newer report superseded it. */
  lemma CriticalIsSentAgain(i: Item, reply: Reply)
    requires i.critical && !i.report && i.worker == InTransport && reply != Acked && reply != BadPayload
    ensures var j := Step(i, Replied(reply));
      if i.superseded then j.state == Cancelled else j.state == Queued && j.worker == InBackoff && Step(j, WakeUp).enqueued
  {
  }

  // ---------------------------------------------------------------------------
  // Stopping a message in time
  // ---------------------------------------------------------------------------

  /** Cancelled before any transport. */
  predicate Stopped(i: Item) {
    i.state == Cancelled && i.worker in {Away, InBucket, InBackoff, InFinish, InErrorPause}
  }

  lemma StoppedStays(i: Item, a: Action)
    requires Stopped(i) && Enabled(i, a)
    ensures Stopped(Step(i, a)) && Step(i, a).log.sends == i.log.sends
  {
    hide AfterReply, Boundary, Retry;
  }

  lemma {:induction false} StoppedForGood(i: Item, actions: seq<Action>)
    requires Stopped(i) && Possible(i, actions)
    ensures Stopped(Run(i, actions)) && Run(i, actions).log.sends == i.log.sends
    decreases |actions|
  {
    if |actions| > 0 {
      StoppedStays(i, actions[0]);
      hide Step, Enabled, Stopped;
      StoppedForGood(Step(i, actions[0]), actions[1..]);
    }
  }

  /** A message that still waits, in the queue, for the bucket or after a refusal, is
      stopped for good by a caller that cancels it or a report that supersedes it, a
      critical one too: no later run sends it. */
  lemma WaitingIsStopped(i: Item, a: Action, actions: seq<Action>)
    requires i.state in {Queued, Preparing} && i.worker in {Away, InBucket, InBackoff}
    requires a in {CancelItem, Supersede} && Possible(Step(i, a), actions)
    ensures Enabled(i, a) && Run(Step(i, a), actions).state == Cancelled
    ensures Run(Step(i, a), actions).log.sends == i.log.sends
  {
    StoppedForGood(Step(i, a), actions);
    hide Run, Possible;
  }
}
