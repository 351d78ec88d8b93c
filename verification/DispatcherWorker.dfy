/** The dispatcher's worker handling one send item, daily reports included
    (telegram_bot/dispatcher.py, start_worker, _execute_item, _deliver_report, _retry and
    _finish). Other tasks run, and the worker may be cancelled, at each suspension; what a
    report owns is finished first. Whatever happens, the worker's behaviour is a run of the
    machine in DispatcherItem. */
module DispatcherWorker {
  import opened DispatcherItem
  import opened DispatcherProgress

  lemma {:induction false} RunsExtend(i: Item, trace: seq<Action>, a: Action)
    requires Possible(i, trace) && Enabled(Run(i, trace), a)
    ensures Possible(i, trace + [a]) && Run(i, trace + [a]) == Step(Run(i, trace), a)
    decreases |trace|
  {
    hide Step, Enabled;
    if |trace| == 0 {
      assert trace + [a] == [a];
      assert Run(Step(i, a), [a][1..]) == Step(i, a) && Possible(Step(i, a), [a][1..]);
    } else {
      assert (trace + [a])[1..] == trace[1..] + [a];
      RunsExtend(Step(i, trace[0]), trace[1..], a);
    }
  }

  function Heard(log: Log, reply: Reply): Log {
    log.(accepted := if reply == Acked || reply == LostAccepted then log.accepted + 1 else log.accepted,
         open := log.open && !Proves(reply),
         rejected := log.rejected || reply == BadPayload)
  }

  function Begun(log: Log, superseded: bool): Log {
    log.(sends := log.sends + 1, open := true, lateSends := if superseded then log.lateSends + 1 else log.lateSends)
  }

  /** What the worker makes of a reply: only one that neither delivers nor rejects, and that
      proves a refusal or is for a critical item, is retried; a report in doubt is not. */
  lemma ReplyRead(i: Item, reply: Reply)
    requires i.worker == InTransport && (i.report ==> !i.critical)
    ensures Enabled(i, Replied(reply))
    ensures var j := i.(log := Heard(i.log, reply));
      Step(i, Replied(reply)) ==
        if reply == Acked then j.(state := Delivered, worker := InFinish)
        else if reply == BadPayload then
          if i.report then j.(state := Queued, worker := Requeueing(true)) else j.(state := Failed, worker := InFinish)
        else if reply == RetryAfter || reply == Refused || (!i.report && (i.critical || reply == NoConnection)) then Retried(j)
        else j.(state := Uncertain, worker := InFinish)
  {
    hide Retried, Interrupt, Boundary;
  }

  function Abandoned(log: Log, accepted: bool): Log {
    log.(accepted := if accepted then log.accepted + 1 else log.accepted)
  }

  /** What the worker makes of a cancellation while the request of an item that is no report
      is out. */
  lemma AbandonRead(i: Item, accepted: bool)
    requires i.worker == InTransport && !i.report
    ensures Enabled(i, InterruptWorker(accepted))
    ensures var j := i.(log := Abandoned(i.log, accepted));
      Step(i, InterruptWorker(accepted)) == if i.critical then Released(j) else j.(state := Uncertain, worker := InFinish)
  {
    hide Released, AfterReply, Boundary;
  }

  /** What the worker makes of an item that comes out of the token bucket. */
  lemma PrepareRead(i: Item, paused: bool, expired: bool, ready: bool)
    requires i.worker == InBucket
    ensures Enabled(i, Prepare(paused, expired, ready))
    ensures Step(i, Prepare(paused, expired, ready)) ==
      if i.state == Cancelled || (!i.critical && (i.superseded || paused)) then i.(state := Cancelled, worker := InFinish)
      else if expired then i.(state := Failed, worker := InFinish, log := i.log.(rejected := true))
      else if i.report then i.(state := Sending, worker := Reporting)
      else Boundary(i.(state := Sending), paused, ready)
  {
    hide Released, AfterReply, Boundary, Interrupt;
  }

  /** The action was taken since the first n of the trace. */
  ghost predicate Since(trace: seq<Action>, n: nat, a: Action) {
    exists i :: n <= i < |trace| && trace[i] == a
  }

  class QueueItem {
    const critical: bool
    const report: bool
    var state: DeliveryState
    var enqueued: bool
    var superseded: bool
    var retries: nat
    /** Where the worker is suspended with this item, and whether it was cancelled while
        finishing what a report owns. */
    var worker: Worker
    var interrupted: bool
    ghost var log: Log
    ghost var trace: seq<Action>

    ghost function View(): Item
      reads this
    {
      Item(critical, report, state, worker, interrupted, enqueued, superseded, retries, log)
    }

    ghost predicate Was(was: Item)
      reads this
    {
      Possible(Admitted(critical, report), trace) && was == Run(Admitted(critical, report), trace)
    }

    /** Everything since admission is a run of the machine. */
    ghost predicate Refines()
      reads this
    {
      Was(View())
    }

    constructor (critical: bool, report: bool)
      ensures Refines() && worker == Away && enqueued && this.critical == critical && this.report == report
    {
      this.critical, this.report := critical, report;
      state, enqueued, superseded, retries, worker, interrupted := Queued, true, false, 0, Away, false;
      log, trace := Log(0, 0, false, false, 0), [];
    }

    /** An atomic section ends: it did what the machine does on a. */
    ghost method Note(was: Item, a: Action)
      requires Was(was) && Enabled(was, a) && View() == Step(was, a)
      modifies this`trace
      ensures Refines() && trace == old(trace) + [a]
    {
      hide Step, Enabled;
      RunsExtend(Admitted(critical, report), trace, a);
      trace := trace + [a];
    }

    /** Other tasks: a caller cancels, a newer report supersedes. */
    method Others()
      requires Refines()
      modifies this`state, this`superseded, this`trace
      ensures Refines() && old(trace) <= trace
    {
      hide Run, Possible;
      var n: nat := *;
      while n > 0
        invariant Refines() && old(trace) <= trace
      {
        n := n - 1;
        ghost var was := View();
        var cancelling: bool := *;
        if !cancelling {
          superseded := true;
          if state == Queued || state == Preparing {
            state := Cancelled;
          }
          Note(was, Supersede);
        } else if state != Delivered && state != Uncertain {
          state := Cancelled;
          Note(was, CancelItem);
        }
      }
    }

    /** The handler of a cancelled worker: an unfinished item goes back to the queue. */
    method Release()
      modifies this`state, this`enqueued, this`worker, this`interrupted
      ensures View() == Released(old(View())) && worker == Away
    {
      if state != Cancelled && state != Failed && (state != Uncertain || report) {
        if state != Delivered && state != Uncertain {
          state := Queued;
        }
        enqueued := true;
      }
      worker, interrupted := Away, false;
    }

    /** An await outside the transport; `stopped` if the worker was cancelled there. */
    method Suspend() returns (stopped: bool)
      requires Refines() && worker in {InBucket, InFinish, InBackoff, InErrorPause}
      modifies this
      ensures Refines() && old(trace) <= trace
      ensures worker == if stopped then Away else old(worker)
      ensures stopped ==> |trace| > |old(trace)| && trace[|trace| - 1] == InterruptWorker(false)
    {
      hide Run, Possible, AfterReply, Boundary;
      Others();
      stopped := *;
      if stopped {
        ghost var was := View();
        if worker == InErrorPause {
          enqueued, worker := true, Away;
        } else {
          Release();
        }
        Note(was, InterruptWorker(false));
      }
    }

    /** An await that a report owns (settle_owned): a cancellation is kept for later. */
    method SuspendOwned()
      requires Refines() && (worker == Reporting || worker.Requeueing? || (worker == InTransport && report))
      modifies this`state, this`superseded, this`interrupted, this`trace
      ensures Refines() && old(trace) <= trace
    {
      hide Run, Possible, AfterReply, Boundary, Released;
      Others();
      var stopped: bool := *;
      if stopped {
        ghost var was := View();
        interrupted := true;
        Note(was, InterruptWorker(false));
        Others();
      }
    }

    /** _finish and _complete_delivery: durable writes that may fail. */
    method Finish(ok: bool)
      requires Refines() && worker == InFinish
      modifies this
      ensures Refines() && old(trace) <= trace && worker == Away
      ensures Since(trace, |old(trace)|, Finished(ok)) || Since(trace, |old(trace)|, InterruptWorker(false))
    {
      hide Run, Possible, AfterReply, Boundary, Interrupt;
      var stopped := Suspend();
      if stopped {
        assert trace[|trace| - 1] == InterruptWorker(false);
        return;
      }
      Written(ok);
    }

    /** The write has ended: done, or tried again after a pause. */
    method Written(ok: bool)
      requires Refines() && worker == InFinish
      modifies this
      ensures Refines() && old(trace) <= trace && worker == Away
      ensures |trace| > |old(trace)| && trace[|old(trace)|] == Finished(ok)
    {
      hide Run, Possible, AfterReply, Boundary, Interrupt;
      ghost var was := View();
      if interrupted {
        Release();
        Note(was, Finished(ok));
        return;
      }
      worker := if ok then Away else InErrorPause;
      Note(was, Finished(ok));
      if !ok {
        var stopped := Suspend();
        if !stopped {
          Woken();
        }
      }
    }

    /** _retry, in the atomic section that began at `was` with action a. */
    method RetryItem(ghost was: Item, ghost a: Action)
      requires Was(was) && Enabled(was, a) && Step(was, a) == Retry(View())
      modifies this
      ensures Refines() && old(trace) <= trace && worker == Away
      ensures |trace| > |old(trace)| && trace[|old(trace)|] == a
    {
      hide Step, Enabled, Run, Possible;
      if superseded {
        Conclude(Cancelled, was, a);
        return;
      }
      retries := retries + 1;
      if !critical && retries > MAX_RETRIES {
        Conclude(Failed, was, a);
        return;
      }
      state, worker := Queued, InBackoff;
      Note(was, a);
      var stopped := Suspend();
      if !stopped {
        Woken();
      }
    }

    /** The end of a backoff, or of the pause after an error. */
    method Woken()
      requires Refines() && (worker == InBackoff || worker == InErrorPause)
      modifies this
      ensures Refines() && old(trace) <= trace && worker == Away
    {
      hide Run, Possible, AfterReply, Boundary, Interrupt, Released;
      ghost var was := View();
      if worker == InErrorPause || state != Cancelled {
        enqueued := true;
      }
      worker := Away;
      Note(was, WakeUp);
    }

    /** The outcome RETRY: a report first writes its state back. */
    method Return(ghost was: Item, ghost a: Action)
      requires Was(was) && Enabled(was, a) && Step(was, a) == Retried(View())
      modifies this
      ensures Refines() && old(trace) <= trace && worker == Away
      ensures |trace| > |old(trace)| && trace[|old(trace)|] == a
    {
      hide Step, Enabled, Run, Possible, Retry;
      if !report {
        RetryItem(was, a);
        return;
      }
      state, worker := Queued, Requeueing(false);
      Note(was, a);
      var written: bool := *;
      Requeue(written);
    }

    /** The end of _deliver_report for a report that goes back to the queue, or fails. */
    method Requeue(ok: bool)
      requires Refines() && worker.Requeueing?
      modifies this
      ensures Refines() && old(trace) <= trace && worker == Away
      ensures Since(trace, |old(trace)|, Requeued(ok))
    {
      hide Run, Possible, AfterReply, Boundary, Interrupt, Retry;
      SuspendOwned();
      ghost var was, n := View(), |trace|;
      if interrupted {
        Release();
        Note(was, Requeued(ok));
      } else if ok && worker.failed {
        Conclude(Failed, was, Requeued(ok));
      } else {
        RetryItem(was, Requeued(ok));
      }
      assert trace[n] == Requeued(ok);
    }

    /** The worker is cancelled while the request is out: a non-critical item is uncertain,
        a critical one goes back to the queue. */
    method Abandon(ghost accepted: bool)
      requires Refines() && worker == InTransport && !report
      modifies this
      ensures Refines() && old(trace) <= trace && worker == Away
      ensures |trace| > |old(trace)| && trace[|old(trace)|] == InterruptWorker(accepted)
    {
      hide Run, Possible, Step, Enabled, Released, Abandoned;
      ghost var was := View();
      AbandonRead(was, accepted);
      log := Abandoned(log, accepted);
      if !critical {
        Conclude(Uncertain, was, InterruptWorker(accepted));
        return;
      }
      Release();
      Note(was, InterruptWorker(accepted));
    }

    /** The classification of a reply. */
    method ReadReply(reply: Reply)
      requires Refines() && worker == InTransport && (report ==> !critical)
      modifies this
      ensures Refines() && old(trace) <= trace && worker == Away
      ensures |trace| > |old(trace)| && trace[|old(trace)|] == Replied(reply)
    {
      hide Run, Possible, Step, Enabled, Retried, Heard;
      ghost var was := View();
      ReplyRead(was, reply);
      log := Heard(log, reply);
      if reply == RetryAfter || reply == Refused
         || (!report && reply != Acked && reply != BadPayload && (critical || reply == NoConnection)) {
        Return(was, Replied(reply));
        return;
      }
      if reply == BadPayload && report {
        state, worker := Queued, Requeueing(true);
        Note(was, Replied(reply));
        var written: bool := *;
        Requeue(written);
        return;
      }
      Conclude(if reply == Acked then Delivered else if reply == BadPayload then Failed else Uncertain, was, Replied(reply));
    }

    /** The atomic section that began at `was` with action a ends the item; its completion follows. */
    method Conclude(end: DeliveryState, ghost was: Item, ghost a: Action)
      requires Was(was) && Enabled(was, a) && Step(was, a) == View().(state := end, worker := InFinish)
      modifies this
      ensures Refines() && old(trace) <= trace && worker == Away
      ensures |trace| > |old(trace)| && trace[|old(trace)|] == a
    {
      hide Run, Possible, Step, Enabled;
      state, worker := end, InFinish;
      Note(was, a);
      var written: bool := *;
      Finish(written);
    }

    /** The transport: a reply, or the worker cancelled while waiting for it. */
    method Deliver(stopped: bool, reply: Reply)
      requires Refines() && worker == InTransport && (report ==> !critical)
      modifies this
      ensures Refines() && old(trace) <= trace && worker == Away
      ensures if report || !stopped then Since(trace, |old(trace)|, Replied(reply))
              else exists accepted :: Since(trace, |old(trace)|, InterruptWorker(accepted))
    {
      hide Run, Possible;
      if report {
        SuspendOwned();
      } else {
        Others();
        if stopped {
          ghost var accepted: bool := *;
          Abandon(accepted);
          return;
        }
      }
      ReadReply(reply);
    }

    /** One turn of the worker loop with this item. */
    method Turn(paused: bool)
      requires Refines() && worker == Away && enqueued && (report ==> !critical)
      modifies this
      ensures Refines() && old(trace) <= trace && worker == Away
      ensures |trace| > |old(trace)| && trace[|old(trace)|] == Take(paused)
    {
      hide Run, Possible;
      ghost var was := View();
      enqueued := false;
      if state in {Cancelled, Uncertain, Failed, Delivered} {
        worker := InFinish;
        Note(was, Take(paused));
        var written: bool := *;
        Finish(written);
        return;
      }
      if !critical && (superseded || paused) {
        Conclude(Cancelled, was, Take(paused));
        return;
      }
      state, worker := Preparing, InBucket;
      Note(was, Take(paused));
      var stopped := Suspend();
      if !stopped {
        var pausedNow, expired, ready: bool := *, *, *;
        Attempt(pausedNow, expired, ready);
      }
    }

    /** From the token bucket to the transport boundary, with no suspension between; a
        report is first recorded as being sent. */
    method Attempt(paused: bool, expired: bool, ready: bool)
      requires Refines() && worker == InBucket && (report ==> !critical)
      modifies this
      ensures Refines() && old(trace) <= trace && worker == Away
      ensures |trace| > |old(trace)| && trace[|old(trace)|] == Prepare(paused, expired, ready)
    {
      hide Run, Possible, Step, Enabled, Boundary;
      ghost var was := View();
      PrepareRead(was, paused, expired, ready);
      if !critical && (superseded || paused) {
        state := Cancelled;
      }
      if state == Cancelled {
        worker := InFinish;
        Note(was, Prepare(paused, expired, ready));
        var written: bool := *;
        Finish(written);
        return;
      }
      if expired {
        log := log.(rejected := true);
        Conclude(Failed, was, Prepare(paused, expired, ready));
        return;
      }
      state := Sending;
      if report {
        worker := Reporting;
        Note(was, Prepare(paused, expired, ready));
        var written, pausedNow, readyNow: bool := *, *, *;
        Announce(written, pausedNow, readyNow);
        return;
      }
      Cross(was, Prepare(paused, expired, ready), paused, ready);
    }

    /** The durable record that a report is being sent; then the transport boundary. */
    method Announce(ok: bool, paused: bool, ready: bool)
      requires Refines() && worker == Reporting && !critical
      modifies this
      ensures Refines() && old(trace) <= trace && worker == Away
      ensures Since(trace, |old(trace)|, Reported(ok, paused, ready))
    {
      hide Run, Possible, Interrupt, AfterReply, Boundary, Retry;
      SuspendOwned();
      ghost var was, n := View(), |trace|;
      if ok {
        Cross(was, Reported(ok, paused, ready), paused, ready);
      } else if interrupted {
        Release();
        Note(was, Reported(ok, paused, ready));
      } else {
        RetryItem(was, Reported(ok, paused, ready));
      }
      assert trace[n] == Reported(ok, paused, ready);
    }

    /** The boundary itself (_execute_item up to the request): the last check and the send,
        in the atomic section that began at `was` with action a. */
    method Cross(ghost was: Item, ghost a: Action, paused: bool, ready: bool)
      requires Was(was) && Enabled(was, a) && Step(was, a) == Boundary(View(), paused, ready)
      requires report ==> !critical
      modifies this
      ensures Refines() && old(trace) <= trace && worker == Away
      ensures |trace| > |old(trace)| && trace[|old(trace)|] == a
    {
      hide Step, Enabled, Run, Possible, Retried;
      if !ready {
        Return(was, a);
        return;
      }
      if !critical && (superseded || paused) {
        Conclude(Cancelled, was, a);
        return;
      }
      worker, log := InTransport, Begun(log, superseded);
      Note(was, a);
      var stopped: bool := *;
      var reply: Reply := *;
      Deliver(stopped, reply);
    }
  }

  /** Between any two sections of the worker's code: a non-critical message, a report
      included, was accepted at most once and never sent after being superseded; a critical
      one failed only if it expired or its payload was rejected; and none is lost: a message
      is with the worker, in the queue, or at an end that has its cause. */
  lemma WorkerIsSafe(q: QueueItem)
    requires q.Refines() && (q.report ==> !q.critical)
    ensures !q.critical ==> q.log.accepted <= 1 && q.log.lateSends == 0
    ensures q.critical && q.state == Failed ==> q.log.rejected
    ensures q.worker == InFinish ==> q.state in {Delivered, Cancelled, Failed, Uncertain}
    ensures q.worker == Away && !q.enqueued ==> q.state in {Delivered, Cancelled, Failed, Uncertain}
    ensures q.worker == Away && !q.enqueued && q.state == Delivered ==> Finished(true) in q.trace
    ensures q.state == Delivered ==> q.log.accepted >= 1
    ensures !q.critical && q.state == Failed ==> q.log.rejected || q.retries > MAX_RETRIES
    ensures q.state == Cancelled ==> exists a <- q.trace :: Asks(a)
  {
    NothingIsLost(q.critical, q.report, q.trace);
    EveryEndHasACause(q.critical, q.report, q.trace);
    if Closed(q.View()) {
      ClosedMeansWritten(Admitted(q.critical, q.report), q.trace);
    }
    RunKeeps(Admitted(q.critical, q.report), q.trace);
    hide Run, Possible;
  }
}
