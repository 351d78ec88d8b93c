/** The notification worker itself (utils/mirza_notifications.py): whatever the database,
    the panel, the remote bot and other tasks do, its behaviour is a run of the machine in
    MirzaState, so everything proved of those runs holds of it. */
module MirzaService {
  import opened Collections
  import opened MirzaState

  ghost function SendingIds(rows: map<Id, Row>): (s: set<Id>)
    ensures forall id :: id in s <==> InState(rows, id, Sending)
  {
    set id | id in rows && rows[id].state == Sending
  }

  /** A recovered row: an interrupted send is uncertain. */
  function Settled(row: Row): Row {
    if row.state.Sending? then row.(state := Uncertain) else row
  }

  /** The remote side's choice, where the response leaves it one. */
  ghost function Outcome(response: Response, choice: bool): (accepted: bool)
    ensures Honest(response, accepted)
    ensures Honest(response, choice) ==> accepted == choice
  {
    if Honest(response, choice) then choice else !choice
  }

  // -------------------------------------------------------------------------
  // What a visit to one incident is answered
  // -------------------------------------------------------------------------

  /** The panel's metadata for a pending incident, or an error reading it. */
  datatype Metadata = Unreadable | Found(to: State)

  /** The remote side of one request: the process dies, or the response is read; where
      the response leaves open whether the message was accepted, `choice` decides. */
  datatype Wire = Died(accepted: bool) | Came(response: Response, choice: bool)

  /** The answers to one visit: metadata and its commit, whether the row is due and its
      secret current, the commit of the claim, the request, and the commit at the end. */
  datatype Visit = Visit(
    metadata: Metadata, resolved: bool, due: bool, secret: bool, commit: Commit, wire: Wire, finished: bool)

  /** A pending row becomes ready, failed or skipped as its metadata say; the third
      error ends it. */
  function Resolution(m: Metadata, resolveAttempts: nat): State {
    match m
    case Unreadable => if resolveAttempts + 1 >= MAX_ATTEMPTS then Failed else Pending
    case Found(to) => if to.Ready? || to.Failed? then to else Skipped
  }

  predicate Due(rows: map<Id, Row>, id: Id) {
    InState(rows, id, Ready) || InState(rows, id, Retry)
  }

  /** The worker did something about the incident. */
  ghost predicate Touches(e: Event, id: Id) {
    (e.Resolve? && e.id == id) || (e.Claim? && e.id == id) || (e.DropKey? && e.id == id)
  }

  /** ... at some time since the first n events. */
  ghost predicate Touched(trace: seq<Event>, n: nat, id: Id) {
    exists i :: n <= i < |trace| && Touches(trace[i], id)
  }

  /** Resolved, sent or dropped by the worker, or cancelled. */
  ghost predicate Attended(trace: seq<Event>, n: nat, rows: map<Id, Row>, id: Id) {
    Touched(trace, n, id) || InState(rows, id, Skipped)
  }

  /** Attended, or still waiting for its visit. */
  ghost predicate Waits(trace: seq<Event>, n: nat, rows: map<Id, Row>, id: Id) {
    Attended(trace, n, rows, id) || Unsent(rows, id)
  }

  /** Nothing keeps the worker from acting on the row now. */
  predicate Keen(v: Visit) {
    v.due && (v.secret ==> !v.commit.Lost?)
  }

  /** What a task that is not about this incident may do to it: cancel it before it is
      sent. */
  ghost predicate Left(was: map<Id, Row>, rows: map<Id, Row>, id: Id) {
    && (id in was ==> id in rows)
    && (Unsent(was, id) ==> rows[id] == was[id] || rows[id] == was[id].(state := Skipped))
    && (id in was && !Unsent(was, id) ==> rows[id] == was[id])
  }

  lemma LeftTrans(a: map<Id, Row>, b: map<Id, Row>, c: map<Id, Row>, id: Id)
    requires Left(a, b, id) && Left(b, c, id)
    ensures Left(a, c, id)
  {
  }

  lemma CancelledLeft(rows: map<Id, Row>, ids: set<Id>, id: Id)
    ensures Left(rows, Cancelled(rows, ids), id)
  {
  }

  /** Every other incident is left alone. */
  ghost predicate OthersLeft(was: map<Id, Row>, rows: map<Id, Row>, id: Id) {
    forall x :: x != id ==> Left(was, rows, x)
  }

  lemma OneRowLeft(was: map<Id, Row>, rows: map<Id, Row>, id: Id)
    requires rows == was || (id in was && id in rows && rows == was[id := rows[id]])
    ensures OthersLeft(was, rows, id)
  {
  }

  lemma OthersLeftTrans(a: map<Id, Row>, b: map<Id, Row>, c: map<Id, Row>, id: Id)
    requires OthersLeft(a, b, id) && OthersLeft(b, c, id)
    ensures OthersLeft(a, c, id)
  {
    forall x | x != id ensures Left(a, c, x) {
      LeftTrans(a, b, c, x);
    }
  }

  ghost predicate AllLeft(was: map<Id, Row>, rows: map<Id, Row>) {
    forall id :: Left(was, rows, id)
  }

  lemma AllLeftStep(was: map<Id, Row>, rows: map<Id, Row>, next: map<Id, Row>)
    requires AllLeft(was, rows) && AllLeft(rows, next)
    ensures AllLeft(was, next)
  {
    forall id ensures Left(was, next, id) {
      LeftTrans(was, rows, next, id);
    }
  }

  lemma CancelledLeaves(rows: map<Id, Row>, ids: set<Id>)
    ensures AllLeft(rows, Cancelled(rows, ids))
  {
    forall id ensures Left(rows, Cancelled(rows, ids), id) {
      CancelledLeft(rows, ids, id);
    }
  }

  lemma AdmittedLeaves(rows: map<Id, Row>, next: map<Id, Row>, id: Id)
    requires next == rows || (id !in rows && next == rows[id := Row(Pending, 0, 0)])
    ensures AllLeft(rows, next)
  {
  }

  /** A row that is no longer to be sent is left as it is. */
  lemma AllLeftAt(was: map<Id, Row>, rows: map<Id, Row>, id: Id)
    requires AllLeft(was, rows)
    ensures Left(was, rows, id)
    ensures id in was ==> id in rows
    ensures id in was && !Unsent(was, id) ==> rows[id] == was[id]
    ensures Unsent(was, id) ==> rows[id] == was[id] || rows[id] == was[id].(state := Skipped)
  {
    assert Left(was, rows, id);
  }

  lemma AllLeftOthers(a: map<Id, Row>, b: map<Id, Row>, c: map<Id, Row>, id: Id)
    requires OthersLeft(a, b, id) && AllLeft(b, c)
    ensures OthersLeft(a, c, id)
  {
    forall x | x != id ensures Left(a, c, x) {
      LeftTrans(a, b, c, x);
    }
  }

  /** What resolving does to the row, if its commit takes effect. */
  function ResolvedRow(row: Row, to: State, durable: bool): Row {
    if !durable then row
    else if to.Pending? then row.(resolveAttempts := row.resolveAttempts + 1)
    else row.(state := to)
  }

  /** The row after a request whose claim was committed. */
  function Sent(row: Row, v: Visit): Row {
    var attempts := row.attempts + 1;
    var state := if v.wire.Came? && v.finished then FinalState(Classify(v.wire.response), attempts) else Sending;
    row.(state := state, attempts := attempts)
  }

  class Service {
    var rows: map<Id, Row>
    var recovered: bool
    ghost var sends: map<Id, seq<Fate>>
    ghost var stage: Stage
    ghost var trace: seq<Event>
    ghost const start: World

    ghost function View(): World
      reads this
    {
      World(rows, sends, recovered, stage)
    }

    /** Everything so far is a run of the machine. */
    ghost predicate Refines()
      reads this
    {
      Allowed(start, trace) && View() == Run(start, trace)
    }

    constructor (rows: map<Id, Row>, ghost sends: map<Id, seq<Fate>>)
      ensures Refines() && View() == World(rows, sends, false, Idle) && trace == []
    {
      this.rows, this.sends, recovered, stage, trace := rows, sends, false, Idle, [];
      start := World(rows, sends, false, Idle);
    }

    /** The state just moved as the machine does on e. */
    ghost method Note(was: World, e: Event)
      requires Allowed(start, trace) && was == Run(start, trace)
      requires Enabled(was, e) && View() == Step(was, e)
      modifies this`trace
      ensures Refines() && trace == old(trace) + [e]
    {
      hide Step, Enabled;
      RunsExtend(start, trace, was, e);
      trace := trace + [e];
    }

    /** Other tasks admit incidents and cancel routes while this one waits. */
    method Others()
      requires Refines()
      modifies this`rows, this`trace
      ensures Refines() && old(trace) <= trace
      ensures AllLeft(old(rows), rows)
    {
      var n: nat := *;
      while n > 0
        invariant Refines() && old(trace) <= trace
        invariant AllLeft(old(rows), rows)
      {
        n := n - 1;
        ghost var was := View();
        var admitting: bool := *;
        if admitting {
          var id: Id := *;
          if id !in rows {
            rows := rows[id := Row(Pending, 0, 0)];
          }
          AdmittedLeaves(was.rows, rows, id);
          AllLeftStep(old(rows), was.rows, rows);
          Note(was, Admit(id));
        } else {
          var ids: set<Id> := *;
          rows := Cancelled(rows, ids);
          CancelledLeaves(was.rows, ids);
          AllLeftStep(old(rows), was.rows, rows);
          Note(was, CancelRoute(ids));
        }
      }
    }

    /** A query for at most 25 sending rows. */
    method DueSending() returns (batch: set<Id>)
      ensures IsDueBatch(rows, batch)
    {
      batch := {};
      var rest := set id | id in rows && rows[id].state == Sending;
      while rest != {} && |batch| < BATCH
        invariant forall id :: id in rest || id in batch <==> InState(rows, id, Sending)
        invariant |batch| <= BATCH
        decreases |rest|
      {
        var id :| id in rest;
        batch, rest := batch + {id}, rest - {id};
      }
    }

    method RecoverBatch()
      requires Refines() && !recovered && stage.Idle?
      modifies this`rows, this`recovered, this`trace
      ensures Refines() && old(trace) <= trace && stage.Idle?
      ensures forall id :: id in rows <==> id in old(rows)
      ensures forall id :: id in rows ==> rows[id] == old(rows)[id] || rows[id] == Settled(old(rows)[id])
      ensures recovered ==> SendingIds(rows) == {}
      ensures !recovered ==> SendingIds(rows) < SendingIds(old(rows))
    {
      var batch := DueSending();
      ghost var was, due := View(), SendingIds(rows);
      rows := Interrupted(rows, batch);
      assert SendingIds(rows) == due - batch;
      recovered := |batch| < BATCH;
      Note(was, Recover(batch));
      assert batch <= due;
      assert !recovered ==> |batch| > 0;
    }

    /** _recover: batch by batch, until no row is sending. A database error leaves the
        worker unrecovered, so nothing is sent; `fails` is the batch it happens at. */
    method RecoverAll(fails: Option<nat>)
      requires Refines() && !recovered && stage.Idle?
      modifies this`rows, this`recovered, this`trace
      ensures Refines() && old(trace) <= trace && stage.Idle?
      ensures fails.None? ==> recovered
      ensures forall id :: id in rows <==> id in old(rows)
      ensures forall id :: id in rows ==> rows[id] == old(rows)[id] || rows[id] == Settled(old(rows)[id])
      ensures recovered ==> forall id :: id in rows ==> rows[id] == Settled(old(rows)[id])
    {
      var batches := 0;
      while !recovered
        invariant Refines() && old(trace) <= trace && stage.Idle?
        invariant forall id :: id in rows <==> id in old(rows)
        invariant forall id :: id in rows ==> rows[id] == old(rows)[id] || rows[id] == Settled(old(rows)[id])
        invariant recovered ==> SendingIds(rows) == {}
        decreases !recovered, SendingIds(rows)
      {
        if fails == Some(batches) {
          return;
        }
        RecoverBatch();
        batches := batches + 1;
      }
      forall id | id in rows ensures rows[id] == Settled(old(rows)[id]) {
        assert !InState(rows, id, Sending);
      }
    }

    /** One durable conditional transition of a pending row: as the panel's answer says,
        unless another task cancelled it meanwhile. */
    method ResolveOne(id: Id, v: Visit)
      requires Refines() && recovered && stage.Idle?
      modifies this`rows, this`trace
      ensures Refines() && old(trace) <= trace && recovered
      ensures !InState(old(rows), id, Pending) ==> trace == old(trace) && rows == old(rows)
      ensures OthersLeft(old(rows), rows, id)
      ensures InState(old(rows), id, Pending) ==> id in rows && var row, to := old(rows)[id], Resolution(v.metadata, old(rows)[id].resolveAttempts);
        || rows[id] == row.(state := Skipped)
        || (|trace| > |old(trace)| && trace[|trace| - 1] == Resolve(id, to, v.resolved) && rows[id] == ResolvedRow(row, to, v.resolved))
    {
      if id !in rows || rows[id].state != Pending {
        return;
      }
      var attempts := rows[id].resolveAttempts + 1;
      Others();
      var to: State;
      if v.metadata.Unreadable? {
        to := if attempts >= MAX_ATTEMPTS then Failed else Pending;
      } else {
        to := v.metadata.to;
        if !to.Ready? && !to.Failed? {
          to := Skipped;
        }
      }
      assert Left(old(rows), rows, id);
      OneRowLeft(old(rows), old(rows), id);
      AllLeftOthers(old(rows), old(rows), rows, id);
      if rows[id].state != Pending {
        return;
      }
      ghost var was := View();
      if v.resolved {
        if to.Pending? {
          rows := rows[id := rows[id].(resolveAttempts := attempts)];
        } else {
          rows := rows[id := rows[id].(state := to)];
        }
      }
      OneRowLeft(was.rows, rows, id);
      OthersLeftTrans(old(rows), was.rows, rows, id);
      Note(was, Resolve(id, to, v.resolved));
    }

    /** _send: claim, commit, and only then call the remote bot. */
    method SendOne(id: Id, v: Visit)
      requires Refines() && recovered && stage.Idle?
      modifies this
      ensures Refines() && old(trace) <= trace && stage.Idle?
      ensures OthersLeft(old(rows), rows, id)
      ensures !Due(old(rows), id) || !v.due || (v.secret && v.commit.Lost?) ==> trace == old(trace) && rows == old(rows)
      ensures Due(old(rows), id) && v.due && !v.secret ==>
        trace == old(trace) + [DropKey(id)] && rows == old(rows)[id := old(rows)[id].(state := Skipped)]
      ensures Due(old(rows), id) && v.due && v.secret && !v.commit.Lost? ==>
        |trace| > |old(trace)| && trace[|old(trace)|] == Claim(id, v.commit)
      ensures Due(old(rows), id) && v.due && v.secret && v.commit.CommittedButRaised? ==>
        rows == old(rows)[id := old(rows)[id].(state := Sending, attempts := old(rows)[id].attempts + 1)]
      ensures Due(old(rows), id) && v.due && v.secret && v.commit.Committed? ==>
        id in rows && rows[id] == Sent(old(rows)[id], v)
      ensures recovered <==> !(Due(old(rows), id) && v.due && v.secret && v.commit.Committed? && v.wire.Died?)
    {
      hide Left, OthersLeft, AllLeft;
      if id !in rows || !(rows[id].state.Ready? || rows[id].state.Retry?) {
        OneRowLeft(rows, rows, id);
        return;
      }
      ghost var was := View();
      if !v.due {
        OneRowLeft(was.rows, rows, id);
        return;
      }
      if !v.secret {
        rows := rows[id := rows[id].(state := Skipped)];
        OneRowLeft(was.rows, rows, id);
        Note(was, DropKey(id));
        return;
      }
      var attempts := rows[id].attempts + 1;
      if v.commit.Lost? {
        OneRowLeft(was.rows, rows, id);
        return;
      }
      rows := rows[id := rows[id].(state := Sending, attempts := attempts)];
      OneRowLeft(was.rows, rows, id);
      if v.commit.CommittedButRaised? {
        Note(was, Claim(id, v.commit));
        return;
      }
      sends := sends[id := SendsOf(was, id) + [Flying]];
      stage := InFlight(id, attempts);
      Note(was, Claim(id, v.commit));
      ghost var claimed := rows;
      Others();
      AllLeftAt(claimed, rows, id);
      AllLeftOthers(was.rows, claimed, rows, id);
      ghost var waiting := rows;
      Deliver(id, attempts, v);
      OthersLeftTrans(was.rows, waiting, rows, id);
    }

    /** _finish: the outcome, unless the third retry, moves the row out of sending. */
    method FinishRow(id: Id, attempts: nat, result: State, finished: bool)
      requires Refines() && stage == Answered(id, attempts, result)
      modifies this`rows, this`stage, this`trace
      ensures Refines() && old(trace) <= trace && stage.Idle?
      ensures rows == if finished then Transition(old(rows), id, Sending, FinalState(result, attempts)) else old(rows)
    {
      ghost var was := View();
      var to := result;
      if result.Retry? && attempts >= MAX_ATTEMPTS {
        to := Failed;
      }
      if finished && id in rows && rows[id].state == Sending {
        rows := rows[id := rows[id].(state := to)];
      }
      stage := Idle;
      Note(was, Finish(finished));
    }

    /** The request and _finish; the process may die in between. */
    method Deliver(id: Id, attempts: nat, v: Visit)
      requires Refines() && stage == InFlight(id, attempts) && InState(rows, id, Sending)
      modifies this
      ensures Refines() && old(trace) <= trace && stage.Idle?
      ensures OthersLeft(old(rows), rows, id)
      ensures id in rows && rows[id] ==
        if v.wire.Came? && v.finished then old(rows)[id].(state := FinalState(Classify(v.wire.response), attempts)) else old(rows)[id]
      ensures recovered == (old(recovered) && !v.wire.Died?)
    {
      ghost var was := View();
      hide Honest, Classify, FateOf, Landed, Left, OthersLeft, AllLeft, SendsOf;
      OneRowLeft(was.rows, rows, id);
      if v.wire.Died? {
        sends := Landed(sends, id, Possible(v.wire.accepted));
        recovered, stage := false, Idle;
        Note(was, Crash(v.wire.accepted));
        return;
      }
      ghost var accepted := Outcome(v.wire.response, v.wire.choice);
      var result := Classify(v.wire.response);
      sends := Landed(sends, id, FateOf(result, accepted));
      stage := Answered(id, attempts, result);
      Note(was, Answer(v.wire.response, accepted));
      Others();
      AllLeftAt(was.rows, rows, id);
      AllLeftOthers(was.rows, was.rows, rows, id);
      ghost var waiting := rows;
      FinishRow(id, attempts, result, v.finished);
      OneRowLeft(waiting, rows, id);
      OthersLeftTrans(was.rows, waiting, rows, id);
    }

    /** The visit of one incident: resolve it if it is pending, then send it. */
    method VisitOne(id: Id, v: Visit)
      requires Refines() && recovered && stage.Idle?
      modifies this
      ensures Refines() && old(trace) <= trace && stage.Idle?
      ensures OthersLeft(old(rows), rows, id)
      ensures InState(old(rows), id, Skipped) ==> InState(rows, id, Skipped)
      ensures Unsent(old(rows), id) ==> Waits(trace, |old(trace)|, rows, id)
      ensures Unsent(old(rows), id) && Keen(v) ==> Attended(trace, |old(trace)|, rows, id)
    {
      hide Left, OthersLeft, Sent, ResolvedRow, Resolution;
      ghost var was, n := rows, |trace|;
      ResolveOne(id, v);
      ghost var between, m := rows, |trace|;
      assert m > n && trace[m - 1].Resolve? && trace[m - 1].id == id ==> Touches(trace[m - 1], id);
      SendOne(id, v);
      assert |trace| > m && (trace[m].Claim? || trace[m].DropKey?) && trace[m].id == id ==> Touches(trace[m], id);
      OthersLeftTrans(was, between, rows, id);
    }

    /** run_once: recover first, then resolve and send each due incident; every incident
        visited that is still to be sent is resolved or sent, unless it is not due, its
        claim is lost, or another task cancels it. */
    method RunOnce(fails: Option<nat>, due: seq<Id>, visits: seq<Visit>)
      requires Refines() && stage.Idle? && |due| == |visits|
      modifies this
      ensures Refines() && old(trace) <= trace && stage.Idle?
      ensures recovered ==> forall i :: 0 <= i < |due| && Unsent(old(rows), due[i]) && Keen(visits[i]) ==>
        Attended(trace, |old(trace)|, rows, due[i])
    {
      ghost var n := |trace|;
      if !recovered {
        RecoverAll(fails);
      }
      var i := 0;
      assert forall x :: Unsent(old(rows), x) ==> Waits(trace, n, rows, x);
      hide Left, OthersLeft, Attended, Waits, Keen;
      while i < |due| && recovered
        invariant Refines() && old(trace) <= trace && stage.Idle? && 0 <= i <= |due|
        invariant forall x :: Unsent(old(rows), x) ==> Waits(trace, n, rows, x)
        invariant forall j :: 0 <= j < i && Unsent(old(rows), due[j]) && Keen(visits[j]) ==> Attended(trace, n, rows, due[j])
      {
        ghost var was, before := rows, trace;
        VisitOne(due[i], visits[i]);
        forall x | Unsent(old(rows), x)
          ensures Waits(trace, n, rows, x)
          ensures Attended(before, n, was, x) ==> Attended(trace, n, rows, x)
        {
          WaitsStill(before, trace, n, was, rows, due[i], x);
        }
        if Unsent(old(rows), due[i]) && Keen(visits[i]) {
          NowAttended(before, trace, n, was, rows, due[i]);
        }
        i := i + 1;
      }
    }
  }

  lemma WaitsStill(before: seq<Event>, trace: seq<Event>, n: nat, was: map<Id, Row>, rows: map<Id, Row>, id: Id, x: Id)
    requires before <= trace && n <= |before| && OthersLeft(was, rows, id) && Waits(before, n, was, x)
    requires InState(was, id, Skipped) ==> InState(rows, id, Skipped)
    requires Unsent(was, id) ==> Waits(trace, |before|, rows, id)
    ensures Waits(trace, n, rows, x)
    ensures Attended(before, n, was, x) ==> Attended(trace, n, rows, x)
  {
    if Touched(before, n, x) {
      var i :| n <= i < |before| && Touches(before[i], x);
      assert Touches(trace[i], x);
    } else if x == id && Touched(trace, |before|, x) {
      var i :| |before| <= i < |trace| && Touches(trace[i], x);
      assert n <= i;
    } else if x != id {
      assert Left(was, rows, x);
    }
  }

  lemma NowAttended(before: seq<Event>, trace: seq<Event>, n: nat, was: map<Id, Row>, rows: map<Id, Row>, id: Id)
    requires before <= trace && n <= |before| && Waits(before, n, was, id)
    requires InState(was, id, Skipped) ==> InState(rows, id, Skipped)
    requires Unsent(was, id) ==> Attended(trace, |before|, rows, id)
    ensures Attended(trace, n, rows, id)
  {
    if Touched(before, n, id) {
      var i :| n <= i < |before| && Touches(before[i], id);
      assert Touches(trace[i], id);
    } else if Touched(trace, |before|, id) {
      var i :| |before| <= i < |trace| && Touches(trace[i], id);
      assert n <= i;
    }
  }

  /** Between any two steps of the worker's code every incident is safe, if it was when
      the process started on the durable rows. */
  lemma ServiceIsSafe(s: Service, id: Id)
    requires s.Refines() && Inv(s.start)
    ensures Safe(s.View(), id) && Inv(s.View())
  {
    RunKeeps(s.start, s.trace);
    InvIsSafe(s.View(), id);
  }
}
