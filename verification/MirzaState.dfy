/** Crash-safe customer notifications (utils/mirza_notifications.py, utils/mirza_client.py):
    durable rows, one worker, and what the remote bot did with each request. */
module MirzaState {
  import opened Collections

  type Id = string

  datatype State = Pending | Ready | Retry | Sending | Uncertain | Delivered | Failed | Skipped

  datatype Row = Row(state: State, attempts: nat, resolveAttempts: nat)

  // -------------------------------------------------------------------------
  // Transport outcomes
  // -------------------------------------------------------------------------

  datatype Body = NotJson | StatusTrue | StatusFalse | OtherJson

  datatype Response = ConnectFailure | RequestError | Reply(code: int, body: Body)

  /** send_message */
  function Classify(r: Response): State {
    match r
    case ConnectFailure => Retry
    case RequestError => Uncertain
    case Reply(code, body) =>
      if code == 429 then Retry
      else if code >= 500 then Uncertain
      else if !(200 <= code < 300) then Failed
      else match body
        case StatusTrue => Delivered
        case StatusFalse => Failed
        case NotJson => Uncertain
        case OtherJson => Uncertain
  }

  /** What the remote side may have done: a refused connection, a rate limit, a 4xx or a
      false status rules acceptance out; a true status proves it. */
  predicate Honest(r: Response, accepted: bool) {
    match r
    case ConnectFailure => !accepted
    case RequestError => true
    case Reply(code, body) =>
      if code == 429 then !accepted
      else if 200 <= code < 300 then
        (body.StatusTrue? ==> accepted) && (body.StatusFalse? ==> !accepted)
      else code < 500 ==> !accepted
  }

  // -------------------------------------------------------------------------
  // The machine
  // -------------------------------------------------------------------------

  /** One request: in the air, proved not accepted, or possibly accepted. */
  datatype Fate = Flying | RuledOut | Possible(accepted: bool)

  /** What the worker holds in memory; lost in a crash. */
  datatype Stage = Idle | InFlight(id: Id, attempts: nat) | Answered(id: Id, attempts: nat, result: State)

  /** A commit may fail, or take effect although it raised. */
  datatype Commit = Committed | CommittedButRaised | Lost

  datatype World = World(rows: map<Id, Row>, sends: map<Id, seq<Fate>>, recovered: bool, stage: Stage)

  datatype Event =
    | Admit(id: Id)
    | Resolve(id: Id, to: State, durable: bool)
    | DropKey(id: Id)
    | Claim(id: Id, commit: Commit)
    | Answer(response: Response, accepted: bool)
    | Finish(durable: bool)
    | Crash(accepted: bool)
    | Recover(batch: set<Id>)
    | CancelRoute(ids: set<Id>)

  const MAX_ATTEMPTS := 3
  const BATCH := 25

  predicate InState(rows: map<Id, Row>, id: Id, s: State) {
    id in rows && rows[id].state == s
  }

  predicate Unsent(rows: map<Id, Row>, id: Id) {
    id in rows && (rows[id].state.Pending? || rows[id].state.Ready? || rows[id].state.Retry?)
  }

  /** Notifications.transition: conditional on the expected state. */
  function Transition(rows: map<Id, Row>, id: Id, expected: State, to: State): map<Id, Row> {
    if InState(rows, id, expected) then rows[id := rows[id].(state := to)] else rows
  }

  function SendsOf(w: World, id: Id): seq<Fate> {
    if id in w.sends then w.sends[id] else []
  }

  function FinalState(result: State, attempts: nat): State {
    if result.Retry? && attempts >= MAX_ATTEMPTS then Failed else result
  }

  /** The last request of an id, which is in the air, gets its fate. */
  function Landed(sends: map<Id, seq<Fate>>, id: Id, fate: Fate): map<Id, seq<Fate>> {
    if id in sends && |sends[id]| > 0 then sends[id := sends[id][..|sends[id]| - 1] + [fate]] else sends
  }

  function FateOf(result: State, accepted: bool): Fate {
    if result.Uncertain? || result.Delivered? then Possible(accepted) else RuledOut
  }

  function Interrupted(rows: map<Id, Row>, batch: set<Id>): map<Id, Row> {
    map id | id in rows :: if id in batch then rows[id].(state := Uncertain) else rows[id]
  }

  function Cancelled(rows: map<Id, Row>, ids: set<Id>): map<Id, Row> {
    map id | id in rows :: if id in ids && Unsent(rows, id) then rows[id].(state := Skipped) else rows[id]
  }

  /** The rows a recovery pass reads: all that are sending, or a full batch of them. */
  ghost predicate IsDueBatch(rows: map<Id, Row>, batch: set<Id>) {
    && (forall id :: id in batch ==> InState(rows, id, Sending))
    && |batch| <= BATCH
    && (|batch| < BATCH ==> forall id :: InState(rows, id, Sending) ==> id in batch)
  }

  /** A pending row is resolved to one of these; the third metadata failure ends it. */
  predicate ResolvesTo(row: Row, to: State) {
    to.Ready? || to.Skipped? || to.Failed? || (to.Pending? && row.resolveAttempts + 1 < MAX_ATTEMPTS)
  }

  ghost predicate Enabled(w: World, e: Event) {
    match e
    case Admit(_) => true
    case Resolve(id, to, _) =>
      w.recovered && w.stage.Idle? && InState(w.rows, id, Pending) && ResolvesTo(w.rows[id], to)
    case DropKey(id) => w.recovered && w.stage.Idle? && (InState(w.rows, id, Ready) || InState(w.rows, id, Retry))
    case Claim(id, _) => w.recovered && w.stage.Idle? && (InState(w.rows, id, Ready) || InState(w.rows, id, Retry))
    case Answer(response, accepted) => w.stage.InFlight? && Honest(response, accepted)
    case Finish(_) => w.stage.Answered?
    case Crash(_) => true
    case Recover(batch) => !w.recovered && w.stage.Idle? && IsDueBatch(w.rows, batch)
    case CancelRoute(_) => true
  }

  function Step(w: World, e: Event): World {
    match e
    case Admit(id) => if id in w.rows then w else w.(rows := w.rows[id := Row(Pending, 0, 0)])
    case Resolve(id, to, durable) =>
      if !durable then w
      else if to.Pending? && id in w.rows then
        w.(rows := w.rows[id := w.rows[id].(resolveAttempts := w.rows[id].resolveAttempts + 1)])
      else w.(rows := Transition(w.rows, id, Pending, to))
    case DropKey(id) => w.(rows := Transition(Transition(w.rows, id, Ready, Skipped), id, Retry, Skipped))
    case Claim(id, commit) =>
      if commit.Lost? || id !in w.rows then w
      else
        var attempts := w.rows[id].attempts + 1;
        var claimed := w.(rows := w.rows[id := w.rows[id].(state := Sending, attempts := attempts)]);
        if commit.CommittedButRaised? then claimed
        else claimed.(sends := w.sends[id := SendsOf(w, id) + [Flying]], stage := InFlight(id, attempts))
    case Answer(response, accepted) =>
      if !w.stage.InFlight? then w
      else
        var result := Classify(response);
        w.(sends := Landed(w.sends, w.stage.id, FateOf(result, accepted)),
           stage := Answered(w.stage.id, w.stage.attempts, result))
    case Finish(durable) =>
      if !w.stage.Answered? then w
      else
        var to := FinalState(w.stage.result, w.stage.attempts);
        w.(rows := if durable then Transition(w.rows, w.stage.id, Sending, to) else w.rows, stage := Idle)
    case Crash(accepted) =>
      var sends := if w.stage.InFlight? then Landed(w.sends, w.stage.id, Possible(accepted)) else w.sends;
      w.(sends := sends, recovered := false, stage := Idle)
    case Recover(batch) => w.(rows := Interrupted(w.rows, batch), recovered := |batch| < BATCH)
    case CancelRoute(ids) => w.(rows := Cancelled(w.rows, ids))
  }

  const EMPTY := World(map[], map[], false, Idle)

  // -------------------------------------------------------------------------
  // What every step keeps
  // -------------------------------------------------------------------------

  ghost predicate AllRuledOut(sends: seq<Fate>) {
    forall i :: 0 <= i < |sends| ==> sends[i].RuledOut?
  }

  /** Only the last request of an incident can be anything but ruled out, and what it can
      be follows from the row. */
  ghost predicate RowOk(row: Row, sends: seq<Fate>) {
    && |sends| <= row.attempts <= MAX_ATTEMPTS
    && (|sends| > 0 ==> AllRuledOut(sends[..|sends| - 1]))
    && (match row.state
        case Pending => row.attempts == 0 && AllRuledOut(sends)
        case Ready => row.attempts == 0 && AllRuledOut(sends)
        case Retry => row.attempts < MAX_ATTEMPTS && AllRuledOut(sends)
        case Skipped => AllRuledOut(sends)
        case Failed => AllRuledOut(sends)
        case Delivered => |sends| > 0 && sends[|sends| - 1] == Possible(true)
        case Sending => true
        case Uncertain => |sends| > 0 ==> !sends[|sends| - 1].Flying?)
  }

  /** The worker's memory agrees with the durable row and with the request's fate. */
  ghost predicate StageOk(w: World, id: Id) {
    var sends := SendsOf(w, id);
    var last := if |sends| > 0 then Some(sends[|sends| - 1]) else None;
    match w.stage
    case Idle => last != Some(Flying)
    case InFlight(x, attempts) =>
      if x == id then InState(w.rows, id, Sending) && w.rows[id].attempts == attempts && last == Some(Flying)
      else last != Some(Flying)
    case Answered(x, attempts, result) =>
      && last != Some(Flying)
      && (x == id ==>
        && InState(w.rows, id, Sending) && w.rows[id].attempts == attempts
        && (result.Retry? || result.Failed? || result.Uncertain? || result.Delivered?)
        && (result.Delivered? ==> last == Some(Possible(true)))
        && (result.Retry? || result.Failed? ==> last == Some(RuledOut)))
  }

  ghost predicate IdOk(w: World, id: Id) {
    && (id in w.rows ==> RowOk(w.rows[id], SendsOf(w, id)))
    && (id !in w.rows ==> |SendsOf(w, id)| == 0)
    && StageOk(w, id)
  }

  /** Once recovered, an idle worker's rows are sending only where a claim's commit raised
      or a finish was lost; such a row is never due again. */
  ghost predicate Inv(w: World) {
    && (forall id :: IdOk(w, id))
    && (w.stage.Idle? || w.recovered)
  }

  lemma LandedIs(sends: map<Id, seq<Fate>>, id: Id, fate: Fate, x: Id)
    requires id in sends && |sends[id]| > 0
    ensures var next := Landed(sends, id, fate);
      && (x in next <==> x in sends)
      && (x in sends && x != id ==> next[x] == sends[x])
      && |next[id]| == |sends[id]| && next[id][..|next[id]| - 1] == sends[id][..|sends[id]| - 1]
      && next[id][|next[id]| - 1] == fate
  {
  }

  lemma OnlyLastMatters(sends: seq<Fate>)
    requires |sends| > 0 && AllRuledOut(sends[..|sends| - 1]) && sends[|sends| - 1].RuledOut?
    ensures AllRuledOut(sends)
  {
    forall i | 0 <= i < |sends| ensures sends[i].RuledOut? {
      if i < |sends| - 1 {
        assert sends[..|sends| - 1][i].RuledOut?;
      }
    }
  }

  lemma ClaimKeeps(w: World, e: Event, id: Id)
    requires Inv(w) && Enabled(w, e) && e.Claim? && IdOk(w, id)
    ensures IdOk(Step(w, e), id)
  {
    var sends := SendsOf(w, id);
    assert |sends| > 0 ==> sends[..|sends|] == sends;
    assert (sends + [Flying])[..|sends|] == sends;
    assert IdOk(w, e.id);
  }

  lemma FateIsTrue(r: Response, accepted: bool)
    requires Honest(r, accepted)
    ensures var result, fate := Classify(r), FateOf(Classify(r), accepted);
      && (result.Retry? || result.Failed? || result.Uncertain? || result.Delivered?)
      && !fate.Flying? && (result.Delivered? ==> fate == Possible(true))
      && (result.Retry? || result.Failed? ==> fate.RuledOut? && !accepted)
  {
  }

  lemma AnswerKeeps(w: World, e: Event, id: Id)
    requires Inv(w) && Enabled(w, e) && (e.Answer? || e.Crash?) && IdOk(w, id)
    ensures IdOk(Step(w, e), id)
  {
    if w.stage.InFlight? {
      var x := w.stage.id;
      assert IdOk(w, x);
      var fate := if e.Answer? then FateOf(Classify(e.response), e.accepted) else Possible(e.accepted);
      LandedIs(w.sends, x, fate, id);
      if e.Answer? {
        FateIsTrue(e.response, e.accepted);
      }
      hide Landed, Classify, Honest, FateOf;
    }
  }

  lemma FinishKeeps(w: World, e: Event, id: Id)
    requires Inv(w) && Enabled(w, e) && e.Finish? && IdOk(w, id)
    ensures IdOk(Step(w, e), id)
  {
    var sends := SendsOf(w, id);
    if w.stage.id == id && |sends| > 0 && sends[|sends| - 1].RuledOut? {
      OnlyLastMatters(sends);
    }
  }

  lemma OtherKeeps(w: World, e: Event, id: Id)
    requires Inv(w) && Enabled(w, e) && !e.Claim? && !e.Answer? && !e.Crash? && !e.Finish? && IdOk(w, id)
    ensures IdOk(Step(w, e), id)
  {
    assert SendsOf(Step(w, e), id) == SendsOf(w, id);
    var sends := SendsOf(w, id);
    assert |sends| == 0 ==> AllRuledOut(sends);
  }

  lemma StepKeeps(w: World, e: Event)
    requires Inv(w) && Enabled(w, e)
    ensures Inv(Step(w, e))
  {
    forall id ensures IdOk(Step(w, e), id) {
      assert IdOk(w, id);
      hide IdOk, Step;
      match e {
        case Claim(_, _) => ClaimKeeps(w, e, id);
        case Answer(_, _) => AnswerKeeps(w, e, id);
        case Crash(_) => AnswerKeeps(w, e, id);
        case Finish(_) => FinishKeeps(w, e, id);
        case _ => OtherKeeps(w, e, id);
      }
    }
  }

  // -------------------------------------------------------------------------
  // Runs
  // -------------------------------------------------------------------------

  ghost predicate Allowed(w: World, events: seq<Event>)
    decreases |events|
  {
    |events| == 0 || (Enabled(w, events[0]) && Allowed(Step(w, events[0]), events[1..]))
  }

  function Run(w: World, events: seq<Event>): World
    decreases |events|
  {
    if |events| == 0 then w else Run(Step(w, events[0]), events[1..])
  }

  lemma {:induction false} RunKeeps(w: World, events: seq<Event>)
    requires Inv(w) && Allowed(w, events)
    ensures Inv(Run(w, events))
    decreases |events|
  {
    if |events| > 0 {
      StepKeeps(w, events[0]);
      hide Inv, Step, Enabled;
      RunKeeps(Step(w, events[0]), events[1..]);
    }
  }

  lemma EmptyIsFine()
    ensures Inv(EMPTY)
  {
  }

  /** At most three requests, of which at most one could have been accepted; and what the
      row says of acceptance is true. */
  ghost predicate Safe(w: World, id: Id) {
    var sends := SendsOf(w, id);
    && |sends| <= MAX_ATTEMPTS
    && (forall i, j :: 0 <= i < |sends| && 0 <= j < |sends| && !sends[i].RuledOut? && !sends[j].RuledOut? ==> i == j)
    && (InState(w.rows, id, Delivered) ==> Possible(true) in sends)
    && (InState(w.rows, id, Failed) || InState(w.rows, id, Skipped) || Unsent(w.rows, id) ==> AllRuledOut(sends))
  }

  lemma InvIsSafe(w: World, id: Id)
    requires Inv(w)
    ensures Safe(w, id)
  {
    assert IdOk(w, id);
    var sends := SendsOf(w, id);
    forall i | 0 <= i < |sends| - 1 ensures sends[i].RuledOut? {
      assert sends[..|sends| - 1][i].RuledOut?;
    }
  }

  /** With crashes anywhere, every incident is safe in every reachable state. */
  lemma DeliveryIsSafe(events: seq<Event>, id: Id)
    requires Allowed(EMPTY, events)
    ensures Safe(Run(EMPTY, events), id)
  {
    EmptyIsFine();
    RunKeeps(EMPTY, events);
    InvIsSafe(Run(EMPTY, events), id);
  }

  lemma OnlyClaimsSend(w: World, e: Event, id: Id)
    ensures !e.Claim? ==> |SendsOf(Step(w, e), id)| == |SendsOf(w, id)|
    ensures e.Claim? && |SendsOf(Step(w, e), id)| > |SendsOf(w, id)| ==> e.id == id && e.commit.Committed?
  {
  }

  /** A request leaves only behind a committed claim of the recovered worker: the durable
      row is sending and counts the attempt, and every earlier request was ruled out. */
  lemma EverySendIsClaimed(w: World, e: Event, id: Id)
    requires Inv(w) && Enabled(w, e)
    requires |SendsOf(Step(w, e), id)| > |SendsOf(w, id)|
    ensures InState(Step(w, e).rows, id, Sending) && id in w.rows
    ensures Step(w, e).rows[id].attempts == w.rows[id].attempts + 1
    ensures SendsOf(Step(w, e), id) == SendsOf(w, id) + [Flying]
    ensures w.recovered && Unsent(w.rows, id) && AllRuledOut(SendsOf(w, id))
  {
    OnlyClaimsSend(w, e, id);
    assert IdOk(w, id);
  }

  ghost predicate Sealed(w: World, id: Id) {
    |SendsOf(w, id)| > 0 && SendsOf(w, id)[|SendsOf(w, id)| - 1].Possible?
  }

  lemma StepStaysSealed(w: World, e: Event, id: Id)
    requires Inv(w) && Enabled(w, e) && Sealed(w, id)
    ensures SendsOf(Step(w, e), id) == SendsOf(w, id)
  {
    assert IdOk(w, id);
    if w.stage.InFlight? && (e.Answer? || e.Crash?) {
      assert IdOk(w, w.stage.id);
      var fate := if e.Answer? then FateOf(Classify(e.response), e.accepted) else Possible(e.accepted);
      LandedIs(w.sends, w.stage.id, fate, id);
    }
  }

  /** After a request that could have been accepted, no run sends the incident again. */
  lemma {:induction false} NeverSentAgain(w: World, events: seq<Event>, id: Id)
    requires Inv(w) && Allowed(w, events) && Sealed(w, id)
    ensures SendsOf(Run(w, events), id) == SendsOf(w, id)
    decreases |events|
  {
    if |events| > 0 {
      StepKeeps(w, events[0]);
      StepStaysSealed(w, events[0], id);
      hide Inv, Step, Enabled;
      NeverSentAgain(Step(w, events[0]), events[1..], id);
    }
  }

  lemma {:induction false} RunsJoin(w: World, first: seq<Event>, second: seq<Event>)
    requires Allowed(w, first) && Allowed(Run(w, first), second)
    ensures Allowed(w, first + second) && Run(w, first + second) == Run(Run(w, first), second)
    decreases |first|
  {
    hide Step, Enabled;
    if |first| == 0 {
      assert first + second == second;
    } else {
      assert (first + second)[1..] == first[1..] + second;
      RunsJoin(Step(w, first[0]), first[1..], second);
    }
  }

  lemma RunsExtend(w: World, trace: seq<Event>, now: World, e: Event)
    requires Allowed(w, trace) && now == Run(w, trace) && Enabled(now, e)
    ensures Allowed(w, trace + [e]) && Run(w, trace + [e]) == Step(now, e)
  {
    hide Step, Enabled;
    assert Allowed(Step(now, e), [e][1..]);
    assert Run(now, [e]) == Step(now, e);
    RunsJoin(w, trace, [e]);
  }
}
