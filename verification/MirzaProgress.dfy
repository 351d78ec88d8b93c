/** What a customer notification comes to (utils/mirza_notifications.py,
    utils/mirza_client.py): how a response is read, what an attempt does to its row,
    and that an outcome, once recorded, stays. */
module MirzaProgress {
  import opened Collections
  import opened MirzaState

  // -------------------------------------------------------------------------
  // Reading a response
  // -------------------------------------------------------------------------

  /** The client decides exactly what the response proves: delivered if the message
      cannot have been refused, retry or failed if it cannot have been accepted, and
      uncertain only when both are possible. */
  lemma ClassifyDecides(r: Response)
    ensures Classify(r).Delivered? <==> !Honest(r, false)
    ensures Classify(r).Retry? || Classify(r).Failed? <==> !Honest(r, true)
    ensures Classify(r).Uncertain? <==> Honest(r, true) && Honest(r, false)
  {
  }

  /** Which responses those are: a true status in a 2xx reply is a delivery, a refused
      connection or a rate limit is tried again, and every other proved refusal fails. */
  lemma ClassifyIff(r: Response)
    ensures Classify(r).Delivered? <==> r.Reply? && 200 <= r.code < 300 && r.body.StatusTrue?
    ensures Classify(r).Retry? <==> r.ConnectFailure? || (r.Reply? && r.code == 429)
    ensures Classify(r).Failed? <==>
      r.Reply? && r.code < 500 && r.code != 429 && (200 <= r.code < 300 ==> r.body.StatusFalse?)
  {
  }

  // -------------------------------------------------------------------------
  // One attempt
  // -------------------------------------------------------------------------

  /** The claim, the request and the recorded end of one attempt. */
  function Attempt(id: Id, r: Response, accepted: bool): seq<Event> {
    [Claim(id, Committed), Answer(r, accepted), Finish(true)]
  }

  predicate Claimable(w: World, id: Id) {
    w.recovered && w.stage.Idle? && (InState(w.rows, id, Ready) || InState(w.rows, id, Retry))
  }

  lemma RunThree(w: World, a: Event, b: Event, c: Event)
    ensures Run(w, [a, b, c]) == Step(Step(Step(w, a), b), c)
    ensures Enabled(w, a) && Enabled(Step(w, a), b) && Enabled(Step(Step(w, a), b), c) ==> Allowed(w, [a, b, c])
  {
    hide Step, Enabled;
    var u := Step(w, a);
    assert [a, b, c][1..] == [b, c] && [b, c][1..] == [c] && [c][1..] == [];
    assert Run(u, [b, c]) == Run(Step(u, b), [c]);
    assert Run(Step(u, b), [c]) == Run(Step(Step(u, b), c), []);
    assert Allowed(Step(Step(u, b), c), []);
    assert Enabled(Step(u, b), c) ==> Allowed(Step(u, b), [c]);
    assert Enabled(u, b) && Enabled(Step(u, b), c) ==> Allowed(u, [b, c]);
  }

  /** An undisturbed attempt records what the response proves and counts itself; only a
      retry past the limit is turned into a failure. Nothing else changes. */
  lemma AttemptSettles(w: World, id: Id, r: Response, accepted: bool)
    requires Claimable(w, id) && Honest(r, accepted)
    ensures Allowed(w, Attempt(id, r, accepted))
    ensures var next := Run(w, Attempt(id, r, accepted)); var attempts := w.rows[id].attempts + 1;
      && next.rows == w.rows[id := w.rows[id].(
           state := if Classify(r).Retry? && attempts >= MAX_ATTEMPTS then Failed else Classify(r), attempts := attempts)]
      && next.sends == w.sends[id := SendsOf(w, id) + [if Classify(r).Delivered? || Classify(r).Uncertain? then Possible(accepted) else RuledOut]]
      && next.recovered && next.stage.Idle?
  {
    hide Classify, Honest;
    ClaimSends(w, id);
    var claimed := Step(w, Claim(id, Committed));
    AnswerLands(w, claimed, id, r, accepted);
    var answered := Step(claimed, Answer(r, accepted));
    FinishRecords(w, answered, id);
    RunThree(w, Claim(id, Committed), Answer(r, accepted), Finish(true));
    hide Step, Enabled, Landed;
  }

  lemma ClaimSends(w: World, id: Id)
    requires Claimable(w, id)
    ensures var attempts := w.rows[id].attempts + 1;
      && Enabled(w, Claim(id, Committed))
      && Step(w, Claim(id, Committed)) ==
           World(w.rows[id := w.rows[id].(state := Sending, attempts := attempts)],
                 w.sends[id := SendsOf(w, id) + [Flying]], true, InFlight(id, attempts))
  {
  }

  lemma AnswerLands(w: World, claimed: World, id: Id, r: Response, accepted: bool)
    requires claimed.stage.InFlight? && claimed.stage.id == id && Honest(r, accepted)
    requires claimed.sends == w.sends[id := SendsOf(w, id) + [Flying]]
    ensures Enabled(claimed, Answer(r, accepted))
    ensures Step(claimed, Answer(r, accepted)) ==
      claimed.(sends := w.sends[id := SendsOf(w, id) + [FateOf(Classify(r), accepted)]],
               stage := Answered(id, claimed.stage.attempts, Classify(r)))
  {
    hide Classify, Honest, FateOf;
    var fate := FateOf(Classify(r), accepted);
    assert claimed.sends[id][..|claimed.sends[id]| - 1] == SendsOf(w, id);
    assert Landed(claimed.sends, id, fate) == claimed.sends[id := SendsOf(w, id) + [fate]];
    assert claimed.sends[id := SendsOf(w, id) + [fate]] == w.sends[id := SendsOf(w, id) + [fate]];
  }

  lemma FinishRecords(w: World, answered: World, id: Id)
    requires id in w.rows && answered.stage.Answered? && answered.stage.id == id && answered.stage.attempts == w.rows[id].attempts + 1
    requires answered.rows == w.rows[id := w.rows[id].(state := Sending, attempts := answered.stage.attempts)]
    ensures Enabled(answered, Finish(true))
    ensures Step(answered, Finish(true)) ==
      answered.(stage := Idle, rows := w.rows[id := w.rows[id].(
        state := FinalState(answered.stage.result, answered.stage.attempts), attempts := answered.stage.attempts)])
  {
  }

  /** From the admission of an incident to its delivery: resolved, claimed, sent once and
      acknowledged, its row says delivered and its one request was accepted. */
  lemma AdmittedIsDelivered(w: World, id: Id, r: Response)
    requires Inv(w) && w.recovered && w.stage.Idle? && id !in w.rows
    requires Classify(r).Delivered? && Honest(r, true)
    ensures var ready := Step(Step(w, Admit(id)), Resolve(id, Ready, true));
      && Enabled(Step(w, Admit(id)), Resolve(id, Ready, true)) && Allowed(ready, Attempt(id, r, true))
      && InState(Run(ready, Attempt(id, r, true)).rows, id, Delivered)
      && SendsOf(Run(ready, Attempt(id, r, true)), id) == [Possible(true)]
  {
    assert IdOk(w, id);
    var ready := Step(Step(w, Admit(id)), Resolve(id, Ready, true));
    assert Claimable(ready, id) && ready.rows[id] == Row(Ready, 0, 0);
    hide Classify, Honest;
    AttemptSettles(ready, id, r, true);
    hide Run, Allowed, Step;
  }

  /** A send that a crash interrupted is uncertain after recovery, and not sent again. */
  lemma InterruptedBecomesUncertain(w: World, accepted: bool, batch: set<Id>)
    requires Inv(w) && w.stage.InFlight? && w.stage.id in batch && IsDueBatch(w.rows, batch)
    ensures var crashed := Step(w, Crash(accepted)); var next := Step(crashed, Recover(batch));
      && Enabled(crashed, Recover(batch))
      && InState(next.rows, w.stage.id, Uncertain) && Sealed(next, w.stage.id)
  {
    var id := w.stage.id;
    assert IdOk(w, id);
    LandedIs(w.sends, id, Possible(accepted), id);
  }

  // -------------------------------------------------------------------------
  // Rows stay
  // -------------------------------------------------------------------------

  predicate Ended(row: Row) {
    row.state in {Delivered, Failed, Skipped, Uncertain}
  }

  /** A row is never dropped, counts only up, and an ended one is never touched again. */
  predicate RowStays(w: World, next: World, id: Id) {
    id in w.rows ==>
      && id in next.rows && w.rows[id].attempts <= next.rows[id].attempts
      && w.rows[id].resolveAttempts <= next.rows[id].resolveAttempts
      && (Ended(w.rows[id]) ==> next.rows[id] == w.rows[id])
  }

  lemma RowStaysStep(w: World, e: Event, id: Id)
    requires Inv(w) && Enabled(w, e)
    ensures RowStays(w, Step(w, e), id)
  {
    assert IdOk(w, id);
    if w.stage.Answered? {
      assert IdOk(w, w.stage.id);
    }
  }

  lemma {:induction false} EndsAreFinal(w: World, events: seq<Event>, id: Id)
    requires Inv(w) && Allowed(w, events)
    ensures RowStays(w, Run(w, events), id)
    decreases |events|
  {
    if |events| > 0 {
      StepKeeps(w, events[0]);
      RowStaysStep(w, events[0], id);
      hide Inv, Step, Enabled;
      EndsAreFinal(Step(w, events[0]), events[1..], id);
    }
  }

  // -------------------------------------------------------------------------
  // Every end has its cause
  // -------------------------------------------------------------------------

  /** The event that gives a row this end: the answer of its own request as it was
      classified, the third failed try, its metadata, a lost secret, a cancelled route,
      or the recovery of an interrupted send. */
  predicate Ends(w: World, e: Event, id: Id, to: State) {
    match e
    case Resolve(x, s, durable) => x == id && s == to && durable
    case DropKey(x) => x == id && to.Skipped?
    case Finish(durable) =>
      && durable && w.stage.Answered? && w.stage.id == id
      && (w.stage.result == to || (to.Failed? && w.stage.result.Retry? && w.stage.attempts >= MAX_ATTEMPTS))
    case Recover(batch) => id in batch && to.Uncertain?
    case CancelRoute(ids) => id in ids && to.Skipped? && Unsent(w.rows, id)
    case _ => false
  }

  /** A step ends a row in a state exactly when it is such a cause of it. */
  lemma OnlyItsCauseEnds(w: World, e: Event, id: Id, to: State)
    requires Inv(w) && Enabled(w, e) && id in w.rows && !Ended(w.rows[id])
    requires to in {Delivered, Failed, Skipped, Uncertain}
    ensures InState(Step(w, e).rows, id, to) <==> Ends(w, e, id, to)
  {
    assert IdOk(w, id);
    if w.stage.Answered? {
      assert IdOk(w, w.stage.id);
    }
  }
}
