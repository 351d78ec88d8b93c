/** The status a durable row records (telegram_bot/dispatcher.py): a conclusion that
    was written is what a restart reads back. */
module DispatcherStatus {
  import opened Collections
  import opened DispatcherStore
  import opened DispatcherDurability

  /** The row in memory, where it is not on its way out, records its item's status; so
      does the row a caller records again while a settlement is being written. */
  predicate StatusOk(s: Store, c: Chunk) {
    && (c in s.parts && c in s.rows && c !in s.leaving ==> s.rows[c] == s.parts[c].status)
    && (c in s.parts && c in s.rows && s.writer.Settlement? && s.writer.batch == c.batch ==> s.rows[c] == s.parts[c].status)
  }

  lemma StartStatus(s: Store, c: Chunk)
    requires IsStart(s)
    ensures StatusOk(s, c)
  {
  }

  lemma WriteStatus(s: Store, a: Action, c: Chunk)
    requires Enabled(s, a) && StatusOk(s, c) && (a.Commit? || a.Fail?)
    ensures StatusOk(Step(s, a), c)
  {
    hide Store.Settled, Snapshot, Removable;
  }

  lemma ResolveStatus(s: Store, a: Action, c: Chunk)
    requires Enabled(s, a) && StatusOk(s, c) && a.Resolve?
    ensures StatusOk(Step(s, a), c)
  {
    hide Store.Settled;
  }

  lemma StepStatus(s: Store, a: Action, c: Chunk)
    requires Enabled(s, a) && StatusOk(s, c)
    ensures StatusOk(Step(s, a), c)
  {
    match a
    case Commit(_) => WriteStatus(s, a, c); hide Step;
    case Fail(_) => WriteStatus(s, a, c); hide Step;
    case Resolve(_) => ResolveStatus(s, a, c); hide Step;
    case _ => hide Store.Settled;
  }

  lemma {:induction false} RunStatus(s: Store, actions: seq<Action>, c: Chunk)
    requires StatusOk(s, c) && Possible(s, actions)
    ensures StatusOk(Run(s, actions), c)
    decreases |actions|
  {
    hide Step, Enabled, StatusOk;
    if |actions| > 0 {
      StepStatus(s, actions[0], c);
      RunStatus(Step(s, actions[0]), actions[1..], c);
    }
  }

  /** In every reachable state the row of a chunk whose batch is owed records the
      chunk's status, a write begun now would write that status, and a restart gives
      the chunk the status in the file it finds. */
  lemma RowsRecordStatus(start: Store, actions: seq<Action>, c: Chunk)
    requires IsStart(start) && Possible(start, actions)
    requires var s := Run(start, actions); s.Has(c) && c.batch in s.owed && c.batch !in s.adrift
    ensures var s := Run(start, actions);
        && c in s.parts && c in s.rows && s.rows[c] == s.parts[c].status
        && c in Snapshot(s, None) && Snapshot(s, None)[c] == s.parts[c].status
        && forall replaced ::
             && c in FileAfter(s, replaced) && c in Step(s, Crash(replaced, true)).parts
             && Step(s, Crash(replaced, true)).parts[c] == Part(FileAfter(s, replaced)[c], false)
  {
    StartOk(start);
    RunKeeps(start, actions);
    StartStatus(start, c);
    RunStatus(start, actions, c);
    var s := Run(start, actions);
    StatusRead(s, c);
  }

  lemma StatusRead(s: Store, c: Chunk)
    requires Inv(s) && StatusOk(s, c) && s.Has(c) && c.batch in s.owed && c.batch !in s.adrift
    ensures c in s.parts && c in s.rows && s.rows[c] == s.parts[c].status
    ensures c in Snapshot(s, None) && Snapshot(s, None)[c] == s.parts[c].status
    ensures forall replaced ::
      && c in FileAfter(s, replaced) && c in Step(s, Crash(replaced, true)).parts
      && Step(s, Crash(replaced, true)).parts[c] == Part(FileAfter(s, replaced)[c], false)
  {
    assert ChunkOk(s, c) && BatchOk(s, c.batch);
    hide ChunkOk, BatchOk, Store.Settled;
  }

  // ---------------------------------------------------------------------------
  // A conclusion that was written survives
  // ---------------------------------------------------------------------------

  /** The status is the chunk's, in memory, in the file and in the write in progress. */
  predicate WrittenAs(s: Store, c: Chunk, status: Status) {
    && c in s.parts && s.parts[c].status == status
    && c in s.rows && s.rows[c] == status && c in s.disk && s.disk[c] == status
    && (s.writer != Idle ==> c in s.writer.snapshot && s.writer.snapshot[c] == status)
  }

  /** The chunk's batch is admitted and still has an unresolved part. */
  ghost predicate Pending(s: Store, c: Chunk) {
    s.Has(c) && c.batch in s.owed && c.batch !in s.adrift
  }

  lemma WrittenStays(s: Store, a: Action, c: Chunk, status: Status)
    requires Inv(s) && Enabled(s, a) && WrittenAs(s, c, status) && Pending(s, c) && StatusOk(s, c)
    requires !Settles(s, a, c.batch) && (a.Conclude? ==> a.chunk != c) && (a.Crash? ==> a.loaded)
    ensures WrittenAs(Step(s, a), c, status) && Pending(Step(s, a), c)
  {
    OwedUntilSettled(s, a, c.batch);
    StepAdrift(s, a, c.batch);
    LostIsAdrift(s, c.batch);
    StepKeeps(s, a);
    assert ChunkOk(s, c) && BatchOk(s, c.batch);
  }

  /** Nothing in the run concludes the chunk again, settles its batch, or restarts
      without reading the file. */
  ghost predicate Quiet(s: Store, actions: seq<Action>, c: Chunk)
    requires Possible(s, actions)
    decreases |actions|
  {
    |actions| == 0 ||
    (!Settles(s, actions[0], c.batch) && (actions[0].Conclude? ==> actions[0].chunk != c)
     && (actions[0].Crash? ==> actions[0].loaded) && Quiet(Step(s, actions[0]), actions[1..], c))
  }

  /** The status is the chunk's, and the write in progress carries it. */
  predicate WritingAs(s: Store, c: Chunk, status: Status) {
    && c in s.parts && s.parts[c].status == status && c in s.rows && s.rows[c] == status
    && s.writer != Idle && c in s.writer.snapshot && s.writer.snapshot[c] == status
  }

  /** Every write that begins takes up the status in force. */
  lemma WriteTakesUp(s: Store, a: Action, c: Chunk)
    requires Inv(s) && Enabled(s, a) && Pending(s, c) && StatusOk(s, c)
    requires a.BeginAdmission? || a.BeginUpdate? || a.BeginSettlement?
    ensures c in s.parts && WritingAs(Step(s, a), c, s.parts[c].status)
  {
    assert ChunkOk(s, c) && BatchOk(s, c.batch);
  }

  lemma WritingStays(s: Store, a: Action, c: Chunk, status: Status)
    requires Inv(s) && Enabled(s, a) && WritingAs(s, c, status) && Pending(s, c) && StatusOk(s, c)
    requires !Settles(s, a, c.batch) && (a.Conclude? ==> a.chunk != c) && !a.Fail? && !a.Crash?
    ensures Pending(Step(s, a), c)
    ensures if a.Commit? then WrittenAs(Step(s, a), c, status) else WritingAs(Step(s, a), c, status)
  {
    OwedUntilSettled(s, a, c.batch);
    StepAdrift(s, a, c.batch);
    assert ChunkOk(s, c) && BatchOk(s, c.batch);
  }

  /** The write goes through: nothing fails and nothing restarts before it ends. */
  predicate Smooth(actions: seq<Action>) {
    forall a <- actions :: !a.Fail? && !a.Crash?
  }

  lemma {:induction false} WriteEnds(s: Store, actions: seq<Action>, c: Chunk, status: Status)
    requires Inv(s) && StatusOk(s, c) && Pending(s, c) && WritingAs(s, c, status)
    requires Possible(s, actions) && Quiet(s, actions, c) && Smooth(actions) && exists a <- actions :: a.Commit?
    ensures var r := Run(s, actions); WrittenAs(r, c, status) && Pending(r, c) && StatusOk(r, c) && Inv(r)
    decreases |actions|
  {
    var a := actions[0];
    assert a in actions && forall x <- actions[1..] :: x in actions;
    StepKeeps(s, a);
    StepStatus(s, a, c);
    WritingStays(s, a, c, status);
    hide Step, Enabled, Inv, Pending, WritingAs, WrittenAs, Settles, StatusOk;
    if a.Commit? {
      WrittenForGood(Step(s, a), actions[1..], c, status);
    } else {
      WriteEnds(Step(s, a), actions[1..], c, status);
    }
  }

  /** A status once written is still the chunk's, and in the file, after any run that
      neither concludes it again nor settles its batch, through failed writes and
      restarts at any point. */
  lemma {:induction false} WrittenForGood(s: Store, actions: seq<Action>, c: Chunk, status: Status)
    requires Inv(s) && StatusOk(s, c) && Pending(s, c) && WrittenAs(s, c, status)
    requires Possible(s, actions) && Quiet(s, actions, c)
    ensures var r := Run(s, actions); WrittenAs(r, c, status) && Pending(r, c) && StatusOk(r, c) && Inv(r)
    decreases |actions|
  {
    if |actions| > 0 {
      StepKeeps(s, actions[0]);
      StepStatus(s, actions[0], c);
      WrittenStays(s, actions[0], c, status);
      hide Step, Enabled, Inv, Pending, WrittenAs, Settles, StatusOk;
      WrittenForGood(Step(s, actions[0]), actions[1..], c, status);
    }
  }

  /** From any reachable state: the status a chunk of an admitted batch has when a write
      begins is, once that write has ended, what every later restart reads back, for as
      long as nobody concludes the chunk again and its batch is not settled. */
  lemma ConclusionSurvives(start: Store, before: seq<Action>, begin: Action, during: seq<Action>, after: seq<Action>, c: Chunk)
    requires IsStart(start) && Possible(start, before)
    requires begin.BeginAdmission? || begin.BeginUpdate? || begin.BeginSettlement?
    requires var s := Run(start, before);
      && Pending(s, c) && Enabled(s, begin)
      && Possible(Step(s, begin), during) && Quiet(Step(s, begin), during, c) && Smooth(during) && (exists a <- during :: a.Commit?)
      && Possible(Run(Step(s, begin), during), after) && Quiet(Run(Step(s, begin), during), after, c)
    ensures var s := Run(start, before);
      c in s.parts && WrittenAs(Run(Run(Step(s, begin), during), after), c, s.parts[c].status)
  {
    StartOk(start);
    RunKeeps(start, before);
    StartStatus(start, c);
    RunStatus(start, before, c);
    var s := Run(start, before);
    WriteTakesUp(s, begin, c);
    StepKeeps(s, begin);
    StepStatus(s, begin, c);
    BeginPending(s, begin, c);
    hide Step, Enabled, Inv, Pending, WritingAs, WrittenAs, StatusOk;
    WriteEnds(Step(s, begin), during, c, s.parts[c].status);
    WrittenForGood(Run(Step(s, begin), during), after, c, s.parts[c].status);
  }

  lemma BeginPending(s: Store, a: Action, c: Chunk)
    requires Enabled(s, a) && Pending(s, c) && (a.BeginAdmission? || a.BeginUpdate? || a.BeginSettlement?)
    ensures Pending(Step(s, a), c)
  {
  }

  // ---------------------------------------------------------------------------
  // The rows of a settled batch leave for good
  // ---------------------------------------------------------------------------

  /** Resolving the last chunk takes every row of the batch that did not fail out of
      memory, and asks for the write that takes it out of the file. */
  lemma SettlingTakesRows(s: Store, a: Action, c: Chunk)
    requires Inv(s) && Enabled(s, a) && Settles(s, a, c.batch)
    ensures var t := Step(s, a);
      && c.batch in t.settling && c.batch !in t.owed
      && (c in t.parts && t.parts[c].status != Failed ==> c !in t.rows && (c in s.rows ==> c in t.leaving && t.leaving[c] == s.rows[c]))
      && (c in t.parts && t.parts[c].status == Failed ==> c in t.rows && t.rows[c] == s.rows[c])
  {
    assert ChunkOk(s, c);
  }

  /** A settlement whose write failed puts its rows back, and can be written again. */
  lemma FailedSettlementRestores(s: Store, replaced: bool, c: Chunk)
    requires Inv(s) && s.writer.Settlement? && s.writer.batch == c.batch && c in s.leaving
    ensures var t := Step(s, Fail(replaced));
      c in t.rows && t.rows[c] == s.leaving[c] && c in t.leaving && Enabled(t, BeginSettlement(c.batch))
  {
  }

  /** Nowhere in memory or in the file, and in no write. */
  predicate Erased(s: Store, c: Chunk) {
    s.Has(c) && c !in s.rows && c !in s.disk && c !in s.leaving && (s.writer != Idle ==> c !in s.writer.snapshot)
  }

  /** The settlement's write is under way without the row. */
  predicate Erasing(s: Store, c: Chunk) {
    s.Has(c) && c !in s.rows && s.writer.Settlement? && s.writer.batch == c.batch && c !in s.writer.snapshot
  }

  predicate Concludes(a: Action, c: Chunk) {
    a.Conclude? && a.chunk == c
  }

  lemma ErasingStep(s: Store, a: Action, c: Chunk)
    requires Inv(s) && Enabled(s, a) && Erasing(s, c) && !Concludes(a, c) && !a.Fail? && !a.Crash?
    ensures if a.Commit? then Erased(Step(s, a), c) else Erasing(Step(s, a), c)
  {
    assert BatchOk(s, c.batch);
    hide Store.Settled;
  }

  lemma ErasedStep(s: Store, a: Action, c: Chunk)
    requires Enabled(s, a) && Erased(s, c) && !Concludes(a, c)
    ensures Erased(Step(s, a), c)
  {
    hide Store.Settled;
    match a
    case Commit(_) => ErasedWrite(s, a, c); hide Step;
    case Fail(_) => ErasedWrite(s, a, c); hide Step;
    case _ =>
  }

  lemma ErasedWrite(s: Store, a: Action, c: Chunk)
    requires Enabled(s, a) && Erased(s, c) && (a.Commit? || a.Fail?)
    ensures Erased(Step(s, a), c)
  {
    hide Store.Settled;
  }

  lemma {:induction false} ErasedForGood(s: Store, actions: seq<Action>, c: Chunk)
    requires Erased(s, c) && Possible(s, actions) && forall a <- actions :: !Concludes(a, c)
    ensures Erased(Run(s, actions), c)
    decreases |actions|
  {
    hide Step, Enabled, Erased;
    if |actions| > 0 {
      assert actions[0] in actions && forall x <- actions[1..] :: x in actions;
      ErasedStep(s, actions[0], c);
      ErasedForGood(Step(s, actions[0]), actions[1..], c);
    }
  }

  lemma {:induction false} ErasureEnds(s: Store, actions: seq<Action>, c: Chunk)
    requires Inv(s) && Erasing(s, c) && Possible(s, actions)
    requires Smooth(actions) && (exists a <- actions :: a.Commit?) && forall a <- actions :: !Concludes(a, c)
    ensures Erased(Run(s, actions), c)
    decreases |actions|
  {
    var a := actions[0];
    assert a in actions && forall x <- actions[1..] :: x in actions;
    StepKeeps(s, a);
    ErasingStep(s, a, c);
    hide Step, Enabled, Inv, Erasing, Erased;
    if a.Commit? {
      ErasedForGood(Step(s, a), actions[1..], c);
    } else {
      ErasureEnds(Step(s, a), actions[1..], c);
    }
  }

  /** From any reachable state: once the settlement's write has gone through, a row its
      batch gave up is nowhere, and no later run brings it back, restarts included,
      unless a caller concludes the chunk again: a settled message is not sent anew. */
  lemma SettledRowsLeave(start: Store, before: seq<Action>, during: seq<Action>, after: seq<Action>, c: Chunk)
    requires IsStart(start) && Possible(start, before)
    requires var s := Run(start, before); var begin := BeginSettlement(c.batch);
      && s.Has(c) && (c in s.leaving || c !in s.rows) && Enabled(s, begin)
      && Possible(Step(s, begin), during) && Smooth(during) && (exists a <- during :: a.Commit?)
      && Possible(Run(Step(s, begin), during), after) && forall a <- during + after :: !Concludes(a, c)
    ensures Erased(Run(Run(Step(Run(start, before), BeginSettlement(c.batch)), during), after), c)
  {
    StartOk(start);
    RunKeeps(start, before);
    var s := Run(start, before);
    var begin := BeginSettlement(c.batch);
    StepKeeps(s, begin);
    assert Erasing(Step(s, begin), c);
    assert forall a <- during :: a in during + after;
    assert forall a <- after :: a in during + after;
    hide Step, Enabled, Inv, Erasing, Erased;
    ErasureEnds(Step(s, begin), during, c);
    ErasedForGood(Run(Step(s, begin), during), after, c);
  }
}
