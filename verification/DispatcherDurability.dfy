/** What the durable rows of the Telegram dispatcher are worth over whole runs
    (telegram_bot/dispatcher.py): restarts that read the file and restarts that cannot,
    admissions that succeed and admissions whose first write fails. */
module DispatcherDurability {
  import opened DispatcherStore

  /** In every reachable state: a chunk of an admitted batch that has not settled is in
      memory, in the file and in the file after the write in progress, unless a restart
      could not read the file; then it is in the file alone, until the file is overwritten
      and it is nowhere. A failed chunk in memory is as durable. */
  lemma {:induction false} AdmittedChunksAreDurable(start: Store, actions: seq<Action>, c: Chunk)
    requires IsStart(start) && Possible(start, actions)
    ensures var s := Run(start, actions);
      && (s.Has(c) && c.batch in s.owed ==>
            if c.batch in s.lost then c !in s.rows && c !in s.disk
            else if c.batch in s.adrift then c in s.disk && c !in s.rows
            else Stored(s, c))
      && (c in s.parts && s.parts[c].status == Failed ==> Stored(s, c))
    ensures AllLoaded(actions) ==> c.batch !in Run(start, actions).adrift
  {
    StartOk(start);
    RunKeeps(start, actions);
    if AllLoaded(actions) {
      LoadedNotAdrift(start, actions, c.batch);
    }
    var s := Run(start, actions);
    assert ChunkOk(s, c) && BatchOk(s, c.batch);
  }

  /** Every restart of the run reads the file. */
  predicate AllLoaded(actions: seq<Action>) {
    forall a :: a in actions && a.Crash? ==> a.loaded
  }

  lemma {:induction false} LoadedNotAdrift(s: Store, actions: seq<Action>, b: BatchId)
    requires Inv(s) && Possible(s, actions) && AllLoaded(actions) && b !in s.adrift
    ensures b !in Run(s, actions).adrift
    decreases |actions|
  {
    if |actions| > 0 {
      StepKeeps(s, actions[0]);
      StepAdrift(s, actions[0], b);
      LostIsAdrift(s, b);
      assert forall a :: a in actions[1..] ==> a in actions;
      hide Step, Enabled, Inv;
      LoadedNotAdrift(Step(s, actions[0]), actions[1..], b);
    }
  }

  /** The action writes a new file. */
  ghost predicate Replaces(s: Store, a: Action) {
    s.writer != Idle && (a.Commit? || (a.Fail? && a.replaced) || (a.Crash? && a.replaced))
  }

  lemma StepAdrift(s: Store, a: Action, b: BatchId)
    requires Inv(s) && Enabled(s, a)
    ensures b in Step(s, a).lost <==> b in s.lost || (b in s.adrift && Replaces(s, a))
    ensures !a.Crash? ==> (b in Step(s, a).adrift <==> b in s.adrift)
    ensures a.Crash? && a.loaded ==> (b in Step(s, a).adrift <==> b in Step(s, a).lost)
    ensures a.Crash? && !a.loaded && b in s.owed ==> b in Step(s, a).adrift
  {
    assert BatchOk(s, b) && ChunkOk(s, Chunk(b, 0));
    hide Removable, Snapshot, Without, Among, Store.Settled, Unreserved;
  }

  lemma LostIsAdrift(s: Store, b: BatchId)
    requires Inv(s)
    ensures b in s.lost ==> b in s.adrift
  {
    assert BatchOk(s, b);
  }

  // ---------------------------------------------------------------------------
  // From admission to settlement
  // ---------------------------------------------------------------------------

  /** The step that resolves the last chunk of b. */
  ghost predicate Settles(s: Store, a: Action, b: BatchId)
    requires Enabled(s, a)
  {
    a.Resolve? && a.chunk.batch == b && Step(s, a).Settled(b)
  }

  ghost predicate Unsettled(s: Store, actions: seq<Action>, b: BatchId)
    requires Possible(s, actions)
    decreases |actions|
  {
    |actions| == 0 || (!Settles(s, actions[0], b) && Unsettled(Step(s, actions[0]), actions[1..], b))
  }

  /** A restart could not read the file, and the file was overwritten before another
      restart read it; `unread` if the run starts after such a restart. */
  ghost predicate Loses(s: Store, actions: seq<Action>, unread: bool)
    requires Possible(s, actions)
    decreases |actions|
  {
    |actions| > 0 &&
    ((unread && Replaces(s, actions[0])) || Loses(Step(s, actions[0]), actions[1..], Unread(actions[0], unread)))
  }

  predicate Unread(a: Action, unread: bool) {
    if a.Crash? then !a.loaded else unread
  }

  lemma WriteKeepsOwed(s: Store, keep: bool, replaced: bool)
    ensures s.owed <= Committed(s, keep).owed && FailedWrite(s, replaced).owed == s.owed
  {
    hide Store.Settled, Without, Among, FileAfter, LostAfter;
  }

  lemma ResolveKeepsOwed(s: Store, c: Chunk, b: BatchId)
    requires c in s.parts && b in s.owed
    ensures b in Resolved(s, c).owed || (c.batch == b && Resolved(s, c).Settled(b))
  {
  }

  /** Nothing but the resolution of its last chunk ends what is owed to a batch. */
  lemma OwedUntilSettled(s: Store, a: Action, b: BatchId)
    requires Enabled(s, a) && b in s.owed
    ensures b in Step(s, a).owed || Settles(s, a, b)
  {
    match a
    case Resolve(c) => ResolveKeepsOwed(s, c, b); hide Resolved, Store.Settled;
    case Commit(keep) => WriteKeepsOwed(s, keep, false); hide Committed, Store.Settled;
    case Fail(replaced) => WriteKeepsOwed(s, false, replaced); hide FailedWrite, Store.Settled;
    case _ => hide Snapshot, Without, Among, Store.Settled;
  }

  lemma {:induction false} FateOfOwed(s: Store, actions: seq<Action>, b: BatchId)
    requires Inv(s) && Possible(s, actions) && b in s.owed && Unsettled(s, actions, b)
    ensures Inv(Run(s, actions)) && b in Run(s, actions).owed
    ensures b in Run(s, actions).lost <==> b in s.lost || Loses(s, actions, b in s.adrift)
    decreases |actions|
  {
    hide Step, Enabled, Inv, Replaces, Settles;
    if |actions| > 0 {
      var a := actions[0];
      StepKeeps(s, a);
      OwedUntilSettled(s, a, b);
      StepAdrift(s, a, b);
      FateOfOwed(Step(s, a), actions[1..], b);
    }
  }

  /** From the write that admits a batch until its last chunk is resolved: every one of its
      rows is in the file, exactly unless a restart could not read the file and the file
      was overwritten before another read it; and whenever the last restart read the
      file, they are in memory too. */
  lemma AdmittedBatchSurvivesIff(s: Store, keep: bool, later: seq<Action>, b: BatchId)
    requires Inv(s) && s.writer.Admission? && s.writer.batch == b && b in s.live && !s.Settled(b)
    requires Possible(Step(s, Commit(keep)), later) && Unsettled(Step(s, Commit(keep)), later, b)
    ensures var t := Run(Step(s, Commit(keep)), later);
      && ((forall c: Chunk :: c.batch == b && t.Has(c) ==> c in t.disk) <==> !Loses(Step(s, Commit(keep)), later, false))
      && (AllLoaded(later) ==> forall c: Chunk :: c.batch == b && t.Has(c) ==> Stored(t, c))
  {
    var s1 := Step(s, Commit(keep));
    assert BatchOk(s, b) && b in s1.owed && b !in s1.adrift && b !in s1.lost;
    StepKeeps(s, Commit(keep));
    FateOfOwed(s1, later, b);
    if AllLoaded(later) {
      LoadedNotAdrift(s1, later, b);
    }
    var t := Run(s1, later);
    OwedRows(t, b);
  }

  /** Where the rows of an owed batch are. */
  lemma OwedRows(t: Store, b: BatchId)
    requires Inv(t) && b in t.owed
    ensures t.Has(Chunk(b, 0))
    ensures b in t.lost ==> Chunk(b, 0) !in t.disk
    ensures b !in t.lost ==> forall c: Chunk :: c.batch == b && t.Has(c) ==> c in t.disk
    ensures b !in t.adrift ==> forall c: Chunk :: c.batch == b && t.Has(c) ==> Stored(t, c)
  {
    assert BatchOk(t, b) && ChunkOk(t, Chunk(b, 0));
    forall c: Chunk | c.batch == b && t.Has(c)
      ensures b !in t.lost ==> c in t.disk
      ensures b !in t.adrift ==> Stored(t, c)
    {
      assert ChunkOk(t, c);
    }
  }

  // ---------------------------------------------------------------------------
  // A restart and the next write
  // ---------------------------------------------------------------------------

  lemma {:induction false} RunThree(s: Store, a: Action, b: Action, c: Action)
    requires Enabled(s, a) && Enabled(Step(s, a), b) && Enabled(Step(Step(s, a), b), c)
    ensures Possible(s, [a, b, c]) && Run(s, [a, b, c]) == Step(Step(Step(s, a), b), c)
  {
    hide Step, Enabled;
    var s1 := Step(s, a);
    var s2 := Step(s1, b);
    assert [a, b, c][1..] == [b, c] && [b, c][1..] == [c] && [c][1..] == [];
    assert Possible(s2, [c]) && Run(s2, [c]) == Step(s2, c);
    assert Possible(s1, [b, c]) && Run(s1, [b, c]) == Run(s2, [c]);
  }

  /** The row of c is owed, and not already adrift. */
  ghost predicate Owed(s: Store, c: Chunk) {
    s.Has(c) && c.batch in s.owed && c.batch !in s.adrift
  }

  /** After a restart and the next successful write every owed row is still stored exactly
      when the restart read the file or nothing was owed. */
  lemma RestartThenWriteIff(s: Store, replaced: bool, loaded: bool)
    requires Inv(s)
    ensures var actions := [Crash(replaced, loaded), BeginUpdate, Commit(false)];
      Possible(s, actions)
      && ((forall c :: Owed(s, c) ==> Stored(Run(s, actions), c)) <==> loaded || !exists c :: Owed(s, c))
  {
    var crash, begin, commit := Crash(replaced, loaded), BeginUpdate, Commit(false);
    var s1 := Step(s, crash);
    var s2 := Step(s1, begin);
    var s3 := Step(s2, commit);
    RunThree(s, crash, begin, commit);
    StepKeeps(s, crash);
    forall c | Owed(s, c) ensures Stored(s3, c) <==> loaded {
      assert ChunkOk(s, c) && BatchOk(s, c.batch) && c in s1.disk;
    }
  }

  /** A batch of one chunk is reserved, and its first write begins. */
  lemma ReserveOne(start: Store, b: BatchId)
    requires IsStart(start)
    ensures Enabled(start, Reserve(b, 1, false))
    ensures var s := Step(start, Reserve(b, 1, false));
      Inv(s) && s.writer == Idle && b in s.live && !s.live[b] && s.Has(Chunk(b, 0)) && !s.Settled(b) && b !in s.adrift
  {
    StartOk(start);
    StepKeeps(start, Reserve(b, 1, false));
    var c := Chunk(b, 0);
    var s := Step(start, Reserve(b, 1, false));
    assert c in OfBatch(b, 1);
    assert s.Has(c) && !s.parts[c].done;
  }

  lemma BeginOne(s: Store, b: BatchId)
    requires Inv(s) && s.writer == Idle && b in s.live && !s.live[b] && !s.Settled(b) && b !in s.adrift
    ensures Enabled(s, BeginAdmission(b))
    ensures var t := Step(s, BeginAdmission(b));
      Inv(t) && t.writer.Admission? && t.writer.batch == b && b in t.live && !t.live[b] && !t.Settled(b) && b !in t.adrift
      && t.counts == s.counts
  {
    StepKeeps(s, BeginAdmission(b));
    hide Inv;
    SameSettledIf(s, Step(s, BeginAdmission(b)), b);
  }

  lemma CommitOne(s: Store, b: BatchId)
    requires Inv(s) && s.writer.Admission? && s.writer.batch == b && b in s.live && !s.Settled(b) && b !in s.adrift
    requires s.Has(Chunk(b, 0))
    ensures Enabled(s, Commit(false))
    ensures Inv(Step(s, Commit(false))) && Owed(Step(s, Commit(false)), Chunk(b, 0))
  {
    StepKeeps(s, Commit(false));
    hide Inv, Store.Settled;
  }

  /** The shortest run that loses an admitted row: it is owed to the end and stored
      nowhere. */
  lemma UnreadFileIsOverwritten(start: Store, b: BatchId)
    requires IsStart(start)
    ensures var admit := [Reserve(b, 1, false), BeginAdmission(b), Commit(false)];
      && Possible(start, admit)
      && var s := Run(start, admit);
         var restart := [Crash(false, false), BeginUpdate, Commit(false)];
         Owed(s, Chunk(b, 0)) && Possible(s, restart) && !Stored(Run(s, restart), Chunk(b, 0))
  {
    var reserve, begin, commit := Reserve(b, 1, false), BeginAdmission(b), Commit(false);
    ReserveOne(start, b);
    var s1 := Step(start, reserve);
    hide Step, Inv, Enabled, IsStart, Stored, Store.Settled;
    BeginOne(s1, b);
    var s2 := Step(s1, begin);
    CommitOne(s2, b);
    RunThree(start, reserve, begin, commit);
    UnreadLoses(Step(s2, commit), Chunk(b, 0));
  }

  lemma UnreadLoses(s: Store, c: Chunk)
    requires Inv(s) && Owed(s, c)
    ensures var restart := [Crash(false, false), BeginUpdate, Commit(false)];
      Possible(s, restart) && !Stored(Run(s, restart), c)
  {
    var s1 := Step(s, Crash(false, false));
    RunThree(s, Crash(false, false), BeginUpdate, Commit(false));
    assert c !in s1.rows;
  }

  // ---------------------------------------------------------------------------
  // An admission whose first write fails
  // ---------------------------------------------------------------------------

  /** A failed first write leaves no row in memory, no live batch, no dedup entry and no
      unresolved future; and it leaves the row in the file exactly when it had replaced the
      file, and then with the row of every batch not cancelled meanwhile. */
  lemma {:induction false} FailedAdmissionLeaves(start: Store, actions: seq<Action>, replaced: bool, c: Chunk)
    requires IsStart(start) && Possible(start, actions)
    requires var s := Run(start, actions);
      s.writer.Admission? && s.writer.batch in s.live && c.batch == s.writer.batch && s.Has(c)
    ensures var s := Run(start, actions);
      var t := Step(s, Fail(replaced));
      && c !in t.rows && c.batch !in t.live && c.batch !in t.dedup && c in t.parts && t.parts[c].done
      && (c in t.disk <==> replaced && c in s.writer.snapshot)
      && (!s.Settled(c.batch) ==> (c in t.disk <==> replaced))
  {
    StartOk(start);
    RunKeeps(start, actions);
    FailLeaves(Run(start, actions), replaced, c);
  }

  /** The shortest run that leaves the row of a failed admission in the file. */
  lemma ReplacedFileKeepsRow(start: Store, b: BatchId)
    requires IsStart(start)
    ensures var c := Chunk(b, 0);
      var actions := [Reserve(b, 1, false), BeginAdmission(b), Fail(true)];
      Possible(start, actions) && c in Run(start, actions).disk && c !in Run(start, actions).rows
  {
    var reserve, begin, fail := Reserve(b, 1, false), BeginAdmission(b), Fail(true);
    ReserveOne(start, b);
    var s1 := Step(start, reserve);
    hide Step, Inv, Enabled, IsStart, Store.Settled;
    BeginOne(s1, b);
    FailLeaves(Step(s1, begin), true, Chunk(b, 0));
    RunThree(start, reserve, begin, fail);
  }

  lemma FailLeaves(s: Store, replaced: bool, c: Chunk)
    requires Inv(s) && s.writer.Admission? && s.writer.batch in s.live && c.batch == s.writer.batch && s.Has(c)
    ensures Enabled(s, Fail(replaced))
    ensures var t := Step(s, Fail(replaced));
      && c !in t.rows && c.batch !in t.live && c.batch !in t.dedup && c in t.parts && t.parts[c].done
      && (c in t.disk <==> replaced && c in s.writer.snapshot)
      && (!s.Settled(c.batch) ==> (c in t.disk <==> replaced))
  {
    assert ChunkOk(s, c) && BatchOk(s, c.batch);
  }

  /** The row of c was given up: it is not in memory, nor on its way there or to the file. */
  ghost predicate GivenUp(t: Store, c: Chunk) {
    && c.batch in t.counts && c !in t.leaving && c !in t.rows
    && (t.writer != Idle ==> c !in t.writer.snapshot)
  }

  ghost predicate Away(t: Store, c: Chunk) {
    c !in t.rows && c !in t.disk
  }

  ghost predicate AwayThroughout(t: Store, actions: seq<Action>, c: Chunk)
    requires Possible(t, actions)
    decreases |actions|
  {
    Away(t, c) && (|actions| == 0 || AwayThroughout(Step(t, actions[0]), actions[1..], c))
  }

  predicate Concludes(a: Action, c: Chunk) {
    a.Conclude? && a.chunk == c
  }

  lemma GivenUpStays(t: Store, a: Action, c: Chunk)
    requires GivenUp(t, c) && Enabled(t, a)
    ensures !Concludes(a, c) && (c !in t.disk || !a.Crash?) ==> GivenUp(Step(t, a), c)
  {
    hide Store.Settled;
  }

  lemma GivenUpStep(t: Store, a: Action, c: Chunk)
    requires GivenUp(t, c) && Enabled(t, a)
    ensures !Concludes(a, c) && (c !in t.disk || !a.Crash?) ==> GivenUp(Step(t, a), c)
    ensures !Concludes(a, c) ==> (c in Step(t, a).disk <==> c in t.disk && !Replaces(t, a))
    ensures Concludes(a, c) ==> c in Step(t, a).rows
  {
    GivenUpStays(t, a, c);
    hide Store.Settled, Without, Among, Removable, Batches;
  }

  /** The row of an admission that failed without replacing the file stays out of memory
      and file exactly until a caller already cancelling the batch records the chunk. */
  lemma {:induction false} FailedRowStaysAwayIff(t: Store, later: seq<Action>, c: Chunk)
    requires GivenUp(t, c) && c !in t.disk && Possible(t, later)
    ensures AwayThroughout(t, later, c) <==> forall i :: 0 <= i < |later| ==> !Concludes(later[i], c)
    decreases |later|
  {
    hide Step, Enabled, GivenUp;
    assert Away(t, c) by { GivenUpIsAway(t, c); }
    if |later| > 0 {
      var a := later[0];
      GivenUpStep(t, a, c);
      if Concludes(a, c) {
        assert !Away(Step(t, a), c);
      } else {
        FailedRowStaysAwayIff(Step(t, a), later[1..], c);
        assert forall i :: 0 < i < |later| ==> later[i] == later[1..][i - 1];
      }
    }
  }

  lemma GivenUpIsAway(t: Store, c: Chunk)
    requires GivenUp(t, c)
    ensures c !in t.rows
  {
  }

  ghost predicate Rewritten(t: Store, actions: seq<Action>)
    requires Possible(t, actions)
    decreases |actions|
  {
    |actions| > 0 && (Replaces(t, actions[0]) || Rewritten(Step(t, actions[0]), actions[1..]))
  }

  /** The row that a failed admission left in the file stays there exactly until the next
      write, as long as no restart reads it and no caller records it. */
  lemma {:induction false} StrayRowStaysUntilWritten(t: Store, later: seq<Action>, c: Chunk)
    requires GivenUp(t, c) && c in t.disk && Possible(t, later)
    requires forall i :: 0 <= i < |later| ==> !Concludes(later[i], c) && !later[i].Crash?
    ensures c in Run(t, later).disk <==> !Rewritten(t, later)
    ensures c !in Run(t, later).rows
    decreases |later|
  {
    hide Step, Enabled, GivenUp, Replaces;
    GivenUpIsAway(t, c);
    if |later| > 0 {
      var a := later[0];
      GivenUpStep(t, a, c);
      assert forall i :: 0 <= i < |later[1..]| ==> later[1..][i] == later[i + 1];
      if Replaces(t, a) {
        GoneStaysGone(Step(t, a), later[1..], c);
      } else {
        StrayRowStaysUntilWritten(Step(t, a), later[1..], c);
      }
    }
  }

  lemma {:induction false} GoneStaysGone(t: Store, later: seq<Action>, c: Chunk)
    requires GivenUp(t, c) && c !in t.disk && Possible(t, later)
    requires forall i :: 0 <= i < |later| ==> !Concludes(later[i], c)
    ensures c !in Run(t, later).disk && c !in Run(t, later).rows
    decreases |later|
  {
    hide Step, Enabled, GivenUp;
    GivenUpIsAway(t, c);
    if |later| > 0 {
      GivenUpStep(t, later[0], c);
      assert forall i :: 0 <= i < |later[1..]| ==> later[1..][i] == later[i + 1];
      GoneStaysGone(Step(t, later[0]), later[1..], c);
    }
  }

  /** The lemmas above apply to every failed admission, except for a chunk that a caller
      had cancelled so early that its batch settled first. */
  lemma FailedIsGivenUp(s: Store, replaced: bool, c: Chunk)
    requires Inv(s) && s.writer.Admission? && s.writer.batch in s.live && c.batch == s.writer.batch && s.Has(c)
    ensures GivenUp(Step(s, Fail(replaced)), c) <==> c !in s.leaving
    ensures !s.Settled(c.batch) ==> c !in s.leaving
    ensures !replaced ==> c !in Step(s, Fail(replaced)).disk
    ensures Enabled(Step(s, Fail(replaced)), Conclude(c, Closed))
  {
    assert ChunkOk(s, c) && BatchOk(s, c.batch);
  }
}
