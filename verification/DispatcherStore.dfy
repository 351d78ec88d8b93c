/** Durable rows of critical batches (telegram_bot/dispatcher.py): admission,
    serialized snapshots to disk, settlement of a whole batch, failed writes and a
    crash at any point. */
module DispatcherStore {
  import opened Collections

  type BatchId = int

  /** One chunk of a split message, by its batch and position. */
  datatype Chunk = Chunk(batch: BatchId, index: nat)

  /** The status a row records: "pending", "delivered" or "cancelled", "failed". */
  datatype Status = Open | Closed | Failed

  /** An item and whether its future is resolved. */
  datatype Part = Part(status: Status, done: bool)

  type Rows = map<Chunk, Status>

  /** Who holds the persistence lock, and the snapshot taken under it. */
  datatype Writer =
    | Idle
    | Admission(batch: BatchId, snapshot: Rows)
    | Settlement(batch: BatchId, snapshot: Rows)
    | Update(snapshot: Rows)

  /** `live` is `_batches` with each batch's `admitted` flag, `rows` is
      `_pending_storage`, `disk` the file, `leaving` the rows that settled batches (in
      `settling`) took from memory and whose removal is not written yet. The rest is
      history: `owed` the batches admitted and not settled since, `durable` those ever
      admitted, `adrift` those with rows in a file that a restart could not read and
      none has read since, and `lost` those of them whose file was then overwritten. */
  datatype Store = Store(
    counts: map<BatchId, nat>, live: map<BatchId, bool>, parts: map<Chunk, Part>, dedup: set<BatchId>,
    rows: Rows, disk: Rows, leaving: Rows, settling: set<BatchId>, writer: Writer,
    owed: set<BatchId>, durable: set<BatchId>, adrift: set<BatchId>, lost: set<BatchId>)
  {
    predicate Has(c: Chunk) {
      c.batch in counts && c.index < counts[c.batch]
    }

    /** Every future of the batch is resolved. */
    ghost predicate Settled(b: BatchId) {
      forall c: Chunk :: c.batch == b && Has(c) ==> c in parts && parts[c].done
    }
  }

  function OfBatch(b: BatchId, count: nat): set<Chunk> {
    set i: nat | i < count :: Chunk(b, i)
  }

  /** The snapshot of _save_pending_storage: its own batch, and of the others only
      those whose initial durable write has succeeded. */
  function Snapshot(s: Store, owner: Option<BatchId>): (r: Rows)
    ensures forall c :: c in r <==> c in s.rows && (c.batch !in s.live || s.live[c.batch] || owner == Some(c.batch))
  {
    map c | c in s.rows && (c.batch !in s.live || s.live[c.batch] || owner == Some(c.batch)) :: s.rows[c]
  }

  function Without(rows: Rows, gone: Rows): (r: Rows)
    ensures forall c :: c in r <==> c in rows && c !in gone
  {
    map c | c in rows && c !in gone :: rows[c]
  }

  function Among(rows: Rows, b: BatchId): (r: Rows)
    ensures forall c :: c in r <==> c in rows && c.batch == b
  {
    map c | c in rows && c.batch == b :: rows[c]
  }

  datatype Action =
    | Reserve(batch: BatchId, count: nat, keyed: bool)
    | BeginAdmission(batch: BatchId)
    | BeginUpdate
    | BeginSettlement(batch: BatchId)
    | Commit(keep: bool)
    | Fail(replaced: bool)
    | Conclude(chunk: Chunk, status: Status)
    | Resolve(chunk: Chunk)
    | Crash(replaced: bool, loaded: bool)

  ghost predicate Enabled(s: Store, a: Action) {
    match a
    case Reserve(b, n, _) => b !in s.counts && n > 0
    case BeginAdmission(b) => s.writer == Idle && b in s.live && !s.live[b]
    case BeginUpdate => s.writer == Idle
    case BeginSettlement(b) => s.writer == Idle && b in s.settling
    case Commit(_) => s.writer != Idle
    case Fail(_) => s.writer != Idle
    // a caller cancels an item at any time; only the worker, which never holds an
    // item of an unadmitted batch, concludes one as failed
    case Conclude(c, status) =>
      c in s.parts && status != Open && (status == Failed ==> c.batch in s.live && s.live[c.batch] && !s.parts[c].done)
    case Resolve(c) => c in s.parts && s.parts[c].status != Open && c.batch in s.live && !s.Settled(c.batch)
    case Crash(_, _) => true
  }

  /** The rows a settled batch gives up: every chunk that did not fail. */
  function Removable(s: Store, b: BatchId): (r: Rows)
    ensures forall c :: c in r <==> c in s.rows && c.batch == b && c in s.parts && s.parts[c].status != Failed
  {
    map c | c in s.rows && c.batch == b && c in s.parts && s.parts[c].status != Failed :: s.rows[c]
  }

  /** _finish and _settle_batch up to its write. */
  ghost function Resolved(s: Store, c: Chunk): Store
    requires c in s.parts
  {
    var t := s.(parts := s.parts[c := s.parts[c].(done := true)]);
    if t.Settled(c.batch) then
      t.(rows := Without(t.rows, Removable(t, c.batch)), owed := t.owed - {c.batch},
         leaving := t.leaving + Removable(t, c.batch), settling := t.settling + {c.batch})
    else t
  }

  /** A failed initial write undoes the whole reservation. */
  function Unreserved(s: Store, b: BatchId): Store {
    s.(rows := map c | c in s.rows && c.batch != b :: s.rows[c],
       parts := map c | c in s.parts :: if c.batch == b then Part(Closed, true) else s.parts[c],
       live := s.live - {b}, dedup := s.dedup - {b})
  }

  ghost function Committed(s: Store, keep: bool): Store {
    match s.writer
    case Idle => s
    case Admission(b, snapshot) =>
      var t := s.(disk := snapshot, writer := Idle, lost := s.adrift);
      if b !in t.live then t
      else if s.Settled(b) then t.(live := t.live[b := true])
      else t.(live := t.live[b := true], owed := t.owed + {b}, durable := t.durable + {b})
    case Settlement(b, snapshot) =>
      s.(disk := snapshot, writer := Idle, lost := s.adrift, settling := s.settling - {b}, leaving := Without(s.leaving, Among(s.leaving, b)),
         live := if keep then s.live else s.live - {b}, dedup := if keep then s.dedup else s.dedup - {b})
    case Update(snapshot) => s.(disk := snapshot, writer := Idle, lost := s.adrift)
  }

  /** What an interrupted or failed write leaves of the file. */
  function FileAfter(s: Store, replaced: bool): Rows {
    if replaced && s.writer != Idle then s.writer.snapshot else s.disk
  }

  function LostAfter(s: Store, replaced: bool): set<BatchId> {
    if replaced && s.writer != Idle then s.adrift else s.lost
  }

  function FailedWrite(s: Store, replaced: bool): Store {
    var t := s.(disk := FileAfter(s, replaced), lost := LostAfter(s, replaced), writer := Idle);
    match s.writer
    case Idle => s
    case Admission(b, _) => Unreserved(t, b)
    case Settlement(b, _) => t.(rows := s.rows + Among(s.leaving, b))
    case Update(_) => t
  }

  function Batches(rows: Rows): set<BatchId> {
    set c | c in rows :: c.batch
  }

  /** A restart reads the file: every row's batch is live again, unresolved. If the file
      cannot be read the restart starts from an empty memory and leaves the file alone. */
  function Restarted(s: Store, disk: Rows, lost: set<BatchId>, loaded: bool): Store {
    var rows := if loaded then disk else map[];
    s.(live := map b | b in Batches(rows) :: true, parts := map c | c in rows :: Part(rows[c], false), dedup := {},
       rows := rows, disk := disk, leaving := map[], settling := {}, writer := Idle, durable := s.durable + Batches(disk),
       adrift := if loaded then lost else lost + Batches(disk), lost := lost)
  }

  ghost function Step(s: Store, a: Action): Store
    requires Enabled(s, a)
  {
    match a
    case Reserve(b, n, keyed) =>
      s.(counts := s.counts[b := n], live := s.live[b := false], dedup := if keyed then s.dedup + {b} else s.dedup,
         rows := s.rows + map c | c in OfBatch(b, n) :: Open,
         parts := s.parts + map c | c in OfBatch(b, n) :: Part(Open, false))
    case BeginAdmission(b) => s.(writer := Admission(b, Snapshot(s, Some(b))))
    case BeginUpdate => s.(writer := Update(Snapshot(s, None)))
    case BeginSettlement(b) =>
      var t := s.(rows := Without(s.rows, Among(s.leaving, b)));
      t.(writer := Settlement(b, Snapshot(t, None)))
    case Commit(keep) => Committed(s, keep)
    case Fail(replaced) => FailedWrite(s, replaced)
    case Conclude(c, status) =>
      s.(parts := s.parts[c := s.parts[c].(status := status)], rows := s.rows[c := status])
    case Resolve(c) => Resolved(s, c)
    case Crash(replaced, loaded) => Restarted(s, FileAfter(s, replaced), LostAfter(s, replaced), loaded)
  }

  // ---------------------------------------------------------------------------
  // The invariant
  // ---------------------------------------------------------------------------

  /** The row is in memory, in the file, and in the file after the write in progress. */
  predicate Stored(s: Store, c: Chunk) {
    c in s.rows && c in s.disk && (s.writer != Idle ==> c in s.writer.snapshot)
  }

  /** The row is nowhere in the file, nor about to be unless by its own admission. */
  predicate Hidden(s: Store, c: Chunk) {
    c !in s.disk && (s.writer != Idle && !(s.writer.Admission? && s.writer.batch == c.batch) ==> c !in s.writer.snapshot)
  }

  ghost predicate ChunkOk(s: Store, c: Chunk) {
    // chunks belong to known batches
    && (c in s.parts || c in s.rows || c in s.disk || c in s.leaving || (s.writer != Idle && c in s.writer.snapshot) ==> s.Has(c))
    // a batch still owed is complete; an admitted unsettled one, and every failed chunk, is stored
    && (s.Has(c) && c.batch in s.owed && c.batch !in s.adrift ==> c in s.parts)
    && (c in s.parts && c.batch in s.live && s.live[c.batch] && !s.Settled(c.batch) ==> Stored(s, c) && c.batch in s.durable)
    && (c in s.parts && s.parts[c].status == Failed ==> Stored(s, c) && c.batch in s.durable)
    // an unadmitted batch is nowhere in the file, and complete for its own write
    && (s.Has(c) && c.batch in s.live && !s.live[c.batch] ==> c in s.parts && Hidden(s, c))
    && (s.Has(c) && c.batch in s.live && !s.live[c.batch] && !s.Settled(c.batch) ==>
          c in s.rows && (s.writer.Admission? && s.writer.batch == c.batch ==> c in s.writer.snapshot))
    // rows on their way out belong to settled batches and did not fail
    && (c in s.leaving ==> c.batch !in s.owed && (c.batch in s.live ==> s.Settled(c.batch))
                           && (c in s.parts ==> s.parts[c].status != Failed))
    // rows a restart could not read are in the file only, until it is overwritten
    && (c.batch in s.adrift ==> c !in s.parts && c !in s.rows && c !in s.leaving && (s.writer != Idle ==> c !in s.writer.snapshot))
    && (s.Has(c) && c.batch in s.owed && c.batch in s.adrift && c.batch !in s.lost ==> c in s.disk)
    && (c.batch in s.lost ==> c !in s.disk)
  }

  ghost predicate BatchOk(s: Store, b: BatchId) {
    && (b in s.live || b in s.owed || b in s.durable || b in s.settling ==> b in s.counts)
    && (b in s.counts ==> s.counts[b] > 0)
    && (b in s.owed && b !in s.adrift ==> b in s.live && s.live[b] && !s.Settled(b))
    && (b in s.lost ==> b in s.adrift)
    && (b in s.adrift ==> b in s.counts && b !in s.live && b !in s.settling)
    && (b in s.durable && b in s.live ==> s.live[b])
    && (b in s.settling && b in s.live ==> s.Settled(b))
    && (s.writer.Admission? && s.writer.batch == b && b in s.live ==> !s.live[b])
  }

  ghost predicate Inv(s: Store) {
    && (forall c :: ChunkOk(s, c))
    && (forall b :: BatchOk(s, b))
    && (s.writer.Settlement? ==> s.writer.batch in s.settling)
    && (s.writer.Admission? ==> s.writer.batch in s.counts)
  }

  ghost predicate SameSettled(s: Store, t: Store, b: BatchId) {
    t.Settled(b) <==> s.Settled(b)
  }

  // ---------------------------------------------------------------------------
  // Every action keeps the invariant, chunk by chunk and batch by batch
  // ---------------------------------------------------------------------------

  lemma SameSettledIf(s: Store, t: Store, b: BatchId)
    requires b in s.counts <==> b in t.counts
    requires b in s.counts ==> s.counts[b] == t.counts[b]
    requires forall i: nat :: var c := Chunk(b, i); c in t.parts && t.parts[c].done <==> c in s.parts && s.parts[c].done
    ensures SameSettled(s, t, b)
  {
    forall c: Chunk | c.batch == b ensures c in t.parts && t.parts[c].done <==> c in s.parts && s.parts[c].done {
      assert c == Chunk(b, c.index);
    }
  }

  lemma ReserveKeeps(s: Store, b: BatchId, n: nat, keyed: bool)
    requires Inv(s) && Enabled(s, Reserve(b, n, keyed))
    ensures Inv(Step(s, Reserve(b, n, keyed)))
  {
    var t := Step(s, Reserve(b, n, keyed));
    assert BatchOk(s, b);
    forall k ensures BatchOk(t, k) {
      if k != b {
        SameSettledIf(s, t, k);
        assert BatchOk(s, k);
      }
    }
    forall c ensures ChunkOk(t, c) {
      assert ChunkOk(s, c);
      if c.batch != b {
        SameSettledIf(s, t, c.batch);
      }
    }
  }

  lemma BeginAdmissionKeeps(s: Store, b: BatchId)
    requires Inv(s) && Enabled(s, BeginAdmission(b))
    ensures Inv(Step(s, BeginAdmission(b)))
  {
    var t := Step(s, BeginAdmission(b));
    assert BatchOk(s, b);
    forall k ensures BatchOk(t, k) {
      SameSettledIf(s, t, k);
      assert BatchOk(s, k);
    }
    hide ChunkOk, BatchOk;
    forall c ensures ChunkOk(t, c) {
      SameSettledIf(s, t, c.batch);
      BeginAdmissionChunk(s, t, b, c);
    }
  }

  lemma BeginAdmissionChunk(s: Store, t: Store, b: BatchId, c: Chunk)
    requires ChunkOk(s, c) && BatchOk(s, c.batch) && b in s.live && !s.live[b] && s.writer == Idle
    requires t == s.(writer := Admission(b, Snapshot(s, Some(b)))) && SameSettled(s, t, c.batch)
    ensures ChunkOk(t, c)
  {
    assert c in t.writer.snapshot <==> c in s.rows && (c.batch !in s.live || s.live[c.batch] || b == c.batch);
  }

  lemma BeginUpdateKeeps(s: Store)
    requires Inv(s) && s.writer == Idle
    ensures Inv(Step(s, BeginUpdate))
  {
    var t := Step(s, BeginUpdate);
    forall k ensures BatchOk(t, k) {
      SameSettledIf(s, t, k);
      assert BatchOk(s, k);
    }
    forall c ensures ChunkOk(t, c) {
      SameSettledIf(s, t, c.batch);
      assert ChunkOk(s, c) && BatchOk(s, c.batch);
    }
  }

  lemma BeginSettlementKeeps(s: Store, b: BatchId)
    requires Inv(s) && Enabled(s, BeginSettlement(b))
    ensures Inv(Step(s, BeginSettlement(b)))
  {
    var t := Step(s, BeginSettlement(b));
    forall k ensures BatchOk(t, k) {
      SameSettledIf(s, t, k);
      assert BatchOk(s, k);
    }
    forall c ensures ChunkOk(t, c) {
      SameSettledIf(s, t, c.batch);
      assert ChunkOk(s, c) && BatchOk(s, c.batch);
    }
  }

  lemma CommitAdmissionKeeps(s: Store, keep: bool)
    requires Inv(s) && s.writer.Admission?
    ensures Inv(Step(s, Commit(keep)))
  {
    var t := Step(s, Commit(keep));
    var b := s.writer.batch;
    forall k ensures SameSettled(s, t, k) {
      SameSettledIf(s, t, k);
    }
    assert BatchOk(s, b);
    hide ChunkOk, BatchOk;
    forall k ensures BatchOk(t, k) {
      CommitAdmissionBatch(s, t, b, k);
    }
    forall c ensures ChunkOk(t, c) {
      CommitAdmissionChunk(s, t, b, c);
    }
  }

  lemma CommitAdmissionBatch(s: Store, t: Store, b: BatchId, k: BatchId)
    requires s.writer.Admission? && s.writer.batch == b && t == Committed(s, false)
    requires BatchOk(s, k) && SameSettled(s, t, k) && SameSettled(s, t, b)
    ensures BatchOk(t, k)
  {
    hide Store.Settled;
  }

  lemma CommitAdmissionChunk(s: Store, t: Store, b: BatchId, c: Chunk)
    requires s.writer.Admission? && s.writer.batch == b && t == Committed(s, false)
    requires ChunkOk(s, c) && BatchOk(s, c.batch) && SameSettled(s, t, c.batch) && SameSettled(s, t, b)
    ensures ChunkOk(t, c)
  {
    hide Store.Settled;
  }

  lemma CommitSettlementKeeps(s: Store, keep: bool)
    requires Inv(s) && s.writer.Settlement?
    ensures Inv(Step(s, Commit(keep)))
  {
    var t := Step(s, Commit(keep));
    assert BatchOk(s, s.writer.batch);
    forall k ensures BatchOk(t, k) {
      SameSettledIf(s, t, k);
      assert BatchOk(s, k);
    }
    forall c ensures ChunkOk(t, c) {
      SameSettledIf(s, t, c.batch);
      assert ChunkOk(s, c) && BatchOk(s, c.batch);
    }
  }

  lemma CommitUpdateKeeps(s: Store, keep: bool)
    requires Inv(s) && s.writer.Update?
    ensures Inv(Step(s, Commit(keep)))
  {
    var t := Step(s, Commit(keep));
    forall k ensures BatchOk(t, k) {
      SameSettledIf(s, t, k);
      assert BatchOk(s, k);
    }
    forall c ensures ChunkOk(t, c) {
      SameSettledIf(s, t, c.batch);
      assert ChunkOk(s, c) && BatchOk(s, c.batch);
    }
  }

  lemma FailKeeps(s: Store, replaced: bool)
    requires Inv(s) && s.writer != Idle
    ensures Inv(Step(s, Fail(replaced)))
  {
    var t := Step(s, Fail(replaced));
    forall k ensures BatchOk(t, k) {
      if k in t.live { SameSettledIf(s, t, k); }
      assert BatchOk(s, k);
    }
    forall c ensures ChunkOk(t, c) {
      if c.batch in t.live { SameSettledIf(s, t, c.batch); }
      assert ChunkOk(s, c) && BatchOk(s, c.batch);
    }
  }

  lemma ConcludeKeeps(s: Store, c: Chunk, status: Status)
    requires Inv(s) && Enabled(s, Conclude(c, status))
    ensures Inv(Step(s, Conclude(c, status)))
  {
    var t := Step(s, Conclude(c, status));
    forall k ensures BatchOk(t, k) {
      SameSettledIf(s, t, k);
      assert BatchOk(s, k);
    }
    forall d ensures ChunkOk(t, d) {
      SameSettledIf(s, t, d.batch);
      assert ChunkOk(s, d) && BatchOk(s, d.batch);
    }
  }

  lemma ResolveKeeps(s: Store, c: Chunk)
    requires Inv(s) && Enabled(s, Resolve(c))
    ensures Inv(Step(s, Resolve(c)))
  {
    var t := Step(s, Resolve(c));
    forall k ensures k != c.batch ==> SameSettled(s, t, k) {
      if k != c.batch { SameSettledIf(s, t, k); }
    }
    var u := s.(parts := s.parts[c := s.parts[c].(done := true)]);
    assert t.Settled(c.batch) <==> u.Settled(c.batch);
    hide ChunkOk, BatchOk;
    forall k ensures BatchOk(t, k) {
      ResolveBatch(s, t, u, c, k);
    }
    forall d ensures ChunkOk(t, d) {
      ResolveChunk(s, t, u, c, d);
    }
  }

  ghost predicate ResolvedTo(s: Store, t: Store, u: Store, c: Chunk) {
    && c in s.parts && s.parts[c].status != Open && c.batch in s.live && !s.Settled(c.batch)
    && u == s.(parts := s.parts[c := s.parts[c].(done := true)])
    && t == Resolved(s, c)
    && (t.Settled(c.batch) <==> u.Settled(c.batch))
  }

  lemma ResolveBatch(s: Store, t: Store, u: Store, c: Chunk, k: BatchId)
    requires ResolvedTo(s, t, u, c) && BatchOk(s, k) && (k != c.batch ==> SameSettled(s, t, k))
    ensures BatchOk(t, k)
  {
  }

  lemma ResolveChunk(s: Store, t: Store, u: Store, c: Chunk, d: Chunk)
    requires ResolvedTo(s, t, u, c) && ChunkOk(s, d) && (d.batch != c.batch ==> SameSettled(s, t, d.batch))
    ensures ChunkOk(t, d)
  {
    if d.batch == c.batch { ResolveSibling(s, t, u, c, d); } else { ResolveOther(s, t, u, c, d); }
  }

  lemma ResolveSibling(s: Store, t: Store, u: Store, c: Chunk, d: Chunk)
    requires ResolvedTo(s, t, u, c) && ChunkOk(s, d) && d.batch == c.batch
    ensures ChunkOk(t, d)
  {
    hide Store.Settled;
  }

  lemma ResolveOther(s: Store, t: Store, u: Store, c: Chunk, d: Chunk)
    requires ResolvedTo(s, t, u, c) && ChunkOk(s, d) && d.batch != c.batch && SameSettled(s, t, d.batch)
    ensures ChunkOk(t, d)
  {
    hide Store.Settled;
  }

  lemma CrashKeeps(s: Store, replaced: bool, loaded: bool)
    requires Inv(s)
    ensures Inv(Step(s, Crash(replaced, loaded)))
  {
    var t := Step(s, Crash(replaced, loaded));
    forall k ensures BatchOk(t, k) {
      assert BatchOk(s, k) && ChunkOk(s, Chunk(k, 0));
      if k in Batches(t.disk) {
        var c :| c in t.disk && c.batch == k;
        assert ChunkOk(s, c);
      }
    }
    forall c ensures ChunkOk(t, c) {
      assert ChunkOk(s, c) && BatchOk(s, c.batch);
    }
  }

  lemma StepKeeps(s: Store, a: Action)
    requires Inv(s) && Enabled(s, a)
    ensures Inv(Step(s, a))
  {
    match a
    case Reserve(b, n, keyed) => ReserveKeeps(s, b, n, keyed);
    case BeginAdmission(b) => BeginAdmissionKeeps(s, b);
    case BeginUpdate => BeginUpdateKeeps(s);
    case BeginSettlement(b) => BeginSettlementKeeps(s, b);
    case Commit(keep) =>
      if s.writer.Admission? { CommitAdmissionKeeps(s, keep); }
      else if s.writer.Settlement? { CommitSettlementKeeps(s, keep); }
      else { CommitUpdateKeeps(s, keep); }
    case Fail(replaced) => FailKeeps(s, replaced);
    case Conclude(c, status) => ConcludeKeeps(s, c, status);
    case Resolve(c) => ResolveKeeps(s, c);
    case Crash(replaced, loaded) => CrashKeeps(s, replaced, loaded);
  }

  // ---------------------------------------------------------------------------
  // Main results, over every run
  // ---------------------------------------------------------------------------

  /** Nothing reserved, nothing stored. */
  ghost predicate IsStart(s: Store) {
    && (forall c :: c !in s.parts && c !in s.rows && c !in s.disk && c !in s.leaving)
    && (forall b :: b !in s.counts && b !in s.live && b !in s.dedup && b !in s.settling && b !in s.owed && b !in s.durable && b !in s.adrift && b !in s.lost)
    && s.writer == Idle
  }

  ghost predicate Possible(s: Store, actions: seq<Action>)
    decreases |actions|
  {
    |actions| == 0 || (Enabled(s, actions[0]) && Possible(Step(s, actions[0]), actions[1..]))
  }

  ghost function Run(s: Store, actions: seq<Action>): Store
    requires Possible(s, actions)
    decreases |actions|
  {
    if |actions| == 0 then s else Run(Step(s, actions[0]), actions[1..])
  }

  lemma {:induction false} RunKeeps(s: Store, actions: seq<Action>)
    requires Inv(s) && Possible(s, actions)
    ensures Inv(Run(s, actions))
    decreases |actions|
  {
    hide Step, Inv, Enabled;
    if |actions| > 0 {
      StepKeeps(s, actions[0]);
      RunKeeps(Step(s, actions[0]), actions[1..]);
    }
  }

  lemma StartOk(start: Store)
    requires IsStart(start)
    ensures Inv(start)
  {
  }

}
