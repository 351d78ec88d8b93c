/** Warning reports of the Telegram dispatcher (telegram_bot/dispatcher.py): the
    admission of a newer scan supersedes the live report of its destination scope. */
module DispatcherWarnings {

  type Scope = int
  type BatchId = int

  /** A report's chunks: `resolved` those whose future is done. */
  datatype Report = Report(scope: Scope, count: nat, resolved: set<nat>, superseded: bool)

  /** `reports` is `_warning_reports`, `all` every report ever admitted. */
  class Warnings {
    var reports: map<Scope, BatchId>
    var all: map<BatchId, Report>

    constructor ()
      ensures Valid() && all == map[] && reports == map[]
    {
      reports, all := map[], map[];
    }

    /** Some chunk may still start a transport. */
    ghost predicate Live(b: BatchId)
      reads this
    {
      b in all && !all[b].superseded && exists i: nat :: i < all[b].count && i !in all[b].resolved
    }

    ghost predicate Valid()
      reads this
    {
      && (forall b :: Live(b) ==> all[b].scope in reports && reports[all[b].scope] == b)
      && (forall s :: s in reports ==> Live(reports[s]) && all[reports[s]].scope == s)
    }

    /** Admission of a complete scan, possibly empty; the scan's chunks are queued
        before its predecessor is superseded. */
    method Admit(b: BatchId, scope: Scope, count: nat)
      requires Valid() && b !in all
      modifies this
      ensures Valid()
      ensures b in all && all[b] == Report(scope, count, {}, false)
      ensures Live(b) <==> count > 0
      ensures forall k :: k in old(all) && old(Live(k)) && old(all)[k].scope == scope ==>
        k in all && all[k] == old(all)[k].(superseded := true)
      ensures forall k :: k in old(all) && !(old(Live(k)) && old(all)[k].scope == scope) ==>
        k in all && all[k] == old(all)[k]
      ensures forall k :: k in old(all) && old(all)[k].scope == scope ==> !Live(k)
      ensures forall k :: k in old(all) && old(all)[k].scope != scope ==> all[k] == old(all)[k] && (Live(k) <==> old(Live(k)))
    {
      ghost var was := all;
      var previous := if scope in reports then {reports[scope]} else {};
      all := all[b := Report(scope, count, {}, false)];
      reports := reports[scope := b];
      if k :| k in previous {
        all := all[k := all[k].(superseded := true)];
      }
      if count == 0 {
        reports := map s | s in reports && s != scope :: reports[s];
      }
      forall k | k in was && was[k].scope != scope ensures Live(k) <==> old(Live(k)) {
        assert all[k] == was[k];
      }
      forall k | k in was && was[k].scope == scope ensures !Live(k) {
        assert k !in previous ==> all[k] == was[k] && !old(Live(k));
      }
      if count > 0 {
        assert 0 < all[b].count && 0 !in all[b].resolved;
      }
    }

    /** A chunk is delivered, cancelled, failed or in doubt; the last one settles. */
    method Resolve(b: BatchId, i: nat)
      requires Valid() && b in all && i < all[b].count
      modifies this
      ensures Valid()
      ensures all == old(all)[b := old(all)[b].(resolved := old(all)[b].resolved + {i})]
      ensures forall k :: Live(k) ==> old(Live(k))
    {
      ghost var was := all;
      all := all[b := all[b].(resolved := all[b].resolved + {i})];
      if (forall j: nat | j < all[b].count :: j in all[b].resolved) && all[b].scope in reports && reports[all[b].scope] == b {
        reports := map s | s in reports && s != all[b].scope :: reports[s];
      }
      forall k | Live(k) ensures old(Live(k)) && all[k].scope in reports && reports[all[k].scope] == k {
        var j: nat :| j < all[k].count && j !in all[k].resolved;
        assert j < was[k].count && j !in was[k].resolved;
        assert old(Live(k));
      }
    }

    /** At most one live report per destination scope. */
    lemma AtMostOneLive(a: BatchId, b: BatchId)
      requires Valid() && Live(a) && Live(b) && all[a].scope == all[b].scope
      ensures a == b
    {
    }
  }
}
