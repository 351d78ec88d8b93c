/** Cache invalidations that follow the transaction they were registered in
    (db/database.py). A session may nest savepoints to any depth. */
module Invalidation {
  type User = string

  /** `Closed` ends without an outcome, as an inner savepoint does when an outer level
      rolls back. */
  datatype Ending = Commit | Rollback | Closed

  datatype Act = Register(users: set<User>) | RegisterConfig | Nested(sub: Txn)

  datatype Txn = Txn(acts: seq<Act>, ending: Ending)

  // -------------------------------------------------------------------------
  // What is to be published
  // -------------------------------------------------------------------------

  /** The transaction reached by following `path` through nested acts. */
  predicate Exists(t: Txn, path: seq<nat>)
    decreases |path|
  {
    |path| == 0 || (path[0] < |t.acts| && t.acts[path[0]].Nested? && Exists(t.acts[path[0]].sub, path[1..]))
  }

  function At(t: Txn, path: seq<nat>): Txn
    requires Exists(t, path)
    decreases |path|
  {
    if |path| == 0 then t else At(t.acts[path[0]].sub, path[1..])
  }

  /** Every transaction from the one at `path` up to the root committed. */
  ghost predicate ChainCommitted(t: Txn, path: seq<nat>) {
    && Exists(t, path)
    && forall k :: 0 <= k <= |path| ==> Exists(t, path[..k]) && At(t, path[..k]).ending.Commit?
  }

  ghost predicate RegistersUser(t: Txn, u: User) {
    exists i :: 0 <= i < |t.acts| && t.acts[i].Register? && u in t.acts[i].users
  }

  ghost predicate RegistersConfig(t: Txn) {
    exists i :: 0 <= i < |t.acts| && t.acts[i].RegisterConfig?
  }

  /** u was registered in a transaction whose whole chain to the root committed. */
  ghost predicate Owed(t: Txn, u: User) {
    exists path: seq<nat> :: ChainCommitted(t, path) && RegistersUser(At(t, path), u)
  }

  ghost predicate ConfigOwed(t: Txn) {
    exists path: seq<nat> :: ChainCommitted(t, path) && RegistersConfig(At(t, path))
  }

  // -------------------------------------------------------------------------
  // What merging level by level gathers
  // -------------------------------------------------------------------------

  /** Users gathered at t by its first k acts. */
  function Gathered(t: Txn, k: nat): set<User>
    requires k <= |t.acts|
    decreases t, k
  {
    if k == 0 then {} else Gathered(t, k - 1) + (match t.acts[k - 1]
      case Register(users) => users
      case RegisterConfig => {}
      case Nested(sub) => if sub.ending.Commit? then Gathered(sub, |sub.acts|) else {})
  }

  predicate Touched(t: Txn, k: nat)
    requires k <= |t.acts|
    decreases t, k
  {
    k > 0 && (Touched(t, k - 1) ||
      match t.acts[k - 1]
      case Register(_) => false
      case RegisterConfig => true
      case Nested(sub) => sub.ending.Commit? && Touched(sub, |sub.acts|))
  }

  function Passed(t: Txn): set<User> {
    if t.ending.Commit? then Gathered(t, |t.acts|) else {}
  }

  predicate PassedConfig(t: Txn) {
    t.ending.Commit? && Touched(t, |t.acts|)
  }

  lemma ChainDown(t: Txn, path: seq<nat>)
    requires |path| > 0 && ChainCommitted(t, path)
    ensures path[0] < |t.acts| && t.acts[path[0]].Nested? && t.ending.Commit?
    ensures ChainCommitted(t.acts[path[0]].sub, path[1..])
    ensures Exists(t, path) && At(t, path) == At(t.acts[path[0]].sub, path[1..])
  {
    assert path[..|path|] == path;
    assert At(t, path[..0]) == t;
    forall k | 0 <= k <= |path| - 1
      ensures Exists(t.acts[path[0]].sub, path[1..][..k]) && At(t.acts[path[0]].sub, path[1..][..k]).ending.Commit?
    {
      assert path[..k + 1][1..] == path[1..][..k];
      assert Exists(t, path[..k + 1]) && At(t, path[..k + 1]).ending.Commit?;
    }
  }

  lemma ChainUp(t: Txn, i: nat, path: seq<nat>)
    requires i < |t.acts| && t.acts[i].Nested? && t.ending.Commit?
    requires ChainCommitted(t.acts[i].sub, path)
    ensures ChainCommitted(t, [i] + path)
    ensures Exists(t, [i] + path) && At(t, [i] + path) == At(t.acts[i].sub, path)
  {
    var whole := [i] + path;
    assert path[..|path|] == path && whole[1..] == path;
    forall k | 0 <= k <= |whole| ensures Exists(t, whole[..k]) && At(t, whole[..k]).ending.Commit? {
      if k > 0 {
        assert whole[..k][1..] == path[..k - 1];
        assert Exists(t.acts[i].sub, path[..k - 1]);
      }
    }
  }

  lemma {:induction false} GatheredIsSound(t: Txn, k: nat, u: User) returns (path: seq<nat>)
    requires k <= |t.acts| && t.ending.Commit? && u in Gathered(t, k)
    ensures ChainCommitted(t, path) && RegistersUser(At(t, path), u)
    decreases t, k
  {
    if u in Gathered(t, k - 1) {
      path := GatheredIsSound(t, k - 1, u);
    } else {
      var act := t.acts[k - 1];
      if act.Register? {
        path := [];
      } else {
        var inner := GatheredIsSound(act.sub, |act.sub.acts|, u);
        ChainUp(t, k - 1, inner);
        path := [k - 1] + inner;
      }
    }
  }

  lemma {:induction false} GatheredGrows(t: Txn, j: nat, k: nat)
    requires j <= k <= |t.acts|
    ensures Gathered(t, j) <= Gathered(t, k)
    ensures Touched(t, j) ==> Touched(t, k)
    decreases k
  {
    if j < k {
      GatheredGrows(t, j, k - 1);
    }
  }

  lemma {:induction false} GatheredIsComplete(t: Txn, path: seq<nat>)
    requires ChainCommitted(t, path)
    ensures forall u :: RegistersUser(At(t, path), u) ==> u in Gathered(t, |t.acts|)
    ensures RegistersConfig(At(t, path)) ==> Touched(t, |t.acts|)
    decreases |path|
  {
    assert path[..|path|] == path;
    if |path| == 0 {
      forall i | 0 <= i < |t.acts|
        ensures t.acts[i].Register? ==> t.acts[i].users <= Gathered(t, |t.acts|)
        ensures t.acts[i].RegisterConfig? ==> Touched(t, |t.acts|)
      {
        GatheredGrows(t, i + 1, |t.acts|);
      }
    } else {
      ChainDown(t, path);
      var sub := t.acts[path[0]].sub;
      GatheredIsComplete(sub, path[1..]);
      assert At(sub, path[1..][..0]) == sub;
      GatheredGrows(t, path[0] + 1, |t.acts|);
    }
  }

  lemma {:induction false} TouchedIsSound(t: Txn, k: nat) returns (path: seq<nat>)
    requires k <= |t.acts| && t.ending.Commit? && Touched(t, k)
    ensures ChainCommitted(t, path) && RegistersConfig(At(t, path))
    decreases t, k
  {
    if Touched(t, k - 1) {
      path := TouchedIsSound(t, k - 1);
    } else {
      var act := t.acts[k - 1];
      if act.RegisterConfig? {
        path := [];
      } else {
        var inner := TouchedIsSound(act.sub, |act.sub.acts|);
        ChainUp(t, k - 1, inner);
        path := [k - 1] + inner;
      }
    }
  }

  /** Merging level by level passes on exactly what a fully committed chain owes. */
  lemma PassedIsOwed(t: Txn, u: User)
    ensures u in Passed(t) <==> Owed(t, u)
    ensures PassedConfig(t) <==> ConfigOwed(t)
  {
    if u in Passed(t) {
      var path := GatheredIsSound(t, |t.acts|, u);
    }
    if PassedConfig(t) {
      var path := TouchedIsSound(t, |t.acts|);
    }
    forall path: seq<nat> | ChainCommitted(t, path)
      ensures RegistersUser(At(t, path), u) ==> u in Passed(t)
      ensures RegistersConfig(At(t, path)) ==> PassedConfig(t)
    {
      assert At(t, path[..0]) == t;
      GatheredIsComplete(t, path);
    }
  }

  // -------------------------------------------------------------------------
  // The session's event handlers
  // -------------------------------------------------------------------------

  /** A transaction is named by its depth, which is unique among the open ones; `Valid`
      says that an ended one leaves no entry behind for the next at its depth. */
  type Level = nat

  class Session {
    var depth: nat
    var pending: map<Level, set<User>>
    var outcomes: map<Level, bool>
    var configPending: set<Level>
    var evicted: set<User>
    var configEvicted: bool

    /** Only open transactions have entries. */
    ghost predicate Valid()
      reads this
    {
      && (forall x :: x in pending ==> x < depth)
      && (forall x :: x in outcomes ==> x < depth)
      && (forall x :: x in configPending ==> x < depth)
    }

    function Waiting(x: Level): set<User>
      reads this`pending
    {
      if x in pending then pending[x] else {}
    }

    constructor ()
      ensures Valid() && depth == 0 && evicted == {} && !configEvicted
    {
      depth, pending, outcomes, configPending := 0, map[], map[], {};
      evicted, configEvicted := {}, false;
    }

    method RegisterUsers(users: set<User>)
      requires Valid() && depth > 0
      modifies this`pending
      ensures Valid()
      ensures forall x :: Waiting(x) == if x == depth - 1 then old(Waiting(x)) + users else old(Waiting(x))
    {
      pending := pending[depth - 1 := Waiting(depth - 1) + users];
    }

    method RegisterConfigChange()
      requires Valid() && depth > 0
      modifies this`configPending
      ensures Valid() && configPending == old(configPending) + {depth - 1}
    {
      configPending := configPending + {depth - 1};
    }

    method Begin()
      requires Valid()
      modifies this`depth
      ensures Valid() && depth == old(depth) + 1
    {
      depth := depth + 1;
    }

    /** after_commit and after_rollback */
    method RecordOutcome(committed: bool)
      requires Valid() && depth > 0
      modifies this`outcomes
      ensures Valid() && outcomes == old(outcomes)[depth - 1 := committed]
    {
      outcomes := outcomes[depth - 1 := committed];
    }

    /** after_transaction_end for the innermost transaction: a committed savepoint merges
        into its parent, a committed root publishes, anything else drops. */
    method Resolve()
      requires Valid() && depth > 0
      modifies this
      ensures Valid() && depth == old(depth) - 1
      ensures var top := depth;
        var committed := top in old(outcomes) && old(outcomes)[top];
        var passed := if committed then old(Waiting(top)) else {};
        var config := committed && top in old(configPending);
        if depth > 0 then
          && (forall x: Level :: x < depth ==> Waiting(x) == if x == depth - 1 then old(Waiting(x)) + passed else old(Waiting(x)))
          && (forall x: Level :: x < depth ==> (x in configPending <==> x in old(configPending) || (x == depth - 1 && config)))
          && evicted == old(evicted) && configEvicted == old(configEvicted)
        else
          evicted == old(evicted) + passed && configEvicted == (old(configEvicted) || config)
      ensures forall x :: x in outcomes ==> x in old(outcomes)
    {
      var top := depth - 1;
      var usernames := Waiting(top);
      var outcome := top in outcomes && outcomes[top];
      var changed := top in configPending;
      outcomes, pending, configPending := outcomes - {top}, pending - {top}, configPending - {top};
      depth := top;
      if depth > 0 {
        if outcome && usernames != {} {
          RegisterUsers(usernames);
        }
        if outcome && changed {
          RegisterConfigChange();
        }
        return;
      }
      if outcome && changed {
        configEvicted := true;
      }
      configPending, pending, outcomes := {}, map[], map[];
      if !outcome || usernames == {} {
        return;
      }
      evicted := evicted + usernames;
    }

    /** A whole transaction, savepoints included, as the handlers see it. Nothing is
        published before the root ends; the root publishes exactly what is owed; and no
        entry outlives its transaction. */
    method Execute(t: Txn)
      requires Valid() && outcomes == map[]
      modifies this
      ensures Valid() && outcomes == map[] && depth == old(depth)
      ensures depth == 0 ==>
        evicted == old(evicted) + Passed(t) && configEvicted == (old(configEvicted) || PassedConfig(t))
      ensures depth > 0 ==>
        && evicted == old(evicted) && configEvicted == old(configEvicted)
        && (forall x: Level :: x < depth ==> Waiting(x) == if x == depth - 1 then old(Waiting(x)) + Passed(t) else old(Waiting(x)))
        && (forall x: Level :: x < depth ==> (x in configPending <==> x in old(configPending) || (x == depth - 1 && PassedConfig(t))))
      decreases t
    {
      Begin();
      var top := depth - 1;
      var i := 0;
      while i < |t.acts|
        invariant 0 <= i <= |t.acts|
        invariant Valid() && outcomes == map[] && depth == top + 1
        invariant evicted == old(evicted) && configEvicted == old(configEvicted)
        invariant Waiting(top) == Gathered(t, i) && (top in configPending <==> Touched(t, i))
        invariant forall x: Level :: x < top ==> Waiting(x) == old(Waiting(x)) && (x in configPending <==> x in old(configPending))
      {
        match t.acts[i] {
          case Register(users) => RegisterUsers(users);
          case RegisterConfig => RegisterConfigChange();
          case Nested(sub) => Execute(sub);
        }
        i := i + 1;
      }
      if t.ending.Commit? {
        RecordOutcome(true);
      } else if t.ending.Rollback? {
        RecordOutcome(false);
      }
      Resolve();
    }
  }

  /** A root transaction publishes the users, and the configuration change, of exactly the
      transactions whose whole chain to the root committed; nothing stays pending. */
  method RunRoot(session: Session, t: Txn)
    requires session.Valid() && session.depth == 0
    modifies session
    ensures session.Valid() && session.depth == 0
    ensures session.pending == map[] && session.outcomes == map[] && session.configPending == {}
    ensures forall u :: u in session.evicted <==> u in old(session.evicted) || Owed(t, u)
    ensures session.configEvicted <==> old(session.configEvicted) || ConfigOwed(t)
  {
    assert session.outcomes == map[];
    session.Execute(t);
    forall u ensures u in Passed(t) <==> Owed(t, u) {
      PassedIsOwed(t, u);
    }
    PassedIsOwed(t, "");
  }
}
