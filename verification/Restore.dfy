/** Offline restore with rollback (utils/backup.py, apply_backup) under a fault at any
    file operation. */
module Restore {
  import opened Collections

  type Path = string
  type Content = string

  /** What a path holds; `Special` is a symbolic link or anything not a regular file. */
  datatype Node = File(content: Content) | Special

  type Tree = map<Path, Node>

  function Look(tree: Tree, p: Path): Option<Node> {
    if p in tree then Some(tree[p]) else None
  }

  datatype Outcome =
    | Restored
    | RolledBack
    | Incomplete(failed: set<Path>, retained: map<Path, Path>)

  /** Targets in order, and the prepared source of each that gets new content; the
      others (among them the -wal and -shm files) are to be absent. */
  datatype Plan = Plan(targets: seq<Path>, sources: map<Path, Path>) {
    ghost predicate Valid(tree: Tree) {
      && (forall i, j :: 0 <= i < j < |targets| ==> targets[i] != targets[j])
      && (forall t :: t in sources ==> t in targets && sources[t] !in targets)
      && (forall t :: t in sources ==> sources[t] in tree && tree[sources[t]].File?)
    }

    function Wanted(tree: Tree, t: Path): Option<Node> {
      if t in sources then Look(tree, sources[t]) else None
    }
  }

  /** Temporary names, one per key: fresh, distinct, and not targets. */
  ghost predicate Private(was: Tree, plan: Plan, temps: map<Path, Path>) {
    && (forall t :: t in temps ==> t in plan.targets && temps[t] !in was && temps[t] !in plan.targets)
    && (forall t, u :: t in temps && u in temps && temps[t] == temps[u] ==> t == u)
  }

  /** Private copies that hold what `expected` has at each key. */
  ghost predicate Copies(tree: Tree, was: Tree, plan: Plan, temps: map<Path, Path>, expected: Tree) {
    && Private(was, plan, temps)
    && (forall t :: t in temps ==> t in expected && Look(tree, temps[t]) == Some(expected[t]) && expected[t].File?)
  }

  ghost predicate Unrelated(a: map<Path, Path>, b: map<Path, Path>) {
    forall t, u :: t in a && u in b ==> a[t] != b[u]
  }

  /** Nothing that existed outside the targets has changed. */
  ghost predicate Elsewhere(tree: Tree, was: Tree, plan: Plan) {
    forall p :: p in was && p !in plan.targets ==> Look(tree, p) == Look(was, p)
  }

  ghost predicate Untouched(tree: Tree, was: Tree, plan: Plan) {
    forall t :: t in plan.targets ==> Look(tree, t) == Look(was, t)
  }

  /** The new contents by target. */
  function NewContents(plan: Plan, was: Tree): Tree {
    map t | t in plan.sources && plan.sources[t] in was :: was[plan.sources[t]]
  }

  /** The old tree is still there, target by target and file by file. */
  ghost predicate Grown(tree: Tree, was: Tree, plan: Plan) {
    && (forall p :: p in was ==> Look(tree, p) == Look(was, p))
    && Untouched(tree, was, plan)
  }

  lemma CopiesStay(tree: Tree, next: Tree, was: Tree, plan: Plan, temps: map<Path, Path>, expected: Tree)
    requires Copies(tree, was, plan, temps, expected)
    requires forall t :: t in temps ==> Look(next, temps[t]) == Look(tree, temps[t])
    ensures Copies(next, was, plan, temps, expected)
  {
  }

  lemma CopiesSurvive(tree: Tree, next: Tree, was: Tree, plan: Plan, temps: map<Path, Path>, expected: Tree)
    requires Copies(tree, was, plan, temps, expected)
    requires forall p :: p in tree ==> Look(next, p) == Look(tree, p)
    ensures Copies(next, was, plan, temps, expected)
  {
    assert forall t :: t in temps ==> temps[t] in tree;
  }

  lemma SourceReady(tree: Tree, was: Tree, plan: Plan, t: Path)
    requires plan.Valid(was) && Grown(tree, was, plan) && t in plan.sources
    ensures plan.sources[t] in tree && plan.sources[t] in was && was[plan.sources[t]].File?
    ensures t in NewContents(plan, was) && NewContents(plan, was)[t] == was[plan.sources[t]]
    ensures Look(tree, plan.sources[t]) == Some(was[plan.sources[t]])
  {
    assert Look(tree, plan.sources[t]) == Look(was, plan.sources[t]);
  }

  lemma AllPrepared(plan: Plan, was: Tree, temps: map<Path, Path>)
    requires plan.Valid(was) && forall t :: t in temps ==> t in plan.sources
    requires forall j :: 0 <= j < |plan.targets| && plan.targets[j] in plan.sources ==> plan.targets[j] in temps
    ensures temps.Keys == plan.sources.Keys
  {
    forall t | t in plan.sources ensures t in temps {
      var j :| 0 <= j < |plan.targets| && plan.targets[j] == t;
    }
  }

  /** What a private copy leaves as it was: every path, and every target. */
  ghost predicate OnlyAdded(tree: Tree, next: Tree, plan: Plan) {
    && (forall p :: p in tree ==> Look(next, p) == Look(tree, p))
    && (forall t :: t in plan.targets ==> Look(next, t) == Look(tree, t))
  }

  lemma NothingAdded(tree: Tree, plan: Plan)
    ensures OnlyAdded(tree, tree, plan)
  {
  }

  /** The one path that is there now and was not. */
  ghost predicate NewAt(tree: Tree, next: Tree, plan: Plan, temp: Path) {
    temp !in tree && temp !in plan.targets && forall p :: p in next ==> p in tree || p == temp
  }

  lemma CopyAdded(tree: Tree, next: Tree, was: Tree, plan: Plan, temps: map<Path, Path>, expected: Tree, t: Path, temp: Path)
    requires Grown(tree, was, plan) && Copies(tree, was, plan, temps, expected)
    requires OnlyAdded(tree, next, plan) && NewAt(tree, next, plan, temp) && t in plan.targets
    requires t in expected && expected[t].File? && Look(next, temp) == Some(expected[t])
    ensures Copies(next, was, plan, temps[t := temp], expected)
  {
    assert forall p :: p in was ==> p in tree;
    assert forall u :: u in temps ==> temps[u] in tree;
  }

  lemma UnrelatedAdded(tree: Tree, was: Tree, plan: Plan, a: map<Path, Path>, expected: Tree, b: map<Path, Path>, t: Path, temp: Path)
    requires Unrelated(a, b) && Copies(tree, was, plan, a, expected) && temp !in tree
    ensures Unrelated(a, b[t := temp])
  {
    assert forall u :: u in a ==> a[u] in tree;
  }

  /** Nothing is there but what was, the targets and the given temporaries. */
  ghost predicate Accounted(tree: Tree, was: Tree, plan: Plan, temps: set<Path>) {
    forall p :: p in tree ==> p in was || p in plan.targets || p in temps
  }

  /** The first k targets are as wanted, the others untouched, the copies intact. */
  ghost predicate Applying(tree: Tree, was: Tree, plan: Plan, replacements: map<Path, Path>, originals: map<Path, Path>, k: nat) {
    && k <= |plan.targets|
    && Applied(tree, was, plan, originals, k)
    && (forall i :: 0 <= i < k ==> Look(tree, plan.targets[i]) == plan.Wanted(was, plan.targets[i]))
    && (forall i :: k <= i < |plan.targets| && plan.targets[i] in replacements ==>
          Look(tree, replacements[plan.targets[i]]) == plan.Wanted(was, plan.targets[i]))
  }

  /** Every target that exists is a regular file. */
  ghost predicate AllFiles(was: Tree, plan: Plan) {
    forall t :: t in plan.targets && t in was ==> was[t].File?
  }

  /** Only the first k targets may have changed; every original copy is intact. */
  ghost predicate Applied(tree: Tree, was: Tree, plan: Plan, originals: map<Path, Path>, k: nat) {
    && k <= |plan.targets|
    && Elsewhere(tree, was, plan)
    && Copies(tree, was, plan, originals, was)
    && (forall i :: k <= i < |plan.targets| ==> Look(tree, plan.targets[i]) == Look(was, plan.targets[i]))
  }

  /** What one target's turn may touch: the target and its replacement. */
  ghost predicate Turn(tree: Tree, next: Tree, t: Path, temps: map<Path, Path>) {
    forall p :: p != t && (t in temps ==> p != temps[t]) ==> Look(next, p) == Look(tree, p)
  }

  lemma ApplyTurn(tree: Tree, next: Tree, was: Tree, plan: Plan, replacements: map<Path, Path>, originals: map<Path, Path>, k: nat)
    requires plan.Valid(was) && k < |plan.targets| && Applied(tree, was, plan, originals, k)
    requires Private(was, plan, replacements) && Unrelated(replacements, originals)
    requires Turn(tree, next, plan.targets[k], replacements)
    ensures Applied(next, was, plan, originals, k + 1)
  {
    var t := plan.targets[k];
    forall u | u in originals ensures Look(next, originals[u]) == Look(tree, originals[u]) {
      assert originals[u] !in plan.targets;
    }
    CopiesStay(tree, next, was, plan, originals, was);
  }

  lemma ApplyingTurn(tree: Tree, next: Tree, was: Tree, plan: Plan, replacements: map<Path, Path>, originals: map<Path, Path>, k: nat)
    requires plan.Valid(was) && k < |plan.targets| && Applying(tree, was, plan, replacements, originals, k)
    requires Applied(next, was, plan, originals, k + 1)
    requires Private(was, plan, replacements)
    requires Turn(tree, next, plan.targets[k], replacements)
    requires Look(next, plan.targets[k]) == plan.Wanted(was, plan.targets[k])
    ensures Applying(next, was, plan, replacements, originals, k + 1)
  {
    hide Copies, Applied;
    var t := plan.targets[k];
    forall i | 0 <= i < k ensures Look(next, plan.targets[i]) == plan.Wanted(was, plan.targets[i]) {
      assert plan.targets[i] in plan.targets;
    }
  }

  /** A temporary for a key that has none yet joins the others. */
  lemma AccountedAdded(tree: Tree, next: Tree, was: Tree, plan: Plan, others: set<Path>, temps: map<Path, Path>, t: Path, temp: Path)
    requires Accounted(tree, was, plan, others + temps.Values) && t !in temps
    requires NewAt(tree, next, plan, temp)
    ensures Accounted(next, was, plan, others + temps[t := temp].Values)
  {
    var more := temps[t := temp];
    assert more[t] in more.Values;
    forall u | u in temps ensures temps[u] in more.Values {
      assert more[u] == temps[u];
    }
  }

  lemma AccountedTurn(tree: Tree, next: Tree, was: Tree, plan: Plan, temps: map<Path, Path>, temporaries: set<Path>, t: Path)
    requires Accounted(tree, was, plan, temporaries) && temps.Values <= temporaries && t in plan.targets
    requires Turn(tree, next, t, temps)
    ensures Accounted(next, was, plan, temporaries)
  {
    forall p | p in next ensures p in was || p in plan.targets || p in temporaries {
      assert t in temps ==> temps[t] in temps.Values;
      assert Look(next, p) == Look(tree, p) || p == t || (t in temps && p == temps[t]);
    }
  }

  lemma NothingLeft(tree: Tree, next: Tree, was: Tree, plan: Plan, temporaries: set<Path>)
    requires Accounted(tree, was, plan, temporaries)
    requires forall p :: p in next ==> p in tree && p !in temporaries
    ensures Accounted(next, was, plan, {})
  {
  }

  lemma DistinctTargets(plan: Plan, was: Tree, i: nat)
    requires plan.Valid(was) && i < |plan.targets|
    ensures forall j :: i < j < |plan.targets| ==> plan.targets[j] != plan.targets[i]
  {
  }

  /** The replacements of the first i targets are copied. */
  ghost predicate Preparing(tree: Tree, was: Tree, plan: Plan, temps: map<Path, Path>, i: nat) {
    && i <= |plan.targets|
    && Grown(tree, was, plan) && Copies(tree, was, plan, temps, NewContents(plan, was))
    && Accounted(tree, was, plan, {} + temps.Values)
    && (forall t :: t in temps ==> t in plan.sources)
    && (forall j :: 0 <= j < i && plan.targets[j] in plan.sources ==> plan.targets[j] in temps)
    && (forall j :: i <= j < |plan.targets| ==> plan.targets[j] !in temps)
  }

  lemma PreparingStarts(tree: Tree, plan: Plan, temps: map<Path, Path>)
    requires forall t :: t !in temps
    ensures Preparing(tree, tree, plan, temps, 0)
  {
  }

  lemma PreparingSource(tree: Tree, was: Tree, plan: Plan, temps: map<Path, Path>, i: nat)
    requires plan.Valid(was) && Preparing(tree, was, plan, temps, i) && i < |plan.targets| && plan.targets[i] in plan.sources
    ensures var source := plan.sources[plan.targets[i]]; source in tree && tree[source].File?
  {
    hide Copies, Accounted;
    SourceReady(tree, was, plan, plan.targets[i]);
  }

  lemma PreparingEnds(tree: Tree, was: Tree, plan: Plan, temps: map<Path, Path>)
    requires plan.Valid(was) && Preparing(tree, was, plan, temps, |plan.targets|)
    ensures Grown(tree, was, plan) && Copies(tree, was, plan, temps, NewContents(plan, was))
    ensures temps.Keys == plan.sources.Keys && Accounted(tree, was, plan, {} + temps.Values)
  {
    hide Copies, Accounted, Grown;
    AllPrepared(plan, was, temps);
  }

  lemma PreparingSkips(tree: Tree, was: Tree, plan: Plan, temps: map<Path, Path>, i: nat)
    requires Preparing(tree, was, plan, temps, i) && i < |plan.targets| && plan.targets[i] !in plan.sources
    ensures Preparing(tree, was, plan, temps, i + 1)
  {
    hide Copies, Accounted;
  }

  lemma PreparingFails(tree: Tree, next: Tree, was: Tree, plan: Plan, temps: map<Path, Path>, i: nat)
    requires Preparing(tree, was, plan, temps, i) && OnlyAdded(tree, next, plan)
    ensures Grown(next, was, plan) && Copies(next, was, plan, temps, NewContents(plan, was))
  {
    hide Accounted;
    CopiesSurvive(tree, next, was, plan, temps, NewContents(plan, was));
    hide Copies;
  }

  lemma PreparingStep(tree: Tree, next: Tree, was: Tree, plan: Plan, temps: map<Path, Path>, i: nat, temp: Path)
    requires plan.Valid(was) && i < |plan.targets| && plan.targets[i] in plan.sources
    requires Preparing(tree, was, plan, temps, i) && OnlyAdded(tree, next, plan)
    requires NewAt(tree, next, plan, temp) && Look(next, temp) == Look(tree, plan.sources[plan.targets[i]])
    ensures Preparing(next, was, plan, temps[plan.targets[i] := temp], i + 1)
  {
    var t := plan.targets[i];
    hide Copies, Accounted, OnlyAdded, NewAt;
    SourceReady(tree, was, plan, t);
    DistinctTargets(plan, was, i);
    PreparingFails(tree, next, was, plan, temps, i);
    CopyAdded(tree, next, was, plan, temps, NewContents(plan, was), t, temp);
    AccountedAdded(tree, next, was, plan, {}, temps, t, temp);
    hide NewContents, Plan.Valid, Grown;
  }

  /** The first i targets that exist are copied aside, the replacements are in place. */
  ghost predicate Keeping(tree: Tree, was: Tree, plan: Plan, replacements: map<Path, Path>, originals: map<Path, Path>, i: nat) {
    && i <= |plan.targets|
    && Grown(tree, was, plan) && Copies(tree, was, plan, replacements, NewContents(plan, was))
    && Copies(tree, was, plan, originals, was) && Unrelated(replacements, originals)
    && Accounted(tree, was, plan, replacements.Values + originals.Values)
    && (forall j :: 0 <= j < i && plan.targets[j] in was ==> plan.targets[j] in originals)
    && (forall j :: i <= j < |plan.targets| ==> plan.targets[j] !in originals)
  }

  lemma KeepingStarts(tree: Tree, was: Tree, plan: Plan, replacements: map<Path, Path>, originals: map<Path, Path>)
    requires Grown(tree, was, plan) && Copies(tree, was, plan, replacements, NewContents(plan, was))
    requires Accounted(tree, was, plan, {} + replacements.Values) && forall t :: t !in originals
    ensures Keeping(tree, was, plan, replacements, originals, 0)
  {
  }

  lemma KeepingTarget(tree: Tree, was: Tree, plan: Plan, replacements: map<Path, Path>, originals: map<Path, Path>, i: nat)
    requires Keeping(tree, was, plan, replacements, originals, i) && i < |plan.targets|
    ensures plan.targets[i] in tree <==> plan.targets[i] in was
    ensures plan.targets[i] in tree ==> tree[plan.targets[i]] == was[plan.targets[i]]
    ensures plan.targets[i] in was && !was[plan.targets[i]].File? ==> !AllFiles(was, plan)
  {
    hide Copies, Accounted, Unrelated;
    assert Look(tree, plan.targets[i]) == Look(was, plan.targets[i]);
  }

  lemma KeepingSkips(tree: Tree, was: Tree, plan: Plan, replacements: map<Path, Path>, originals: map<Path, Path>, i: nat)
    requires Keeping(tree, was, plan, replacements, originals, i) && i < |plan.targets| && plan.targets[i] !in was
    ensures Keeping(tree, was, plan, replacements, originals, i + 1)
  {
    hide Copies, Accounted, Unrelated, Grown;
  }

  lemma KeepingFails(tree: Tree, next: Tree, was: Tree, plan: Plan, replacements: map<Path, Path>, originals: map<Path, Path>, i: nat)
    requires Keeping(tree, was, plan, replacements, originals, i) && OnlyAdded(tree, next, plan)
    ensures Grown(next, was, plan) && Unrelated(replacements, originals)
    ensures Copies(next, was, plan, replacements, NewContents(plan, was)) && Copies(next, was, plan, originals, was)
  {
    hide Accounted, Unrelated;
    CopiesSurvive(tree, next, was, plan, replacements, NewContents(plan, was));
    CopiesSurvive(tree, next, was, plan, originals, was);
    hide Copies;
  }

  lemma KeepingStep(tree: Tree, next: Tree, was: Tree, plan: Plan, replacements: map<Path, Path>, originals: map<Path, Path>, i: nat, temp: Path)
    requires plan.Valid(was) && i < |plan.targets| && plan.targets[i] in was && was[plan.targets[i]].File?
    requires Keeping(tree, was, plan, replacements, originals, i) && OnlyAdded(tree, next, plan)
    requires NewAt(tree, next, plan, temp) && Look(next, temp) == Look(tree, plan.targets[i])
    ensures Keeping(next, was, plan, replacements, originals[plan.targets[i] := temp], i + 1)
  {
    var t := plan.targets[i];
    assert Look(tree, t) == Look(was, t);
    hide Copies, Accounted, Unrelated, NewContents;
    DistinctTargets(plan, was, i);
    KeepingFails(tree, next, was, plan, replacements, originals, i);
    CopyAdded(tree, next, was, plan, originals, was, t, temp);
    UnrelatedAdded(tree, was, plan, replacements, NewContents(plan, was), originals, t, temp);
    AccountedAdded(tree, next, was, plan, replacements.Values, originals, t, temp);
    hide Plan.Valid, Grown;
  }

  lemma KeepingEnds(tree: Tree, was: Tree, plan: Plan, replacements: map<Path, Path>, originals: map<Path, Path>)
    requires Keeping(tree, was, plan, replacements, originals, |plan.targets|)
    ensures forall t :: t in plan.targets && t in was ==> t in originals
    ensures Grown(tree, was, plan) && Copies(tree, was, plan, replacements, NewContents(plan, was))
    ensures Copies(tree, was, plan, originals, was) && Unrelated(replacements, originals)
    ensures Accounted(tree, was, plan, replacements.Values + originals.Values)
  {
    hide Copies, Accounted, Unrelated, Grown;
  }

  class FileSystem {
    var tree: Tree
    /** Failed operations so far. */
    ghost var faults: nat

    // -------------------------------------------------------------------------
    // Operations, each of which may fail
    // -------------------------------------------------------------------------

    /** tempfile.mkstemp: a new name, never one of the plan's targets. */
    method MakeTemp(plan: Plan) returns (name: Option<Path>)
      modifies this
      ensures name.None? ==> tree == old(tree)
      ensures faults == old(faults) + if name.None? then 1 else 0
      ensures name.Some? ==> name.value !in old(tree) && name.value !in plan.targets && tree == old(tree)[name.value := File("")]
    {
      var candidate: Path := *;
      if candidate in tree || candidate in plan.targets {
        faults := faults + 1;
        return None;
      }
      tree := tree[candidate := File("")];
      name := Some(candidate);
    }

    /** shutil.copyfile: a failure may leave the destination partly written. */
    method CopyFile(source: Path, target: Path) returns (ok: bool)
      requires source != target
      modifies this
      ensures ok ==> source in old(tree) && old(tree)[source].File? && tree == old(tree)[target := old(tree)[source]]
      ensures !ok ==> forall p :: p != target ==> Look(tree, p) == Look(old(tree), p)
      ensures source in old(tree) && old(tree)[source].File? ==> faults == old(faults) + if ok then 0 else 1
      ensures old(faults) <= faults
    {
      var fault, garbage: Content := *, *;
      if source !in tree || !tree[source].File? || fault == "open" {
        faults := faults + 1;
        return false;
      }
      if fault == "write" {
        tree := tree[target := File(garbage)];
        faults := faults + 1;
        return false;
      }
      tree := tree[target := tree[source]];
      ok := true;
    }

    /** _replace_offline: an atomic rename, or a copy onto a busy file mount. */
    method ReplaceOffline(source: Path, target: Path) returns (ok: bool)
      requires source != target && source in tree && tree[source].File?
      modifies this
      ensures ok ==> Look(tree, target) == Some(old(tree)[source])
      ensures forall p :: p != target && p != source ==> Look(tree, p) == Look(old(tree), p)
      ensures !ok ==> Look(tree, source) == Look(old(tree), source)
      ensures faults == old(faults) + if ok then 0 else 1
    {
      var renamed, busy: bool := *, *;
      if renamed {
        tree := (tree - {source})[target := tree[source]];
        return true;
      }
      if !busy {
        faults := faults + 1;
        return false;
      }
      ok := CopyFile(source, target);
    }

    /** Path.unlink(missing_ok=True) */
    method Unlink(p: Path) returns (ok: bool)
      modifies this
      ensures tree == if ok then old(tree) - {p} else old(tree)
      ensures faults == old(faults) + if ok then 0 else 1
    {
      ok := *;
      if ok {
        tree := tree - {p};
      } else {
        faults := faults + 1;
      }
    }

    // -------------------------------------------------------------------------
    // Prepare
    // -------------------------------------------------------------------------

    /** A private copy of `source` for `target`; a failed one is left behind. */
    method PrepareCopy(plan: Plan, source: Path) returns (temp: Option<Path>)
      requires source in tree
      modifies this
      ensures OnlyAdded(old(tree), tree, plan)
      ensures temp.Some? ==> NewAt(old(tree), tree, plan, temp.value)
      ensures temp.Some? ==> Look(tree, temp.value) == Look(old(tree), source) && old(tree)[source].File?
      ensures old(tree)[source].File? ==> faults == old(faults) + if temp.Some? then 0 else 1
      ensures old(faults) <= faults
    {
      var name := MakeTemp(plan);
      if name.None? {
        return None;
      }
      var ok := CopyFile(source, name.value);
      temp := if ok then name else None;
    }

    /** Prepare every replacement before the first target changes. */
    method PrepareReplacements(plan: Plan) returns (temps: map<Path, Path>, ok: bool)
      requires plan.Valid(tree)
      modifies this
      ensures Grown(tree, old(tree), plan)
      ensures Copies(tree, old(tree), plan, temps, NewContents(plan, old(tree)))
      ensures ok ==> temps.Keys == plan.sources.Keys && Accounted(tree, old(tree), plan, {} + temps.Values)
      ensures faults == old(faults) + if ok then 0 else 1
    {
      ghost var was := tree;
      temps := map[];
      PreparingStarts(was, plan, temps);
      hide Preparing, Grown, Copies, NewContents, Accounted, OnlyAdded, NewAt;
      var i := 0;
      while i < |plan.targets|
        invariant 0 <= i <= |plan.targets|
        invariant Preparing(tree, was, plan, temps, i)
        invariant faults == old(faults)
      {
        var t := plan.targets[i];
        if t in plan.sources {
          PreparingSource(tree, was, plan, temps, i);
          ghost var before := tree;
          var temp := PrepareCopy(plan, plan.sources[t]);
          if temp.None? {
            PreparingFails(before, tree, was, plan, temps, i);
            return temps, false;
          }
          PreparingStep(before, tree, was, plan, temps, i, temp.value);
          temps := temps[t := temp.value];
        } else {
          PreparingSkips(tree, was, plan, temps, i);
        }
        i := i + 1;
      }
      PreparingEnds(tree, was, plan, temps);
      ok := true;
    }

    /** Copy every existing target aside; anything but a regular file stops here. */
    method KeepOriginals(plan: Plan, ghost was: Tree, replacements: map<Path, Path>)
      returns (originals: map<Path, Path>, ok: bool)
      requires plan.Valid(was) && Grown(tree, was, plan) && Accounted(tree, was, plan, {} + replacements.Values)
      requires Copies(tree, was, plan, replacements, NewContents(plan, was))
      modifies this
      ensures Grown(tree, was, plan)
      ensures Copies(tree, was, plan, replacements, NewContents(plan, was))
      ensures Copies(tree, was, plan, originals, was)
      ensures Unrelated(replacements, originals)
      ensures ok ==> forall t :: t in plan.targets && t in was ==> t in originals
      ensures ok ==> Accounted(tree, was, plan, replacements.Values + originals.Values)
      ensures ok ==> faults == old(faults)
      ensures !ok && AllFiles(was, plan) ==> faults == old(faults) + 1
      ensures old(faults) <= faults
    {
      originals := map[];
      KeepingStarts(tree, was, plan, replacements, originals);
      hide Keeping, Grown, Copies, Unrelated, NewContents, Accounted, Plan.Valid, AllFiles, OnlyAdded, NewAt, Look;
      var i := 0;
      while i < |plan.targets|
        invariant 0 <= i <= |plan.targets|
        invariant Keeping(tree, was, plan, replacements, originals, i)
        invariant faults == old(faults)
      {
        var t := plan.targets[i];
        KeepingTarget(tree, was, plan, replacements, originals, i);
        if t in tree {
          ghost var before := tree;
          if tree[t].Special? {
            NothingAdded(tree, plan);
            KeepingFails(before, tree, was, plan, replacements, originals, i);
            return originals, false;
          }
          var temp := PrepareCopy(plan, t);
          if temp.None? {
            KeepingFails(before, tree, was, plan, replacements, originals, i);
            return originals, false;
          }
          KeepingStep(before, tree, was, plan, replacements, originals, i, temp.value);
          originals := originals[t := temp.value];
        } else {
          KeepingSkips(tree, was, plan, replacements, originals, i);
        }
        i := i + 1;
      }
      KeepingEnds(tree, was, plan, replacements, originals);
      ok := true;
    }

    // -------------------------------------------------------------------------
    // Apply, roll back, clean up
    // -------------------------------------------------------------------------

    /** Put one target in its wanted state; a failure may leave it in any state. */
    method ApplyTarget(t: Path, temps: map<Path, Path>) returns (ok: bool)
      requires t in temps ==> temps[t] != t && temps[t] in tree && tree[temps[t]].File?
      modifies this
      ensures Turn(old(tree), tree, t, temps)
      ensures ok ==> Look(tree, t) == if t in temps then Look(old(tree), temps[t]) else None
      ensures !ok && t in temps ==> Look(tree, temps[t]) == Look(old(tree), temps[t])
      ensures faults == old(faults) + if ok then 0 else 1
    {
      if t in temps {
        ok := ReplaceOffline(temps[t], t);
      } else {
        ok := Unlink(t);
      }
    }

    method ApplyTargets(plan: Plan, ghost was: Tree, replacements: map<Path, Path>, ghost originals: map<Path, Path>, ghost temporaries: set<Path>)
      returns (applied: nat, ok: bool)
      requires Accounted(tree, was, plan, temporaries) && replacements.Values <= temporaries
      requires plan.Valid(was) && Private(was, plan, replacements) && Unrelated(replacements, originals)
      requires Applying(tree, was, plan, replacements, originals, 0)
      requires replacements.Keys == plan.sources.Keys
      modifies this
      ensures Applied(tree, was, plan, originals, applied)
      ensures ok ==> Applying(tree, was, plan, replacements, originals, |plan.targets|)
      ensures Accounted(tree, was, plan, temporaries)
      ensures faults == old(faults) + if ok then 0 else 1
    {
      applied := 0;
      hide Unrelated, Private, Turn, Applied, Applying, Accounted;
      AppliedLength(tree, was, plan, replacements, originals, applied);
      while applied < |plan.targets|
        invariant applied <= |plan.targets|
        invariant Applying(tree, was, plan, replacements, originals, applied)
        invariant Accounted(tree, was, plan, temporaries)
        invariant faults == old(faults)
      {
        var t := plan.targets[applied];
        ghost var before := tree;
        TurnReady(tree, was, plan, replacements, originals, applied);
        ok := ApplyTarget(t, replacements);
        AppliedLength(before, was, plan, replacements, originals, applied);
        ApplyTurn(before, tree, was, plan, replacements, originals, applied);
        AccountedTurn(before, tree, was, plan, replacements, temporaries, t);
        if ok {
          ApplyingTurn(before, tree, was, plan, replacements, originals, applied);
        }
        applied := applied + 1;
        if !ok {
          return;
        }
      }
      ok := true;
      AppliedLength(tree, was, plan, replacements, originals, applied);
    }

    /** Undo the first `applied` targets, last first; a target that cannot be undone keeps
        its original copy. */
    method Rollback(plan: Plan, ghost was: Tree, originals: map<Path, Path>, applied: nat)
      returns (failed: set<Path>, retained: map<Path, Path>)
      requires plan.Valid(was) && applied <= |plan.targets|
      requires RollingBack(tree, was, plan, originals, {}, map[], applied)
      requires Private(was, plan, originals) && OriginalsAreFiles(was, originals)
      modifies this
      ensures RollingBack(tree, was, plan, originals, failed, retained, 0)
      ensures forall t :: t in retained ==> t in originals && retained[t] == originals[t]
      ensures faults == old(faults) <==> failed == {}
      ensures |failed| <= faults - old(faults) && forall t :: t in retained ==> t in failed
    {
      failed, retained := {}, map[];
      var k := applied;
      hide Private, OriginalsAreFiles, RollingBack, Turn;
      while k > 0
        invariant 0 <= k <= |plan.targets|
        invariant RollingBack(tree, was, plan, originals, failed, retained, k)
        invariant |failed| <= faults - old(faults) && (faults == old(faults) <==> failed == {})
        invariant forall t :: t in retained ==> t in failed
        invariant forall t :: t in retained ==> t in originals && retained[t] == originals[t]
      {
        k := k - 1;
        var t := plan.targets[k];
        ghost var before, missed, kept := tree, failed, retained;
        UndoReady(tree, was, plan, originals, failed, retained, k);
        var ok := ApplyTarget(t, originals);
        if !ok {
          failed := failed + {t};
          if t in originals {
            retained := retained[t := originals[t]];
          }
        }
        UndoTurn(before, tree, was, plan, originals, missed, kept, failed, retained, k, ok);
      }
    }

    /** Drop every temporary that is not retained; a failed unlink is ignored. */
    method Cleanup(temporaries: set<Path>)
      modifies this
      ensures forall p :: p !in temporaries ==> Look(tree, p) == Look(old(tree), p)
      ensures forall p :: p in tree ==> p in old(tree)
      ensures faults == old(faults) ==> forall p :: p in temporaries ==> p !in tree
      ensures old(faults) <= faults
    {
      var todo := temporaries;
      while todo != {}
        invariant todo <= temporaries
        invariant forall p :: p !in temporaries ==> Look(tree, p) == Look(old(tree), p)
        invariant forall p :: p in tree ==> p in old(tree)
        invariant faults == old(faults) ==> forall p :: p in temporaries && p !in todo ==> p !in tree
        invariant old(faults) <= faults
        decreases |todo|
      {
        var p :| p in todo;
        todo := todo - {p};
        var ok := Unlink(p);
      }
    }

    /** All or nothing, with a fault possible at every operation: without a fault the
        plan is applied and no temporary is left, and no single fault can leave the
        rollback incomplete. */
    method ApplyBackup(plan: Plan) returns (outcome: Outcome)
      requires plan.Valid(tree)
      modifies this
      ensures Elsewhere(tree, old(tree), plan)
      ensures outcome.Restored? ==> forall t :: t in plan.targets ==> Look(tree, t) == plan.Wanted(old(tree), t)
      ensures outcome.RolledBack? ==> Untouched(tree, old(tree), plan)
      ensures outcome.Incomplete? ==> 0 < |outcome.failed| && forall t :: t in plan.targets ==>
        RestoredOrKept(tree, old(tree), t, outcome.failed, outcome.retained)
      ensures faults == old(faults) && AllFiles(old(tree), plan) ==> outcome.Restored?
      ensures outcome.Restored? && faults == old(faults) ==> Accounted(tree, old(tree), plan, {})
      ensures outcome.Incomplete? ==> faults >= old(faults) + 1 + |outcome.failed| && forall t :: t in outcome.retained ==> t in outcome.failed
    {
      ghost var was := tree;
      var replacements, prepared := PrepareReplacements(plan);
      if !prepared {
        TemporariesAreOurs(tree, was, plan, replacements, NewContents(plan, was));
        Cleanup(replacements.Values);
        return RolledBack;
      }
      var originals, kept := KeepOriginals(plan, was, replacements);
      TemporariesAreOurs(tree, was, plan, replacements, NewContents(plan, was));
      TemporariesAreOurs(tree, was, plan, originals, was);
      var temporaries := replacements.Values + originals.Values;
      if !kept {
        Cleanup(temporaries);
        return RolledBack;
      }
      ReadyToApply(tree, was, plan, replacements, originals);
      hide Copies, Unrelated, Applying, Applied, RollingBack, OriginalsAreFiles, Accounted;
      var applied, ok := ApplyTargets(plan, was, replacements, originals, temporaries);
      ghost var after := tree;
      if ok {
        Cleanup(temporaries);
        AllApplied(after, tree, was, plan, replacements, originals, temporaries);
        if faults == old(faults) {
          NothingLeft(after, tree, was, plan, temporaries);
        }
        return Restored;
      }
      ReadyToUndo(tree, was, plan, originals, applied);
      var failed, retained := Rollback(plan, was, originals, applied);
      after := tree;
      Cleanup(temporaries - retained.Values);
      AllUndone(after, tree, was, plan, originals, failed, retained, temporaries);
      outcome := if failed == {} then RolledBack else Incomplete(failed, retained);
    }
  }

  ghost predicate OriginalsAreFiles(was: Tree, originals: map<Path, Path>) {
    forall t :: t in originals ==> t in was && was[t].File?
  }

  /** If t existed, the copy named for it holds what it had. */
  ghost predicate Recoverable(tree: Tree, was: Tree, t: Path, copies: map<Path, Path>) {
    t in was ==> t in copies && Look(tree, copies[t]) == Look(was, t)
  }

  /** t is as it was, or reported failed with its original still at the retained copy. */
  ghost predicate RestoredOrKept(tree: Tree, was: Tree, t: Path, failed: set<Path>, retained: map<Path, Path>) {
    Look(tree, t) == Look(was, t) || (t in failed && Recoverable(tree, was, t, retained))
  }

  /** Targets from k on are settled; those before k can still be recovered. */
  ghost predicate RollingBack(tree: Tree, was: Tree, plan: Plan, originals: map<Path, Path>, failed: set<Path>, retained: map<Path, Path>, k: nat) {
    && k <= |plan.targets|
    && Elsewhere(tree, was, plan)
    && (forall i :: 0 <= i < k ==> Recoverable(tree, was, plan.targets[i], originals))
    && (forall t :: t in originals ==> t in was)
    && (forall i :: k <= i < |plan.targets| ==> RestoredOrKept(tree, was, plan.targets[i], failed, retained))
    && (forall t :: t in retained ==> t in originals && retained[t] == originals[t])
  }

  lemma UndoReady(tree: Tree, was: Tree, plan: Plan, originals: map<Path, Path>, failed: set<Path>, retained: map<Path, Path>, k: nat)
    requires Private(was, plan, originals) && OriginalsAreFiles(was, originals)
    requires RollingBack(tree, was, plan, originals, failed, retained, k + 1)
    ensures var t := plan.targets[k];
      t in originals ==> originals[t] != t && originals[t] in tree && tree[originals[t]].File?
  {
    var t := plan.targets[k];
    assert Recoverable(tree, was, t, originals);
  }

  lemma UndoTurn(tree: Tree, next: Tree, was: Tree, plan: Plan, originals: map<Path, Path>, missed: set<Path>, kept: map<Path, Path>, failed: set<Path>, retained: map<Path, Path>, k: nat, ok: bool)
    requires plan.Valid(was) && Private(was, plan, originals)
    requires RollingBack(tree, was, plan, originals, missed, kept, k + 1)
    requires Turn(tree, next, plan.targets[k], originals)
    requires var t := plan.targets[k];
      if ok then
        failed == missed && retained == kept
        && Look(next, t) == if t in originals then Look(tree, originals[t]) else None
      else
        failed == missed + {t}
        && (if t in originals then retained == kept[t := originals[t]] && Look(next, originals[t]) == Look(tree, originals[t])
            else retained == kept)
    ensures RollingBack(next, was, plan, originals, failed, retained, k)
  {
    var t := plan.targets[k];
    assert Recoverable(tree, was, t, originals);
    forall i | 0 <= i < |plan.targets| && i != k
      ensures Look(next, plan.targets[i]) == Look(tree, plan.targets[i])
      ensures plan.targets[i] in originals ==> Look(next, originals[plan.targets[i]]) == Look(tree, originals[plan.targets[i]])
    {
      assert plan.targets[i] in plan.targets;
      assert plan.targets[i] != t;
    }
    forall i | 0 <= i < k ensures Recoverable(next, was, plan.targets[i], originals) {
      assert Recoverable(tree, was, plan.targets[i], originals);
    }
    forall i | k <= i < |plan.targets| ensures RestoredOrKept(next, was, plan.targets[i], failed, retained) {
      assert i != k ==> RestoredOrKept(tree, was, plan.targets[i], missed, kept);
    }
  }

  lemma ReadyToApply(tree: Tree, was: Tree, plan: Plan, replacements: map<Path, Path>, originals: map<Path, Path>)
    requires plan.Valid(was) && Grown(tree, was, plan)
    requires Copies(tree, was, plan, replacements, NewContents(plan, was)) && replacements.Keys == plan.sources.Keys
    requires Copies(tree, was, plan, originals, was)
    requires forall t :: t in plan.targets && t in was ==> t in originals
    ensures Applying(tree, was, plan, replacements, originals, 0)
    ensures OriginalsAreFiles(was, originals)
    ensures Private(was, plan, replacements) && Private(was, plan, originals)
  {
  }

  lemma ReadyToUndo(tree: Tree, was: Tree, plan: Plan, originals: map<Path, Path>, applied: nat)
    requires Applied(tree, was, plan, originals, applied)
    requires forall t :: t in plan.targets && t in was ==> t in originals
    ensures RollingBack(tree, was, plan, originals, {}, map[], applied)
  {
    forall i | 0 <= i < applied ensures Recoverable(tree, was, plan.targets[i], originals) {
      assert plan.targets[i] in plan.targets;
    }
  }

  /** No temporary is a target or existed before. */
  lemma TemporariesAreOurs(tree: Tree, was: Tree, plan: Plan, temps: map<Path, Path>, expected: Tree)
    requires Copies(tree, was, plan, temps, expected)
    ensures forall p :: p in temps.Values ==> p !in was && p !in plan.targets
  {
  }

  lemma AllApplied(after: Tree, tree: Tree, was: Tree, plan: Plan, replacements: map<Path, Path>, originals: map<Path, Path>, temporaries: set<Path>)
    requires Applying(after, was, plan, replacements, originals, |plan.targets|)
    requires forall p :: p !in temporaries ==> Look(tree, p) == Look(after, p)
    requires forall p :: p in temporaries ==> p !in was && p !in plan.targets
    ensures Elsewhere(tree, was, plan)
    ensures forall t :: t in plan.targets ==> Look(tree, t) == plan.Wanted(was, t)
  {
    forall t | t in plan.targets ensures Look(tree, t) == plan.Wanted(was, t) {
      var i :| 0 <= i < |plan.targets| && plan.targets[i] == t;
      assert Look(after, plan.targets[i]) == plan.Wanted(was, plan.targets[i]);
    }
  }

  lemma AllUndone(after: Tree, tree: Tree, was: Tree, plan: Plan, originals: map<Path, Path>, failed: set<Path>, retained: map<Path, Path>, temporaries: set<Path>)
    requires RollingBack(after, was, plan, originals, failed, retained, 0)
    requires forall p :: p !in temporaries || p in retained.Values ==> Look(tree, p) == Look(after, p)
    requires forall p :: p in temporaries ==> p !in was && p !in plan.targets
    ensures Elsewhere(tree, was, plan)
    ensures forall t :: t in plan.targets ==> RestoredOrKept(tree, was, t, failed, retained)
    ensures |failed| == 0 ==> Untouched(tree, was, plan)
  {
    forall t | t in plan.targets ensures RestoredOrKept(tree, was, t, failed, retained) {
      var i :| 0 <= i < |plan.targets| && plan.targets[i] == t;
      assert RestoredOrKept(after, was, plan.targets[i], failed, retained);
      assert t in retained ==> retained[t] in retained.Values;
    }
  }

  lemma AppliedLength(tree: Tree, was: Tree, plan: Plan, replacements: map<Path, Path>, originals: map<Path, Path>, k: nat)
    requires Applying(tree, was, plan, replacements, originals, k)
    ensures k <= |plan.targets| && Applied(tree, was, plan, originals, k)
  {
  }

  /** The replacement of the next target is in place. */
  lemma TurnReady(tree: Tree, was: Tree, plan: Plan, replacements: map<Path, Path>, originals: map<Path, Path>, k: nat)
    requires plan.Valid(was) && Private(was, plan, replacements) && replacements.Keys == plan.sources.Keys
    requires Applying(tree, was, plan, replacements, originals, k) && k < |plan.targets|
    ensures var t := plan.targets[k];
      if t in replacements then
        replacements[t] != t && replacements[t] in tree && tree[replacements[t]].File?
        && Look(tree, replacements[t]) == plan.Wanted(was, t)
      else plan.Wanted(was, t) == None
  {
    var t := plan.targets[k];
    assert t in plan.targets;
    assert t in replacements ==> Look(tree, replacements[t]) == plan.Wanted(was, t);
  }
}
