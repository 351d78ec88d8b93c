/** The breaker-gated lookup of many users' addresses (utils/ip_source_api.py,
    _fetch_all_online_ips). The environment (clock, breaker, panel answers, monitoring
    gate) is a script of rounds, of any length. */
module FanOut {
  import opened Collections

  datatype Target = Target(name: string, id: int)

  datatype TimeoutKind = ReadTimeout | ConnectTimeout | PoolTimeout | WriteTimeout | UnknownTimeout

  datatype Outcome =
    | Ok(payload: string)
    | Deferred
    | Invalid
    | NotFound
    | Forbidden
    | Unauthorized
    | TimedOut(kind: TimeoutKind)
    | OtherFailure

  /** How a finished task reads: an exception or an obsolete lookup has no item.
      `current` is the gate at that moment. */
  datatype Reply = Reply(item: Option<Outcome>, current: bool)

  datatype Breaker = Closed | Open(recovery: real) | HalfOpen

  /** One turn of the loop: the gate and the breaker as read, the time a sleep took, and
      the reply, if any, of each task in flight. */
  datatype Round = Round(current: bool, breaker: Breaker, slept: real, replies: seq<Option<Reply>>)

  /** read, connect, pool and write timeouts */
  datatype Kinds = Kinds(read: nat, connect: nat, pool: nat, write: nat)

  datatype Counters = Counters(
    ok: nat, invalid: nat, notFound: nat, forbidden: nat, failed: nat,
    unauthorized: nat, timedOut: nat, kinds: Kinds)

  const ZERO := Counters(0, 0, 0, 0, 0, 0, 0, Kinds(0, 0, 0, 0))

  function Settled(c: Counters): nat {
    c.ok + c.invalid + c.notFound + c.forbidden + c.failed
  }

  datatype Tag = IsOk | IsInvalid | IsNotFound | IsForbidden | IsUnauthorized | IsTimeout(kind: TimeoutKind) | IsOther

  function TagOf(outcome: Outcome): Tag
    requires !outcome.Deferred?
  {
    match outcome
    case Ok(_) => IsOk
    case Invalid => IsInvalid
    case NotFound => IsNotFound
    case Forbidden => IsForbidden
    case Unauthorized => IsUnauthorized
    case TimedOut(kind) => IsTimeout(kind)
    case OtherFailure => IsOther
  }

  function Times(seen: seq<Tag>, tag: Tag): nat {
    if |seen| == 0 then 0
    else Times(seen[..|seen| - 1], tag) + if seen[|seen| - 1] == tag then 1 else 0
  }

  /** The counters are those of the outcomes seen; an unauthorized or timed-out lookup is
      a failed one, and every timeout of a known kind is counted under it. */
  ghost predicate Consistent(c: Counters, seen: seq<Tag>) {
    && c.ok == Times(seen, IsOk) && c.invalid == Times(seen, IsInvalid) && c.notFound == Times(seen, IsNotFound)
    && c.forbidden == Times(seen, IsForbidden) && c.unauthorized == Times(seen, IsUnauthorized)
    && c.failed == c.unauthorized + c.timedOut + Times(seen, IsOther)
    && c.kinds.read == Times(seen, IsTimeout(ReadTimeout)) && c.kinds.connect == Times(seen, IsTimeout(ConnectTimeout))
    && c.kinds.pool == Times(seen, IsTimeout(PoolTimeout)) && c.kinds.write == Times(seen, IsTimeout(WriteTimeout))
    && c.timedOut == c.kinds.read + c.kinds.connect + c.kinds.pool + c.kinds.write + Times(seen, IsTimeout(UnknownTimeout))
  }

  function Counted(c: Counters, tag: Tag): Counters {
    match tag
    case IsOk => c.(ok := c.ok + 1)
    case IsInvalid => c.(invalid := c.invalid + 1)
    case IsNotFound => c.(notFound := c.notFound + 1)
    case IsForbidden => c.(forbidden := c.forbidden + 1)
    case IsUnauthorized => c.(unauthorized := c.unauthorized + 1, failed := c.failed + 1)
    case IsOther => c.(failed := c.failed + 1)
    case IsTimeout(kind) => c.(failed := c.failed + 1, timedOut := c.timedOut + 1, kinds := CountedKind(c.kinds, kind))
  }

  function CountedKind(k: Kinds, kind: TimeoutKind): Kinds {
    match kind
    case ReadTimeout => k.(read := k.read + 1)
    case ConnectTimeout => k.(connect := k.connect + 1)
    case PoolTimeout => k.(pool := k.pool + 1)
    case WriteTimeout => k.(write := k.write + 1)
    case UnknownTimeout => k
  }

  lemma TimesNext(seen: seq<Tag>, tag: Tag, t: Tag)
    ensures Times(seen + [tag], t) == Times(seen, t) + if tag == t then 1 else 0
  {
    assert (seen + [tag])[..|seen|] == seen;
  }

  lemma CountedIsConsistent(c: Counters, seen: seq<Tag>, tag: Tag)
    requires Consistent(c, seen)
    ensures Consistent(Counted(c, tag), seen + [tag])
    ensures Settled(Counted(c, tag)) == Settled(c) + 1
  {
    hide Times;
    forall t ensures Times(seen + [tag], t) == Times(seen, t) + if tag == t then 1 else 0 {
      TimesNext(seen, tag, t);
    }
  }

  type Payloads = map<string, string>

  /** A lookup that was counted, and how it ended. */
  datatype Answer = Answer(target: Target, outcome: Outcome)

  /** The payloads and the missing users the answers leave behind, the later over the
      earlier. */
  function Gathered(answers: seq<Answer>): Payloads {
    if |answers| == 0 then map[]
    else WithPayload(Gathered(answers[..|answers| - 1]), answers[|answers| - 1].outcome, answers[|answers| - 1].target.name)
  }

  function Absent(answers: seq<Answer>): set<string> {
    if |answers| == 0 then {}
    else WithMissing(Absent(answers[..|answers| - 1]), answers[|answers| - 1].outcome, answers[|answers| - 1].target.name)
  }

  /** The i-th answer is the last successful one of the name. */
  ghost predicate LastOk(answers: seq<Answer>, name: string, i: nat) {
    && i < |answers| && answers[i].outcome.Ok? && answers[i].target.name == name
    && forall j :: i < j < |answers| ==> !(answers[j].outcome.Ok? && answers[j].target.name == name)
  }

  /** A payload is there exactly for the users with a successful lookup, and is that of
      the last one. */
  lemma {:induction false} GatheredIff(answers: seq<Answer>, name: string)
    ensures name in Gathered(answers) <==> exists i: nat :: LastOk(answers, name, i)
    ensures forall i: nat :: LastOk(answers, name, i) ==>
      name in Gathered(answers) && Gathered(answers)[name] == answers[i].outcome.payload
    decreases |answers|
  {
    if |answers| > 0 {
      var n := |answers| - 1;
      var rest, last := answers[..n], answers[n];
      GatheredIff(rest, name);
      if last.outcome.Ok? && last.target.name == name {
        assert LastOk(answers, name, n);
      } else {
        forall i: nat ensures LastOk(answers, name, i) <==> LastOk(rest, name, i) {
          if LastOk(rest, name, i) {
            forall j | i < j < |answers| ensures !(answers[j].outcome.Ok? && answers[j].target.name == name) {
              assert j < n ==> rest[j] == answers[j];
            }
          }
          if LastOk(answers, name, i) {
            assert i < n;
            assert forall j :: i < j < n ==> rest[j] == answers[j];
          }
        }
      }
    }
  }

  /** A user is missing exactly if some lookup said so. */
  lemma {:induction false} AbsentIff(answers: seq<Answer>, name: string)
    ensures name in Absent(answers) <==> exists a <- answers :: a.outcome.NotFound? && a.target.name == name
    decreases |answers|
  {
    if |answers| > 0 {
      AbsentIff(answers[..|answers| - 1], name);
      assert forall a <- answers :: a in answers[..|answers| - 1] || a == answers[|answers| - 1];
    }
  }

  function TagsOf(answers: seq<Answer>): (r: seq<Tag>)
    requires forall a <- answers :: !a.outcome.Deferred?
    ensures |r| == |answers|
  {
    seq(|answers|, i requires 0 <= i < |answers| => TagOf(answers[i].outcome))
  }

  /** The counters, payloads and missing users are those of the answers. */
  ghost predicate Tallied(c: Counters, answers: seq<Answer>, completed: nat, payloads: Payloads, missing: set<string>) {
    && (forall a <- answers :: !a.outcome.Deferred?)
    && Settled(c) == completed == |answers| && Consistent(c, TagsOf(answers))
    && payloads == Gathered(answers) && missing == Absent(answers)
  }

  function WithPayload(payloads: Payloads, outcome: Outcome, name: string): Payloads {
    if outcome.Ok? then payloads[name := outcome.payload] else payloads
  }

  function WithMissing(missing: set<string>, outcome: Outcome, name: string): set<string> {
    if outcome.NotFound? then missing + {name} else missing
  }

  lemma TalliedNext(c: Counters, answers: seq<Answer>, completed: nat, payloads: Payloads, missing: set<string>, target: Target, outcome: Outcome)
    requires Tallied(c, answers, completed, payloads, missing) && !outcome.Deferred?
    ensures Tallied(Counted(c, TagOf(outcome)), answers + [Answer(target, outcome)], completed + 1,
                    WithPayload(payloads, outcome, target.name), WithMissing(missing, outcome, target.name))
  {
    CountedIsConsistent(c, TagsOf(answers), TagOf(outcome));
    var next := answers + [Answer(target, outcome)];
    assert next[..|answers|] == answers;
    assert TagsOf(next) == TagsOf(answers) + [TagOf(outcome)];
    hide Consistent, Settled, Counted;
  }

  lemma NothingSeen(c: Counters, seen: seq<Tag>)
    requires c == ZERO && |seen| == 0
    ensures Consistent(c, seen) && Settled(c) == 0
  {
  }

  lemma NothingTallied(c: Counters, answers: seq<Answer>, payloads: Payloads, missing: set<string>)
    requires c == ZERO && |answers| == 0 && payloads == Gathered(answers) && missing == Absent(answers)
    ensures Tallied(c, answers, |answers|, payloads, missing)
  {
    NothingSeen(c, TagsOf(answers));
    hide Consistent, Settled, TagsOf, Gathered, Absent;
  }

  /** An exception or an obsolete lookup counts as a failure. */
  function OutcomeOf(reply: Reply): Outcome {
    if reply.item.None? then OtherFailure else reply.item.value
  }

  predicate Counts(reply: Reply) {
    reply.current && !OutcomeOf(reply).Deferred?
  }

  /** A lookup that raised, or found itself obsolete while the gate is open, is a failure
      and nothing else. */
  lemma BrokenIsFailure(reply: Reply, c: Counters)
    requires reply.current && reply.item.None?
    ensures Counts(reply) && Counted(c, TagOf(OutcomeOf(reply))) == c.(failed := c.failed + 1)
  {
  }

  /** The first n tasks that got no reply, in order. */
  function Unanswered(tasks: seq<Target>, replies: seq<Option<Reply>>, n: nat): (r: seq<Target>)
    requires n <= |tasks|
    ensures |r| <= n
  {
    if n == 0 then []
    else Unanswered(tasks, replies, n - 1) + if n <= |replies| && replies[n - 1].Some? then [] else [tasks[n - 1]]
  }

  /** Every reply there is counts. */
  predicate Final(replies: seq<Option<Reply>>) {
    forall r <- replies :: r.Some? ==> Counts(r.value)
  }

  /** Everything in flight is answered, and every answer counts. */
  predicate AllAnswered(replies: seq<Option<Reply>>, inFlight: nat) {
    inFlight <= |replies| && Final(replies) && forall r <- replies :: r.Some?
  }

  lemma {:induction false} AnsweredLeaveNone(tasks: seq<Target>, replies: seq<Option<Reply>>, n: nat)
    requires n <= |tasks| && AllAnswered(replies, n)
    ensures Unanswered(tasks, replies, n) == []
    decreases n
  {
    if n > 0 {
      assert replies[n - 1] in replies;
      AnsweredLeaveNone(tasks, replies, n - 1);
    }
  }

  /** A request sent: whether the breaker was closed, and how many are then in flight. */
  datatype Launch = Launch(closed: bool, inFlight: nat)

  /** How many of the waiting requests a capacity lets leave. */
  function Room(inFlight: nat, waiting: nat, capacity: nat): nat {
    if capacity <= inFlight then 0 else if waiting <= capacity - inFlight then waiting else capacity - inFlight
  }

  function Limit(concurrency: int): nat {
    if concurrency < 1 then 1 else concurrency
  }

  ghost predicate LaunchesOk(launches: seq<Launch>, concurrency: int) {
    forall l :: l in launches ==> 1 <= l.inFlight <= Limit(concurrency) && (!l.closed ==> l.inFlight == 1)
  }

  /** Everything a batch has in hand. */
  ghost function Whole(queued: seq<Target>, tasks: seq<Target>, settled: multiset<Target>, dropped: multiset<Target>): multiset<Target> {
    multiset(queued) + multiset(tasks) + settled + dropped
  }

  function Without(s: seq<Target>, k: nat): seq<Target>
    requires k < |s|
  {
    s[..k] + s[k + 1..]
  }

  lemma NoneUnanswered(sent: seq<Target>, replies: seq<Option<Reply>>)
    ensures Unanswered(sent, replies, 0) == [] && [] + sent[0..] == sent
  {
  }

  lemma UnansweredStep(sent: seq<Target>, replies: seq<Option<Reply>>, j: nat, tasks: seq<Target>)
    requires j < |sent| && tasks == Unanswered(sent, replies, j) + sent[j..]
    ensures var k := |Unanswered(sent, replies, j)|;
      var next := Unanswered(sent, replies, j + 1);
      && k < |tasks|
      && (if j < |replies| && replies[j].Some? then |next| == k && Without(tasks, k) == next + sent[j + 1..]
          else |next| == k + 1 && tasks == next + sent[j + 1..])
  {
    assert sent[j..] == [sent[j]] + sent[j + 1..];
  }

  lemma TakenOut(s: seq<Target>, k: nat)
    requires k < |s|
    ensures multiset(s) == multiset(Without(s, k)) + multiset{s[k]}
  {
    assert s == s[..k] + [s[k]] + s[k + 1..];
  }

  lemma WholeOnLaunch(q: seq<Target>, t: seq<Target>, s: multiset<Target>, d: multiset<Target>)
    requires |q| > 0
    ensures Whole(q[1..], t + [q[0]], s, d) == Whole(q, t, s, d)
  {
    assert q == [q[0]] + q[1..];
    assert multiset(q) == multiset{q[0]} + multiset(q[1..]);
  }

  /** A task taken out is settled, dropped, or back at the head of the queue. */
  lemma WholeOnReply(q: seq<Target>, t: seq<Target>, s: multiset<Target>, d: multiset<Target>, k: nat)
    requires k < |t|
    ensures Whole(q, Without(t, k), s + multiset{t[k]}, d) == Whole(q, t, s, d)
    ensures Whole(q, Without(t, k), s, d + multiset{t[k]}) == Whole(q, t, s, d)
    ensures Whole([t[k]] + q, Without(t, k), s, d) == Whole(q, t, s, d)
  {
    TakenOut(t, k);
    assert multiset([t[k]] + q) == multiset{t[k]} + multiset(q);
  }

  lemma WholeSize(q: seq<Target>, t: seq<Target>, s: multiset<Target>, d: multiset<Target>)
    ensures |Whole(q, t, s, d)| == |q| + |t| + |s| + |d|
    ensures s <= Whole(q, t, s, d)
  {
    assert |multiset(q)| == |q| && |multiset(t)| == |t|;
    assert |multiset(q) + multiset(t)| == |q| + |t|;
    assert |multiset(q) + multiset(t) + s| == |q| + |t| + |s|;
  }

  /** The targets of the answers. */
  ghost function Answered(answers: seq<Answer>): (r: multiset<Target>)
    ensures |r| == |answers|
  {
    if |answers| == 0 then NONE
    else Answered(answers[..|answers| - 1]) + multiset{answers[|answers| - 1].target}
  }

  lemma AnsweredNext(answers: seq<Answer>, a: Answer)
    ensures Answered(answers + [a]) == Answered(answers) + multiset{a.target}
  {
    assert (answers + [a])[..|answers|] == answers;
  }

  ghost const NONE: multiset<Target> := multiset{}

  ghost function Bag(s: seq<Target>): multiset<Target> {
    multiset(s)
  }

  lemma WholeAtStart(targets: seq<Target>)
    ensures Whole(targets, [], NONE, NONE) == multiset(targets)
    ensures |NONE| == 0 && |multiset(targets)| == |targets|
  {
  }

  class Batch {
    var queued: seq<Target>
    var tasks: seq<Target>
    var counters: Counters
    var completed: nat
    var payloads: Payloads
    var notFoundUsers: set<string>
    var waited: real
    ghost var settled: multiset<Target>
    ghost var dropped: multiset<Target>
    ghost var launches: seq<Launch>
    ghost var answers: seq<Answer>

    /** Every target is queued, in flight, counted once, or dropped by a closed gate. */
    ghost predicate Accounts(targets: multiset<Target>)
      reads this
    {
      && Whole(queued, tasks, settled, dropped) == targets
      && settled == Answered(answers)
      && Tallied(counters, answers, completed, payloads, notFoundUsers)
    }

    constructor (targets: seq<Target>)
      ensures queued == targets && tasks == [] && launches == [] && completed == 0
      ensures counters == ZERO && waited == 0.0 && payloads == Gathered(answers) && notFoundUsers == Absent(answers)
      ensures settled == NONE && dropped == NONE && answers == []
    {
      queued, tasks, counters, completed := targets, [], ZERO, 0;
      payloads, notFoundUsers, waited := map[], {}, 0.0;
      settled, dropped, launches, answers := NONE, NONE, [], [];
    }

    method Count(outcome: Outcome, target: Target)
      requires !outcome.Deferred?
      modifies this`counters, this`payloads, this`notFoundUsers
      ensures counters == Counted(old(counters), TagOf(outcome))
      ensures payloads == WithPayload(old(payloads), outcome, target.name)
      ensures notFoundUsers == WithMissing(old(notFoundUsers), outcome, target.name)
    {
      match outcome {
        case Ok(payload) =>
          counters := counters.(ok := counters.ok + 1);
          payloads := payloads[target.name := payload];
        case Invalid => counters := counters.(invalid := counters.invalid + 1);
        case NotFound =>
          counters := counters.(notFound := counters.notFound + 1);
          notFoundUsers := notFoundUsers + {target.name};
        case Forbidden => counters := counters.(forbidden := counters.forbidden + 1);
        case Unauthorized =>
          counters := counters.(unauthorized := counters.unauthorized + 1, failed := counters.failed + 1);
        case TimedOut(kind) =>
          counters := counters.(failed := counters.failed + 1, timedOut := counters.timedOut + 1);
          if !kind.UnknownTimeout? {
            counters := counters.(kinds := CountedKind(counters.kinds, kind));
          }
        case OtherFailure => counters := counters.(failed := counters.failed + 1);
      }
    }

    /** Take the k-th task out and settle it; a deferred one goes back to the queue. */
    method Settle(k: nat, reply: Reply, ghost targets: multiset<Target>)
      requires Accounts(targets) && k < |tasks|
      modifies this`tasks, this`queued, this`counters, this`completed, this`payloads, this`notFoundUsers, this`answers, this`settled, this`dropped
      ensures Accounts(targets) && tasks == Without(old(tasks), k)
      ensures queued == if reply.current && OutcomeOf(reply).Deferred? then [old(tasks)[k]] + old(queued) else old(queued)
      ensures dropped == if reply.current then old(dropped) else old(dropped) + multiset{old(tasks)[k]}
      ensures counters == if Counts(reply) then Counted(old(counters), TagOf(OutcomeOf(reply))) else old(counters)
      ensures payloads == if Counts(reply) then WithPayload(old(payloads), OutcomeOf(reply), old(tasks)[k].name) else old(payloads)
      ensures notFoundUsers == if Counts(reply) then WithMissing(old(notFoundUsers), OutcomeOf(reply), old(tasks)[k].name) else old(notFoundUsers)
    {
      hide Whole, Tallied, Counted, TagOf, WithPayload, WithMissing, Answered;
      var target := tasks[k];
      WholeOnReply(queued, tasks, settled, dropped, k);
      tasks := Without(tasks, k);
      if !reply.current {
        dropped := dropped + multiset{target};
        return;
      }
      var outcome := if reply.item.None? then OtherFailure else reply.item.value;
      if outcome.Deferred? {
        queued := [target] + queued;
        return;
      }
      TalliedNext(counters, answers, completed, payloads, notFoundUsers, target, outcome);
      AnsweredNext(answers, Answer(target, outcome));
      Count(outcome, target);
      answers := answers + [Answer(target, outcome)];
      completed := completed + 1;
      settled := settled + multiset{target};
    }

    /** Settle the finished tasks in the order they were sent. */
    method Collect(replies: seq<Option<Reply>>, ghost targets: multiset<Target>)
      requires Accounts(targets)
      modifies this`tasks, this`queued, this`counters, this`completed, this`payloads, this`notFoundUsers, this`answers, this`settled, this`dropped
      ensures Accounts(targets) && tasks == Unanswered(old(tasks), replies, |old(tasks)|)
      ensures Final(replies) ==> queued == old(queued) && dropped == old(dropped)
    {
      hide Whole, Tallied, Unanswered, Without, Counted, TagOf, WithPayload, WithMissing;
      ghost var sent := tasks;
      NoneUnanswered(sent, replies);
      var n, j, k := |tasks|, 0, 0;
      while j < n
        invariant 0 <= k <= j <= n == |sent|
        invariant k == |Unanswered(sent, replies, j)| && tasks == Unanswered(sent, replies, j) + sent[j..]
        invariant Accounts(targets) && (Final(replies) ==> queued == old(queued) && dropped == old(dropped))
      {
        UnansweredStep(sent, replies, j, tasks);
        if j < |replies| && replies[j].Some? {
          Settle(k, replies[j].value, targets);
        } else {
          k := k + 1;
        }
        j := j + 1;
      }
    }

    /** Wait for the breaker; a clock that went back adds nothing. */
    method Hold(slept: real, ghost targets: multiset<Target>)
      requires Accounts(targets)
      modifies this`waited
      ensures Accounts(targets) && waited == old(waited) + (if slept > 0.0 then slept else 0.0)
    {
      waited := waited + if slept > 0.0 then slept else 0.0;
    }

    /** One request leaves. */
    method Send(closed: bool, ghost targets: multiset<Target>)
      requires Accounts(targets) && queued != []
      modifies this`queued, this`tasks, this`launches
      ensures Accounts(targets) && queued == old(queued)[1..] && tasks == old(tasks) + [old(queued)[0]]
      ensures launches == old(launches) + [Launch(closed, |tasks|)]
    {
      hide Whole, Tallied;
      WholeOnLaunch(queued, tasks, settled, dropped);
      queued, tasks := queued[1..], tasks + [queued[0]];
      launches := launches + [Launch(closed, |tasks|)];
    }

    /** Send queued requests up to the capacity. */
    method Fill(capacity: nat, closed: bool, ghost targets: multiset<Target>, ghost concurrency: int)
      requires Accounts(targets) && LaunchesOk(launches, concurrency)
      requires |tasks| <= Limit(concurrency) && capacity <= Limit(concurrency)
      requires !closed ==> capacity == 0 || (capacity == 1 && tasks == [])
      modifies this`queued, this`tasks, this`launches
      ensures Accounts(targets) && LaunchesOk(launches, concurrency) && |tasks| <= Limit(concurrency)
      ensures tasks + queued == old(tasks) + old(queued) && |old(tasks)| <= |tasks|
      ensures |tasks| == |old(tasks)| + Room(|old(tasks)|, |old(queued)|, capacity)
      ensures |launches| == |old(launches)| + Room(|old(tasks)|, |old(queued)|, capacity)
      ensures forall i :: |old(launches)| <= i < |launches| ==> launches[i].closed == closed
    {
      hide Batch.Accounts;
      while queued != [] && |tasks| < capacity
        invariant Accounts(targets) && LaunchesOk(launches, concurrency) && |tasks| <= Limit(concurrency)
        invariant |tasks| <= capacity || tasks == old(tasks)
        invariant |old(launches)| <= |launches| && |launches| - |old(launches)| == |tasks| - |old(tasks)|
        invariant forall i :: |old(launches)| <= i < |launches| ==> launches[i].closed == closed
        invariant tasks + queued == old(tasks) + old(queued) && |old(tasks)| <= |tasks|
        decreases |queued|
      {
        Send(closed, targets);
      }
    }
  }

  lemma FreshAccounts(batch: Batch, targets: seq<Target>, concurrency: int)
    requires batch.queued == targets && batch.tasks == [] && batch.launches == [] && batch.completed == 0
    requires batch.counters == ZERO && batch.payloads == Gathered(batch.answers) && batch.notFoundUsers == Absent(batch.answers)
    requires batch.settled == NONE && batch.dropped == NONE && batch.answers == []
    ensures batch.Accounts(Bag(targets)) && LaunchesOk(batch.launches, concurrency)
  {
    hide Whole, Tallied, NONE, Consistent, Settled;
    NothingTallied(batch.counters, batch.answers, batch.payloads, batch.notFoundUsers);
    WholeAtStart(targets);
  }

  lemma FreshAddsUp(batch: Batch, targets: seq<Target>)
    requires batch.settled == NONE && batch.counters == ZERO
    ensures batch.settled <= Bag(targets) && Settled(batch.counters) == 0
  {
  }

  lemma AccountsAddUp(batch: Batch, targets: seq<Target>)
    requires batch.Accounts(Bag(targets))
    ensures batch.settled <= Bag(targets)
    ensures Settled(batch.counters) + |batch.queued| + |batch.tasks| + |batch.dropped| == |targets|
    ensures |batch.settled| == batch.completed == Settled(batch.counters)
    ensures |batch.answers| == batch.completed
  {
    WholeAtStart(targets);
    WholeSize(batch.queued, batch.tasks, batch.settled, batch.dropped);
  }

  /** Why a run gives up lookups: it drained everything, the gate closed, the budget for
      waiting on the breaker ran out with nothing in flight, or the script ended. */
  datatype Stop = Drained | GateClosed | WaitedOut | ScriptEnded

  ghost predicate Justified(stop: Stop, batch: Batch, maxWait: real, script: seq<Round>)
    reads batch
  {
    match stop
    case Drained => batch.queued == [] && batch.tasks == []
    case GateClosed => exists i :: 0 <= i < |script| && !script[i].current
    case WaitedOut => batch.waited >= maxWait && batch.tasks == []
    case ScriptEnded => true
  }

  /** The waiting budget is spent with nothing in flight. */
  predicate GivesUp(round: Round, inFlight: nat, waiting: nat, waited: real, maxWait: real) {
    !round.breaker.Closed? && inFlight == 0 && waiting > 0 && waited >= maxWait
  }

  /** The breaker does not let even a probe leave yet. */
  predicate Sleeps(round: Round, inFlight: nat, waiting: nat) {
    !round.breaker.Closed? && inFlight == 0 && waiting > 0 && (round.breaker.HalfOpen? || round.breaker.recovery > 0.0)
  }

  /** A closed breaker admits up to the limit; any other a single probe once nothing is
      in flight and its recovery is due. */
  function Capacity(round: Round, inFlight: nat, waiting: nat, concurrency: int): nat {
    if round.breaker.Closed? then Limit(concurrency)
    else if inFlight == 0 && waiting > 0 && !Sleeps(round, inFlight, waiting) then 1 else 0
  }

  /** The second half of a turn: send what the capacity lets leave, then settle what is
      answered; `idle` if nothing is in flight after sending. */
  method Exchange(batch: Batch, replies: seq<Option<Reply>>, capacity: nat, closed: bool, ghost targets: multiset<Target>, ghost concurrency: int)
    returns (idle: bool)
    requires batch.Accounts(targets) && LaunchesOk(batch.launches, concurrency)
    requires |batch.tasks| <= Limit(concurrency) && capacity <= Limit(concurrency)
    requires !closed ==> capacity == 0 || (capacity == 1 && batch.tasks == [])
    modifies batch
    ensures batch.Accounts(targets) && LaunchesOk(batch.launches, concurrency) && |batch.tasks| <= Limit(concurrency)
    ensures var inFlight := |old(batch.tasks)|; var k := Room(inFlight, |old(batch.queued)|, capacity);
      && idle == (inFlight + k == 0) && |batch.launches| == |old(batch.launches)| + k
      && batch.tasks == Unanswered(old(batch.tasks) + old(batch.queued)[..k], replies, inFlight + k)
      && (idle || Final(replies) ==> batch.queued == old(batch.queued)[k..] && batch.dropped == old(batch.dropped))
      && batch.waited == old(batch.waited)
  {
    hide LaunchesOk, Batch.Accounts, Final, Limit;
    ghost var all, k := batch.tasks + batch.queued, Room(|batch.tasks|, |batch.queued|, capacity);
    assert all[..|batch.tasks| + k] == batch.tasks + batch.queued[..k] && all[|batch.tasks| + k..] == batch.queued[k..];
    batch.Fill(capacity, closed, targets, concurrency);
    assert batch.tasks == all[..|batch.tasks|] && batch.queued == all[|batch.tasks|..];
    idle := batch.tasks == [];
    if !idle {
      hide Room, Unanswered;
      batch.Collect(replies, targets);
    }
  }

  /** One turn of the loop; `stop` says why it breaks. */
  method Turn(batch: Batch, round: Round, concurrency: int, maxWait: real, ghost targets: multiset<Target>) returns (stop: Option<Stop>)
    requires batch.Accounts(targets) && LaunchesOk(batch.launches, concurrency) && |batch.tasks| <= Limit(concurrency)
    modifies batch
    ensures batch.Accounts(targets) && LaunchesOk(batch.launches, concurrency) && |batch.tasks| <= Limit(concurrency)
    ensures stop.Some? ==> !stop.value.ScriptEnded? && Justified(stop.value, batch, maxWait, [round])
    ensures var inFlight, waiting := |old(batch.tasks)|, |old(batch.queued)|;
      && stop == (if !round.current then Some(GateClosed)
                  else if GivesUp(round, inFlight, waiting, old(batch.waited), maxWait) then Some(WaitedOut)
                  else if inFlight == 0 && waiting == 0 then Some(Drained)
                  else None)
      && (stop.None? ==>
            var k := Room(inFlight, waiting, Capacity(round, inFlight, waiting, concurrency));
            && |batch.launches| == |old(batch.launches)| + k
            && batch.tasks == Unanswered(old(batch.tasks) + old(batch.queued)[..k], round.replies, inFlight + k)
            && (Final(round.replies) ==> batch.queued == old(batch.queued)[k..] && batch.dropped == old(batch.dropped))
            && batch.waited == old(batch.waited) + (if Sleeps(round, inFlight, waiting) && round.slept > 0.0 then round.slept else 0.0))
  {
    hide LaunchesOk, Batch.Accounts, Final, Unanswered;
    if !round.current {
      assert ![round][0].current;
      return Some(GateClosed);
    }
    var capacity := Limit(concurrency);
    if !round.breaker.Closed? {
      capacity := 0;
      if batch.tasks == [] && batch.queued != [] {
        if batch.waited >= maxWait {
          return Some(WaitedOut);
        }
        var delay := if round.breaker.Open? then round.breaker.recovery else 0.25;
        if delay > 0.0 {
          batch.Hold(round.slept, targets);
          return None;
        }
        capacity := 1;
      }
    }
    var idle := Exchange(batch, round.replies, capacity, round.breaker.Closed?, targets, concurrency);
    stop := if idle then Some(Drained) else None;
  }

  /** The gate is open, the breaker closed, and everything in flight is answered. */
  predicate Calm(round: Round, concurrency: int) {
    round.current && round.breaker.Closed? && AllAnswered(round.replies, Limit(concurrency))
  }

  predicate AllCalm(script: seq<Round>, concurrency: int) {
    forall r <- script :: Calm(r, concurrency)
  }

  /** A calm turn settles everything it sends, and sends something if it can. */
  lemma CalmTurn(round: Round, tasks: seq<Target>, queued: seq<Target>, concurrency: int)
    requires Calm(round, concurrency) && |tasks| <= Limit(concurrency) && |tasks| + |queued| > 0
    ensures var k := Room(|tasks|, |queued|, Capacity(round, |tasks|, |queued|, concurrency));
      && |tasks| + k > 0 && Unanswered(tasks + queued[..k], round.replies, |tasks| + k) == []
  {
    var k := Room(|tasks|, |queued|, Capacity(round, |tasks|, |queued|, concurrency));
    AnsweredLeaveNone(tasks + queued[..k], round.replies, |tasks| + k);
  }

  method RunScript(batch: Batch, concurrency: int, maxWait: real, script: seq<Round>, ghost targets: multiset<Target>)
    returns (stop: Stop)
    requires batch.Accounts(targets) && LaunchesOk(batch.launches, concurrency) && |batch.tasks| <= Limit(concurrency)
    modifies batch
    ensures batch.Accounts(targets) && LaunchesOk(batch.launches, concurrency)
    ensures Justified(stop, batch, maxWait, script)
    ensures AllCalm(script, concurrency) ==> batch.dropped == old(batch.dropped)
    ensures AllCalm(script, concurrency) && |script| >= |old(batch.queued)| + |old(batch.tasks)| ==> stop.Drained?
  {
    hide LaunchesOk, Batch.Accounts, Limit, Unanswered, Capacity;
    var i := 0;
    while batch.queued != [] || batch.tasks != []
      invariant 0 <= i <= |script|
      invariant batch.Accounts(targets) && LaunchesOk(batch.launches, concurrency)
      invariant |batch.tasks| <= Limit(concurrency)
      invariant AllCalm(script, concurrency) ==> batch.dropped == old(batch.dropped)
      invariant AllCalm(script, concurrency) ==> |batch.queued| + |batch.tasks| + i <= |old(batch.queued)| + |old(batch.tasks)|
      decreases |script| - i
    {
      if i == |script| {
        return ScriptEnded;
      }
      var round := script[i];
      assert AllCalm(script, concurrency) ==> Calm(round, concurrency);
      if Calm(round, concurrency) {
        CalmTurn(round, batch.tasks, batch.queued, concurrency);
      }
      hide AllCalm;
      var broken := Turn(batch, round, concurrency, maxWait, targets);
      if broken.Some? {
        assert broken.value.GateClosed? ==> !script[i].current;
        return broken.value;
      }
      i := i + 1;
    }
    stop := Drained;
  }

  /** The whole fan-out over any script, stopped wherever the script ends. Nothing is
      counted twice or lost; a request sent while the breaker is not closed is alone in
      flight; lookups are given up only for the reasons of Stop, and none is while the gate
      is open, the breaker closed and every request answered; and the counters add up to
      the targets unless the gate was already closed. */
  method FetchAll(targets: seq<Target>, concurrency: int, maxWait: real, admitted: bool, script: seq<Round>)
    returns (batch: Batch, deferred: nat, stop: Stop)
    ensures LaunchesOk(batch.launches, concurrency)
    ensures batch.Accounts(Bag(targets)) && batch.settled <= Bag(targets)
    ensures Settled(batch.counters) + deferred == |targets| <==> admitted || |targets| == 0
    ensures admitted ==> deferred == |batch.queued| + |batch.tasks| + |batch.dropped|
    ensures admitted ==> Justified(stop, batch, maxWait, script)
    ensures admitted && AllCalm(script, concurrency) && |script| >= |targets| ==> deferred == 0 && stop.Drained?
  {
    hide LaunchesOk, Batch.Accounts, Bag, Consistent, Settled;
    batch := new Batch(targets);
    FreshAccounts(batch, targets, concurrency);
    if |targets| == 0 || !admitted {
      deferred, stop := 0, Drained;
      FreshAddsUp(batch, targets);
    } else {
      stop := RunScript(batch, concurrency, maxWait, script, Bag(targets));
      AccountsAddUp(batch, targets);
      deferred := |targets| - batch.completed;
    }
  }
}
