/** The forum destination and its delivered-key cache (telegram_bot/topics.py). */
module TopicsState {
  import opened Collections

  type Topic = string
  type Key = string

  const GENERAL: Topic := "general"
  const EXPIRY := 86400

  type Marks = map<Topic, map<Key, int>>

  /** Where messages go; `destination` counts its revisions. */
  datatype Place = Place(group: Option<int>, topics: map<Topic, int>, destination: nat)

  /** What may be sent; `monitoring` counts the pauses. */
  datatype Gate = Gate(enabled: bool, monitoring: nat)

  /** One published snapshot. */
  datatype Forum = Forum(place: Place, gate: Gate, marks: Marks)

  /** A delivered message: the chat and thread it reached. */
  datatype Receipt = Receipt(chat: int, thread: Option<int>, topic: Topic, key: Key)

  /** A delivery on its way to be marked, with the revisions captured at admission. */
  datatype Ticket = Ticket(receipt: Receipt, monitoring: nat, destination: nat)

  /** The guard of a change made for one captured destination. */
  datatype Guard = Guard(group: Option<int>, destination: Option<nat>)

  datatype Event =
    | Mark(ticket: Ticket, now: int)
    | ClearCache(only: Option<Topic>)
    | SetGroup(group: int)
    | SetEnabled(enabled: bool)
    | SetTopic(topic: Topic, thread: int, guard: Guard)
    | RemoveTopic(topic: Topic, guard: Guard)
    | ClearAll
    | Reload(now: int, loaded: bool)

  /** A thread id of 0 counts as missing and falls back to General. */
  function Resolve(topics: map<Topic, int>, t: Topic): Option<int> {
    if t in topics && topics[t] != 0 then Some(topics[t])
    else if GENERAL in topics then Some(topics[GENERAL])
    else None
  }

  ghost predicate Marked(marks: Marks, t: Topic, k: Key) {
    t in marks && k in marks[t]
  }

  predicate Passes(place: Place, guard: Guard) {
    && (guard.group.Some? ==> place.group == guard.group)
    && (guard.destination.Some? ==> Some(place.destination) == guard.destination)
  }

  predicate Accepts(f: Forum, ticket: Ticket) {
    var r := ticket.receipt;
    && f.gate.enabled && f.place.group.Some? && f.place.group.value != 0
    && f.gate.monitoring == ticket.monitoring && f.place.destination == ticket.destination
    && f.place.group.value == r.chat && Resolve(f.place.topics, r.topic) == r.thread
  }

  function WithMark(marks: Marks, t: Topic, k: Key, now: int): Marks {
    marks[t := (if t in marks then marks[t] else map[])[k := now]]
  }

  /** A General thread may be the fallback of every topic. */
  function Forgotten(marks: Marks, t: Topic): Marks {
    if t == GENERAL then map[] else marks - {t}
  }

  function Unexpired(marks: Marks, now: int): Marks {
    map t | t in marks && (exists k :: k in marks[t] && now - marks[t][k] <= EXPIRY) ::
      map k | k in marks[t] && now - marks[t][k] <= EXPIRY :: marks[t][k]
  }

  function Moved(place: Place, topics: map<Topic, int>): Place {
    place.(topics := topics, destination := place.destination + 1)
  }

  /** A first start; and any later one that finds no file or cannot read it. */
  const EMPTY := Forum(Place(None, map[], 0), Gate(false, 0), map[])

  function Step(f: Forum, e: Event): Forum {
    match e
    case Mark(ticket, now) =>
      if Accepts(f, ticket) then f.(marks := WithMark(f.marks, ticket.receipt.topic, ticket.receipt.key, now)) else f
    case ClearCache(only) =>
      f.(place := Moved(f.place, f.place.topics), marks := if only.Some? then f.marks - {only.value} else map[])
    case SetGroup(group) =>
      if f.place.group == Some(group) then f
      else f.(place := Place(Some(group), map[], f.place.destination + 1), marks := map[])
    case SetEnabled(enabled) =>
      if f.gate.enabled && !enabled then Forum(f.place, Gate(false, f.gate.monitoring + 1), map[])
      else f.(gate := f.gate.(enabled := enabled))
    case SetTopic(topic, thread, guard) =>
      if !Passes(f.place, guard) || (topic in f.place.topics && f.place.topics[topic] == thread) then f
      else f.(place := Moved(f.place, f.place.topics[topic := thread]), marks := Forgotten(f.marks, topic))
    case RemoveTopic(topic, guard) =>
      if !Passes(f.place, guard) || topic !in f.place.topics then f
      else f.(place := Moved(f.place, f.place.topics - {topic}), marks := Forgotten(f.marks, topic))
    case ClearAll =>
      if f.place.topics == map[] && f.marks == map[] then f
      else f.(place := Moved(f.place, map[]), marks := map[])
    case Reload(now, loaded) =>
      if loaded then f.(marks := Unexpired(f.marks, now)) else EMPTY
  }

  function Run(f: Forum, events: seq<Event>): Forum
    decreases |events|
  {
    if |events| == 0 then f else Run(Step(f, events[0]), events[1..])
  }

  // -------------------------------------------------------------------------
  // Revisions identify a destination
  // -------------------------------------------------------------------------

  /** Revisions never go back, and an unchanged one means an unchanged destination. */
  ghost predicate Evolves(f: Forum, g: Forum) {
    && f.place.destination <= g.place.destination && f.gate.monitoring <= g.gate.monitoring
    && (f.place.destination == g.place.destination ==> f.place == g.place)
    && (f.gate.monitoring == g.gate.monitoring && f.gate.enabled ==> g.gate.enabled)
  }

  /** No delivered key was dropped. */
  ghost predicate Remembers(f: Forum, g: Forum) {
    forall t, k :: Marked(f.marks, t, k) ==> Marked(g.marks, t, k)
  }

  predicate SameRevisions(f: Forum, g: Forum) {
    f.place.destination == g.place.destination && f.gate.monitoring == g.gate.monitoring
  }

  /** Every reload of the run reads the file. */
  predicate AllLoaded(events: seq<Event>) {
    forall e :: e in events && e.Reload? ==> e.loaded
  }

  lemma StepEvolves(f: Forum, e: Event)
    requires e.Reload? ==> e.loaded
    ensures Evolves(f, Step(f, e))
    ensures SameRevisions(f, Step(f, e)) && !e.Reload? ==> Remembers(f, Step(f, e))
  {
  }

  /** Equal revisions at both ends of a run whose reloads read the file: the same group and
      threads, and (short of a reload, which drops expired keys) every delivered key is
      still there. */
  lemma {:induction false} RevisionsIdentifyDestination(f: Forum, events: seq<Event>)
    requires AllLoaded(events)
    ensures Evolves(f, Run(f, events))
    ensures SameRevisions(f, Run(f, events)) && (forall e :: e in events ==> !e.Reload?) ==> Remembers(f, Run(f, events))
    decreases |events|
  {
    if |events| > 0 {
      assert forall e :: e in events[1..] ==> e in events;
      hide Step, Marked;
      StepEvolves(f, events[0]);
      RevisionsIdentifyDestination(Step(f, events[0]), events[1..]);
    }
  }

  /** A clear, a pause, or a change of destination. */
  ghost predicate Retires(f: Forum, e: Event) {
    || e.ClearCache?
    || (f.gate.enabled && !Step(f, e).gate.enabled)
    || f.place.group != Step(f, e).place.group
    || f.place.topics != Step(f, e).place.topics
    || (!e.Reload? && !Remembers(f, Step(f, e)))
  }

  /** A mark captured before a retiring step never takes effect after it, whatever happens
      in between short of a reload that cannot read the file: no clear is undone by an
      in-flight mark. */
  lemma LateMarkIsInert(f: Forum, before: seq<Event>, e: Event, after: seq<Event>, ticket: Ticket)
    requires AllLoaded(before + [e] + after)
    requires ticket.destination == f.place.destination && ticket.monitoring == f.gate.monitoring
    requires Retires(Run(f, before), e)
    ensures !Accepts(Run(Step(Run(f, before), e), after), ticket)
  {
    var g := Run(f, before);
    assert forall x :: x in before || x == e || x in after ==> x in before + [e] + after;
    RevisionsIdentifyDestination(f, before);
    StepEvolves(g, e);
    RevisionsIdentifyDestination(Step(g, e), after);
    assert !SameRevisions(g, Step(g, e));
  }

  // -------------------------------------------------------------------------
  // Reloads that cannot read the file
  // -------------------------------------------------------------------------

  /** What the revision of a reachable destination is at least. */
  predicate Numbered(f: Forum) {
    && (f.place.group.Some? || f.place.topics != map[] ==> f.place.destination >= 1)
    && (f.place.group.Some? && f.place.topics != map[] ==> f.place.destination >= 2)
  }

  lemma {:induction false} RunNumbered(f: Forum, events: seq<Event>)
    requires Numbered(f)
    ensures Numbered(Run(f, events))
    decreases |events|
  {
    if |events| > 0 {
      StepNumbered(f, events[0]);
      hide Step, Numbered;
      RunNumbered(Step(f, events[0]), events[1..]);
    }
  }

  lemma StepNumbered(f: Forum, e: Event)
    requires Numbered(f)
    ensures Numbered(Step(f, e))
  {
  }

  lemma {:induction false} RunsJoin(f: Forum, first: seq<Event>, second: seq<Event>)
    ensures Run(f, first + second) == Run(Run(f, first), second)
    decreases |first|
  {
    hide Step;
    if |first| == 0 {
      assert first + second == second;
    } else {
      assert (first + second)[1..] == first[1..] + second;
      RunsJoin(Step(f, first[0]), first[1..], second);
    }
  }

  /** n clears raise the destination revision by n and keep group and threads. */
  function Clears(n: nat): (r: seq<Event>)
    ensures |r| == n && forall e :: e in r ==> e == ClearCache(None)
  {
    if n == 0 then [] else [ClearCache(None)] + Clears(n - 1)
  }

  lemma {:induction false} ClearsRun(f: Forum, n: nat)
    ensures var g := Run(f, Clears(n));
      g.place == f.place.(destination := f.place.destination + n) && g.gate == f.gate
    decreases n
  {
    if n > 0 {
      assert Clears(n)[1..] == Clears(n - 1);
      ClearsRun(Step(f, ClearCache(None)), n - 1);
    }
  }

  /** n pauses, and the gate open after the last. */
  function Pauses(n: nat): (r: seq<Event>)
    ensures forall e :: e in r ==> e.SetEnabled?
  {
    if n == 0 then [SetEnabled(true)] else [SetEnabled(true), SetEnabled(false)] + Pauses(n - 1)
  }

  lemma {:induction false} PausesRun(f: Forum, n: nat)
    requires !f.gate.enabled
    ensures var g := Run(f, Pauses(n));
      g.place == f.place && g.gate == Gate(true, f.gate.monitoring + n)
    decreases n
  {
    if n == 0 {
      assert [SetEnabled(true)][1..] == [];
    } else {
      var p := Pauses(n);
      assert p[0] == SetEnabled(true) && p[1..][0] == SetEnabled(false) && p[1..][1..] == Pauses(n - 1);
      var g := Step(Step(f, SetEnabled(true)), SetEnabled(false));
      assert Run(f, p) == Run(Step(f, SetEnabled(true)), p[1..]) == Run(g, Pauses(n - 1));
      PausesRun(g, n - 1);
    }
  }

  lemma RunOne(f: Forum, e: Event)
    ensures Run(f, [e]) == Step(f, e)
  {
    hide Step;
    assert [e][1..] == [];
    assert Run(Step(f, e), []) == Step(f, e);
  }

  lemma RunTwo(f: Forum, e1: Event, e2: Event)
    ensures Run(f, [e1, e2]) == Step(Step(f, e1), e2)
  {
    hide Step;
    assert [e1, e2] == [e1] + [e2];
    RunsJoin(f, [e1], [e2]);
    RunOne(f, e1);
    RunOne(Step(f, e1), e2);
  }

  /** A group and, if wanted, a thread for every topic. */
  function Opening(chat: int, thread: Option<int>): seq<Event> {
    if thread.Some? then [SetGroup(chat), SetTopic(GENERAL, thread.value, Guard(None, None))] else [SetGroup(chat)]
  }

  lemma OpeningRun(chat: int, thread: Option<int>, topic: Topic)
    ensures var g := Run(EMPTY, Opening(chat, thread));
      && g.gate == EMPTY.gate && g.place.group == Some(chat) && Resolve(g.place.topics, topic) == thread
      && g.place.destination == if thread.Some? then 2 else 1
  {
    if thread.Some? {
      RunTwo(EMPTY, SetGroup(chat), SetTopic(GENERAL, thread.value, Guard(None, None)));
    } else {
      RunOne(EMPTY, SetGroup(chat));
    }
  }

  /** From the defaults, a group and a thread can be set up again at any later revision and
      any monitoring revision. */
  lemma Rebuilt(chat: int, thread: Option<int>, topic: Topic, destination: nat, monitoring: nat) returns (events: seq<Event>)
    requires destination >= if thread.Some? then 2 else 1
    ensures AllLoaded(events)
    ensures var g := Run(EMPTY, events);
      && g.place.group == Some(chat) && g.place.destination == destination && Resolve(g.place.topics, topic) == thread
      && g.gate == Gate(true, monitoring)
  {
    var n := destination - if thread.Some? then 2 else 1;
    var opening, clears, pauses := Opening(chat, thread), Clears(n), Pauses(monitoring);
    OpeningRun(chat, thread, topic);
    assert AllLoaded(opening);
    hide Run, Resolve, Opening;
    ClearsRun(Run(EMPTY, opening), n);
    RunsJoin(EMPTY, opening, clears);
    PausesRun(Run(EMPTY, opening + clears), monitoring);
    RunsJoin(EMPTY, opening + clears, pauses);
    events := opening + clears + pauses;
  }

  /** A revision names one destination across a reload and everything after it exactly when
      the reload read the file or there was no destination yet. */
  lemma ReloadKeepsRevisionsIff(f: Forum, now: int, loaded: bool)
    requires Numbered(f)
    ensures (forall events :: AllLoaded(events) && Run(Step(f, Reload(now, loaded)), events).place.destination == f.place.destination
                 ==> Run(Step(f, Reload(now, loaded)), events).place == f.place)
            <==> loaded || f.place.destination == 0
  {
    var g := Step(f, Reload(now, loaded));
    if loaded || f.place.destination == 0 {
      assert g.place == f.place;
      forall events | AllLoaded(events) ensures Evolves(g, Run(g, events)) {
        RevisionsIdentifyDestination(g, events);
      }
    } else {
      var other := if f.place.group == Some(0) then 1 else 0;
      var events := Rebuilt(other, None, GENERAL, f.place.destination, 0);
      assert Run(g, events).place != f.place;
    }
  }

  /** An in-flight mark stays inert after a retiring step, a reload and anything else
      exactly when the reload read the file. */
  lemma LateMarkIsInertIff(f: Forum, before: seq<Event>, e: Event, now: int, loaded: bool, ticket: Ticket)
    requires Numbered(f) && Accepts(f, ticket)
    requires AllLoaded(before + [e]) && Retires(Run(f, before), e)
    ensures (forall after :: AllLoaded(after) ==>
                 !Accepts(Run(Step(Step(Run(f, before), e), Reload(now, loaded)), after), ticket))
            <==> loaded
  {
    var g := Step(Run(f, before), e);
    var h := Step(g, Reload(now, loaded));
    if loaded {
      forall after | AllLoaded(after) ensures !Accepts(Run(h, after), ticket) {
        var later := [Reload(now, loaded)] + after;
        RunsJoin(g, [Reload(now, loaded)], after);
        RunOne(g, Reload(now, loaded));
        assert forall x :: x in before + [e] + later ==> x in before + [e] || x in after || x == Reload(now, loaded);
        LateMarkIsInert(f, before, e, later, ticket);
      }
    } else {
      var r := ticket.receipt;
      var events := Rebuilt(r.chat, r.thread, r.topic, ticket.destination, ticket.monitoring);
      assert h == EMPTY && Accepts(Run(h, events), ticket);
    }
  }

  /** Two groups at one revision, with an unreadable file in between. */
  lemma OtherGroupSameRevision()
    ensures var f := Run(EMPTY, [SetGroup(7)]);
      var g := Run(f, [Reload(0, false), SetGroup(8)]);
      SameRevisions(f, g) && f.place.destination == 1 && f.place.group == Some(7) && g.place.group == Some(8)
  {
    RunOne(EMPTY, SetGroup(7));
    var f := Run(EMPTY, [SetGroup(7)]);
    RunTwo(f, Reload(0, false), SetGroup(8));
  }

  /** A mark captured before a clear is accepted after it, once the file was unreadable. */
  lemma ClearedMarkComesBack(key: Key)
    ensures var ticket := Ticket(Receipt(7, None, GENERAL, key), 0, 1);
      var f := Run(EMPTY, [SetEnabled(true), SetGroup(7)]);
      var g := Step(Step(f, ClearCache(None)), Reload(0, false));
      Accepts(f, ticket) && !Accepts(Step(f, ClearCache(None)), ticket) && Accepts(Run(g, [SetEnabled(true), SetGroup(7)]), ticket)
  {
    RunTwo(EMPTY, SetEnabled(true), SetGroup(7));
  }

  // -------------------------------------------------------------------------
  // A marked key was delivered where its topic now goes
  // -------------------------------------------------------------------------

  datatype World = World(forum: Forum, delivered: set<Receipt>)

  datatype Act = Deliver(receipt: Receipt) | Change(event: Event)

  /** Only a delivered message is marked (telegram_bot/dispatcher.py, _settle_batch). */
  predicate Possible(w: World, a: Act) {
    a.Change? && a.event.Mark? ==> a.event.ticket.receipt in w.delivered
  }

  function Next(w: World, a: Act): World {
    match a
    case Deliver(r) => w.(delivered := w.delivered + {r})
    case Change(e) => w.(forum := Step(w.forum, e))
  }

  ghost predicate MarkOk(w: World, t: Topic, k: Key) {
    var p := w.forum.place;
    p.group.Some? ==> Receipt(p.group.value, Resolve(p.topics, t), t, k) in w.delivered
  }

  ghost predicate Inv(w: World) {
    forall t, k :: Marked(w.forum.marks, t, k) ==> MarkOk(w, t, k)
  }

  /** A surviving mark of a topic that still resolves the same. */
  lemma ForgottenKeeps(f: Forum, topic: Topic, topics: map<Topic, int>, t: Topic, k: Key)
    requires Marked(Forgotten(f.marks, topic), t, k)
    requires topics == f.place.topics - {topic} || (topic in topics && topics - {topic} == f.place.topics - {topic})
    ensures Marked(f.marks, t, k) && Resolve(topics, t) == Resolve(f.place.topics, t)
  {
    assert topic != GENERAL && t != topic;
    forall u | u != topic
      ensures (u in topics <==> u in f.place.topics) && (u in topics ==> topics[u] == f.place.topics[u])
    {
      assert u in topics - {topic} <==> u in f.place.topics - {topic};
    }
  }

  lemma OnlyMarksMark(f: Forum, e: Event, t: Topic, k: Key)
    ensures !e.Mark? && Marked(Step(f, e).marks, t, k) ==> Marked(f.marks, t, k)
  {
  }

  lemma MarkKept(w: World, e: Event, t: Topic, k: Key)
    requires Inv(w) && Possible(w, Change(e))
    requires Marked(Step(w.forum, e).marks, t, k)
    ensures MarkOk(Next(w, Change(e)), t, k)
  {
    var f := w.forum;
    OnlyMarksMark(f, e, t, k);
    match e
    case Mark(ticket, now) =>
      var r := ticket.receipt;
      assert Marked(f.marks, t, k) || (Accepts(f, ticket) && t == r.topic && k == r.key);
    case SetTopic(topic, thread, guard) =>
      if Step(f, e) != f {
        assert f.place.topics[topic := thread] - {topic} == f.place.topics - {topic};
        ForgottenKeeps(f, topic, f.place.topics[topic := thread], t, k);
      }
    case RemoveTopic(topic, guard) =>
      if Step(f, e) != f {
        ForgottenKeeps(f, topic, f.place.topics - {topic}, t, k);
      }
    case _ =>
  }

  lemma StepKeeps(w: World, a: Act)
    requires Inv(w) && Possible(w, a)
    ensures Inv(Next(w, a))
  {
    forall t, k | Marked(Next(w, a).forum.marks, t, k) ensures MarkOk(Next(w, a), t, k) {
      if a.Change? {
        MarkKept(w, a.event, t, k);
      } else {
        assert Marked(w.forum.marks, t, k);
      }
    }
  }

  ghost predicate Allowed(w: World, acts: seq<Act>)
    decreases |acts|
  {
    |acts| == 0 || (Possible(w, acts[0]) && Allowed(Next(w, acts[0]), acts[1..]))
  }

  function After(w: World, acts: seq<Act>): World
    decreases |acts|
  {
    if |acts| == 0 then w else After(Next(w, acts[0]), acts[1..])
  }

  lemma {:induction false} RunKeeps(w: World, acts: seq<Act>)
    requires Inv(w) && Allowed(w, acts)
    ensures Inv(After(w, acts))
    decreases |acts|
  {
    if |acts| > 0 {
      StepKeeps(w, acts[0]);
      hide Inv, Next, Possible;
      RunKeeps(Next(w, acts[0]), acts[1..]);
    }
  }

  /** is_message_sent */
  predicate IsSent(f: Forum, t: Topic, k: Key, now: int) {
    && f.gate.enabled && f.place.group.Some?
    && t in f.marks && k in f.marks[t] && now - f.marks[t][k] < EXPIRY
  }

  /** The message did reach the chat and thread its topic resolves to, General fallback
      included. */
  predicate Reached(w: World, t: Topic, k: Key)
    requires w.forum.place.group.Some?
  {
    Receipt(w.forum.place.group.value, Resolve(w.forum.place.topics, t), t, k) in w.delivered
  }

  /** A message suppressed as already sent did reach where its topic goes now, in every
      state reachable from the defaults. */
  lemma SuppressedMeansDelivered(acts: seq<Act>, t: Topic, k: Key, now: int)
    requires Allowed(World(EMPTY, {}), acts)
    requires IsSent(After(World(EMPTY, {}), acts).forum, t, k, now)
    ensures Reached(After(World(EMPTY, {}), acts), t, k)
  {
    SuppressedFrom(World(EMPTY, {}), acts, t, k, now);
  }

  lemma SuppressedFrom(start: World, acts: seq<Act>, t: Topic, k: Key, now: int)
    requires Inv(start) && Allowed(start, acts)
    requires IsSent(After(start, acts).forum, t, k, now)
    ensures Reached(After(start, acts), t, k)
  {
    RunKeeps(start, acts);
    assert Marked(After(start, acts).forum.marks, t, k);
  }

  ghost predicate SuppressesOnlyDelivered(start: World) {
    forall acts, t, k, now :: Allowed(start, acts) && IsSent(After(start, acts).forum, t, k, now) ==>
      Reached(After(start, acts), t, k)
  }

  /** From any other start, such as a file whose keys came from the legacy cache, it holds
      exactly when every key in it was delivered to the group it starts with. */
  lemma SuppressesOnlyDeliveredIff(start: World)
    ensures SuppressesOnlyDelivered(start) <==> Inv(start)
  {
    if Inv(start) {
      forall acts, t, k, now | Allowed(start, acts) && IsSent(After(start, acts).forum, t, k, now)
        ensures Reached(After(start, acts), t, k)
      {
        SuppressedFrom(start, acts, t, k, now);
      }
    } else {
      var t, k :| Marked(start.forum.marks, t, k) && !MarkOk(start, t, k);
      var open := Change(SetEnabled(true));
      assert [open][1..] == [];
      assert Allowed(start, [open]) && After(start, [open]) == Next(start, open);
      assert IsSent(Next(start, open).forum, t, k, start.forum.marks[t][k]);
    }
  }
}
