/** When a delivered message is suppressed (telegram_bot/topics.py): over every run,
    exactly from an accepted mark until it expires, or until the first step that
    retires its topic or its destination. */
module TopicsCache {
  import opened Collections
  import opened TopicsState

  function Stamp(marks: Marks, t: Topic, k: Key): Option<int> {
    if t in marks && k in marks[t] then Some(marks[t][k]) else None
  }

  /** The event records the key: its ticket still names the current destination. */
  predicate Records(f: Forum, e: Event, t: Topic, k: Key) {
    e.Mark? && e.ticket.receipt.topic == t && e.ticket.receipt.key == k && Accepts(f, e.ticket)
  }

  /** The event retires a key of the topic recorded at `at`: a clear of the topic or of
      all, a pause, another group, a change of the topic's or the General thread, or a
      reload that cannot read the file or finds the key expired. */
  predicate Drops(f: Forum, e: Event, t: Topic, at: int) {
    match e
    case Mark(_, _) => false
    case ClearCache(only) => only.None? || only == Some(t)
    case SetGroup(group) => f.place.group != Some(group)
    case SetEnabled(enabled) => f.gate.enabled && !enabled
    case SetTopic(topic, thread, guard) =>
      (topic == t || topic == GENERAL) && Passes(f.place, guard) && !(topic in f.place.topics && f.place.topics[topic] == thread)
    case RemoveTopic(topic, guard) =>
      (topic == t || topic == GENERAL) && Passes(f.place, guard) && topic in f.place.topics
    case ClearAll => true
    case Reload(now, loaded) => !loaded || now - at > EXPIRY
  }

  lemma StampStep(f: Forum, e: Event, t: Topic, k: Key)
    ensures Stamp(Step(f, e).marks, t, k) ==
      if Records(f, e, t, k) then Some(e.now)
      else if Stamp(f.marks, t, k).Some? && Drops(f, e, t, Stamp(f.marks, t, k).value) then None
      else Stamp(f.marks, t, k)
  {
  }

  /** Nothing retires the key recorded at `at`, and nothing records it again. */
  ghost predicate Kept(f: Forum, events: seq<Event>, t: Topic, k: Key, at: int)
    decreases |events|
  {
    |events| == 0
    || (!Records(f, events[0], t, k) && !Drops(f, events[0], t, at) && Kept(Step(f, events[0]), events[1..], t, k, at))
  }

  /** Some event recorded the key at `at`, and it has been kept since. */
  ghost predicate Recorded(f: Forum, events: seq<Event>, t: Topic, k: Key, at: int)
    decreases |events|
  {
    |events| > 0
    && ((Records(f, events[0], t, k) && events[0].now == at && Kept(Step(f, events[0]), events[1..], t, k, at))
        || Recorded(Step(f, events[0]), events[1..], t, k, at))
  }

  lemma {:induction false} StampIff(f: Forum, events: seq<Event>, t: Topic, k: Key, at: int)
    ensures Stamp(Run(f, events).marks, t, k) == Some(at) <==>
      Recorded(f, events, t, k, at) || (Stamp(f.marks, t, k) == Some(at) && Kept(f, events, t, k, at))
    decreases |events|
  {
    hide Step, Records, Drops, Stamp;
    if |events| > 0 {
      StampStep(f, events[0], t, k);
      StampIff(Step(f, events[0]), events[1..], t, k, at);
    }
  }

  /** A message whose mark is accepted is suppressed at once, and for a day. */
  lemma MarkSuppresses(f: Forum, ticket: Ticket, now: int, later: int)
    requires Accepts(f, ticket)
    ensures var r := ticket.receipt;
      IsSent(Step(f, Mark(ticket, now)), r.topic, r.key, later) <==> later < now + EXPIRY
  {
  }

  /** In every reachable state a message is suppressed exactly when monitoring is open,
      and its key was recorded less than a day ago and has not been retired since. */
  lemma SuppressedIff(events: seq<Event>, t: Topic, k: Key, later: int)
    ensures var f := Run(EMPTY, events);
      IsSent(f, t, k, later) <==>
        && f.gate.enabled && f.place.group.Some?
        && exists at: int :: Recorded(EMPTY, events, t, k, at) && later < at + EXPIRY
  {
    hide Run;
    var f := Run(EMPTY, events);
    forall at: int ensures Stamp(f.marks, t, k) == Some(at) <==> Recorded(EMPTY, events, t, k, at) {
      StampIff(EMPTY, events, t, k, at);
    }
    if t in f.marks && k in f.marks[t] {
      StampIff(EMPTY, events, t, k, f.marks[t][k]);
      assert Recorded(EMPTY, events, t, k, f.marks[t][k]);
    }
  }

  /** No step but a pause, a reload without a file or the first open closes monitoring:
      from an accepted mark a run without them, and without a step that retires the
      key, keeps the message suppressed until it expires. */
  lemma {:induction false} StaysSuppressed(f: Forum, events: seq<Event>, t: Topic, k: Key, at: int, later: int)
    requires f.gate.enabled && f.place.group.Some? && Stamp(f.marks, t, k) == Some(at)
    requires Kept(f, events, t, k, at) && later < at + EXPIRY
    ensures IsSent(Run(f, events), t, k, later)
  {
    StampIff(f, events, t, k, at);
    StaysOpen(f, events, t, k, at);
  }

  lemma {:induction false} StaysOpen(f: Forum, events: seq<Event>, t: Topic, k: Key, at: int)
    requires f.gate.enabled && f.place.group.Some? && Kept(f, events, t, k, at)
    ensures Run(f, events).gate.enabled && Run(f, events).place.group.Some?
    decreases |events|
  {
    if |events| > 0 {
      StaysOpen(Step(f, events[0]), events[1..], t, k, at);
    }
  }

  // -------------------------------------------------------------------------
  // Where messages go
  // -------------------------------------------------------------------------

  /** The group last chosen and the preference last stated; an unread file forgets both. */
  function LastGroup(group: Option<int>, events: seq<Event>): Option<int>
    decreases |events|
  {
    if |events| == 0 then group
    else
      LastGroup(match events[0] {
                case SetGroup(g) => Some(g)
                case Reload(_, loaded) => if loaded then group else None
                case _ => group
                }, events[1..])
  }

  function LastEnabled(enabled: bool, events: seq<Event>): bool
    decreases |events|
  {
    if |events| == 0 then enabled
    else
      LastEnabled(match events[0] {
                  case SetEnabled(on) => on
                  case Reload(_, loaded) => enabled && loaded
                  case _ => enabled
                  }, events[1..])
  }

  lemma {:induction false} ChoicesLast(f: Forum, events: seq<Event>)
    ensures Run(f, events).place.group == LastGroup(f.place.group, events)
    ensures Run(f, events).gate.enabled == LastEnabled(f.gate.enabled, events)
    decreases |events|
  {
    if |events| > 0 {
      ChoicesLast(Step(f, events[0]), events[1..]);
    }
  }

  predicate Installs(f: Forum, e: Event, t: Topic, thread: int) {
    e.SetTopic? && e.topic == t && e.thread == thread && Passes(f.place, e.guard)
  }

  /** The topic's thread goes with its group, and gives way to another for the topic. */
  predicate Uninstalls(f: Forum, e: Event, t: Topic, thread: int) {
    match e
    case SetGroup(group) => f.place.group != Some(group)
    case SetTopic(topic, other, guard) => topic == t && other != thread && Passes(f.place, guard)
    case RemoveTopic(topic, guard) => topic == t && Passes(f.place, guard)
    case ClearAll => true
    case Reload(_, loaded) => !loaded
    case _ => false
  }

  predicate Has(f: Forum, t: Topic, thread: int) {
    t in f.place.topics && f.place.topics[t] == thread
  }

  lemma HasStep(f: Forum, e: Event, t: Topic, thread: int)
    ensures Has(Step(f, e), t, thread) <==>
      Installs(f, e, t, thread) || (Has(f, t, thread) && !Uninstalls(f, e, t, thread))
  {
  }

  ghost predicate StaysInstalled(f: Forum, events: seq<Event>, t: Topic, thread: int)
    decreases |events|
  {
    |events| == 0 || (!Uninstalls(f, events[0], t, thread) && StaysInstalled(Step(f, events[0]), events[1..], t, thread))
  }

  ghost predicate Installed(f: Forum, events: seq<Event>, t: Topic, thread: int)
    decreases |events|
  {
    |events| > 0
    && ((Installs(f, events[0], t, thread) && StaysInstalled(Step(f, events[0]), events[1..], t, thread))
        || Installed(Step(f, events[0]), events[1..], t, thread))
  }

  /** Over every run a topic has a thread exactly from the step that installed it for
      the current destination to the first that takes it away. */
  lemma {:induction false} ThreadIff(f: Forum, events: seq<Event>, t: Topic, thread: int)
    ensures Has(Run(f, events), t, thread) <==>
      Installed(f, events, t, thread) || (Has(f, t, thread) && StaysInstalled(f, events, t, thread))
    decreases |events|
  {
    hide Step, Installs, Uninstalls, Has;
    if |events| > 0 {
      HasStep(f, events[0], t, thread);
      ThreadIff(Step(f, events[0]), events[1..], t, thread);
    }
  }

  /** A message goes to its topic's own thread, or to the General one if it has none; a
      thread of 0 is none, except as the last resort. */
  lemma ResolveIff(f: Forum, t: Topic, thread: int)
    ensures Resolve(f.place.topics, t) == Some(thread) <==>
      if exists own: int :: own != 0 && Has(f, t, own) then thread != 0 && Has(f, t, thread) else Has(f, GENERAL, thread)
    ensures Resolve(f.place.topics, t) == None <==>
      forall own: int :: !Has(f, GENERAL, own) && (own != 0 ==> !Has(f, t, own))
  {
    var topics := f.place.topics;
    assert t in topics ==> Has(f, t, topics[t]);
    assert GENERAL in topics ==> Has(f, GENERAL, topics[GENERAL]);
  }
}
