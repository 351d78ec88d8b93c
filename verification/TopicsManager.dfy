/** The topics manager as a state machine over its snapshot, and the topic setup that
    suspends between its steps (telegram_bot/topics.py). */
module TopicsManager {
  import opened Collections
  import opened TopicsState

  datatype Reply = Unchanged | Published | Raised

  /** What the bot answers to a probe of a saved thread, and to a creation. */
  datatype Probe = Verified | Missing | Unclear
  datatype Creation = Created(thread: int) | Refused | Lost

  datatype Setup = Setup(
    created: map<Topic, int>,
    existing: map<Topic, int>,
    unverified: set<Topic>,
    failed: set<Topic>,
    uncertain: set<Topic>)

  datatype Ending = Finished | Cancelled | NoGroup | NoPermission | WriteError

  /** What a setup that was not cancelled says about one topic is so. */
  ghost predicate Settled(place: Place, s: Setup, t: Topic) {
    && (t in s.created || t in s.existing || t in s.unverified || t in s.failed || t in s.uncertain)
    && (t in s.created ==> t in place.topics && place.topics[t] == s.created[t])
    && (t in s.existing ==> t in place.topics && place.topics[t] == s.existing[t])
    && (t in s.unverified ==> t in place.topics)
    && (t in s.failed || t in s.uncertain ==> t !in place.topics)
  }

  ghost predicate Reports(s: Setup, t: Topic) {
    t in s.created || t in s.existing || t in s.unverified || t in s.failed || t in s.uncertain
  }

  ghost predicate SameReport(s: Setup, was: Setup, t: Topic) {
    && (t in s.created <==> t in was.created) && (t in s.created ==> s.created[t] == was.created[t])
    && (t in s.existing <==> t in was.existing) && (t in s.existing ==> s.existing[t] == was.existing[t])
    && (t in s.unverified <==> t in was.unverified)
    && (t in s.failed <==> t in was.failed) && (t in s.uncertain <==> t in was.uncertain)
  }

  ghost predicate SameExcept(a: map<Topic, int>, b: map<Topic, int>, except: set<Topic>) {
    forall t :: t !in except ==> (t in a <==> t in b) && (t in a ==> a[t] == b[t])
  }

  /** The answers while one topic is set up: whether no other task changes anything
      meanwhile, the probe of a saved thread, the creation, and whether the writes that
      remove and install a thread succeed. */
  datatype Answers = Answers(alone: bool, probe: Probe, removable: bool, creation: Creation, installable: bool)

  /** What a finished setup says of the topic, by the answers: a saved thread that is not
      missing is kept, any other topic is created. */
  ghost predicate Told(s: Setup, t: Topic, saved: bool, a: Answers) {
    if saved && !a.probe.Missing? then (if a.probe.Verified? then t in s.existing else t in s.unverified)
    else
      match a.creation
      case Created(thread) => t in s.created && s.created[t] == thread
      case Refused => t in s.failed
      case Lost => t in s.uncertain
  }

  /** How a setup ends that no other task disturbs. */
  function Undisturbed(saved: bool, a: Answers): Ending {
    if saved && !a.probe.Missing? then Finished
    else if saved && !a.removable then WriteError
    else if a.creation.Created? && !a.installable then WriteError
    else Finished
  }

  lemma SettledStays(before: Place, after: Place, was: Setup, s: Setup, changed: Topic, t: Topic)
    requires Settled(before, was, t) && SameReport(s, was, t) && t != changed
    requires SameExcept(after.topics, before.topics, {changed})
    ensures Settled(after, s, t)
  {
  }

  class TopicsManager {
    var place: Place
    var gate: Gate
    var marks: Marks

    function View(): Forum
      reads this
    {
      Forum(place, gate, marks)
    }

    constructor ()
      ensures View() == EMPTY
    {
      place, gate, marks := Place(None, map[], 0), Gate(false, 0), map[];
    }

    /** _update: persist a detached candidate, then publish it. A failed write publishes
        nothing; an unchanged candidate is not written. */
    method Update(candidate: Forum, writable: bool) returns (reply: Reply)
      modifies this
      ensures View() == if writable then candidate else old(View())
      ensures reply == if candidate == old(View()) then Unchanged else if writable then Published else Raised
    {
      if candidate == View() {
        return Unchanged;
      }
      if !writable {
        return Raised;
      }
      place, gate, marks := candidate.place, candidate.gate, candidate.marks;
      reply := Published;
    }

    method MarkMessageSent(ticket: Ticket, now: int, writable: bool) returns (reply: Reply)
      modifies this
      ensures View() == if writable then Step(old(View()), Mark(ticket, now)) else old(View())
    {
      var candidate := View();
      if candidate.gate.enabled && candidate.place.group.Some? && candidate.place.group.value != 0 {
        if candidate.gate.monitoring == ticket.monitoring && candidate.place.destination == ticket.destination {
          var r := ticket.receipt;
          var thread := Resolve(candidate.place.topics, r.topic);
          if candidate.place.group.value == r.chat && thread == r.thread {
            var keys := if r.topic in candidate.marks then candidate.marks[r.topic] else map[];
            candidate := candidate.(marks := candidate.marks[r.topic := keys[r.key := now]]);
          }
        }
      }
      reply := Update(candidate, writable);
    }

    method ClearMessageCache(only: Option<Topic>, writable: bool) returns (reply: Reply)
      modifies this
      ensures View() == if writable then Step(old(View()), ClearCache(only)) else old(View())
    {
      var candidate := View();
      if only.Some? {
        candidate := candidate.(marks := candidate.marks - {only.value});
      } else {
        candidate := candidate.(marks := map[]);
      }
      candidate := candidate.(place := candidate.place.(destination := candidate.place.destination + 1));
      reply := Update(candidate, writable);
    }

    method SetGroupId(group: int, writable: bool) returns (reply: Reply)
      modifies this
      ensures View() == if writable then Step(old(View()), SetGroup(group)) else old(View())
    {
      var candidate := View();
      if candidate.place.group != Some(group) {
        candidate := Forum(Place(Some(group), map[], candidate.place.destination + 1), candidate.gate, map[]);
      }
      reply := Update(candidate, writable);
    }

    method SetTopicsEnabled(enabled: bool, writable: bool) returns (reply: Reply)
      modifies this
      ensures View() == if writable then Step(old(View()), SetEnabled(enabled)) else old(View())
    {
      var candidate := View();
      if candidate.gate.enabled && !enabled {
        candidate := Forum(candidate.place, candidate.gate.(monitoring := candidate.gate.monitoring + 1), map[]);
      }
      candidate := candidate.(gate := candidate.gate.(enabled := enabled));
      reply := Update(candidate, writable);
    }

    method SetTopicId(topic: Topic, thread: int, guard: Guard, writable: bool) returns (reply: Reply)
      modifies this
      ensures View() == if writable then Step(old(View()), SetTopic(topic, thread, guard)) else old(View())
      ensures reply.Published? ==> Passes(old(place), guard) && place == Moved(old(place), old(place.topics)[topic := thread])
      ensures reply.Unchanged? <==> !Passes(old(place), guard) || (topic in old(place.topics) && old(place.topics)[topic] == thread)
      ensures reply.Raised? ==> !writable
    {
      var candidate := View();
      if Passes(candidate.place, guard) {
        if topic !in candidate.place.topics || candidate.place.topics[topic] != thread {
          var threads := candidate.place.topics[topic := thread];
          candidate := candidate.(place := Place(candidate.place.group, threads, candidate.place.destination + 1));
          if topic == GENERAL {
            candidate := candidate.(marks := map[]);
          } else {
            candidate := candidate.(marks := candidate.marks - {topic});
          }
        }
      }
      reply := Update(candidate, writable);
    }

    method RemoveTopicId(topic: Topic, guard: Guard, writable: bool) returns (reply: Reply)
      modifies this
      ensures View() == if writable then Step(old(View()), RemoveTopic(topic, guard)) else old(View())
      ensures reply.Published? ==> Passes(old(place), guard) && place == Moved(old(place), old(place.topics) - {topic})
      ensures reply.Unchanged? <==> !Passes(old(place), guard) || topic !in old(place.topics)
      ensures reply.Raised? ==> !writable
    {
      var candidate := View();
      if Passes(candidate.place, guard) && topic in candidate.place.topics {
        var threads := candidate.place.topics - {topic};
        candidate := candidate.(place := Place(candidate.place.group, threads, candidate.place.destination + 1));
        if topic == GENERAL {
          candidate := candidate.(marks := map[]);
        } else {
          candidate := candidate.(marks := candidate.marks - {topic});
        }
      }
      reply := Update(candidate, writable);
    }

    method ClearAllTopics(writable: bool) returns (reply: Reply)
      modifies this
      ensures View() == if writable then Step(old(View()), ClearAll) else old(View())
    {
      var candidate := View();
      if candidate.place.topics != map[] || candidate.marks != map[] {
        candidate := Forum(Place(candidate.place.group, map[], candidate.place.destination + 1), candidate.gate, map[]);
      }
      reply := Update(candidate, writable);
    }

    /** Another task runs while this one waits. */
    method Suspend(alone: bool)
      modifies this
      ensures Evolves(old(View()), View())
      ensures alone ==> View() == old(View())
    {
      if alone {
        return;
      }
      var events: seq<Event> := *;
      if exists i :: 0 <= i < |events| && events[i].Reload? {
        events := [];
      }
      var next := Run(View(), events);
      RevisionsIdentifyDestination(View(), events);
      place, gate, marks := next.place, next.gate, next.marks;
    }

    /** The creation half: the topic has no thread in the destination captured so far. */
    method CreateTopic(topic: Topic, group: int, revision: nat, sofar: Setup, a: Answers)
      returns (setup: Setup, next: nat, ending: Ending)
      requires !Reports(sofar, topic) && topic !in place.topics
      requires place.group == Some(group) && place.destination == revision
      modifies this
      ensures ending.Finished? || ending.Cancelled? || ending.WriteError?
      ensures a.alone ==> ending == Undisturbed(false, a)
      ensures ending.WriteError? ==> !a.installable
      ensures ending.Finished? ==>
        && place.group == Some(group) && place.destination == next
        && SameExcept(place.topics, old(place.topics), {topic})
        && Settled(place, setup, topic) && Told(setup, topic, false, a)
      ensures ending.Finished? ==> forall t :: t != topic ==> SameReport(setup, sofar, t)
    {
      setup, next, ending := sofar, revision, Cancelled;
      Suspend(a.alone);
      if place.group != Some(group) || place.destination != next {
        return;
      }
      if !a.creation.Created? {
        if a.creation.Refused? {
          setup := setup.(failed := setup.failed + {topic});
        } else {
          setup := setup.(uncertain := setup.uncertain + {topic});
        }
        return setup, next, Finished;
      }
      Suspend(a.alone);
      var install := SetTopicId(topic, a.creation.thread, Guard(Some(group), Some(next)), a.installable);
      if install.Raised? {
        return setup, next, WriteError;
      }
      if !install.Published? {
        return;
      }
      next := next + 1;
      setup := setup.(created := setup.created[topic := a.creation.thread]);
      ending := Finished;
    }

    /** One topic of create_topics_for_group: the ending is Finished unless it stops here.
        Anything may happen at each suspension, but a finished topic was settled in the
        destination it started from, as the bot answered, and nothing else in it changed. */
    method SetupTopic(topic: Topic, group: int, revision: nat, sofar: Setup, a: Answers)
      returns (setup: Setup, next: nat, ending: Ending)
      requires !Reports(sofar, topic)
      modifies this
      ensures ending.Finished? || ending.Cancelled? || ending.WriteError?
      ensures a.alone && old(place.group) == Some(group) && old(place.destination) == revision ==>
        ending == Undisturbed(old(topic in place.topics), a)
      ensures ending.WriteError? ==> !a.installable || !a.removable
      ensures ending.Finished? ==>
        && old(place.destination) == revision && old(place.group) == Some(group)
        && place.group == Some(group) && place.destination == next
        && SameExcept(place.topics, old(place.topics), {topic})
        && Settled(place, setup, topic) && Told(setup, topic, old(topic in place.topics), a)
      ensures ending.Finished? ==> forall t :: t != topic ==> SameReport(setup, sofar, t)
    {
      setup, next, ending := sofar, revision, Cancelled;
      if place.group != Some(group) || place.destination != next {
        return;
      }
      if topic in place.topics {
        var saved := place.topics[topic];
        Suspend(a.alone);
        if place.group != Some(group) || place.destination != next {
          return;
        }
        if !a.probe.Missing? {
          if a.probe.Verified? {
            setup := setup.(existing := setup.existing[topic := saved]);
          } else {
            setup := setup.(unverified := setup.unverified + {topic});
          }
          return setup, next, Finished;
        }
        Suspend(a.alone);
        var removal := RemoveTopicId(topic, Guard(Some(group), Some(next)), a.removable);
        if removal.Raised? {
          return setup, next, WriteError;
        }
        if !removal.Published? {
          return;
        }
        next := next + 1;
        if place.group != Some(group) || place.destination != next {
          return;
        }
      }
      setup, next, ending := CreateTopic(topic, group, next, sofar, a);
    }

    /** create_topics_for_group: a setup that finishes found every configured topic settled
        in the captured destination as the bot answered, and touched no other thread; a
        cancelled one returns no thread at all; and one that nobody disturbs, with the
        permissions and every write granted, does finish. */
    method CreateTopicsForGroup(config: seq<Topic>, group: Option<int>, revision: Option<nat>, alone: bool, permitted: bool, answers: seq<Answers>)
      returns (setup: Setup, ending: Ending, chat: int, ghost captured: nat)
      requires forall i, j :: 0 <= i < j < |config| ==> config[i] != config[j]
      requires |answers| == |config|
      modifies this
      ensures captured == if revision.Some? then revision.value else old(place.destination)
      ensures chat == if group.Some? then group.value else if old(place.group).Some? then old(place.group).value else 0
      ensures ending.NoGroup? <==> chat == 0
      ensures ending.NoPermission? ==> !permitted
      ensures chat != 0 && !permitted ==> ending.NoPermission? || ending.Cancelled?
      ensures ending.WriteError? ==> exists a <- answers :: !a.installable || !a.removable
      ensures chat != 0 && permitted && alone && old(place.group) == Some(chat) && old(place.destination) == captured ==>
        (forall a <- answers :: a.alone && a.installable && a.removable) ==> ending.Finished?
      ensures ending.Finished? ==> place.group == Some(chat) && forall t :: t in config ==> Settled(place, setup, t)
      ensures ending.Finished? && captured == old(place.destination) ==>
        && SameExcept(place.topics, old(place.topics), set t | t in config)
        && forall i :: 0 <= i < |config| ==> Told(setup, config[i], old(config[i] in place.topics), answers[i])
      ensures ending.Cancelled? ==> setup.created == map[] && setup.existing == map[]
    {
      setup, ending := Setup(map[], map[], {}, {}, {}), Cancelled;
      var target := if group.Some? then group else place.group;
      var expected := if revision.Some? then revision.value else place.destination;
      captured := expected;
      chat := if target.Some? then target.value else 0;
      if chat == 0 {
        ending := NoGroup;
        return;
      }
      Suspend(alone);
      if place.group != target || place.destination != expected {
        return;
      }
      Suspend(alone);
      if place.group != target || place.destination != expected {
        return;
      }
      if !permitted {
        ending := NoPermission;
        return;
      }
      ghost var all := set t | t in config;
      var i := 0;
      while i < |config|
        invariant 0 <= i <= |config|
        invariant place.group == Some(chat) && place.destination == expected
        invariant forall j :: i <= j < |config| ==> !Reports(setup, config[j])
        invariant forall j :: 0 <= j < i ==> Settled(place, setup, config[j])
        invariant captured == old(place.destination) ==>
          && SameExcept(place.topics, old(place.topics), set t | t in config[..i])
          && forall j :: 0 <= j < i ==> Told(setup, config[j], old(config[j] in place.topics), answers[j])
      {
        ghost var before, sofar := place, setup;
        assert config[i] !in config[..i];
        assert answers[i] in answers;
        setup, expected, ending := SetupTopic(config[i], chat, expected, setup, answers[i]);
        if !ending.Finished? {
          if ending.Cancelled? {
            setup := setup.(created := map[], existing := map[]);
          }
          return;
        }
        forall j | 0 <= j < i
          ensures Settled(place, setup, config[j])
          ensures Told(sofar, config[j], old(config[j] in place.topics), answers[j]) ==>
            Told(setup, config[j], old(config[j] in place.topics), answers[j])
        {
          SettledStays(before, place, sofar, setup, config[i], config[j]);
          assert SameReport(setup, sofar, config[j]);
        }
        forall j | i < j < |config| ensures !Reports(setup, config[j]) {
          assert SameReport(setup, sofar, config[j]);
        }
        assert config[..i + 1] == config[..i] + [config[i]];
        i := i + 1;
      }
      assert config[..i] == config;
      ending := Finished;
    }
  }
}
