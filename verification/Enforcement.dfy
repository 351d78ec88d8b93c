/** The violation and clearing decisions of one enforcement cycle
    (utils/check_usage.py, check_users_usage) on complete and partial samples. Other tasks
    replace warning records at every await. */
module Enforcement {
  import opened Collections
  import opened DeviceCount
  import opened DeviceClaims

  type User = string

  datatype Policy = Policy(limit: int, eligible: bool)

  /** A warning record, by identity, with its count of violations and the count needed. */
  datatype Warning = Warning(id: nat, violations: nat, needed: nat)

  /** What the cycle learns of a user when it refreshes the evidence: `observed` is
      None for a user without a record, `trustworthy` is the age and clock check. */
  datatype Look = Look(
    current: bool, observed: Option<seq<Connection>>, trustworthy: bool, partialEvidence: bool,
    trustScore: real, fallback: int)

  /** Why a violation decision ended, and why a clearing decision did. */
  datatype Verdict = Stopped | Skipped | Within | Replaced | Warned | Punished
  datatype Clearing = Halted | Untouched | NotCandidate | NoPolicy | OverLimit | Cleared

  /** A reading of the policy: whether the cycle went stale before or during it, the
      warnings other tasks left behind, what was read, and the look taken after it. */
  datatype PolicyRead = PolicyRead(
    stale: bool, others: map<User, Warning>, read: Option<Policy>, stalled: bool, look: Look)

  /** The answers to the last check before the panel is changed. */
  datatype Recheck = Recheck(others: map<User, Warning>, observed: bool, policy: PolicyRead, last: Look, recent: bool)

  /** The answers to a violation decision, in the order it asks for them. */
  datatype Answers = Answers(
    first: Look, others: map<User, Warning>, stopped: bool, second: Look, reached: bool,
    policy: PolicyRead, recheck: Recheck)

  function Count(cfg: Config, look: Look, connections: seq<Connection>): int {
    DeviceTotal(connections, cfg, look.partialEvidence, look.trustScore, look.fallback)
  }

  /** The count in force after a look; a user without a record keeps the one before. */
  function Shown(cfg: Config, look: Look, before: int): int {
    if look.observed.Some? then Count(cfg, look, look.observed.value) else before
  }

  /** A look that lets a decision proceed: current, trustworthy, and if it is partial
      already over the limit of an eligible user. */
  predicate Proves(cfg: Config, look: Look, policy: Option<Policy>, before: int) {
    && look.current && (look.observed.Some? ==> look.trustworthy)
    && (look.partialEvidence ==> policy.Some? && policy.value.eligible && Shown(cfg, look, before) > policy.value.limit)
  }

  /** A policy that may be acted on, with the look behind it. */
  predicate Usable(cfg: Config, p: PolicyRead, before: int) {
    && !p.stale && !p.stalled && p.read.Some? && p.read.value.eligible
    && Proves(cfg, p.look, p.read, before)
  }

  predicate Enough(warnings: map<User, Warning>, u: User, id: nat) {
    u in warnings && warnings[u].id == id && warnings[u].violations >= warnings[u].needed
  }

  /** The last check confirms: the same record, enough violations, and still over the
      limit read last on a recent observation. */
  predicate Confirms(cfg: Config, r: Recheck, u: User, id: nat, before: int) {
    && r.observed && Usable(cfg, r.policy, before) && Enough(r.policy.others, u, id)
    && var n := Shown(cfg, r.policy.look, before);
    && Proves(cfg, r.last, r.policy.read, n) && r.recent
    && Shown(cfg, r.last, n) > r.policy.read.value.limit
  }

  /** A violation that goes on after the warning was counted: the second look, the
      record, the policy as it is now and the last check all stand behind it. */
  predicate Deserves(cfg: Config, a: Answers, u: User, policy: Policy, before: int) {
    && Proves(cfg, a.second, Some(policy), before)
    && var second := Shown(cfg, a.second, before);
    && second > policy.limit
    && a.reached && u in a.others && a.others[u].violations >= a.others[u].needed
    && Usable(cfg, a.policy, second) && u in a.policy.others && a.policy.others[u].id == a.others[u].id
    && var third := Shown(cfg, a.policy.look, second);
    && a.policy.read.Some? && third > a.policy.read.value.limit
    && Confirms(cfg, a.recheck, u, a.others[u].id, third)
  }

  class Cycle {
    const config: Config
    var protectedUsers: set<User>
    var failedUsers: set<User>
    var actual: map<User, seq<Connection>>
    var counts: map<User, int>
    var policies: map<User, Policy>
    var candidates: map<User, nat>
    var warnings: map<User, Warning>

    constructor (config: Config, policies: map<User, Policy>, warnings: map<User, Warning>)
      ensures this.config == config && this.policies == policies && this.warnings == warnings
      ensures protectedUsers == {} && failedUsers == {} && actual == map[] && counts == map[]
      ensures Valid() && forall u :: u in warnings ==> IsCandidate(u)
    {
      this.config, this.policies, this.warnings := config, policies, warnings;
      protectedUsers, failedUsers, actual, counts := {}, {}, map[], map[];
      candidates := map u | u in warnings :: warnings[u].id;
    }

    ghost predicate Valid()
      reads this
    {
      forall u :: u in counts ==> u in actual
    }

    function CountOf(u: User): int
      reads this
    {
      if u in counts then counts[u] else 0
    }

    /** The record in force is the one this cycle judges. */
    predicate IsCandidate(u: User)
      reads this
    {
      u in candidates && u in warnings && warnings[u].id == candidates[u]
    }

    /** The look stands behind the count the decisions use. */
    ghost predicate Backed(u: User, look: Look)
      reads this
    {
      && look.current && u !in protectedUsers
      && (look.observed.Some? ==>
            look.trustworthy && u in actual && CountOf(u) == Count(config, look, look.observed.value))
      && (look.partialEvidence ==> u in policies && policies[u].eligible && CountOf(u) > policies[u].limit)
    }

    function PolicyOf(u: User): Option<Policy>
      reads this
    {
      if u in policies then Some(policies[u]) else None
    }

    /** Other tasks may replace, add or drop any warning record. */
    method Await(others: map<User, Warning>)
      modifies this`warnings
      ensures warnings == others
    {
      warnings := others;
    }

    /** refresh_user_evidence: a lower bound within the limit proves nothing, so it
        protects the user instead of letting any later decision see them. */
    method RefreshUserEvidence(u: User, look: Look) returns (ok: bool)
      requires Valid()
      modifies this`protectedUsers, this`actual, this`counts
      ensures Valid()
      ensures forall v :: v != u ==> (v in protectedUsers <==> v in old(protectedUsers))
      ensures forall v :: v != u ==> CountOf(v) == old(CountOf(v)) && (v in actual <==> v in old(actual))
      ensures ok <==> old(u !in protectedUsers) && Proves(config, look, PolicyOf(u), old(CountOf(u)))
      ensures ok ==> Backed(u, look) && CountOf(u) == Shown(config, look, old(CountOf(u)))
      ensures ok ==> (u in actual <==> look.observed.Some? || old(u in actual))
      ensures u in protectedUsers <==> old(u in protectedUsers) || (look.current && !ok)
    {
      if !look.current || u in protectedUsers {
        return false;
      }
      if look.observed.Some? {
        if !look.trustworthy {
          protectedUsers := protectedUsers + {u};
          return false;
        }
        var n := CountDevices(look.observed.value, config, look.partialEvidence, look.trustScore, look.fallback);
        actual := actual[u := look.observed.value];
        counts := counts[u := n];
      }
      if look.partialEvidence {
        if u !in policies || !policies[u].eligible || CountOf(u) <= policies[u].limit {
          protectedUsers := protectedUsers + {u};
          return false;
        }
      }
      ok := true;
    }

    /** refresh_current_policy: the policy as it is now, with the evidence rechecked against
        it; an unreadable or ineligible one protects the user. */
    method RefreshCurrentPolicy(u: User, p: PolicyRead) returns (policy: Option<Policy>)
      requires Valid()
      modifies this`protectedUsers, this`actual, this`counts, this`policies, this`warnings
      ensures Valid()
      ensures policy == if old(u !in protectedUsers) && Usable(config, p, old(CountOf(u))) then p.read else None
      ensures policy.Some? ==> PolicyOf(u) == policy && Backed(u, p.look) && CountOf(u) == Shown(config, p.look, old(CountOf(u)))
      ensures policy.Some? ==> (u in actual <==> p.look.observed.Some? || old(u in actual))
      ensures policy.Some? ==> warnings == p.others
      ensures warnings == if p.stale then old(warnings) else p.others
      ensures !p.stale && (p.read.None? || (!p.stalled && !p.read.value.eligible)) ==> u in protectedUsers
    {
      if p.stale {
        return None;
      }
      Await(p.others);
      if p.read.None? {
        protectedUsers := protectedUsers + {u};
        return None;
      }
      if p.stalled {
        return None;
      }
      if !p.read.value.eligible {
        protectedUsers := protectedUsers + {u};
        return None;
      }
      policies := policies[u := p.read.value];
      var ok := RefreshUserEvidence(u, p.look);
      policy := if ok then p.read else None;
    }

    /** The violation loop for one user up to the punishment: every await is followed by a
        fresh look, and the punishment goes ahead exactly on the record this cycle judged,
        with enough violations, over the limit at every look and as read last. */
    method Judge(u: User, a: Answers) returns (verdict: Verdict)
      requires Valid() && u in policies
      modifies this
      ensures Valid()
      ensures verdict.Skipped? <==> !old(Violates(u, a.first)) && !old(Keeps(u, a.first))
      ensures verdict.Within? <==> old(Keeps(u, a.first))
      ensures verdict.Replaced? <==>
        && old(Violates(u, a.first) && u in warnings)
        && (!old(IsCandidate(u)) || (!a.stopped && (u !in a.others || a.others[u].id != old(warnings)[u].id)))
      ensures verdict.Stopped? <==> old(Violates(u, a.first)) && a.stopped && (old(u in warnings) ==> old(IsCandidate(u)))
      ensures verdict.Punished? <==> old(MustPunish(u, a))
      ensures verdict.Punished? ==>
        && Backed(u, a.recheck.last) && u in policies && CountOf(u) > policies[u].limit
        && IsCandidate(u) && warnings[u].violations >= warnings[u].needed
      ensures verdict.Replaced? ==> u in protectedUsers
      ensures verdict.Within? ==> u in policies && CountOf(u) <= policies[u].limit && !a.first.partialEvidence
    {
      hide Shown, Usable, Confirms, DeviceTotal;
      var ok := false;
      if u !in protectedUsers {
        ok := RefreshUserEvidence(u, a.first);
      }
      if !ok {
        return Skipped;
      }
      if CountOf(u) <= policies[u].limit {
        return Within;
      }
      var monitored := u in warnings;
      var observed := if u in warnings then Some(warnings[u].id) else None;
      if monitored && !IsCandidate(u) {
        protectedUsers := protectedUsers + {u};
        return Replaced;
      }
      Await(a.others);
      if a.stopped {
        return Stopped;
      }
      if monitored && (u !in warnings || Some(warnings[u].id) != observed) {
        protectedUsers := protectedUsers + {u};
        return Replaced;
      }
      if u in warnings {
        candidates := candidates[u := warnings[u].id];
      }
      verdict := Reconsider(u, a);
    }

    /** The second half of the loop, from the look after the warning was counted. */
    method Reconsider(u: User, a: Answers) returns (verdict: Verdict)
      requires Valid() && u in policies && u !in protectedUsers
      requires warnings == a.others && (u in warnings ==> IsCandidate(u))
      modifies this
      ensures Valid() && (verdict.Warned? || verdict.Punished?)
      ensures verdict.Punished? <==> Deserves(config, a, u, old(policies)[u], old(CountOf(u)))
      ensures verdict.Punished? ==>
        && Backed(u, a.recheck.last) && u in policies && CountOf(u) > policies[u].limit
        && IsCandidate(u) && warnings[u].violations >= warnings[u].needed
    {
      hide Shown, Usable, Confirms, Proves, DeviceTotal;
      var ok := RefreshUserEvidence(u, a.second);
      if !ok || CountOf(u) <= policies[u].limit {
        return Warned;
      }
      if !a.reached || u !in warnings || warnings[u].violations < warnings[u].needed {
        return Warned;
      }
      var candidate := warnings[u].id;
      var policy := RefreshCurrentPolicy(u, a.policy);
      if policy.None? || u !in warnings || warnings[u].id != candidate || CountOf(u) <= policy.value.limit {
        return Warned;
      }
      verdict := Revalidate(u, candidate, a.recheck);
    }

    /** The first look proves a violation. */
    predicate Violates(u: User, look: Look)
      reads this
      requires u in policies
    {
      && u !in protectedUsers && Proves(config, look, Some(policies[u]), CountOf(u))
      && Shown(config, look, CountOf(u)) > policies[u].limit
    }

    /** The first look shows the user within the limit. */
    predicate Keeps(u: User, look: Look)
      reads this
      requires u in policies
    {
      && u !in protectedUsers && Proves(config, look, Some(policies[u]), CountOf(u))
      && Shown(config, look, CountOf(u)) <= policies[u].limit
    }

    /** Exactly when a violation is punished. */
    predicate MustPunish(u: User, a: Answers)
      reads this
      requires u in policies
    {
      && Violates(u, a.first)
      && (u in warnings ==> IsCandidate(u)) && !a.stopped
      && u in a.others && (u in warnings ==> a.others[u].id == warnings[u].id)
      && Deserves(config, a, u, policies[u], Shown(config, a.first, CountOf(u)))
    }

    /** revalidate_punishment and punishment_is_current, right before the panel is changed. */
    method Revalidate(u: User, candidate: nat, r: Recheck) returns (verdict: Verdict)
      requires Valid() && u in candidates && candidates[u] == candidate
      modifies this
      ensures Valid() && (verdict.Warned? || verdict.Punished?)
      ensures verdict.Punished? <==> old(u !in protectedUsers) && Confirms(config, r, u, candidate, old(CountOf(u)))
      ensures verdict.Punished? ==>
        && Backed(u, r.last) && u in policies && CountOf(u) > policies[u].limit
        && IsCandidate(u) && warnings[u].violations >= warnings[u].needed
      ensures verdict.Warned? ==> u in protectedUsers
    {
      Await(r.others);
      if r.observed {
        var policy := RefreshCurrentPolicy(u, r.policy);
        if policy.Some? && u in warnings && warnings[u].id == candidate && warnings[u].violations >= warnings[u].needed {
          var ok := RefreshUserEvidence(u, r.last);
          if ok && r.recent && CountOf(u) > policies[u].limit {
            return Punished;
          }
        }
      }
      protectedUsers := protectedUsers + {u};
      verdict := Warned;
    }

    /** The clearing loop for one monitored user: cleared exactly when the judged record
        survives a readable, eligible policy and the user is gone or within its limit. */
    method Clear(u: User, trustworthy: bool, p: PolicyRead) returns (why: Clearing)
      requires Valid()
      modifies this`protectedUsers, this`actual, this`counts, this`policies, this`warnings
      ensures Valid()
      ensures why.Cleared? <==>
        && trustworthy && old(u !in protectedUsers) && u !in failedUsers && old(IsCandidate(u))
        && Usable(config, p, old(CountOf(u))) && u in p.others && p.others[u].id == candidates[u]
        && ((p.look.observed.None? && old(u !in actual)) || Shown(config, p.look, old(CountOf(u))) <= p.read.value.limit)
      ensures why.Cleared? ==> IsCandidate(u) && Backed(u, p.look) && (u in actual ==> !p.look.partialEvidence)
      ensures why.Halted? <==> !trustworthy
      ensures why.Untouched? <==> trustworthy && (old(u in protectedUsers) || u in failedUsers)
      ensures why.OverLimit? ==> p.read.Some? && PolicyOf(u) == p.read && u in actual && CountOf(u) > p.read.value.limit
      ensures why.NoPolicy? ==> !Usable(config, p, old(CountOf(u)))
      ensures why.NotCandidate? ==> !old(IsCandidate(u)) || !IsCandidate(u)
    {
      if !trustworthy {
        return Halted;
      }
      if u in protectedUsers || u in failedUsers {
        return Untouched;
      }
      if !IsCandidate(u) {
        return NotCandidate;
      }
      var policy := RefreshCurrentPolicy(u, p);
      if policy.None? {
        return NoPolicy;
      }
      if !IsCandidate(u) {
        return NotCandidate;
      }
      why := if u !in actual || CountOf(u) <= policy.value.limit then Cleared else OverLimit;
    }
  }

  /** A violation proved on a partial sample is a violation on every completion. A partial
      log sample knows only some eligible nodes, and its completion may know more. */
  lemma FlagHoldsOnEveryCompletion(cfg: Config, more: Option<set<int>>, look: Look, sub: seq<Connection>, sup: seq<Connection>, limit: int)
    requires look.partialEvidence && |sub| > 0 && Elements(sub) <= Elements(sup) && MoreEligible(cfg, more)
    requires Count(cfg, look, sub) > limit
    ensures Count(cfg.(eligibleNodes := more), look.(partialEvidence := false), sup) > limit
  {
    assert sub[0] in Elements(sup);
    PartialIsLowerBoundAcross(Elements(sub), Elements(sup), cfg, more, AppliesHighTrust(cfg, look.trustScore));
  }
}
