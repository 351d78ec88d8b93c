/** The dispatcher's rate limiter (telegram_bot/dispatcher.py, TokenBucket), over real
    numbers. */
module TokenBucket {

  datatype Bucket = Bucket(rate: real, capacity: real, tokens: real, last: real) {
    predicate Valid() {
      rate > 0.0 && 0.0 <= tokens <= capacity
    }
  }

  /** One pass of the loop in consume: how much was asked, and the clock. */
  datatype Try = Try(amount: real, now: real)

  const SHORTEST := 0.05

  function Refilled(b: Bucket, now: real): Bucket {
    var level := b.tokens + (now - b.last) * b.rate;
    b.(tokens := if level < b.capacity then level else b.capacity, last := now)
  }

  predicate Served(b: Bucket, t: Try) {
    Refilled(b, t.now).tokens >= t.amount
  }

  function After(b: Bucket, t: Try): Bucket {
    var full := Refilled(b, t.now);
    if Served(b, t) then full.(tokens := full.tokens - t.amount) else full
  }

  function Wait(b: Bucket, t: Try): real
    requires b.rate > 0.0
  {
    var needed := (t.amount - Refilled(b, t.now).tokens) / b.rate;
    if needed > SHORTEST then needed else SHORTEST
  }

  function LastTime(last: real, tries: seq<Try>): real {
    if |tries| == 0 then last else tries[|tries| - 1].now
  }

  /** The clock does not run backwards, and nothing is asked for in the negative. */
  predicate InOrder(last: real, tries: seq<Try>) {
    |tries| == 0 ||
    (InOrder(last, tries[..|tries| - 1]) && LastTime(last, tries[..|tries| - 1]) <= tries[|tries| - 1].now &&
     tries[|tries| - 1].amount >= 0.0)
  }

  function Run(b: Bucket, tries: seq<Try>): Bucket {
    if |tries| == 0 then b else After(Run(b, tries[..|tries| - 1]), tries[|tries| - 1])
  }

  function Consumed(b: Bucket, tries: seq<Try>): real {
    if |tries| == 0 then 0.0
    else
      var t := tries[|tries| - 1];
      Consumed(b, tries[..|tries| - 1]) + Taken(Run(b, tries[..|tries| - 1]), t)
  }

  /** What flows in by a later time. */
  function Inflow(b: Bucket, until: real): real {
    (until - b.last) * b.rate
  }

  function Taken(b: Bucket, t: Try): real {
    if Served(b, t) then t.amount else 0.0
  }

  lemma TryConserves(b: Bucket, t: Try)
    requires b.Valid() && b.last <= t.now && t.amount >= 0.0
    ensures var e := After(b, t);
      && e.Valid() && e.rate == b.rate && e.capacity == b.capacity && e.last == t.now
      && Taken(b, t) + e.tokens <= b.tokens + Inflow(b, t.now)
  {
    assert (t.now - b.last) * b.rate >= 0.0;
  }

  lemma Spread(a: real, b: real, c: real, rate: real)
    ensures (b - a) * rate + (c - b) * rate == (c - a) * rate
  {
  }

  /** Tokens stay within the bucket, and what is consumed never exceeds what was there
      plus what has flowed in. */
  lemma {:induction false} RunConserves(b: Bucket, tries: seq<Try>)
    requires b.Valid() && InOrder(b.last, tries)
    ensures var e := Run(b, tries);
      && e.Valid() && e.rate == b.rate && e.capacity == b.capacity && e.last == LastTime(b.last, tries)
      && Consumed(b, tries) + e.tokens <= b.tokens + Inflow(b, e.last)
  {
    hide Refilled, After, Served;
    if |tries| > 0 {
      var front, t := tries[..|tries| - 1], tries[|tries| - 1];
      RunConserves(b, front);
      var m := Run(b, front);
      TryConserves(m, t);
      Spread(b.last, m.last, t.now, b.rate);
    } else {
      assert (b.last - b.last) * b.rate == 0.0;
    }
  }

  /** What a full bucket could not hold. */
  function Spilled(b: Bucket, tries: seq<Try>): real {
    if |tries| == 0 then 0.0
    else
      var m := Run(b, tries[..|tries| - 1]);
      var level := m.tokens + Inflow(m, tries[|tries| - 1].now);
      Spilled(b, tries[..|tries| - 1]) + if level > b.capacity then level - b.capacity else 0.0
  }

  lemma TryAccounts(b: Bucket, t: Try)
    ensures var e := After(b, t); var level := b.tokens + Inflow(b, t.now);
      && e.rate == b.rate && e.capacity == b.capacity && e.last == t.now
      && Taken(b, t) + e.tokens + (if level > b.capacity then level - b.capacity else 0.0) == level
  {
  }

  /** Every token is accounted for: consumed, still there, or spilled over the brim. */
  lemma {:induction false} RunAccounts(b: Bucket, tries: seq<Try>)
    ensures var e := Run(b, tries);
      && e.rate == b.rate && e.capacity == b.capacity && e.last == LastTime(b.last, tries)
      && Consumed(b, tries) + e.tokens + Spilled(b, tries) == b.tokens + Inflow(b, e.last)
  {
    hide After, Taken;
    if |tries| > 0 {
      var front, t := tries[..|tries| - 1], tries[|tries| - 1];
      RunAccounts(b, front);
      var m := Run(b, front);
      TryAccounts(m, t);
      Spread(b.last, m.last, t.now, b.rate);
    } else {
      assert (b.last - b.last) * b.rate == 0.0;
    }
  }

  lemma {:induction false} InOrderParts(last: real, first: seq<Try>, second: seq<Try>)
    requires InOrder(last, first + second)
    ensures InOrder(last, first) && InOrder(LastTime(last, first), second)
    decreases |second|
  {
    var whole := first + second;
    if |second| == 0 {
      assert whole == first;
    } else {
      assert whole[..|whole| - 1] == first + second[..|second| - 1];
      InOrderParts(last, first, second[..|second| - 1]);
    }
  }

  /** The first time of a run bounds the clock from below. */
  lemma {:induction false} InOrderFromFirst(last: real, tries: seq<Try>)
    requires |tries| > 0 && InOrder(last, tries)
    ensures last <= tries[0].now && InOrder(tries[0].now, tries)
    decreases |tries|
  {
    var front := tries[..|tries| - 1];
    if |front| > 0 {
      InOrderFromFirst(last, front);
      assert LastTime(tries[0].now, front) == LastTime(last, front);
    } else {
      assert InOrder(tries[0].now, front);
    }
  }

  lemma {:induction false} RunSplits(b: Bucket, first: seq<Try>, second: seq<Try>)
    ensures Run(b, first + second) == Run(Run(b, first), second)
    ensures Consumed(b, first + second) == Consumed(b, first) + Consumed(Run(b, first), second)
    decreases |second|
  {
    var whole := first + second;
    if |second| == 0 {
      assert whole == first;
    } else {
      assert whole[..|whole| - 1] == first + second[..|second| - 1];
      RunSplits(b, first, second[..|second| - 1]);
    }
  }

  lemma ConsumedSince(b: Bucket, tries: seq<Try>)
    requires b.Valid() && InOrder(b.last, tries) && |tries| > 0
    ensures Consumed(b, tries) <= b.capacity + Inflow(b, tries[|tries| - 1].now)
  {
    hide Run, Consumed, InOrder, Inflow;
    RunConserves(b, tries);
    var e := Run(b, tries);
    assert e.last == tries[|tries| - 1].now && e.tokens >= 0.0;
  }

  /** Over any window of any run, however it started: at most one bucketful plus the rate
      times the window's own duration. */
  lemma WindowIsBounded(b: Bucket, before: seq<Try>, window: seq<Try>)
    requires b.Valid() && InOrder(b.last, before + window) && |window| > 0
    ensures Consumed(b, before + window) - Consumed(b, before)
      <= b.capacity + (window[|window| - 1].now - window[0].now) * b.rate
  {
    hide Refilled, After, Served, Run, Consumed, InOrder;
    InOrderParts(b.last, before, window);
    RunConserves(b, before);
    RunSplits(b, before, window);
    var m := Run(b, before);
    InOrderFromFirst(m.last, window);
    // Refilling when the window opens changes nothing that follows.
    RefillIsIdle(m, window);
    RefillIsValid(m, window[0].now);
    ConsumedSince(Refilled(m, window[0].now), window);
  }

  lemma RefillIsValid(b: Bucket, now: real)
    requires b.Valid() && b.last <= now
    ensures var r := Refilled(b, now);
      r.Valid() && r.rate == b.rate && r.capacity == b.capacity && r.last == now
  {
    assert (now - b.last) * b.rate >= 0.0;
  }

  lemma {:induction false} RefillIsIdle(b: Bucket, tries: seq<Try>)
    requires b.Valid() && |tries| > 0
    ensures Run(Refilled(b, tries[0].now), tries) == Run(b, tries)
    ensures Consumed(Refilled(b, tries[0].now), tries) == Consumed(b, tries)
    decreases |tries|
  {
    var front, t := tries[..|tries| - 1], tries[|tries| - 1];
    if |front| == 0 {
      assert Run(b, front) == b;
      assert (t.now - t.now) * b.rate == 0.0;
    } else {
      RefillIsIdle(b, front);
    }
  }

  /** After a refused request, sleeping as computed is enough exactly when the request is
      no larger than the bucket. */
  lemma SleepSufficesIff(b: Bucket, t: Try, wake: real)
    requires b.Valid() && b.last <= t.now && !Served(b, t)
    requires wake >= t.now + Wait(b, t)
    ensures Served(After(b, t), Try(t.amount, wake)) <==> t.amount <= b.capacity
  {
    var level := Refilled(b, t.now).tokens;
    var needed := (t.amount - level) / b.rate;
    assert needed * b.rate == t.amount - level;
    assert (wake - t.now) * b.rate >= needed * b.rate;
  }

  /** No shorter sleep would do, unless it is the shortest there is. */
  lemma SleepIsNoLonger(b: Bucket, t: Try, wake: real)
    requires b.Valid() && b.last <= t.now && !Served(b, t)
    requires t.now <= wake < t.now + Wait(b, t) && Wait(b, t) > SHORTEST
    ensures !Served(After(b, t), Try(t.amount, wake))
  {
    var level := Refilled(b, t.now).tokens;
    var needed := (t.amount - level) / b.rate;
    assert needed * b.rate == t.amount - level;
    assert (wake - t.now) * b.rate < needed * b.rate;
  }

  class Limiter {
    const rate: real
    const capacity: real
    var tokens: real
    var last: real

    function View(): Bucket
      reads this
    {
      Bucket(rate, capacity, tokens, last)
    }

    constructor (rate: real, capacity: real, now: real)
      requires rate > 0.0 && capacity >= 0.0
      ensures View() == Bucket(rate, capacity, capacity, now)
    {
      this.rate, this.capacity, tokens, last := rate, capacity, capacity, now;
    }

    /** One pass of the loop. */
    method Pass(amount: real, now: real) returns (served: bool)
      modifies this
      ensures View() == After(old(View()), Try(amount, now)) && served == Served(old(View()), Try(amount, now))
    {
      ghost var before := View();
      var level := tokens + (now - last) * rate;
      assert level == before.tokens + (now - before.last) * before.rate;
      last := now;
      tokens := if level < capacity then level else capacity;
      assert View() == Refilled(before, now);
      served := tokens >= amount;
      if served {
        tokens := tokens - amount;
      }
    }

    /** consume: try, and try again after each sleep; `clock` is what the clock shows at
        each pass. Only the last pass takes tokens. */
    method Consume(amount: real, clock: seq<real>) returns (passes: nat, served: bool)
      modifies this
      ensures passes <= |clock| && (!served ==> passes == |clock|)
      ensures View() == Run(old(View()), Tries(amount, clock[..passes]))
      ensures Consumed(old(View()), Tries(amount, clock[..passes])) == if served then amount else 0.0
    {
      passes, served := 0, false;
      hide After, Served, Refilled;
      while passes < |clock| && !served
        invariant passes <= |clock|
        invariant View() == Run(old(View()), Tries(amount, clock[..passes]))
        invariant Consumed(old(View()), Tries(amount, clock[..passes])) == if served then amount else 0.0
      {
        assert Tries(amount, clock[..passes + 1])[..passes] == Tries(amount, clock[..passes]);
        served := Pass(amount, clock[passes]);
        passes := passes + 1;
      }
    }
  }

  function Tries(amount: real, clock: seq<real>): (r: seq<Try>)
    ensures |r| == |clock| && forall i :: 0 <= i < |r| ==> r[i] == Try(amount, clock[i])
  {
    seq(|clock|, i requires 0 <= i < |clock| => Try(amount, clock[i]))
  }
}
