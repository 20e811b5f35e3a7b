/** The rate limiter: the Redis script that refills and consumes a token bucket, and
    the service around it that picks the key's time to live.  Token amounts are `real`
    (rounding of the script's floating point is not modelled), clocks are whole
    milliseconds. */
module TokenBucket {
  import opened Common

  /** The hash the script stores under one key. */
  datatype Bucket = Bucket(tokens: real, ts: int)

  /** Options a caller passes for a key. */
  datatype Opts = Opts(capacity: real, refillTokens: real, refillIntervalMs: real)

  /** The same limit as the script works with it: the rate is in tokens per millisecond. */
  datatype Limit = Limit(capacity: real, rate: real)

  datatype Decision = Decision(allowed: bool, remaining: int, retryAfterSec: int, resetAtSec: int)

  /** One request as the script sees it. */
  datatype Call = Call(now: int, cost: real)

  /** What the service's table holds for a key: the hash and its expiry instant. */
  datatype Entry = Entry(bucket: Bucket, expireAt: Option<int>)

  function Min(a: real, b: real): real { if a <= b then a else b }

  function Ceil(x: real): int { -((-x).Floor) }

  predicate Valid(l: Limit) { l.rate > 0.0 }

  predicate Refills(o: Opts) { o.refillTokens > 0.0 && o.refillIntervalMs > 0.0 }

  function LimitOf(o: Opts): (l: Limit)
    requires Refills(o)
    ensures Valid(l)
  {
    Limit(o.capacity, o.refillTokens / o.refillIntervalMs)
  }

  /** The script never works with a cost below one token ... */
  function EffCost(cost: real): real { if cost <= 0.0 then 1.0 else cost }

  /** ... nor with a capacity below the cost. */
  function EffCap(capacity: real, cost: real): real {
    if capacity < EffCost(cost) then EffCost(cost) else capacity
  }

  /** Tokens in the bucket at `now`: a missing hash is a full bucket. */
  function Available(b: Option<Bucket>, l: Limit, c: Call): real
    requires Valid(l)
  {
    var cap := EffCap(l.capacity, c.cost);
    if b.None? then cap
    else
      var delta := if c.now < b.value.ts then 0 else c.now - b.value.ts;
      Min(cap, b.value.tokens + delta as real * l.rate)
  }

  predicate Allowed(b: Option<Bucket>, l: Limit, c: Call)
    requires Valid(l)
  {
    Available(b, l, c) >= EffCost(c.cost)
  }

  /** The hash the script leaves behind. */
  function After(b: Option<Bucket>, l: Limit, c: Call): Bucket
    requires Valid(l)
  {
    Bucket(Available(b, l, c) - (if Allowed(b, l, c) then EffCost(c.cost) else 0.0), c.now)
  }

  /** Whole seconds after which a refused call is told to come back. */
  function RetryAfter(b: Option<Bucket>, l: Limit, c: Call): int
    requires Valid(l)
  {
    if Allowed(b, l, c) then 0
    else Ceil((EffCost(c.cost) - Available(b, l, c)) / l.rate / 1000.0)
  }

  /** The script's answer. */
  function Answer(b: Option<Bucket>, l: Limit, c: Call): Decision
    requires Valid(l)
  {
    var retry := RetryAfter(b, l, c);
    Decision(
      Allowed(b, l, c),
      (After(b, l, c).tokens + 0.00001).Floor,
      retry,
      (c.now as real / 1000.0 + retry as real + 0.5).Floor)
  }

  // ---------- runs ----------

  predicate Monotone(calls: seq<Call>) {
    forall i, j :: 0 <= i < j < |calls| ==> calls[i].now <= calls[j].now
  }

  /** The stored bucket is not from the future of the calls to come. */
  predicate NotLaterThan(b: Option<Bucket>, calls: seq<Call>) {
    b.Some? && calls != [] ==> b.value.ts <= calls[0].now
  }

  function RunState(b: Option<Bucket>, l: Limit, calls: seq<Call>): Option<Bucket>
    requires Valid(l)
    decreases |calls|
  {
    if calls == [] then b else RunState(Some(After(b, l, calls[0])), l, calls[1..])
  }

  function Answers(b: Option<Bucket>, l: Limit, calls: seq<Call>): seq<Decision>
    requires Valid(l)
    decreases |calls|
  {
    if calls == [] then [] else [Answer(b, l, calls[0])] + Answers(Some(After(b, l, calls[0])), l, calls[1..])
  }

  /** Total cost granted by a run. */
  function Granted(b: Option<Bucket>, l: Limit, calls: seq<Call>): real
    requires Valid(l)
    decreases |calls|
  {
    if calls == [] then 0.0
    else (if Allowed(b, l, calls[0]) then EffCost(calls[0].cost) else 0.0)
         + Granted(Some(After(b, l, calls[0])), l, calls[1..])
  }

  lemma Distribute(a: int, b: int, r: real)
    ensures (a + b) as real * r == a as real * r + b as real * r
  {
    assert (a + b) as real == a as real + b as real;
  }

  lemma MulMono(a: int, b: int, r: real)
    requires a <= b && r > 0.0
    ensures a as real * r <= b as real * r
  {
    Distribute(a, b - a, r);
    assert (b - a) as real * r >= 0.0;
  }

  lemma AvailableGrows(b: Bucket, l: Limit, d: Call)
    requires Valid(l) && b.ts <= d.now
    ensures Available(Some(b), l, d) <= b.tokens + Gain(l, b.ts, d.now)
  {
  }

  predicate NonNegative(b: Option<Bucket>) { b.Some? ==> b.value.tokens >= 0.0 }

  /** The stored amount never goes below zero, whatever the clock does. */
  lemma TokensStayNonNegative(b: Option<Bucket>, l: Limit, c: Call)
    requires Valid(l) && NonNegative(b)
    ensures Available(b, l, c) >= 0.0 && NonNegative(Some(After(b, l, c)))
  {
    if b.Some? && c.now > b.value.ts { assert (c.now - b.value.ts) as real * l.rate >= 0.0; }
  }

  /** Refill earned in a span of time, `T * refillTokens / refillIntervalMs`. */
  function Gain(l: Limit, from: int, to: int): real { (to - from) as real * l.rate }

  lemma GainSplits(l: Limit, t0: int, t1: int, t2: int)
    ensures Gain(l, t0, t2) == Gain(l, t0, t1) + Gain(l, t1, t2)
    ensures Gain(l, t0, t0) == 0.0
  {
    Distribute(t1 - t0, t2 - t1, l.rate);
    assert t1 - t0 + (t2 - t1) == t2 - t0;
  }

  lemma GrantedStep(b: Option<Bucket>, l: Limit, calls: seq<Call>)
    requires Valid(l) && calls != []
    ensures Granted(b, l, calls) + After(b, l, calls[0]).tokens
         == Available(b, l, calls[0]) + Granted(Some(After(b, l, calls[0])), l, calls[1..])
  {
  }

  lemma MonotoneTail(calls: seq<Call>)
    requires Monotone(calls) && calls != []
    ensures Monotone(calls[1..])
    ensures |calls| > 1 ==> calls[0].now <= calls[1].now
  {
  }

  /** What a run can grant is what is in the bucket at its first call plus the refill
      of its span. */
  lemma {:induction false} GrantedWithinRefill(b: Option<Bucket>, l: Limit, calls: seq<Call>)
    requires Valid(l) && calls != [] && Monotone(calls) && NonNegative(b)
    ensures Granted(b, l, calls) <= Available(b, l, calls[0]) + Gain(l, calls[0].now, calls[|calls| - 1].now)
    decreases |calls|
  {
    var b', rest := After(b, l, calls[0]), calls[1..];
    GrantedStep(b, l, calls);
    MonotoneTail(calls);
    TokensStayNonNegative(b, l, calls[0]);
    if rest == [] {
      GainSplits(l, calls[0].now, calls[0].now, calls[0].now);
    } else {
      GrantedWithinRefill(Some(b'), l, rest);
      AvailableGrows(b', l, rest[0]);
      GainSplits(l, calls[0].now, rest[0].now, calls[|calls| - 1].now);
    }
  }

  lemma AvailableBelow(b: Option<Bucket>, l: Limit, c: Call, cap: real)
    requires Valid(l) && cap >= l.capacity && EffCost(c.cost) <= cap
    ensures Available(b, l, c) <= cap
  {
  }

  lemma {:induction false} RunStateNonNegative(b: Option<Bucket>, l: Limit, calls: seq<Call>)
    requires Valid(l) && NonNegative(b)
    ensures NonNegative(RunState(b, l, calls))
    decreases |calls|
  {
    if calls != [] {
      TokensStayNonNegative(b, l, calls[0]);
      RunStateNonNegative(Some(After(b, l, calls[0])), l, calls[1..]);
    }
  }

  /** The bound over every run and every sub-run `calls[i..j]` of it: whatever came
      before, the cost granted is at most one full bucket plus the refill of the time
      the sub-run spans.  `cap` is the configured capacity when no call costs more. */
  lemma RunBound(b: Option<Bucket>, l: Limit, calls: seq<Call>, i: nat, j: nat, cap: real)
    requires Valid(l) && Monotone(calls) && NonNegative(b)
    requires i < j <= |calls|
    requires cap >= l.capacity && forall k :: i <= k < j ==> EffCost(calls[k].cost) <= cap
    ensures Granted(RunState(b, l, calls[..i]), l, calls[i..j]) <= cap + Gain(l, calls[i].now, calls[j - 1].now)
  {
    var b', part := RunState(b, l, calls[..i]), calls[i..j];
    RunStateNonNegative(b, l, calls[..i]);
    AvailableBelow(b', l, part[0], cap);
    GrantedWithinRefill(b', l, part);
  }

  /** A refused call finds the bucket below every ceiling, so it only moves the hash
      along the refill line: no later call sees a different number of tokens. */
  lemma RefusalMovesAlongRefill(b: Option<Bucket>, l: Limit, c: Call, d: Call)
    requires Valid(l) && !Allowed(b, l, c)
    requires b.Some? ==> b.value.ts <= c.now
    requires c.now <= d.now
    ensures b.Some?
    ensures Available(Some(After(b, l, c)), l, d) == Available(b, l, d)
  {
    Distribute(c.now - b.value.ts, d.now - c.now, l.rate);
  }

  /** Erasing a refused call from a run changes no later answer and no later state. */
  lemma RefusedCallIsInvisible(b: Option<Bucket>, l: Limit, c: Call, rest: seq<Call>)
    requires Valid(l) && !Allowed(b, l, c)
    requires Monotone([c] + rest) && NotLaterThan(b, [c] + rest)
    ensures Answers(Some(After(b, l, c)), l, rest) == Answers(b, l, rest)
    ensures rest != [] ==> RunState(Some(After(b, l, c)), l, rest) == RunState(b, l, rest)
  {
    if rest != [] {
      assert ([c] + rest)[0] == c && ([c] + rest)[1] == rest[0];
      RefusalMovesAlongRefill(b, l, c, rest[0]);
    }
  }

  /** The sub-run of the calls that were let through. */
  function GrantedCalls(b: Option<Bucket>, l: Limit, calls: seq<Call>): seq<Call>
    requires Valid(l)
    decreases |calls|
  {
    if calls == [] then []
    else (if Allowed(b, l, calls[0]) then [calls[0]] else [])
         + GrantedCalls(Some(After(b, l, calls[0])), l, calls[1..])
  }

  lemma {:induction false} GrantedCallsFromRun(b: Option<Bucket>, l: Limit, calls: seq<Call>)
    requires Valid(l)
    ensures forall c :: c in GrantedCalls(b, l, calls) ==> c in calls
    decreases |calls|
  {
    if calls != [] {
      GrantedCallsFromRun(Some(After(b, l, calls[0])), l, calls[1..]);
    }
  }

  function OnlyAllowed(ds: seq<Decision>): seq<Decision> {
    if ds == [] then [] else (if ds[0].allowed then [ds[0]] else []) + OnlyAllowed(ds[1..])
  }

  lemma {:induction false} SameAvailabilitySameRun(b1: Option<Bucket>, b2: Option<Bucket>, l: Limit, calls: seq<Call>)
    requires Valid(l) && calls != [] && Available(b1, l, calls[0]) == Available(b2, l, calls[0])
    ensures Answers(b1, l, calls) == Answers(b2, l, calls)
    ensures RunState(b1, l, calls) == RunState(b2, l, calls)
  {
    assert After(b1, l, calls[0]) == After(b2, l, calls[0]);
    assert Answer(b1, l, calls[0]) == Answer(b2, l, calls[0]);
  }

  /** Throwing all refused calls out of a run leaves exactly the positive answers of
      the run, unchanged in every field. */
  lemma {:induction false} RefusalsErase(b: Option<Bucket>, l: Limit, calls: seq<Call>)
    requires Valid(l) && Monotone(calls) && NotLaterThan(b, calls)
    ensures Answers(b, l, GrantedCalls(b, l, calls)) == OnlyAllowed(Answers(b, l, calls))
    decreases |calls|
  {
    if calls != [] {
      var c, rest := calls[0], calls[1..];
      var b' := Some(After(b, l, c));
      RefusalsErase(b', l, rest);
      var tail := GrantedCalls(b', l, rest);
      assert Answers(b, l, calls)[1..] == Answers(b', l, rest);
      if Allowed(b, l, c) {
        assert ([c] + tail)[1..] == tail;
      } else {
        assert [] + tail == tail;
        if tail != [] {
          GrantedCallsFromRun(b', l, rest);
          assert tail[0] in rest;
          RefusalMovesAlongRefill(b, l, c, tail[0]);
          SameAvailabilitySameRun(b', b, l, tail);
        }
      }
    }
  }

  // ---------- Retry-After ----------

  lemma CeilBounds(x: real)
    ensures x <= Ceil(x) as real < x + 1.0
  {
  }

  /** The advertised wait is exact in whole seconds: with no other traffic the same
      request passes after it, and is still refused at every earlier whole second. */
  lemma RetryAfterIsExact(b: Option<Bucket>, l: Limit, c: Call, sec: nat)
    requires Valid(l) && !Allowed(b, l, c)
    requires b.Some? ==> b.value.ts <= c.now
    ensures RetryAfter(b, l, c) >= 1
    ensures Allowed(Some(After(b, l, c)), l, Call(c.now + 1000 * sec, c.cost)) <==> sec >= RetryAfter(b, l, c)
  {
    var r, need := l.rate, EffCost(c.cost) - Available(b, l, c);
    var x := need / r / 1000.0;
    CeilBounds(x);
    assert x > 0.0 by { assert need / r > 0.0; }
    var later := Call(c.now + 1000 * sec, c.cost);
    var gain := (1000 * sec) as real * r;
    assert later.now - After(b, l, c).ts == 1000 * sec;
    assert Allowed(Some(After(b, l, c)), l, later) <==> gain >= need;
    assert need == x * 1000.0 * r by { assert (need / r) * r == need; }
    assert gain == sec as real * 1000.0 * r by { assert (1000 * sec) as real == sec as real * 1000.0; }
    ScaleOrder(sec as real, x, r);
  }

  lemma ScaleOrder(a: real, b: real, r: real)
    requires r > 0.0
    ensures a * 1000.0 * r >= b * 1000.0 * r <==> a >= b
  {
    var d := a - b;
    assert a * 1000.0 * r - b * 1000.0 * r == d * (1000.0 * r);
    if d >= 0.0 { assert d * (1000.0 * r) >= 0.0; } else { assert (-d) * (1000.0 * r) > 0.0; }
  }

  /** The other two numbers of the answer: `remaining` is the whole part of what is left
      (up to the script's nudge), and `resetAtSec` is the second nearest to the advertised
      retry instant. */
  lemma AnswerNumbers(b: Option<Bucket>, l: Limit, c: Call)
    requires Valid(l) && NonNegative(b)
    ensures var d := Answer(b, l, c);
            && 0 <= d.remaining && d.remaining as real <= After(b, l, c).tokens + 0.00001 < d.remaining as real + 1.0
            && (d.allowed <==> d.retryAfterSec == 0)
            && -500 <= 1000 * d.resetAtSec - (c.now + 1000 * d.retryAfterSec) <= 500
  {
    TokensStayNonNegative(b, l, c);
    if !Allowed(b, l, c) {
      var x := (EffCost(c.cost) - Available(b, l, c)) / l.rate / 1000.0;
      assert x > 0.0;
      CeilBounds(x);
    }
    NearestSecond(c.now, RetryAfter(b, l, c));
  }

  lemma NearestSecond(now: int, retry: int)
    ensures -500 <= 1000 * (now as real / 1000.0 + retry as real + 0.5).Floor - (now + 1000 * retry) <= 500
  {
  }

  // ---------- key expiry ----------

  /** Default time to live: twice the time to fill, in whole seconds, at least one. */
  function DefaultTtlSec(l: Limit): int
    requires Valid(l)
  {
    var t := (2.0 * (l.capacity / l.rate) / 1000.0).Floor;
    if t < 1 then 1 else t
  }

  /** The hash a call finds when the key lives `ttlSec` seconds after its last write. */
  function Live(b: Option<Bucket>, ttlSec: int, now: int): Option<Bucket> {
    if b.Some? && now >= b.value.ts + 1000 * ttlSec then None else b
  }

  function AnswersWithExpiry(b: Option<Bucket>, l: Limit, ttlSec: int, calls: seq<Call>): seq<Decision>
    requires Valid(l)
    decreases |calls|
  {
    if calls == [] then []
    else
      var b' := Live(b, ttlSec, calls[0].now);
      [Answer(b', l, calls[0])] + AnswersWithExpiry(Some(After(b', l, calls[0])), l, ttlSec, calls[1..])
  }

  predicate CoversFill(l: Limit, ttlSec: int, cost: real)
    requires Valid(l)
  {
    EffCap(l.capacity, cost) <= (1000 * ttlSec) as real * l.rate
  }

  lemma FullAfter(b: Bucket, l: Limit, ttlSec: nat, now: int, cost: real)
    requires Valid(l) && b.tokens >= 0.0 && now >= b.ts + 1000 * ttlSec && CoversFill(l, ttlSec, cost)
    ensures Available(Some(b), l, Call(now, cost)) == EffCap(l.capacity, cost)
  {
    MulMono(1000 * ttlSec, now - b.ts, l.rate);
  }

  /** Exactly when a time to live cannot be noticed by calls of a given cost: over every
      bucket and every instant, the expired key answers like the kept one if and only if
      that time refills the whole effective capacity. */
  lemma ExpiryInvisibleIff(l: Limit, ttlSec: nat, cost: real)
    requires Valid(l)
    ensures (forall b: Option<Bucket>, now: int :: NonNegative(b) && (b.Some? ==> b.value.ts <= now)
               ==> Available(Live(b, ttlSec, now), l, Call(now, cost)) == Available(b, l, Call(now, cost)))
            <==> CoversFill(l, ttlSec, cost)
  {
    if CoversFill(l, ttlSec, cost) {
      forall b: Option<Bucket>, now: int | NonNegative(b) && (b.Some? ==> b.value.ts <= now)
        ensures Available(Live(b, ttlSec, now), l, Call(now, cost)) == Available(b, l, Call(now, cost))
      {
        if b.Some? && now >= b.value.ts + 1000 * ttlSec { FullAfter(b.value, l, ttlSec, now, cost); }
      }
    } else {
      var b, now := Some(Bucket(0.0, 0)), 1000 * ttlSec;
      assert NonNegative(b) && b.value.ts <= now;
      assert Live(b, ttlSec, now) == None;
      assert Available(Live(b, ttlSec, now), l, Call(now, cost)) != Available(b, l, Call(now, cost));
    }
  }

  /** The default time to live always covers a full refill of the configured capacity. */
  lemma DefaultTtlCoversFill(l: Limit, cost: real)
    requires Valid(l) && EffCost(cost) <= l.capacity
    ensures CoversFill(l, DefaultTtlSec(l), cost)
  {
    var r := l.rate;
    var f := l.capacity / r;
    var y := 2.0 * f / 1000.0;
    var t := DefaultTtlSec(l);
    assert t as real >= y / 2.0;
    ScaleOrder(t as real, y / 2.0, r);
    assert y / 2.0 * 1000.0 * r == l.capacity by { assert f * r == l.capacity; assert y / 2.0 * 1000.0 == f; }
    assert (1000 * t) as real == t as real * 1000.0;
  }

  /** Over every run with a non-decreasing clock, a bucket whose key expires gives the
      very same answers as one that is kept forever, whenever the time to live covers
      the fill for every cost asked. */
  lemma {:induction false} ExpiryUnobservable(b: Option<Bucket>, l: Limit, ttlSec: nat, calls: seq<Call>)
    requires Valid(l) && Monotone(calls) && NotLaterThan(b, calls) && NonNegative(b)
    requires forall c :: c in calls ==> CoversFill(l, ttlSec, c.cost)
    ensures AnswersWithExpiry(b, l, ttlSec, calls) == Answers(b, l, calls)
    decreases |calls|
  {
    if calls != [] {
      var c := calls[0];
      assert CoversFill(l, ttlSec, c.cost);
      ExpiryInvisibleIff(l, ttlSec, c.cost);
      var b' := Live(b, ttlSec, c.now);
      assert Call(c.now, c.cost) == c;
      assert Available(b', l, c) == Available(b, l, c);
      TokensStayNonNegative(b, l, c);
      ExpiryUnobservable(Some(After(b, l, c)), l, ttlSec, calls[1..]);
    }
  }

  /** The default choice: no run of calls costing at most the capacity can tell. */
  lemma DefaultExpiryUnobservable(l: Limit, calls: seq<Call>)
    requires Valid(l) && Monotone(calls)
    requires forall c :: c in calls ==> EffCost(c.cost) <= l.capacity
    ensures AnswersWithExpiry(None, l, DefaultTtlSec(l), calls) == Answers(None, l, calls)
  {
    forall c | c in calls ensures CoversFill(l, DefaultTtlSec(l), c.cost) { DefaultTtlCoversFill(l, c.cost); }
    ExpiryUnobservable(None, l, DefaultTtlSec(l), calls);
  }

  /** What the answers let through, in tokens. */
  function CostAllowed(calls: seq<Call>, answers: seq<Decision>): real
    requires |answers| == |calls|
  {
    if calls == [] then 0.0
    else (if answers[0].allowed then EffCost(calls[0].cost) else 0.0) + CostAllowed(calls[1..], answers[1..])
  }

  lemma {:induction false} AnswersGrant(b: Option<Bucket>, l: Limit, calls: seq<Call>)
    requires Valid(l)
    ensures |Answers(b, l, calls)| == |calls| && CostAllowed(calls, Answers(b, l, calls)) == Granted(b, l, calls)
    decreases |calls|
  {
    if calls != [] {
      AnswersGrant(Some(After(b, l, calls[0])), l, calls[1..]);
      assert Answers(b, l, calls)[1..] == Answers(Some(After(b, l, calls[0])), l, calls[1..]);
    }
  }

  lemma {:induction false} AnswersUpTo(b: Option<Bucket>, l: Limit, calls: seq<Call>, j: nat)
    requires Valid(l) && j <= |calls| == |Answers(b, l, calls)|
    ensures Answers(b, l, calls)[..j] == Answers(b, l, calls[..j])
    decreases |calls|
  {
    if j > 0 {
      var b', rest := Some(After(b, l, calls[0])), calls[1..];
      AnswersUpTo(b', l, rest, j - 1);
      assert calls[..j][1..] == rest[..j - 1];
      assert Answers(b, l, calls)[..j] == [Answer(b, l, calls[0])] + Answers(b', l, rest)[..j - 1];
    }
  }

  lemma {:induction false} AnswersFrom(b: Option<Bucket>, l: Limit, calls: seq<Call>, i: nat)
    requires Valid(l) && i <= |calls| == |Answers(b, l, calls)|
    ensures Answers(b, l, calls)[i..] == Answers(RunState(b, l, calls[..i]), l, calls[i..])
    decreases |calls|
  {
    if i > 0 {
      var b', rest := Some(After(b, l, calls[0])), calls[1..];
      AnswersFrom(b', l, rest, i - 1);
      assert calls[..i][1..] == rest[..i - 1] && calls[i..] == rest[i - 1..];
      assert Answers(b, l, calls)[i..] == Answers(b', l, rest)[i - 1..];
    } else {
      assert calls[0..] == calls;
    }
  }

  /** The answers to a sub-run are those of the bucket the calls before it left. */
  lemma AnswersOfPart(b: Option<Bucket>, l: Limit, calls: seq<Call>, i: nat, j: nat)
    requires Valid(l) && i <= j <= |calls|
    ensures |Answers(b, l, calls)| == |calls|
    ensures Answers(b, l, calls)[i..j] == Answers(RunState(b, l, calls[..i]), l, calls[i..j])
  {
    var b', tail := RunState(b, l, calls[..i]), calls[i..];
    AnswersGrant(b, l, calls);
    AnswersFrom(b, l, calls, i);
    AnswersGrant(b', l, tail);
    AnswersUpTo(b', l, tail, j - i);
    assert calls[i..j] == tail[..j - i] && Answers(b, l, calls)[i..j] == Answers(b, l, calls)[i..][..j - i];
  }

  /** The limit as the keys really live it, with the default time to live: in every run of calls
      costing at most the capacity, the answers to any sub-run let through at most the capacity
      plus the refill of its span. */
  lemma ExpiringRunBound(l: Limit, calls: seq<Call>, i: nat, j: nat)
    requires Valid(l) && Monotone(calls) && i < j <= |calls|
    requires forall c :: c in calls ==> EffCost(c.cost) <= l.capacity
    ensures var answers := AnswersWithExpiry(None, l, DefaultTtlSec(l), calls);
            && |answers| == |calls|
            && CostAllowed(calls[i..j], answers[i..j]) <= l.capacity + Gain(l, calls[i].now, calls[j - 1].now)
  {
    DefaultExpiryUnobservable(l, calls);
    AnswersOfPart(None, l, calls, i, j);
    AnswersGrant(RunState(None, l, calls[..i]), l, calls[i..j]);
    RunBound(None, l, calls, i, j, l.capacity);
  }

  /** A cost far above the capacity does notice: ten tokens asked of a two-token bucket
      just emptied are granted after the default expiry, and refused without it. */
  lemma OversizedCostObservesExpiry()
    ensures var l := Limit(2.0, 0.001);
            var calls := [Call(0, 2.0), Call(4000, 10.0)];
            DefaultTtlSec(l) == 4 && AnswersWithExpiry(None, l, 4, calls) != Answers(None, l, calls)
  {
    var l := Limit(2.0, 0.001);
    var c0, c1 := Call(0, 2.0), Call(4000, 10.0);
    var b := Some(After(None, l, c0));
    assert b.value == Bucket(0.0, 0);
    assert [c0, c1][1..] == [c1];
    assert Answers(None, l, [c0, c1]) == [Answer(None, l, c0)] + Answers(b, l, [c1]);
    assert AnswersWithExpiry(None, l, 4, [c0, c1]) == [Answer(None, l, c0)] + AnswersWithExpiry(b, l, 4, [c1]);
    assert Answers(b, l, [c1])[0] == Answer(b, l, c1);
    assert AnswersWithExpiry(b, l, 4, [c1])[0] == Answer(None, l, c1);
    assert Available(b, l, c1) == 4.0;
    assert !Answer(b, l, c1).allowed && Answer(None, l, c1).allowed;
    assert Answers(None, l, [c0, c1])[1] != AnswersWithExpiry(None, l, 4, [c0, c1])[1];
  }

  // ---------- the service ----------

  /** Redis drops a key at its expiry instant. */
  function LiveEntry(table: map<string, Entry>, key: string, now: int): Option<Bucket> {
    if key in table && !Expired(table[key], now) then Some(table[key].bucket) else None
  }

  predicate Expired(e: Entry, now: int) { e.expireAt.Some? && now >= e.expireAt.value }

  function TtlSec(o: Opts, ttlOpt: Option<real>): (t: int)
    requires Refills(o)
    ensures t >= 1
  {
    if ttlOpt.None? then DefaultTtlSec(LimitOf(o))
    else if ttlOpt.value.Floor < 1 then 1 else ttlOpt.value.Floor
  }

  function CostArg(costOpt: Option<real>): real {
    if costOpt.Some? && costOpt.value > 1.0 then costOpt.value else 1.0
  }

  const NS := "v1:rl:tb:"

  // ---------- runs of requests, in the caller's terms ----------

  datatype Request = Request(key: string, o: Opts, cost: Option<real>, ttl: Option<real>, now: int)

  function CallOf(q: Request): Call { Call(q.now, CostArg(q.cost)) }

  /** One request: the table afterwards and the decision. */
  function Consumed(table: map<string, Entry>, q: Request): (map<string, Entry>, Decision) {
    if !Refills(q.o) then (table, Decision(false, 0, 1, q.now / 1000 + 1))
    else
      var b, l := LiveEntry(table, NS + q.key, q.now), LimitOf(q.o);
      var entry := Entry(After(b, l, CallOf(q)), Some(q.now + 1000 * TtlSec(q.o, q.ttl)));
      (table[NS + q.key := entry], Answer(b, l, CallOf(q)))
  }

  function Decisions(table: map<string, Entry>, reqs: seq<Request>): (ds: seq<Decision>)
    ensures |ds| == |reqs|
    decreases |reqs|
  {
    if reqs == [] then [] else [Consumed(table, reqs[0]).1] + Decisions(Consumed(table, reqs[0]).0, reqs[1..])
  }

  function TableAfter(table: map<string, Entry>, reqs: seq<Request>): map<string, Entry>
    decreases |reqs|
  {
    if reqs == [] then table else TableAfter(Consumed(table, reqs[0]).0, reqs[1..])
  }

  /** What the decisions let through on one key: each request counts for its cost, and for one
      token at least. */
  function Spent(reqs: seq<Request>, ds: seq<Decision>, key: string): real
    requires |ds| == |reqs|
  {
    if reqs == [] then 0.0
    else
      (if reqs[0].key != key || !ds[0].allowed then 0.0
       else if reqs[0].cost.None? || reqs[0].cost.value < 1.0 then 1.0
       else reqs[0].cost.value)
      + Spent(reqs[1..], ds[1..], key)
  }

  predicate InTime(reqs: seq<Request>) { forall i, j :: 0 <= i < j < |reqs| ==> reqs[i].now <= reqs[j].now }

  /** Requests on one key, all with one limit and the default time to live, none above the capacity. */
  predicate OneLimit(reqs: seq<Request>, key: string, o: Opts) {
    forall q :: q in reqs && q.key == key ==>
      q.o == o && q.ttl == None && 1.0 <= o.capacity && (q.cost.Some? ==> q.cost.value <= o.capacity)
  }

  /** The same, with the limit as the script works with it. */
  predicate SameLimit(reqs: seq<Request>, key: string, l: Limit) {
    forall q :: q in reqs && q.key == key ==>
      && Refills(q.o) && LimitOf(q.o) == l && q.ttl == None
      && 1.0 <= l.capacity && (q.cost.Some? ==> q.cost.value <= l.capacity)
  }

  function CallsOn(reqs: seq<Request>, key: string): seq<Call> {
    if reqs == [] then []
    else (if reqs[0].key == key then [CallOf(reqs[0])] else []) + CallsOn(reqs[1..], key)
  }

  function DecisionsOn(reqs: seq<Request>, ds: seq<Decision>, key: string): seq<Decision>
    requires |ds| == |reqs|
  {
    if reqs == [] then []
    else (if reqs[0].key == key then [ds[0]] else []) + DecisionsOn(reqs[1..], ds[1..], key)
  }

  /** The stored bucket of a key, expired or not. */
  function Stored(table: map<string, Entry>, key: string): Option<Bucket> {
    if NS + key in table then Some(table[NS + key].bucket) else None
  }

  /** A key written with the default time to live only. */
  ghost predicate KeyOk(table: map<string, Entry>, key: string, l: Limit, now: int)
    requires Valid(l)
  {
    && (Stored(table, key).Some? ==>
          && table[NS + key].expireAt == Some(Stored(table, key).value.ts + 1000 * DefaultTtlSec(l))
          && Stored(table, key).value.ts <= now)
    && NonNegative(Stored(table, key))
  }

  lemma SameKey(a: string, b: string)
    ensures NS + a == NS + b <==> a == b
  {
    if NS + a == NS + b { assert a == (NS + a)[|NS|..] && b == (NS + b)[|NS|..]; }
  }

  lemma ConsumedKeepsKey(table: map<string, Entry>, q: Request, key: string, l: Limit, now: int)
    requires Valid(l) && KeyOk(table, key, l, now) && now <= q.now && SameLimit([q], key, l)
    ensures KeyOk(Consumed(table, q).0, key, l, q.now)
    ensures q.key != key ==> Stored(Consumed(table, q).0, key) == Stored(table, key)
    ensures q.key == key ==>
              var b := Live(Stored(table, key), DefaultTtlSec(l), q.now);
              && Consumed(table, q).1 == Answer(b, l, CallOf(q))
              && Stored(Consumed(table, q).0, key) == Some(After(b, l, CallOf(q)))
  {
    SameKey(q.key, key);
    if q.key == key {
      assert q in [q];
      TokensStayNonNegative(Live(Stored(table, key), DefaultTtlSec(l), q.now), l, CallOf(q));
    }
  }

  /** Seen from one key, a run of requests on any keys is a run of its calls on its bucket. */
  lemma {:induction false} RunOnKey(table: map<string, Entry>, reqs: seq<Request>, key: string, l: Limit, now: int)
    requires Valid(l) && KeyOk(table, key, l, now) && InTime(reqs) && SameLimit(reqs, key, l)
    requires reqs != [] ==> now <= reqs[0].now
    ensures DecisionsOn(reqs, Decisions(table, reqs), key)
            == AnswersWithExpiry(Stored(table, key), l, DefaultTtlSec(l), CallsOn(reqs, key))
    ensures KeyOk(TableAfter(table, reqs), key, l, if reqs == [] then now else reqs[|reqs| - 1].now)
    decreases |reqs|
  {
    if reqs != [] {
      var q, rest, table' := reqs[0], reqs[1..], Consumed(table, reqs[0]).0;
      assert SameLimit([q], key, l) by { assert q in reqs; }
      assert SameLimit(rest, key, l) by { assert forall x :: x in rest ==> x in reqs; }
      ConsumedKeepsKey(table, q, key, l, now);
      RunOnKey(table', rest, key, l, q.now);
      assert Decisions(table, reqs)[1..] == Decisions(table', rest);
      assert CallsOn(reqs, key)[(if q.key == key then 1 else 0)..] == CallsOn(rest, key);
    }
  }

  lemma {:induction false} SpentOnKey(reqs: seq<Request>, ds: seq<Decision>, key: string)
    requires |ds| == |reqs|
    ensures |DecisionsOn(reqs, ds, key)| == |CallsOn(reqs, key)|
    ensures Spent(reqs, ds, key) == CostAllowed(CallsOn(reqs, key), DecisionsOn(reqs, ds, key))
    decreases |reqs|
  {
    if reqs != [] {
      SpentOnKey(reqs[1..], ds[1..], key);
      if reqs[0].key == key {
        assert CallsOn(reqs, key)[1..] == CallsOn(reqs[1..], key);
        assert DecisionsOn(reqs, ds, key)[1..] == DecisionsOn(reqs[1..], ds[1..], key);
      } else {
        assert CallsOn(reqs, key) == CallsOn(reqs[1..], key);
        assert DecisionsOn(reqs, ds, key) == DecisionsOn(reqs[1..], ds[1..], key);
      }
    }
  }

  /** The calls on a key lie within the run, in order. */
  lemma {:induction false} CallsWithin(reqs: seq<Request>, key: string, l: Limit)
    requires InTime(reqs) && SameLimit(reqs, key, l)
    ensures var calls := CallsOn(reqs, key);
            && Monotone(calls)
            && forall i :: 0 <= i < |calls| ==>
                 && reqs != [] && reqs[0].now <= calls[i].now <= reqs[|reqs| - 1].now
                 && EffCost(calls[i].cost) <= l.capacity
    decreases |reqs|
  {
    if reqs != [] {
      var rest := reqs[1..];
      assert SameLimit(rest, key, l) by { assert forall x :: x in rest ==> x in reqs; }
      CallsWithin(rest, key, l);
      assert reqs[0] in reqs;
    }
  }

  lemma {:induction false} DecisionsFrom(table: map<string, Entry>, reqs: seq<Request>, i: nat, j: nat)
    requires i <= j <= |reqs|
    ensures Decisions(table, reqs)[i..j] == Decisions(TableAfter(table, reqs[..i]), reqs[i..j])
    decreases |reqs|
  {
    hide Consumed;
    if reqs != [] && j > 0 {
      var table', rest := Consumed(table, reqs[0]).0, reqs[1..];
      if i > 0 {
        DecisionsFrom(table', rest, i - 1, j - 1);
        assert reqs[..i][1..] == rest[..i - 1] && reqs[i..j] == rest[i - 1..j - 1];
        assert Decisions(table, reqs)[i..j] == Decisions(table', rest)[i - 1..j - 1];
      } else {
        DecisionsFrom(table', rest, 0, j - 1);
        assert reqs[0..j][1..] == rest[0..j - 1] && rest[..0] == [];
        assert Decisions(table, reqs)[0..j] == [Consumed(table, reqs[0]).1] + Decisions(table', rest)[0..j - 1];
      }
    }
  }

  lemma GainGrows(l: Limit, t0: int, t1: int, from: int, to: int)
    requires Valid(l) && from <= t0 <= t1 <= to
    ensures 0.0 <= Gain(l, t0, t1) <= Gain(l, from, to)
  {
    MulMono(0, t1 - t0, l.rate);
    MulMono(t1 - t0, to - from, l.rate);
  }

  lemma AllCovered(l: Limit, calls: seq<Call>)
    requires Valid(l) && forall i :: 0 <= i < |calls| ==> EffCost(calls[i].cost) <= l.capacity
    ensures forall c :: c in calls ==> CoversFill(l, DefaultTtlSec(l), c.cost)
  {
    forall c | c in calls ensures CoversFill(l, DefaultTtlSec(l), c.cost) { DefaultTtlCoversFill(l, c.cost); }
  }

  lemma AnswersGrantIt(b: Option<Bucket>, l: Limit, calls: seq<Call>)
    requires Valid(l) && NonNegative(b) && Monotone(calls) && NotLaterThan(b, calls)
    requires forall i :: 0 <= i < |calls| ==> EffCost(calls[i].cost) <= l.capacity
    ensures var answers := AnswersWithExpiry(b, l, DefaultTtlSec(l), calls);
            |answers| == |calls| && CostAllowed(calls, answers) == Granted(b, l, calls)
  {
    AllCovered(l, calls);
    ExpiryUnobservable(b, l, DefaultTtlSec(l), calls);
    AnswersGrant(b, l, calls);
  }

  lemma GrantedWithin(b: Option<Bucket>, l: Limit, calls: seq<Call>, from: int, to: int)
    requires Valid(l) && NonNegative(b) && Monotone(calls) && l.capacity >= 0.0 && from <= to
    requires forall i :: 0 <= i < |calls| ==> from <= calls[i].now <= to && EffCost(calls[i].cost) <= l.capacity
    ensures Granted(b, l, calls) <= l.capacity + Gain(l, from, to)
  {
    if calls == [] {
      GainGrows(l, from, from, from, to);
    } else {
      GrantedWithinRefill(b, l, calls);
      AvailableBelow(b, l, calls[0], l.capacity);
      GainGrows(l, calls[0].now, calls[|calls| - 1].now, from, to);
    }
  }

  lemma BoundFrom(table: map<string, Entry>, reqs: seq<Request>, key: string, l: Limit, now: int)
    requires Valid(l) && KeyOk(table, key, l, now) && InTime(reqs) && SameLimit(reqs, key, l)
    requires reqs != [] && now <= reqs[0].now && l.capacity >= 0.0
    ensures Spent(reqs, Decisions(table, reqs), key)
            <= l.capacity + Gain(l, reqs[0].now, reqs[|reqs| - 1].now)
  {
    RunOnKey(table, reqs, key, l, now);
    SpentOnKey(reqs, Decisions(table, reqs), key);
    CallsWithin(reqs, key, l);
    AnswersGrantIt(Stored(table, key), l, CallsOn(reqs, key));
    GrantedWithin(Stored(table, key), l, CallsOn(reqs, key), reqs[0].now, reqs[|reqs| - 1].now);
  }

  /** The refill of a span, in tokens for each interval. */
  lemma SpanBound(spent: real, o: Opts, from: int, to: int)
    requires Refills(o) && spent <= o.capacity + Gain(LimitOf(o), from, to)
    ensures spent * o.refillIntervalMs <= o.capacity * o.refillIntervalMs + (to - from) as real * o.refillTokens
  {
    RateTimesInterval(o, to - from);
    ScaleBound(spent, o.capacity, Gain(LimitOf(o), from, to), o.refillIntervalMs);
  }

  lemma RateTimesInterval(o: Opts, ms: int)
    requires Refills(o)
    ensures ms as real * LimitOf(o).rate * o.refillIntervalMs == ms as real * o.refillTokens
  {
    assert o.refillTokens / o.refillIntervalMs * o.refillIntervalMs == o.refillTokens;
  }

  /** A stretch of a run of requests that starts with empty tables. */
  lemma StretchStarts(reqs: seq<Request>, i: nat, j: nat, key: string, l: Limit)
    returns (table: map<string, Entry>, now: int)
    requires Valid(l) && InTime(reqs) && SameLimit(reqs, key, l) && i < j <= |reqs|
    ensures Decisions(map[], reqs)[i..j] == Decisions(table, reqs[i..j])
    ensures InTime(reqs[i..j]) && SameLimit(reqs[i..j], key, l) && KeyOk(table, key, l, now) && now <= reqs[i].now
  {
    hide TableAfter, Decisions, Consumed;
    table, now := TableAfter(map[], reqs[..i]), if i == 0 then reqs[0].now else reqs[i - 1].now;
    assert SameLimit(reqs[..i], key, l) by { assert forall x :: x in reqs[..i] ==> x in reqs; }
    assert SameLimit(reqs[i..j], key, l) by { assert forall x :: x in reqs[i..j] ==> x in reqs; }
    DecisionsFrom(map[], reqs, i, j);
    RunOnKey(map[], reqs[..i], key, l, reqs[0].now);
  }

  lemma StretchBound(reqs: seq<Request>, i: nat, j: nat, key: string, l: Limit)
    requires Valid(l) && l.capacity >= 0.0 && InTime(reqs) && SameLimit(reqs, key, l) && i < j <= |reqs|
    ensures Spent(reqs[i..j], Decisions(map[], reqs)[i..j], key) <= l.capacity + Gain(l, reqs[i].now, reqs[j - 1].now)
  {
    var table, now := StretchStarts(reqs, i, j, key, l);
    BoundFrom(table, reqs[i..j], key, l, now);
  }

  /** The limit in the terms it is configured in.  Requests on any keys, with any limits; on one
      key they all have the limit `o` and no time to live of their own.  In every stretch of the
      run, the cost let through on that key is at most one capacity plus `refillTokens` for each
      `refillIntervalMs` of the stretch. */
  lemma ConsumeBound(reqs: seq<Request>, i: nat, j: nat, key: string, o: Opts)
    requires Refills(o) && o.capacity >= 0.0 && InTime(reqs) && OneLimit(reqs, key, o) && i < j <= |reqs|
    ensures Spent(reqs[i..j], Decisions(map[], reqs)[i..j], key) * o.refillIntervalMs
            <= o.capacity * o.refillIntervalMs + (reqs[j - 1].now - reqs[i].now) as real * o.refillTokens
  {
    hide *;
    ToScript(reqs, key, o);
    StretchBound(reqs, i, j, key, LimitOf(o));
    SpanBound(Spent(reqs[i..j], Decisions(map[], reqs)[i..j], key), o, reqs[i].now, reqs[j - 1].now);
  }

  lemma ScaleBound(a: real, b: real, c: real, k: real)
    requires a <= b + c && k > 0.0
    ensures a * k <= b * k + c * k
  {
    assert (b + c - a) * k >= 0.0;
  }

  lemma ExpiryHidden(b: Bucket, l: Limit, c: Call)
    requires Valid(l) && b.tokens >= 0.0 && b.ts <= c.now && EffCost(c.cost) <= l.capacity
    ensures Allowed(Live(Some(b), DefaultTtlSec(l), c.now), l, c) == Allowed(Some(b), l, c)
  {
    DefaultTtlCoversFill(l, c.cost);
    if c.now >= b.ts + 1000 * DefaultTtlSec(l) { FullAfter(b, l, DefaultTtlSec(l), c.now, c.cost); }
  }

  /** The refused call again, after so many seconds and with an expiring key. */
  lemma RetryWithExpiry(b: Option<Bucket>, l: Limit, c: Call, sec: nat)
    requires Valid(l) && NonNegative(b) && !Allowed(b, l, c) && EffCost(c.cost) <= l.capacity
    requires b.Some? ==> b.value.ts <= c.now
    ensures var b1, again := After(b, l, c), Call(c.now + 1000 * sec, c.cost);
            && (Allowed(Live(Some(b1), DefaultTtlSec(l), again.now), l, again)
                <==> EffCost(c.cost) - b1.tokens <= (1000 * sec) as real * l.rate)
            && (EffCost(c.cost) - b1.tokens <= (1000 * sec) as real * l.rate <==> RetryAfter(b, l, c) <= sec)
  {
    var b1, again := After(b, l, c), Call(c.now + 1000 * sec, c.cost);
    TokensStayNonNegative(b, l, c);
    ExpiryHidden(b1, l, again);
    RetryAfterIsExact(b, l, c, sec);
    AllowedAfter(b1, l, c, sec);
  }

  lemma AllowedAfter(b: Bucket, l: Limit, c: Call, sec: nat)
    requires Valid(l) && b.ts == c.now
    ensures Allowed(Some(b), l, Call(c.now + 1000 * sec, c.cost))
            <==> EffCost(c.cost) - b.tokens <= (1000 * sec) as real * l.rate
  {
    var later := Call(c.now + 1000 * sec, c.cost);
    assert later.now - b.ts == 1000 * sec;
  }

  lemma NeedIff(o: Opts, need: real, ms: nat)
    requires Refills(o)
    ensures need <= ms as real * LimitOf(o).rate <==> need * o.refillIntervalMs <= ms as real * o.refillTokens
  {
    RateTimesInterval(o, ms);
    RefilledIff(need, ms as real * LimitOf(o).rate, o.refillIntervalMs);
  }

  lemma RetryOnKey(table: map<string, Entry>, q: Request, l: Limit, sec: nat) returns (need: real)
    requires Valid(l) && SameLimit([q], q.key, l) && KeyOk(table, q.key, l, q.now)
    requires !Consumed(table, q).1.allowed
    ensures var table' := Consumed(table, q).0;
            && NS + q.key in table'
            && need == (if q.cost.None? || q.cost.value < 1.0 then 1.0 else q.cost.value)
                       - table'[NS + q.key].bucket.tokens
            && (Consumed(table', q.(now := q.now + 1000 * sec)).1.allowed <==> need <= (1000 * sec) as real * l.rate)
    ensures need <= (1000 * sec) as real * l.rate <==> Consumed(table, q).1.retryAfterSec <= sec
  {
    var later, table' := q.(now := q.now + 1000 * sec), Consumed(table, q).0;
    assert q in [q] && later in [later];
    ConsumedKeepsKey(table, q, q.key, l, q.now);
    assert SameLimit([later], q.key, l);
    ConsumedKeepsKey(table', later, q.key, l, q.now);
    RetryWithExpiry(Live(Stored(table, q.key), DefaultTtlSec(l), q.now), l, CallOf(q), sec);
    need := EffCost(CostArg(q.cost)) - table'[NS + q.key].bucket.tokens;
  }

  /** A refused request passes again after a whole number of seconds, with no other traffic on
      the key, if and only if that is at least the number in the answer. */
  lemma ConsumeRetryIff(table: map<string, Entry>, q: Request, sec: nat)
    requires Refills(q.o) && OneLimit([q], q.key, q.o) && KeyOk(table, q.key, LimitOf(q.o), q.now)
    requires !Consumed(table, q).1.allowed
    ensures Consumed(Consumed(table, q).0, q.(now := q.now + 1000 * sec)).1.allowed
            <==> Consumed(table, q).1.retryAfterSec <= sec
  {
    ToScript([q], q.key, q.o);
    var need := RetryOnKey(table, q, LimitOf(q.o), sec);
  }

  /** That number, as it is configured: of a request refused for want of `need` tokens, the least
      number of seconds in which `refillTokens` for each `refillIntervalMs` come to `need`. */
  lemma RetryAfterIs(table: map<string, Entry>, q: Request, sec: nat, need: real)
    requires Refills(q.o) && OneLimit([q], q.key, q.o) && KeyOk(table, q.key, LimitOf(q.o), q.now)
    requires !Consumed(table, q).1.allowed && NS + q.key in Consumed(table, q).0
    requires need == (if q.cost.None? || q.cost.value < 1.0 then 1.0 else q.cost.value)
                     - Consumed(table, q).0[NS + q.key].bucket.tokens
    ensures Consumed(table, q).1.retryAfterSec <= sec
            <==> need * q.o.refillIntervalMs <= (1000 * sec) as real * q.o.refillTokens
  {
    hide *;
    ToScript([q], q.key, q.o);
    var short := RetryOnKey(table, q, LimitOf(q.o), sec);
    NeedIff(q.o, need, 1000 * sec);
  }

  lemma ToScript(reqs: seq<Request>, key: string, o: Opts)
    requires Refills(o) && OneLimit(reqs, key, o)
    ensures SameLimit(reqs, key, LimitOf(o)) && LimitOf(o).capacity == o.capacity
  {
  }

  lemma RefilledIff(need: real, gain: real, k: real)
    requires k > 0.0
    ensures need * k <= gain * k <==> need <= gain
  {
    var d := gain - need;
    assert gain * k - need * k == d * k;
    if d >= 0.0 { assert d * k >= 0.0; } else { assert (-d) * k > 0.0; }
  }

  /** A time to live of the caller's counts in whole seconds, one at least. */
  lemma GivenTtlIs(o: Opts, ttl: real)
    requires Refills(o)
    ensures TtlSec(o, Some(ttl)) == if ttl < 1.0 then 1 else ttl.Floor
  {
  }

  /** Time that runs backwards refills nothing. */
  lemma BackwardRefillsNothing(b: Bucket, l: Limit, c: Call)
    requires Valid(l) && c.now <= b.ts && b.tokens <= EffCap(l.capacity, c.cost)
    ensures Available(Some(b), l, c) == b.tokens
  {
  }

  /** The default time to live: whole seconds, twice the time that refills the capacity, rounded
      down, but one at least. */
  lemma DefaultTtlIs(o: Opts)
    requires Refills(o)
    ensures var t, twice, second := TtlSec(o, None), 2.0 * o.capacity * o.refillIntervalMs, 1000.0 * o.refillTokens;
            if twice < 2.0 * second then t == 1 else t as real * second <= twice < t as real * second + second
  {
    var r := o.refillTokens / o.refillIntervalMs;
    TwiceTheFill(o, r);
    var x := 2.0 * (o.capacity / r) / 1000.0;
    FloorOrOne(o, x);
    FloorScales(x, 1000.0 * o.refillTokens, 2.0 * o.capacity * o.refillIntervalMs, TtlSec(o, None));
  }

  lemma FloorOrOne(o: Opts, x: real)
    requires Refills(o) && x == 2.0 * (o.capacity / (o.refillTokens / o.refillIntervalMs)) / 1000.0
    ensures TtlSec(o, None) == if x.Floor < 1 then 1 else x.Floor
  {
  }

  lemma TwiceTheFill(o: Opts, r: real)
    requires Refills(o) && r == o.refillTokens / o.refillIntervalMs
    ensures r > 0.0
    ensures 2.0 * (o.capacity / r) / 1000.0 * (1000.0 * o.refillTokens) == 2.0 * o.capacity * o.refillIntervalMs
  {
    assert r * o.refillIntervalMs == o.refillTokens;
    assert o.capacity / r * r == o.capacity;
    TtlScales(o, r, o.capacity / r);
  }

  lemma FloorScales(x: real, second: real, twice: real, t: int)
    requires second > 0.0 && x * second == twice && t == if x.Floor < 1 then 1 else x.Floor
    ensures twice < 2.0 * second ==> t == 1
    ensures twice >= 2.0 * second ==> t as real * second <= twice < t as real * second + second
  {
    var next := (t + 1) as real;
    Apart(2.0, x, second);
    Apart(t as real, x, second);
    Apart(next, x, second);
    if x >= 2.0 {
      assert x < next;
      assert x * second < next * second;
      assert next == t as real + 1.0;
      assert next * second == t as real * second + second;
      assert twice < t as real * second + second;
    } else {
      assert x * second < 2.0 * second;
    }
  }

  lemma Apart(a: real, b: real, k: real)
    requires k > 0.0
    ensures a < b ==> a * k < b * k
    ensures a > b ==> a * k > b * k
  {
    if a < b { assert (b - a) * k > 0.0; }
    if a > b { assert (a - b) * k > 0.0; }
  }

  lemma TtlScales(o: Opts, r: real, full: real)
    requires Refills(o) && r * o.refillIntervalMs == o.refillTokens && full * r == o.capacity
    ensures 2.0 * full / 1000.0 * (1000.0 * o.refillTokens) == 2.0 * o.capacity * o.refillIntervalMs
  {
    assert full * o.refillTokens == full * r * o.refillIntervalMs;
    assert 2.0 * full / 1000.0 * 1000.0 == 2.0 * full;
  }

  /** The body of the stored script on the hash it found, statement by statement. */
  method RefillAndConsume(h: Option<Bucket>, nowMs: int, capacityArg: real, refillRate: real, costArg: real)
    returns (h': Bucket, d: Decision)
    requires refillRate > 0.0
    ensures h' == After(h, Limit(capacityArg, refillRate), Call(nowMs, costArg))
    ensures d == Answer(h, Limit(capacityArg, refillRate), Call(nowMs, costArg))
  {
    ghost var l, c := Limit(capacityArg, refillRate), Call(nowMs, costArg);
    var cost, capacity := costArg, capacityArg;
    if cost <= 0.0 { cost := 1.0; }
    if capacity < cost { capacity := cost; }
    var tokens, ts := 0.0, nowMs;
    if h.None? {
      tokens := capacity;
    } else {
      tokens, ts := h.value.tokens, h.value.ts;
      var delta := nowMs - ts;
      if delta < 0 { delta := 0; }
      var add := delta as real * refillRate;
      tokens := Min(capacity, tokens + add);
    }
    assert cost == EffCost(c.cost) && tokens == Available(h, l, c);
    var allowed := false;
    if tokens >= cost {
      tokens := tokens - cost;
      allowed := true;
    }
    assert allowed == Allowed(h, l, c);
    h' := Bucket(tokens, nowMs);
    assert h' == After(h, l, c);
    hide Available, Allowed, After;
    var remaining := (tokens + 0.00001).Floor;
    var retryAfterSec := 0;
    if !allowed {
      var need := cost - tokens;
      var ms := need / refillRate;
      retryAfterSec := Ceil(ms / 1000.0);
    }
    assert retryAfterSec == RetryAfter(h, l, c);
    var resetAtSec := (nowMs as real / 1000.0 + retryAfterSec as real + 0.5).Floor;
    d := Decision(allowed, remaining, retryAfterSec, resetAtSec);
  }

  class TokenBucketService {
    var enabled: bool
    var table: map<string, Entry>

    constructor (enabled: bool)
      ensures this.enabled == enabled && table == map[]
    {
      this.enabled, this.table := enabled, map[];
    }

    /** The script's reads and writes around that body. */
    method EvalScript(key: string, nowMs: int, o: Opts, costArg: real, ttlSec: int) returns (d: Decision)
      requires Refills(o)
      modifies this`table
      ensures var b, c, l := LiveEntry(old(table), key, nowMs), Call(nowMs, costArg), LimitOf(o);
              && d == Answer(b, l, c)
              && key in table && table == old(table)[key := table[key]]
              && table[key].bucket == After(b, l, c)
              && (ttlSec > 0 ==> table[key].expireAt == Some(nowMs + 1000 * ttlSec))
    {
      var l := LimitOf(o);
      var found := LiveEntry(table, key, nowMs);
      var expireAt := if found.Some? then table[key].expireAt else None;
      var h;
      h, d := RefillAndConsume(found, nowMs, l.capacity, l.rate, costArg);
      if ttlSec > 0 { expireAt := Some(nowMs + 1000 * ttlSec); }
      table := table[key := Entry(h, expireAt)];
    }

    /** Fails open without Redis, fails closed on a refill that is not positive, and
        otherwise leaves the decision to the script; no other key is touched. */
    method Consume(bucketKey: string, o: Opts, costOpt: Option<real>, ttlOpt: Option<real>, nowMs: int)
      returns (d: Decision)
      modifies this`table
      ensures !enabled ==> d == Decision(true, o.capacity.Floor, 0, nowMs / 1000) && table == old(table)
      ensures enabled && (o.refillTokens <= 0.0 || o.refillIntervalMs <= 0.0) ==>
                d == Decision(false, 0, 1, nowMs / 1000 + 1) && table == old(table)
      ensures enabled ==> (table, d) == Consumed(old(table), Request(bucketKey, o, costOpt, ttlOpt, nowMs))
    {
      if !enabled {
        return Decision(true, o.capacity.Floor, 0, nowMs / 1000);
      }
      if o.refillTokens <= 0.0 || o.refillIntervalMs <= 0.0 {
        return Decision(false, 0, 1, nowMs / 1000 + 1);
      }
      d := EvalScript(NS + bucketKey, nowMs, o, CostArg(costOpt), TtlSec(o, ttlOpt));
    }
  }
}
