/**
  The router's token buckets, one per client, with idle buckets swept when there are
  too many. Times are in nanoseconds, tokens are real numbers.
 */
module RateLimit {
  type Time = int

  const SECOND: Time := 1_000_000_000
  const MAX_BUCKETS := 10_000

  datatype Bucket = Bucket(tokens: real, last: Time)

  /** Tokens per second, and how many a bucket holds. */
  datatype Limits = Limits(rate: real, burst: real)

  type Buckets = map<string, Bucket>

  /** What SetRateLimit builds for a positive number of requests per second. */
  function PerClient(rps: int): Limits { Limits(rps as real, (2 * rps) as real) }

  // ---------------------------------------------------------------- one bucket

  /** Tokens that arrive in `d` nanoseconds. */
  function Gain(l: Limits, d: Time): real { d as real / SECOND as real * l.rate }

  function Min(a: real, b: real): real { if a <= b then a else b }

  function Refilled(l: Limits, b: Bucket, now: Time): real { Min(l.burst, b.tokens + Gain(l, now - b.last)) }

  /** A bucket after one request, and whether there was a token for it. */
  function TakeFrom(l: Limits, b: Bucket, now: Time): (Bucket, bool) {
    var tokens := Refilled(l, b, now);
    if tokens < 1.0 then (Bucket(tokens, now), false) else (Bucket(tokens - 1.0, now), true)
  }

  /** How long a bucket must have been idle to be swept: burst/rate seconds, cut to whole
      nanoseconds. */
  function Full(l: Limits): Time
    requires l.rate > 0.0
  {
    (l.burst / l.rate * SECOND as real).Floor
  }

  /** The limiter that never evicts. */
  function Keeping(l: Limits, m: Buckets, key: string, now: Time): (Buckets, bool) {
    var (b, ok) := TakeFrom(l, if key in m then m[key] else Bucket(l.burst, now), now);
    (m[key := b], ok)
  }

  function Swept(l: Limits, m: Buckets, now: Time): Buckets
    requires l.rate > 0.0
  {
    map k | k in m && now - m[k].last < Full(l) :: m[k]
  }

  /** The limiter of the source: it sweeps before a new client's bucket makes too many. */
  function Sweeping(l: Limits, m: Buckets, key: string, now: Time): (Buckets, bool)
    requires l.rate > 0.0
  {
    Keeping(l, if key !in m && |m| >= MAX_BUCKETS then Swept(l, m, now) else m, key, now)
  }

  class Limiter {
    const limits: Limits
    var buckets: Buckets

    constructor (rate: real, burst: real)
      ensures limits == Limits(rate, burst) && buckets == map[]
    {
      limits, buckets := Limits(rate, burst), map[];
    }

    method Allow(key: string, now: Time) returns (ok: bool)
      requires limits.rate > 0.0
      modifies this
      ensures (buckets, ok) == Sweeping(limits, old(buckets), key, now)
      ensures key in buckets
      ensures forall k | k in buckets && k != key :: k in old(buckets) && buckets[k] == old(buckets)[k]
      ensures forall k | k != key :: (k in buckets <==>
        && k in old(buckets)
        && (|| key in old(buckets) || |old(buckets)| < 10_000
            || now - old(buckets)[k].last < (limits.burst / limits.rate * 1_000_000_000.0).Floor))
    {
      ghost var m := if key !in buckets && |buckets| >= MAX_BUCKETS then Swept(limits, buckets, now) else buckets;
      if key !in buckets {
        if |buckets| >= MAX_BUCKETS { Sweep(now); }
        buckets := buckets[key := Bucket(limits.burst, now)];
      }
      var b := buckets[key];
      var tokens := Min(limits.burst, b.tokens + (now - b.last) as real / SECOND as real * limits.rate);
      ghost var was := if key in m then m[key] else Bucket(limits.burst, now);
      assert b == was && tokens == Refilled(limits, was, now);
      b := Bucket(tokens, now);
      ok := tokens >= 1.0;
      if ok { b := b.(tokens := tokens - 1.0); }
      buckets := buckets[key := b];
      assert buckets == m[key := b] && (b, ok) == TakeFrom(limits, was, now);
    }

    /** Looks at every bucket and drops those that were idle for the full time. */
    method Sweep(now: Time)
      requires limits.rate > 0.0
      modifies this
      ensures buckets == Swept(limits, old(buckets), now)
      ensures forall k :: k in buckets <==>
        k in old(buckets) && now - old(buckets)[k].last < (limits.burst / limits.rate * 1_000_000_000.0).Floor
      ensures forall k | k in buckets :: buckets[k] == old(buckets)[k]
    {
      var all := buckets;
      var full := (limits.burst / limits.rate * SECOND as real).Floor;
      var todo := all.Keys;
      while todo != {}
        invariant todo <= all.Keys
        invariant forall k :: k in buckets <==> k in all && (k in todo || now - all[k].last < full)
        invariant forall k | k in buckets :: buckets[k] == all[k]
      {
        var k :| k in todo;
        if now - all[k].last >= full { buckets := buckets - {k}; }
        todo := todo - {k};
      }
    }
  }

  // ------------------------------------------------------------------ arithmetic

  lemma GainAdds(l: Limits, d: Time, e: Time)
    ensures Gain(l, d) + Gain(l, e) == Gain(l, d + e) && Gain(l, 0) == 0.0
  {
    assert (d + e) as real == d as real + e as real;
  }

  lemma GainGrows(l: Limits, d: Time, e: Time)
    requires l.rate > 0.0 && d <= e
    ensures Gain(l, d) <= Gain(l, e)
  {
    GainAdds(l, d, e - d);
    assert Gain(l, e - d) >= 0.0;
  }

  // -------------------------------------------------------------- request streams

  datatype Request = Request(key: string, at: Time)

  predicate InOrder(reqs: seq<Request>) { forall i, j | 0 <= i < j < |reqs| :: reqs[i].at <= reqs[j].at }

  /** The buckets and the answers after a stream of requests, with and without sweeping. */
  function Kept(l: Limits, reqs: seq<Request>): (Buckets, seq<bool>) {
    if reqs == [] then (map[], [])
    else
      var n := |reqs| - 1;
      var (m, answers) := Kept(l, reqs[..n]);
      var (m', ok) := Keeping(l, m, reqs[n].key, reqs[n].at);
      (m', answers + [ok])
  }

  function Run(l: Limits, reqs: seq<Request>): (Buckets, seq<bool>)
    requires l.rate > 0.0
  {
    if reqs == [] then (map[], [])
    else
      var n := |reqs| - 1;
      var (m, answers) := Run(l, reqs[..n]);
      var (m', ok) := Sweeping(l, m, reqs[n].key, reqs[n].at);
      (m', answers + [ok])
  }

  // ------------------------------------------------------- sweeping is unobservable

  /** Tokens stay between 0 and burst, and no bucket is from the future. */
  predicate BucketOk(l: Limits, b: Bucket, now: Time) { 0.0 <= b.tokens <= l.burst && b.last <= now }

  ghost predicate BucketsOk(l: Limits, m: Buckets, now: Time) { forall k | k in m :: BucketOk(l, m[k], now) }

  /** `m` lost only buckets that have been full since before `now`. */
  ghost predicate Forgot(l: Limits, n: Buckets, m: Buckets, now: Time) {
    && m.Keys <= n.Keys
    && (forall k | k in m :: m[k] == n[k])
    && (forall k | k in n && k !in m :: Refilled(l, n[k], now) == l.burst)
  }

  /** The sweep is exact when the idle time it asks for is a whole number of nanoseconds. */
  predicate WholeFull(l: Limits)
    requires l.rate > 0.0
  {
    Full(l) as real == l.burst / l.rate * SECOND as real
  }

  lemma IdleIsFull(l: Limits, b: Bucket, now: Time)
    requires l.rate > 0.0 && WholeFull(l) && BucketOk(l, b, now) && now - b.last >= Full(l)
    ensures Refilled(l, b, now) == l.burst
  {
    GainGrows(l, Full(l), now - b.last);
    assert Gain(l, Full(l)) == l.burst by {
      var x := l.burst / l.rate;
      assert Full(l) as real / SECOND as real == x;
      assert x * l.rate == l.burst;
    }
  }

  lemma StaysFull(l: Limits, b: Bucket, now: Time, later: Time)
    requires l.rate > 0.0 && Refilled(l, b, now) == l.burst && now <= later
    ensures Refilled(l, b, later) == l.burst
  {
    GainGrows(l, now - b.last, later - b.last);
  }

  lemma TakeKeepsOk(l: Limits, b: Bucket, now: Time)
    requires l.rate > 0.0 && 0.0 <= l.burst && BucketOk(l, b, now)
    ensures BucketOk(l, TakeFrom(l, b, now).0, now)
  {
    GainAdds(l, 0, 0);
    GainGrows(l, 0, now - b.last);
  }

  lemma SweepForgets(l: Limits, n: Buckets, m: Buckets, now: Time)
    requires l.rate > 0.0 && WholeFull(l) && BucketsOk(l, n, now) && Forgot(l, n, m, now)
    ensures Forgot(l, n, Swept(l, m, now), now)
  {
    forall k | k in n && k !in Swept(l, m, now) ensures Refilled(l, n[k], now) == l.burst {
      if k in m { IdleIsFull(l, n[k], now); }
    }
  }

  lemma LaterForgot(l: Limits, n: Buckets, m: Buckets, now: Time, later: Time)
    requires l.rate > 0.0 && Forgot(l, n, m, now) && now <= later
    ensures Forgot(l, n, m, later)
  {
    forall k | k in n && k !in m ensures Refilled(l, n[k], later) == l.burst { StaysFull(l, n[k], now, later); }
  }

  /** A forgotten bucket answers as the new one that takes its place. */
  lemma SameAnswer(l: Limits, n: Buckets, m: Buckets, key: string, now: Time)
    requires Forgot(l, n, m, now)
    ensures Keeping(l, n, key, now).1 == Keeping(l, m, key, now).1
    ensures Forgot(l, Keeping(l, n, key, now).0, Keeping(l, m, key, now).0, now)
  {
    GainAdds(l, 0, 0);
  }

  lemma {:induction false} SimulatesKept(l: Limits, reqs: seq<Request>, now: Time)
    requires l.rate > 0.0 && 0.0 <= l.burst && WholeFull(l) && InOrder(reqs)
    requires reqs != [] ==> reqs[|reqs| - 1].at <= now
    ensures Run(l, reqs).1 == Kept(l, reqs).1
    ensures Forgot(l, Kept(l, reqs).0, Run(l, reqs).0, now) && BucketsOk(l, Kept(l, reqs).0, now)
  {
    if reqs != [] {
      var i := |reqs| - 1;
      var (key, at) := (reqs[i].key, reqs[i].at);
      SimulatesKept(l, reqs[..i], at);
      var (n, m) := (Kept(l, reqs[..i]).0, Run(l, reqs[..i]).0);
      var m' := if key !in m && |m| >= MAX_BUCKETS then Swept(l, m, at) else m;
      SweepForgets(l, n, m, at);
      SameAnswer(l, n, m', key, at);
      KeepingOk(l, n, key, at);
      LaterForgot(l, Kept(l, reqs).0, Run(l, reqs).0, at, now);
    }
  }

  lemma KeepingOk(l: Limits, n: Buckets, key: string, now: Time)
    requires l.rate > 0.0 && 0.0 <= l.burst && BucketsOk(l, n, now)
    ensures BucketsOk(l, Keeping(l, n, key, now).0, now)
  {
    TakeKeepsOk(l, if key in n then n[key] else Bucket(l.burst, now), now);
  }

  /** Whatever the clients and however their requests interleave, the limiter that sweeps
      answers as one that never forgets a client. */
  lemma SweepIsUnobservable(rps: int, reqs: seq<Request>)
    requires rps > 0 && InOrder(reqs)
    ensures Run(PerClient(rps), reqs).1 == Kept(PerClient(rps), reqs).1
  {
    var l := PerClient(rps);
    TwiceTheRate(rps);
    SimulatesKept(l, reqs, if reqs == [] then 0 else reqs[|reqs| - 1].at);
  }

  lemma TwiceTheRate(rps: int)
    requires rps > 0
    ensures WholeFull(PerClient(rps)) && Full(PerClient(rps)) == 2 * SECOND
  {
    var l := PerClient(rps);
    assert l.burst == 2.0 * l.rate;
    assert l.burst / l.rate == 2.0;
  }

  /** For whole numbers of tokens the sweep is exact if and only if the rate divides the
      burst in nanoseconds: otherwise a bucket just emptied is forgotten up to a nanosecond
      before it is full, and the client gains a token. */
  lemma SweepIsExactIff(rate: int, burst: int)
    requires rate > 0 && burst > 0
    ensures var l := Limits(rate as real, burst as real);
      (burst * 1_000_000_000) % rate == 0 <==>
      forall b, now | BucketOk(l, b, now) && now - b.last >= Full(l) :: Refilled(l, b, now) == l.burst
  {
    var l := Limits(rate as real, burst as real);
    WholeIff(rate, burst);
    if WholeFull(l) {
      forall b, now | BucketOk(l, b, now) && now - b.last >= Full(l) ensures Refilled(l, b, now) == l.burst {
        IdleIsFull(l, b, now);
      }
    } else {
      var b := Bucket(0.0, 0);
      EmptyIsNotFull(l);
      assert BucketOk(l, b, Full(l)) && Refilled(l, b, Full(l)) != l.burst;
    }
  }

  lemma EmptyIsNotFull(l: Limits)
    requires l.rate > 0.0 && l.burst > 0.0 && !WholeFull(l)
    ensures 0 <= Full(l) && Refilled(l, Bucket(0.0, 0), Full(l)) < l.burst
  {
    var x := l.burst / l.rate;
    assert x > 0.0 && x * l.rate == l.burst;
    assert x * SECOND as real > 0.0;
    var q := Full(l) as real / SECOND as real;
    assert q < x;
    assert q * l.rate < x * l.rate;
  }

  lemma WholeIff(rate: int, burst: int)
    requires rate > 0 && burst > 0
    ensures (burst * SECOND) % rate == 0 <==> WholeFull(Limits(rate as real, burst as real))
  {
    var l := Limits(rate as real, burst as real);
    var x := l.burst / l.rate * SECOND as real;
    var q, r := (burst * SECOND) / rate, (burst * SECOND) % rate;
    assert burst * SECOND == q * rate + r;
    assert x * l.rate == (burst * SECOND) as real;
    assert (burst * SECOND) as real == q as real * l.rate + r as real;
    if r == 0 {
      assert (x - q as real) * l.rate == 0.0;
      assert x == q as real;
    }
    if WholeFull(l) {
      var f := Full(l);
      assert f as real * l.rate == (f * rate) as real;
      MultipleMod(f, rate, burst * SECOND);
    }
  }

  lemma MultipleMod(f: int, rate: int, n: int)
    requires rate > 0 && n == f * rate
    ensures n % rate == 0
  {
    var q, r := n / rate, n % rate;
    assert (f - q) * rate == r;
    if f - q >= 1 { AtLeast(f - q, rate); } else if q - f >= 1 { AtLeast(q - f, rate); }
  }

  lemma AtLeast(a: int, b: int)
    requires a >= 1 && b > 0
    ensures a * b >= b
  {}

  // ---------------------------------------------------- the token bucket is exact

  /** How many of the requests i to n-1 were this client's and admitted. */
  function Admitted(reqs: seq<Request>, answers: seq<bool>, key: string, i: nat, n: nat): nat
    requires i <= n <= |reqs| && |reqs| == |answers|
  {
    if i == n then 0
    else Admitted(reqs, answers, key, i, n - 1) + (if reqs[n - 1].key == key && answers[n - 1] then 1 else 0)
  }

  /** What is left at time `at` of the burst and of all that has arrived since request i. */
  function Left(l: Limits, reqs: seq<Request>, answers: seq<bool>, key: string, i: nat, n: nat, at: Time): real
    requires i <= n <= |reqs| && i < |reqs| && |reqs| == |answers|
  {
    l.burst + Gain(l, at - reqs[i].at) - Admitted(reqs, answers, key, i, n) as real
  }

  predicate Below(l: Limits, reqs: seq<Request>, answers: seq<bool>, key: string, i: nat, at: Time, tokens: real)
    requires i < |reqs| == |answers|
  {
    reqs[i].key == key ==> tokens <= Left(l, reqs, answers, key, i, |reqs|, at)
  }

  /** The tokens are the least of what is left since any request of this client. */
  ghost predicate Tight(l: Limits, reqs: seq<Request>, answers: seq<bool>, key: string, at: Time, tokens: real)
    requires |reqs| == |answers|
  {
    && (forall i: nat | i < |reqs| :: Below(l, reqs, answers, key, i, at, tokens))
    && (exists i: nat :: i < |reqs| && reqs[i].key == key && tokens == Left(l, reqs, answers, key, i, |reqs|, at))
  }

  lemma {:induction false} AdmittedExtends(reqs: seq<Request>, answers: seq<bool>, key: string, i: nat, n: nat,
        r: Request, ok: bool)
    requires i <= n <= |reqs| && |reqs| == |answers|
    ensures Admitted(reqs + [r], answers + [ok], key, i, n) == Admitted(reqs, answers, key, i, n)
  {
    if i < n { AdmittedExtends(reqs, answers, key, i, n - 1, r, ok); }
  }

  lemma LeftExtends(l: Limits, reqs: seq<Request>, answers: seq<bool>, key: string, i: nat, at: Time, r: Request,
        ok: bool)
    requires i < |reqs| == |answers|
    ensures Left(l, reqs + [r], answers + [ok], key, i, |reqs| + 1, r.at) ==
            Left(l, reqs, answers, key, i, |reqs|, at) + Gain(l, r.at - at) - (if r.key == key && ok then 1.0 else 0.0)
  {
    AdmittedExtends(reqs, answers, key, i, |reqs|, r, ok);
    GainAdds(l, at - reqs[i].at, r.at - at);
  }

  /** Another client's request changes nothing. */
  lemma TightOther(l: Limits, reqs: seq<Request>, answers: seq<bool>, key: string, at: Time, tokens: real, r: Request,
        ok: bool)
    requires |reqs| == |answers| && Tight(l, reqs, answers, key, at, tokens) && r.key != key
    ensures Tight(l, reqs + [r], answers + [ok], key, at, tokens)
  {
    var (rs, as') := (reqs + [r], answers + [ok]);
    forall i: nat | i < |rs| ensures Below(l, rs, as', key, i, at, tokens) {
      if i < |reqs| {
        assert Below(l, reqs, answers, key, i, at, tokens);
        AdmittedExtends(reqs, answers, key, i, |reqs|, r, ok);
      }
    }
    var i: nat :| i < |reqs| && reqs[i].key == key && tokens == Left(l, reqs, answers, key, i, |reqs|, at);
    AdmittedExtends(reqs, answers, key, i, |reqs|, r, ok);
    assert rs[i].key == key && tokens == Left(l, rs, as', key, i, |rs|, at);
  }

  /** The client's first request. */
  lemma TightFirst(l: Limits, reqs: seq<Request>, answers: seq<bool>, r: Request, ok: bool)
    requires |reqs| == |answers| && forall i | 0 <= i < |reqs| :: reqs[i].key != r.key
    ensures Tight(l, reqs + [r], answers + [ok], r.key, r.at, l.burst - (if ok then 1.0 else 0.0))
  {
    var (rs, as', n) := (reqs + [r], answers + [ok], |reqs|);
    assert Admitted(rs, as', r.key, n, n) == 0;
    GainAdds(l, 0, 0);
    assert rs[n].key == r.key && l.burst - (if ok then 1.0 else 0.0) == Left(l, rs, as', r.key, n, n + 1, r.at);
  }

  /** A later request of the same client. */
  lemma TightNext(l: Limits, reqs: seq<Request>, answers: seq<bool>, b: Bucket, r: Request, ok: bool)
    requires |reqs| == |answers| && Tight(l, reqs, answers, r.key, b.last, b.tokens)
    ensures Tight(l, reqs + [r], answers + [ok], r.key, r.at, Refilled(l, b, r.at) - (if ok then 1.0 else 0.0))
  {
    var (rs, as', n) := (reqs + [r], answers + [ok], |reqs|);
    var tokens := Refilled(l, b, r.at) - (if ok then 1.0 else 0.0);
    GainAdds(l, 0, 0);
    assert Admitted(rs, as', r.key, n, n) == 0;
    forall i: nat | i < |rs| ensures Below(l, rs, as', r.key, i, r.at, tokens) {
      if i < n && reqs[i].key == r.key {
        assert Below(l, reqs, answers, r.key, i, b.last, b.tokens);
        LeftExtends(l, reqs, answers, r.key, i, b.last, r, ok);
      }
    }
    if l.burst <= b.tokens + Gain(l, r.at - b.last) {
      assert rs[n].key == r.key && tokens == Left(l, rs, as', r.key, n, n + 1, r.at);
    } else {
      var i: nat :| i < n && reqs[i].key == r.key && b.tokens == Left(l, reqs, answers, r.key, i, n, b.last);
      LeftExtends(l, reqs, answers, r.key, i, b.last, r, ok);
      assert rs[i].key == r.key && tokens == Left(l, rs, as', r.key, i, n + 1, r.at);
    }
  }

  ghost predicate Came(reqs: seq<Request>, key: string) { exists i :: 0 <= i < |reqs| && reqs[i].key == key }

  lemma {:induction false} BucketsAreTight(l: Limits, reqs: seq<Request>, key: string)
    ensures |Kept(l, reqs).1| == |reqs| && (key in Kept(l, reqs).0 <==> Came(reqs, key))
    ensures key in Kept(l, reqs).0 ==>
              Tight(l, reqs, Kept(l, reqs).1, key, Kept(l, reqs).0[key].last, Kept(l, reqs).0[key].tokens)
  {
    if reqs != [] {
      var n := |reqs| - 1;
      var (before, r) := (reqs[..n], reqs[n]);
      BucketsAreTight(l, before, key);
      var (m, answers) := Kept(l, before);
      var ok := Keeping(l, m, r.key, r.at).1;
      assert reqs == before + [r] && Kept(l, reqs).1 == answers + [ok];
      CameNext(before, r, key);
      if r.key == key {
        if key in m {
          TightNext(l, before, answers, m[key], r, ok);
        } else {
          GainAdds(l, 0, 0);
          TightFirst(l, before, answers, r, ok);
        }
      } else if key in m {
        TightOther(l, before, answers, key, m[key].last, m[key].tokens, r, ok);
      }
    }
  }

  lemma CameNext(before: seq<Request>, r: Request, key: string)
    ensures Came(before + [r], key) <==> Came(before, key) || r.key == key
  {
    if Came(before, key) {
      var i :| 0 <= i < |before| && before[i].key == key;
      assert (before + [r])[i].key == key;
    }
    if r.key == key { assert (before + [r])[|before|].key == key; }
  }

  /** Since request i of this client, the admissions up to request n and one more stay
      within the burst and what has arrived. */
  predicate Fits(l: Limits, reqs: seq<Request>, answers: seq<bool>, i: nat, n: nat)
    requires i <= n < |reqs| == |answers|
  {
    reqs[i].key == reqs[n].key ==>
      Admitted(reqs, answers, reqs[n].key, i, n) as real + 1.0 <= l.burst + Gain(l, reqs[n].at - reqs[i].at)
  }

  ghost predicate AllFit(l: Limits, reqs: seq<Request>, answers: seq<bool>, n: nat)
    requires n < |reqs| == |answers|
  {
    forall i: nat | i <= n :: Fits(l, reqs, answers, i, n)
  }

  lemma LastIsExact(l: Limits, reqs: seq<Request>)
    requires reqs != []
    ensures var (answers, n) := (Kept(l, reqs).1, |reqs| - 1);
      |answers| == |reqs| && (answers[n] <==> AllFit(l, reqs, answers, n))
  {
    var n := |reqs| - 1;
    var (before, r) := (reqs[..n], reqs[n]);
    BucketsAreTight(l, before, r.key);
    NextIsExact(l, before, r);
    assert reqs == before + [r];
  }

  lemma NextIsExact(l: Limits, before: seq<Request>, r: Request)
    requires |Kept(l, before).1| == |before|
    ensures var (m, answers) := Kept(l, before);
      var ok := Keeping(l, m, r.key, r.at).1;
      ok <==> AllFit(l, before + [r], answers + [ok], |before|)
  {
    var (m, answers) := Kept(l, before);
    var ok := Keeping(l, m, r.key, r.at).1;
    BucketsAreTight(l, before, r.key);
    if r.key in m {
      TightIsExact(l, before, answers, m[r.key], r, ok);
    } else {
      GainAdds(l, 0, 0);
      FirstIsExact(l, before, answers, r, ok);
    }
  }

  lemma FirstIsExact(l: Limits, before: seq<Request>, answers: seq<bool>, r: Request, ok: bool)
    requires |before| == |answers| && !Came(before, r.key)
    ensures 1.0 <= l.burst <==> AllFit(l, before + [r], answers + [ok], |before|)
  {
    var (reqs, as', n) := (before + [r], answers + [ok], |before|);
    GainAdds(l, 0, 0);
    assert Fits(l, reqs, as', n, n) <==> 1.0 <= l.burst;
    forall i: nat | i < n ensures Fits(l, reqs, as', i, n) {
      assert before[i].key != r.key;
    }
  }

  lemma TightIsExact(l: Limits, before: seq<Request>, answers: seq<bool>, b: Bucket, r: Request, ok: bool)
    requires |before| == |answers| && Tight(l, before, answers, r.key, b.last, b.tokens)
    ensures 1.0 <= Refilled(l, b, r.at) <==> AllFit(l, before + [r], answers + [ok], |before|)
  {
    var (reqs, as', n) := (before + [r], answers + [ok], |before|);
    GainAdds(l, 0, 0);
    assert Fits(l, reqs, as', n, n) <==> 1.0 <= l.burst;
    forall i: nat | i < n && before[i].key == r.key
      ensures Fits(l, reqs, as', i, n) <==>
        1.0 <= Left(l, before, answers, r.key, i, n, b.last) + Gain(l, r.at - b.last)
    {
      AdmittedExtends(before, answers, r.key, i, n, r, ok);
      GainAdds(l, b.last - before[i].at, r.at - b.last);
    }
    if 1.0 <= Refilled(l, b, r.at) {
      forall i: nat | i <= n ensures Fits(l, reqs, as', i, n) {
        if i < n && before[i].key == r.key { assert Below(l, before, answers, r.key, i, b.last, b.tokens); }
      }
    } else if 1.0 <= l.burst {
      var i: nat :| i < n && before[i].key == r.key && b.tokens == Left(l, before, answers, r.key, i, n, b.last);
      assert !Fits(l, reqs, as', i, n);
    }
  }

  lemma {:induction false} KeptPrefix(l: Limits, reqs: seq<Request>, n: nat)
    requires n <= |reqs|
    ensures |Kept(l, reqs).1| == |reqs| && Kept(l, reqs[..n]).1 == Kept(l, reqs).1[..n]
  {
    if n < |reqs| {
      var last := |reqs| - 1;
      KeptPrefix(l, reqs[..last], n);
      assert reqs[..last][..n] == reqs[..n];
    } else {
      assert reqs[..n] == reqs;
      BucketsAreTight(l, reqs, "");
    }
  }

  lemma {:induction false} AdmittedPrefix(reqs: seq<Request>, answers: seq<bool>, key: string, i: nat, k: nat, n: nat)
    requires i <= k <= n <= |reqs| == |answers|
    ensures Admitted(reqs[..n], answers[..n], key, i, k) == Admitted(reqs, answers, key, i, k)
  {
    if i < k { AdmittedPrefix(reqs, answers, key, i, k - 1, n); }
  }

  /** The limiter that never evicts, of any limits: a request is admitted if and only if, for
      every earlier request of its client, the admissions since then plus this one stay
      within burst + rate * elapsed. */
  lemma KeptIsExact(l: Limits, reqs: seq<Request>, n: nat)
    requires n < |reqs|
    ensures |Kept(l, reqs).1| == |reqs|
    ensures Kept(l, reqs).1[n] <==> AllFit(l, reqs, Kept(l, reqs).1, n)
  {
    KeptPrefix(l, reqs, n + 1);
    LastIsExact(l, reqs[..n + 1]);
    FitsPrefix(l, reqs, Kept(l, reqs).1, n);
  }

  lemma FitsPrefix(l: Limits, reqs: seq<Request>, answers: seq<bool>, n: nat)
    requires n < |reqs| == |answers|
    ensures AllFit(l, reqs[..n + 1], answers[..n + 1], n) <==> AllFit(l, reqs, answers, n)
  {
    var (rs, as') := (reqs[..n + 1], answers[..n + 1]);
    forall i: nat | i <= n ensures Fits(l, rs, as', i, n) <==> Fits(l, reqs, answers, i, n) {
      AdmittedPrefix(reqs, answers, reqs[n].key, i, n, n + 1);
    }
  }

  lemma {:induction false} KeptWindow(l: Limits, reqs: seq<Request>, key: string, i: nat, n: nat, span: Time)
    requires l.rate > 0.0 && 0.0 <= l.burst && InOrder(reqs) && i < n <= |reqs| && reqs[n - 1].at - reqs[i].at <= span
    ensures |Kept(l, reqs).1| == |reqs|
    ensures Admitted(reqs, Kept(l, reqs).1, key, i, n) as real <= l.burst + Gain(l, span)
    decreases n - i
  {
    var answers := Kept(l, reqs).1;
    KeptPrefix(l, reqs, n);
    GainAdds(l, 0, 0);
    GainGrows(l, 0, span);
    if reqs[i].key != key {
      AdmittedSkips(reqs, answers, key, i, n);
      if i + 1 < n { KeptWindow(l, reqs, key, i + 1, n, span); }
    } else if reqs[n - 1].key == key && answers[n - 1] {
      KeptIsExact(l, reqs, n - 1);
      assert Fits(l, reqs, answers, i, n - 1);
      GainGrows(l, reqs[n - 1].at - reqs[i].at, span);
    } else if i < n - 1 {
      KeptWindow(l, reqs, key, i, n - 1, span);
    }
  }

  lemma {:induction false} AdmittedSkips(reqs: seq<Request>, answers: seq<bool>, key: string, i: nat, n: nat)
    requires i < n <= |reqs| == |answers| && reqs[i].key != key
    ensures Admitted(reqs, answers, key, i, n) == Admitted(reqs, answers, key, i + 1, n)
  {
    if i + 1 < n { AdmittedSkips(reqs, answers, key, i, n - 1); }
  }

  /** A client whose requests are at least 1/rate apart. */
  ghost predicate Spaced(l: Limits, reqs: seq<Request>, key: string) {
    forall i, j | 0 <= i < j < |reqs| && reqs[i].key == key && reqs[j].key == key ::
        1.0 <= Gain(l, reqs[j].at - reqs[i].at)
  }

  lemma KeptSpaced(l: Limits, reqs: seq<Request>, key: string, n: nat)
    requires l.rate > 0.0 && 1.0 <= l.burst && Spaced(l, reqs, key) && n < |reqs| && reqs[n].key == key
    ensures |Kept(l, reqs).1| == |reqs| && Kept(l, reqs).1[n]
  {
    KeptIsExact(l, reqs, n);
    var answers := Kept(l, reqs).1;
    forall i: nat | i <= n ensures Fits(l, reqs, answers, i, n) {
      if reqs[i].key == key {
        GainAdds(l, 0, 0);
        EachWasPaidFor(l, reqs, answers, key, i, n);
      }
    }
  }

  lemma {:induction false} EachWasPaidFor(l: Limits, reqs: seq<Request>, answers: seq<bool>, key: string, i: nat,
        n: nat)
    requires Spaced(l, reqs, key) && i <= n < |reqs| == |answers| && reqs[i].key == key && reqs[n].key == key
    ensures Admitted(reqs, answers, key, i, n) as real <= Gain(l, reqs[n].at - reqs[i].at)
    decreases n - i
  {
    GainAdds(l, 0, 0);
    if i < n {
      var k := n - 1;
      while reqs[k].key != key
        decreases k
        invariant i <= k < n
        invariant Admitted(reqs, answers, key, i, n) == Admitted(reqs, answers, key, i, k + 1)
      {
        k := k - 1;
      }
      EachWasPaidFor(l, reqs, answers, key, i, k);
      GainAdds(l, reqs[k].at - reqs[i].at, reqs[n].at - reqs[k].at);
    }
  }

  // ------------------------------------------------------ the limiter of the router

  /** What arrives in `d` nanoseconds at `rps` a second, and the burst, in numbers. */
  lemma InNumbers(rps: int, d: Time)
    ensures Gain(PerClient(rps), d) == rps as real * d as real / 1_000_000_000.0
    ensures PerClient(rps).burst == (2 * rps) as real
  {}

  /** Since request i of the same client, the admissions up to request n and this one are
      within twice the rate and what has arrived at the rate. */
  predicate WithinRate(rps: int, reqs: seq<Request>, answers: seq<bool>, i: nat, n: nat)
    requires i <= n < |reqs| == |answers|
  {
    (Admitted(reqs, answers, reqs[n].key, i, n) + 1) as real <=
      (2 * rps) as real + rps as real * (reqs[n].at - reqs[i].at) as real / 1_000_000_000.0
  }

  /** The limiter that sweeps, as the router builds it: a request is admitted if and only if,
      for every earlier request of its client, the admissions since then plus this one stay
      within 2 * rps and rps a second. Nothing else decides, whoever else has been forgotten. */
  lemma TokenBucketIsExact(rps: int, reqs: seq<Request>, n: nat)
    requires rps > 0 && InOrder(reqs) && n < |reqs|
    ensures var answers := Run(PerClient(rps), reqs).1;
      && |answers| == |reqs|
      && (answers[n] <==> forall i: nat | i <= n && reqs[i].key == reqs[n].key :: WithinRate(rps, reqs, answers, i, n))
  {
    SweepIsUnobservable(rps, reqs);
    KeptIsExact(PerClient(rps), reqs, n);
    AllWithin(rps, reqs, Kept(PerClient(rps), reqs).1, n);
  }

  lemma WithinIsFits(rps: int, reqs: seq<Request>, answers: seq<bool>, i: nat, n: nat)
    requires i <= n < |reqs| == |answers| && reqs[i].key == reqs[n].key
    ensures WithinRate(rps, reqs, answers, i, n) <==> Fits(PerClient(rps), reqs, answers, i, n)
  {
    InNumbers(rps, reqs[n].at - reqs[i].at);
  }

  lemma AllWithin(rps: int, reqs: seq<Request>, answers: seq<bool>, n: nat)
    requires n < |reqs| == |answers|
    ensures AllFit(PerClient(rps), reqs, answers, n) <==>
            forall i: nat | i <= n && reqs[i].key == reqs[n].key :: WithinRate(rps, reqs, answers, i, n)
  {
    forall i: nat | i <= n && reqs[i].key == reqs[n].key
      ensures WithinRate(rps, reqs, answers, i, n) <==> Fits(PerClient(rps), reqs, answers, i, n)
    {
      WithinIsFits(rps, reqs, answers, i, n);
    }
  }

  /** No window admits more of one client than the burst and what arrives in it: requests i
      to n-1, none later than `span` nanoseconds after request i. */
  lemma WindowIsBounded(rps: int, reqs: seq<Request>, key: string, i: nat, n: nat, span: Time)
    requires rps > 0 && InOrder(reqs) && i < n <= |reqs| && reqs[n - 1].at - reqs[i].at <= span
    ensures var answers := Run(PerClient(rps), reqs).1;
      && |answers| == |reqs|
      && Admitted(reqs, answers, key, i, n) as real <= (2 * rps) as real + rps as real * span as real / 1_000_000_000.0
  {
    SweepIsUnobservable(rps, reqs);
    KeptWindow(PerClient(rps), reqs, key, i, n, span);
    InNumbers(rps, span);
  }

  /** A client whose requests are at least 1/rps seconds apart is never refused. */
  lemma SpacedClientIsNeverRefused(rps: int, reqs: seq<Request>, key: string, n: nat)
    requires rps > 0 && InOrder(reqs) && n < |reqs| && reqs[n].key == key
    requires forall i, j | 0 <= i < j < |reqs| && reqs[i].key == key && reqs[j].key == key ::
               (reqs[j].at - reqs[i].at) * rps >= 1_000_000_000
    ensures |Run(PerClient(rps), reqs).1| == |reqs| && Run(PerClient(rps), reqs).1[n]
  {
    forall i, j | 0 <= i < j < |reqs| && reqs[i].key == key && reqs[j].key == key
      ensures 1.0 <= Gain(PerClient(rps), reqs[j].at - reqs[i].at)
    {
      EnoughGap(rps, reqs[j].at - reqs[i].at);
    }
    SweepIsUnobservable(rps, reqs);
    KeptSpaced(PerClient(rps), reqs, key, n);
  }

  lemma EnoughGap(rps: int, d: Time)
    requires d * rps >= 1_000_000_000
    ensures 1.0 <= Gain(PerClient(rps), d)
  {
    InNumbers(rps, d);
    Product(rps, d);
  }

  lemma Product(a: int, b: int)
    ensures a as real * b as real == (b * a) as real
  {}

  /** SetRateLimit: no limiter for a rate that is not positive. */
  method SetRateLimit(rps: int) returns (limit: Limiter?)
    ensures limit == null <==> rps <= 0
    ensures limit != null ==> fresh(limit) && limit.buckets == map[] && limit.limits == PerClient(rps)
    ensures limit != null ==> limit.limits.rate == rps as real && limit.limits.burst == (2 * rps) as real
  {
    if rps <= 0 { return null; }
    limit := new Limiter(rps as real, (2 * rps) as real);
  }
}
