/** The token-bucket rate limiter (interceptors/ratelimit.go).  Time is an
    integer number of nanoseconds. */
module RateLimit {

  datatype Config = Config(maxRequests: int, window: int)

  datatype Bucket = Bucket(tokens: int, lastRefill: int)

  predicate Open(cfg: Config) {
    cfg.maxRequests > 0 && cfg.window > 0
  }

  function Interval(cfg: Config): (i: int)
    requires Open(cfg)
    ensures i > 0
  {
    var i := cfg.window / cfg.maxRequests;
    if i <= 0 then 1 else i
  }

  /** One token per interval: the longest whole interval of which maxRequests fit into
      the window, and never less than a nanosecond. */
  lemma IntervalExact(cfg: Config)
    requires cfg.maxRequests > 0 && cfg.window > 0
    ensures Interval(cfg) >= 1
    ensures cfg.window >= cfg.maxRequests ==> cfg.maxRequests * Interval(cfg) <= cfg.window < cfg.maxRequests * (Interval(cfg) + 1)
    ensures cfg.window < cfg.maxRequests ==> Interval(cfg) == 1
  {
    var m, q, r := cfg.maxRequests, cfg.window / cfg.maxRequests, cfg.window % cfg.maxRequests;
    assert cfg.window == q * m + r && m * (q + 1) == m * q + m;
    if cfg.window >= m {
      DivUnique(m, m, 1, 0);
      DivMonotone(m, cfg.window, m);
    } else {
      DivUnique(cfg.window, m, 0, cfg.window);
    }
  }

  /** Go's integer division truncates toward zero. */
  function TruncDiv(a: int, b: int): int
    requires b > 0
  {
    if a >= 0 then a / b else -((-a) / b)
  }

  function Min(a: int, b: int): int {
    if a <= b then a else b
  }

  /** Lazy refill: whole intervals elapsed since the last refill, capped. */
  function Refill(cfg: Config, b: Bucket, now: int): Bucket
    requires Open(cfg)
  {
    var i := Interval(cfg);
    var add := TruncDiv(now - b.lastRefill, i);
    if add > 0 then Bucket(Min(b.tokens + add, cfg.maxRequests), b.lastRefill + i * add) else b
  }

  function Take(b: Bucket): Bucket {
    if b.tokens > 0 then b.(tokens := b.tokens - 1) else b
  }

  /** The bucket a request for `key` at `now` finds after refill. */
  function Fetched(cfg: Config, buckets: map<string, Bucket>, key: string, now: int): Bucket
    requires Open(cfg)
  {
    if key in buckets then Refill(cfg, buckets[key], now) else Bucket(cfg.maxRequests, now)
  }

  datatype Request = Request(key: string, at: int)

  /** Whether the request is admitted. */
  function Admits(cfg: Config, buckets: map<string, Bucket>, r: Request): bool {
    Open(cfg) && Fetched(cfg, buckets, r.key, r.at).tokens > 0
  }

  /** The buckets after the request. */
  function After(cfg: Config, buckets: map<string, Bucket>, r: Request): map<string, Bucket> {
    if Open(cfg) then buckets[r.key := Take(Fetched(cfg, buckets, r.key, r.at))] else buckets
  }

  class RateLimiter {
    const config: Config
    var buckets: map<string, Bucket>

    constructor (cfg: Config)
      ensures config == cfg && buckets == map[]
    {
      config := cfg;
      buckets := map[];
    }

    ghost predicate Valid()
      reads this
    {
      forall k :: k in buckets ==> 0 <= buckets[k].tokens <= config.maxRequests
    }

    /** Consumes one token for key; other keys' buckets are untouched. */
    method Allow(key: string, now: int) returns (ok: bool)
      requires Valid()
      modifies this
      ensures Valid()
      ensures ok == Admits(config, old(buckets), Request(key, now))
      ensures buckets == After(config, old(buckets), Request(key, now))
      ensures forall k :: k != key ==> (k in buckets <==> k in old(buckets)) && (k in buckets ==> buckets[k] == old(buckets)[k])
    {
      if config.maxRequests <= 0 || config.window <= 0 {
        return false;
      }
      var b: Bucket;
      if key !in buckets {
        b := Bucket(config.maxRequests, now);
      } else {
        b := buckets[key];
        var interval := config.window / config.maxRequests;
        if interval <= 0 {
          interval := 1;
        }
        var elapsed := now - b.lastRefill;
        var add := TruncDiv(elapsed, interval);
        if add > 0 {
          b := b.(tokens := b.tokens + add);
          if b.tokens > config.maxRequests {
            b := b.(tokens := config.maxRequests);
          }
          b := b.(lastRefill := b.lastRefill + interval * add);
        }
      }
      buckets := buckets[key := b];
      if b.tokens <= 0 {
        return false;
      }
      buckets := buckets[key := b.(tokens := b.tokens - 1)];
      return true;
    }
  }

  // --- Runs ------------------------------------------------------------------

  /** The verdict of every request of a run, in order. */
  function Verdicts(cfg: Config, buckets: map<string, Bucket>, run: seq<Request>): (v: seq<bool>)
    ensures |v| == |run|
    decreases |run|
  {
    if run == [] then [] else [Admits(cfg, buckets, run[0])] + Verdicts(cfg, After(cfg, buckets, run[0]), run[1..])
  }

  ghost predicate ClockMonotone(run: seq<Request>) {
    forall i, j :: 0 <= i <= j < |run| ==> run[i].at <= run[j].at
  }

  /** Requests for `key` admitted at a time in [s, t]. */
  ghost function Admitted(run: seq<Request>, v: seq<bool>, key: string, s: int, t: int): nat
    requires |run| == |v|
  {
    if run == [] then 0
    else (if v[0] && run[0].key == key && s <= run[0].at <= t then 1 else 0) + Admitted(run[1..], v[1..], key, s, t)
  }

  function CeilDiv(a: int, b: int): int
    requires b > 0
  {
    -((-a) / b)
  }

  ghost predicate BucketOk(cfg: Config, b: Bucket, now: int) {
    0 <= b.tokens <= cfg.maxRequests && b.lastRefill <= now
  }

  ghost predicate BucketsOk(cfg: Config, buckets: map<string, Bucket>, now: int) {
    forall k :: k in buckets ==> BucketOk(cfg, buckets[k], now)
  }

  lemma MulAtLeast(n: int, i: int)
    requires n >= 1 && i > 0
    ensures n * i >= i
  {
  }

  lemma QuotientOrder(a: int, r: int, b: int, s: int, i: int)
    requires i > 0 && 0 <= r && s < i && a * i + r <= b * i + s
    ensures a <= b
  {
    assert (a - b) * i == a * i - b * i;
    if a > b {
      MulAtLeast(a - b, i);
    }
  }

  lemma DivUnique(x: int, i: int, q: int, r: int)
    requires i > 0 && 0 <= r < i && x == q * i + r
    ensures x / i == q
  {
    var d, m := x / i, x % i;
    assert x == d * i + m;
    QuotientOrder(q, r, d, m, i);
    QuotientOrder(d, m, q, r, i);
  }

  lemma DivStep(x: int, i: int, n: int)
    requires i > 0
    ensures (x - i * n) / i == x / i - n
  {
    var q, m := x / i, x % i;
    assert x == q * i + m;
    assert x - i * n == (q - n) * i + m;
    DivUnique(x - i * n, i, q - n, m);
  }

  lemma DivMonotone(x: int, y: int, i: int)
    requires i > 0 && x <= y
    ensures x / i <= y / i
  {
    var a, r, b, s := x / i, x % i, y / i, y % i;
    assert x == a * i + r && y == b * i + s;
    QuotientOrder(a, r, b, s, i);
  }

  /** What a refill does: it never lowers the tokens below what they were, adds
      at most the whole intervals elapsed, and leaves less than one interval
      unaccounted for. */
  lemma {:induction false} RefillFacts(cfg: Config, b: Bucket, now: int)
    requires Open(cfg) && BucketOk(cfg, b, now)
    ensures var i := Interval(cfg); var b' := Refill(cfg, b, now); var add := (now - b.lastRefill) / i;
            && add >= 0
            && BucketOk(cfg, b', now)
            && b'.tokens == Min(b.tokens + add, cfg.maxRequests)
            && b'.lastRefill == b.lastRefill + i * add
            && now - b'.lastRefill < i
  {
    var i := Interval(cfg);
    var e := now - b.lastRefill;
    assert e == (e / i) * i + e % i;
    DivMonotone(0, e, i);
    if e / i == 0 {
      assert i * (e / i) == 0;
    }
  }

  lemma FetchedOk(cfg: Config, buckets: map<string, Bucket>, key: string, now: int)
    requires Open(cfg) && BucketsOk(cfg, buckets, now)
    ensures BucketOk(cfg, Fetched(cfg, buckets, key, now), now)
    ensures now - Fetched(cfg, buckets, key, now).lastRefill < Interval(cfg)
  {
    if key in buckets {
      RefillFacts(cfg, buckets[key], now);
    }
  }

  lemma AfterOk(cfg: Config, buckets: map<string, Bucket>, r: Request, now: int)
    requires Open(cfg) && BucketsOk(cfg, buckets, r.at) && r.at <= now
    ensures BucketsOk(cfg, After(cfg, buckets, r), now)
  {
    FetchedOk(cfg, buckets, r.key, r.at);
  }

  ghost predicate StartsAt(run: seq<Request>, now: int) {
    ClockMonotone(run) && (run != [] ==> now <= run[0].at)
  }

  lemma TailStarts(run: seq<Request>)
    requires ClockMonotone(run) && run != []
    ensures StartsAt(run[1..], run[0].at)
  {
    assert forall i :: 0 <= i < |run[1..]| ==> run[1..][i] == run[i + 1];
  }

  /** From a known bucket, the key's admissions up to time t are at most its
      tokens plus the whole intervals from its last refill to t. */
  lemma {:induction false} AdmittedFromBucket(cfg: Config, buckets: map<string, Bucket>, run: seq<Request>, key: string, s: int, t: int, now: int)
    requires Open(cfg) && BucketsOk(cfg, buckets, now) && StartsAt(run, now)
    requires key in buckets && buckets[key].lastRefill <= t
    ensures Admitted(run, Verdicts(cfg, buckets, run), key, s, t) <= buckets[key].tokens + (t - buckets[key].lastRefill) / Interval(cfg)
    decreases |run|
  {
    var i := Interval(cfg);
    var b := buckets[key];
    if run == [] {
      DivMonotone(0, t - b.lastRefill, i);
    } else {
      var r := run[0];
      var next := After(cfg, buckets, r);
      TailStarts(run);
      AfterOk(cfg, buckets, r, r.at);
      assert Verdicts(cfg, buckets, run)[1..] == Verdicts(cfg, next, run[1..]);
      if r.key == key && r.at <= t {
        var add := (r.at - b.lastRefill) / i;
        RefillFacts(cfg, b, r.at);
        AdmittedFromBucket(cfg, next, run[1..], key, s, t, r.at);
        assert t - next[key].lastRefill == (t - b.lastRefill) - i * add;
        DivStep(t - b.lastRefill, i, add);
      } else if r.key == key {
        LateRunAdmitsNone(cfg, next, run[1..], key, s, t, r.at);
        DivMonotone(0, t - b.lastRefill, i);
      } else {
        AdmittedFromBucket(cfg, next, run[1..], key, s, t, r.at);
      }
    }
  }

  lemma {:induction false} LateRunAdmitsNone(cfg: Config, buckets: map<string, Bucket>, run: seq<Request>, key: string, s: int, t: int, now: int)
    requires StartsAt(run, now) && t < now
    ensures Admitted(run, Verdicts(cfg, buckets, run), key, s, t) == 0
    decreases |run|
  {
    if run != [] {
      TailStarts(run);
      var next := After(cfg, buckets, run[0]);
      assert Verdicts(cfg, buckets, run)[1..] == Verdicts(cfg, next, run[1..]);
      LateRunAdmitsNone(cfg, next, run[1..], key, s, t, run[0].at);
    }
  }

  /** Rounding: the intervals after the window's first request, plus the part
      interval before it, never exceed the window rounded up. */
  lemma WindowRounding(s: int, first: int, last: int, t: int, i: int)
    requires i > 0 && s <= first <= t && 0 <= first - last < i
    ensures (t - last) / i <= CeilDiv(t - s, i)
  {
    var c := CeilDiv(t - s, i);
    var n := -(t - s);
    assert n == (n / i) * i + n % i;
    assert t - s == c * i - n % i;
    assert t - last <= c * i + (i - 1);
    DivUnique(c * i + (i - 1), i, c, i - 1);
    DivMonotone(t - last, c * i + (i - 1), i);
  }

  lemma {:induction false} WindowFromAnyState(cfg: Config, buckets: map<string, Bucket>, run: seq<Request>, key: string, s: int, t: int, now: int)
    requires Open(cfg) && BucketsOk(cfg, buckets, now) && StartsAt(run, now) && s <= t
    ensures Admitted(run, Verdicts(cfg, buckets, run), key, s, t) <= cfg.maxRequests + CeilDiv(t - s, Interval(cfg))
    decreases |run|
  {
    var i := Interval(cfg);
    if run == [] {
      WindowRounding(s, s, s, t, i);
      DivMonotone(0, t - s, i);
    } else {
      var r := run[0];
      var next := After(cfg, buckets, r);
      var b := Fetched(cfg, buckets, r.key, r.at);
      assert BucketsOk(cfg, buckets, r.at);
      FetchedOk(cfg, buckets, r.key, r.at);
      AfterOk(cfg, buckets, r, r.at);
      TailStarts(run);
      assert Verdicts(cfg, buckets, run)[1..] == Verdicts(cfg, next, run[1..]);
      if r.key == key && s <= r.at <= t {
        AdmittedFromBucket(cfg, next, run[1..], key, s, t, r.at);
        WindowRounding(s, r.at, b.lastRefill, t, i);
      } else {
        WindowFromAnyState(cfg, next, run[1..], key, s, t, r.at);
      }
    }
  }

  /** The rate bound: with a clock that never goes back, for every key and every
      window [s, t], at most MaxRequests + ceil((t - s) / interval) requests are
      admitted; a limiter configured closed admits none. */
  lemma RateBound(cfg: Config, run: seq<Request>, key: string, s: int, t: int)
    requires ClockMonotone(run) && s <= t
    ensures cfg.maxRequests > 0 && cfg.window > 0 ==> Admitted(run, Verdicts(cfg, map[], run), key, s, t) <= cfg.maxRequests + CeilDiv(t - s, Interval(cfg))
    ensures cfg.maxRequests <= 0 || cfg.window <= 0 ==> Admitted(run, Verdicts(cfg, map[], run), key, s, t) == 0
  {
    if Open(cfg) {
      WindowFromAnyState(cfg, map[], run, key, s, t, if run == [] then 0 else run[0].at);
    } else {
      ClosedAdmitsNone(cfg, map[], run, key, s, t);
    }
  }

  lemma {:induction false} ClosedAdmitsNone(cfg: Config, buckets: map<string, Bucket>, run: seq<Request>, key: string, s: int, t: int)
    requires !Open(cfg)
    ensures Admitted(run, Verdicts(cfg, buckets, run), key, s, t) == 0
    decreases |run|
  {
    if run != [] {
      assert Verdicts(cfg, buckets, run)[1..] == Verdicts(cfg, buckets, run[1..]);
      ClosedAdmitsNone(cfg, buckets, run[1..], key, s, t);
    }
  }

  /** A key seen for the first time is admitted by every limiter that is not closed. */
  lemma FirstAdmitted(cfg: Config, buckets: map<string, Bucket>, r: Request)
    requires cfg.maxRequests > 0 && cfg.window > 0 && r.key !in buckets
    ensures Admits(cfg, buckets, r)
  {
  }

  // --- Refinement: a limiter that ticks --------------------------------------

  /** The reference bucket: created full at `born`, it gains one token, capped,
      at each tick born + k * interval; `ticks` of them have passed. */
  datatype Ticking = Ticking(tokens: int, born: int, ticks: nat)

  function Tick(cfg: Config, b: Ticking): Ticking {
    Ticking(Min(b.tokens + 1, cfg.maxRequests), b.born, b.ticks + 1)
  }

  /** All ticks due at or before `now`, one at a time. */
  function RunTicks(cfg: Config, b: Ticking, now: int): Ticking
    requires Open(cfg)
    decreases now - b.born - Interval(cfg) * b.ticks
  {
    if b.born + Interval(cfg) * (b.ticks + 1) <= now then
      MulStep(Interval(cfg), b.ticks);
      RunTicks(cfg, Tick(cfg, b), now)
    else b
  }

  lemma MulStep(i: int, n: int)
    ensures i * (n + 1) == i * n + i
  {
  }

  function TickingFetched(cfg: Config, buckets: map<string, Ticking>, key: string, now: int): Ticking
    requires Open(cfg)
  {
    if key in buckets then RunTicks(cfg, buckets[key], now) else Ticking(cfg.maxRequests, now, 0)
  }

  function TickingTake(b: Ticking): Ticking {
    if b.tokens > 0 then b.(tokens := b.tokens - 1) else b
  }

  function TickingVerdicts(cfg: Config, buckets: map<string, Ticking>, run: seq<Request>): (v: seq<bool>)
    requires Open(cfg)
    ensures |v| == |run|
    decreases |run|
  {
    if run == [] then []
    else
      var b := TickingFetched(cfg, buckets, run[0].key, run[0].at);
      [b.tokens > 0] + TickingVerdicts(cfg, buckets[run[0].key := TickingTake(b)], run[1..])
  }

  ghost predicate SameBucket(cfg: Config, lazy: Bucket, tick: Ticking)
    requires Open(cfg)
  {
    lazy.tokens == tick.tokens && lazy.lastRefill == tick.born + Interval(cfg) * tick.ticks
  }

  lemma {:induction false} RefillIsTicks(cfg: Config, lazy: Bucket, tick: Ticking, now: int)
    requires Open(cfg) && BucketOk(cfg, lazy, now) && SameBucket(cfg, lazy, tick)
    ensures SameBucket(cfg, Refill(cfg, lazy, now), RunTicks(cfg, tick, now))
    decreases now - lazy.lastRefill
  {
    var i := Interval(cfg);
    RefillFacts(cfg, lazy, now);
    MulStep(i, tick.ticks);
    var e := now - lazy.lastRefill;
    if lazy.lastRefill + i <= now {
      var one := Bucket(Min(lazy.tokens + 1, cfg.maxRequests), lazy.lastRefill + i);
      RefillIsTicks(cfg, one, Tick(cfg, tick), now);
      RefillFacts(cfg, one, now);
      assert i * 1 == i;
      DivStep(e, i, 1);
      assert Refill(cfg, lazy, now) == Refill(cfg, one, now) by {
        MulStep(i, e / i - 1);
      }
    } else {
      DivUnique(e, i, 0, e);
    }
  }

  ghost predicate SameBuckets(cfg: Config, lazy: map<string, Bucket>, ticking: map<string, Ticking>)
    requires Open(cfg)
  {
    lazy.Keys == ticking.Keys && forall k :: k in lazy ==> SameBucket(cfg, lazy[k], ticking[k])
  }

  lemma {:induction false} RefinesFrom(cfg: Config, lazy: map<string, Bucket>, ticking: map<string, Ticking>, run: seq<Request>, now: int)
    requires Open(cfg) && BucketsOk(cfg, lazy, now) && StartsAt(run, now) && SameBuckets(cfg, lazy, ticking)
    ensures Verdicts(cfg, lazy, run) == TickingVerdicts(cfg, ticking, run)
    decreases |run|
  {
    if run != [] {
      var r := run[0];
      if r.key in lazy {
        RefillIsTicks(cfg, lazy[r.key], ticking[r.key], r.at);
      }
      var b := TickingFetched(cfg, ticking, r.key, r.at);
      assert SameBucket(cfg, Fetched(cfg, lazy, r.key, r.at), b);
      AfterOk(cfg, lazy, r, r.at);
      TailStarts(run);
      RefinesFrom(cfg, After(cfg, lazy, r), ticking[r.key := TickingTake(b)], run[1..], r.at);
    }
  }

  /** Lazy refill refines the ticking limiter: over every run with a clock that
      never goes back, both give every request the same verdict. */
  lemma LazyRefinesTicking(cfg: Config, run: seq<Request>)
    requires cfg.maxRequests > 0 && cfg.window > 0 && ClockMonotone(run)
    ensures Verdicts(cfg, map[], run) == TickingVerdicts(cfg, map[], run)
  {
    RefinesFrom(cfg, map[], map[], run, if run == [] then 0 else run[0].at);
  }
}
