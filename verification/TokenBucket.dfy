/**
 The two token buckets (internal/connectors/ratelimit.go, internal/simulator/rate.go) in exact
 arithmetic: seconds and tokens are reals, and the clock reading of each call is an argument.
 */
module TokenBucket {

  datatype Bucket = Bucket(capacity: real, rate: real, tokens: real, last: real)

  ghost predicate Valid(b: Bucket) {
    0.0 <= b.tokens <= b.capacity && b.rate >= 0.0
  }

  function MinReal(x: real, y: real): real {
    if x <= y then x else y
  }

  function Refilled(b: Bucket, now: real): Bucket {
    b.(tokens := MinReal(b.capacity, b.tokens + (now - b.last) * b.rate), last := now)
  }

  predicate Grants(b: Bucket, n: real, now: real) {
    Refilled(b, now).tokens >= n
  }

  function Taken(b: Bucket, n: real, now: real): Bucket {
    var r := Refilled(b, now);
    if r.tokens >= n then r.(tokens := r.tokens - n) else r
  }

  const NANOS: real := 1_000_000_000.0

  // A duration of so many seconds in whole nanoseconds, cut off.
  function Nanos(seconds: real): int {
    (seconds * NANOS).Floor
  }

  // ---- The limiters -----------------------------------------------------------------------------------------

  class Limiter {
    var rate: real
    var capacity: real
    var tokens: real
    var last: real

    ghost function Now(): Bucket
      reads this
    {
      Bucket(capacity, rate, tokens, last)
    }

    method Take(n: real, now: real) returns (ok: bool, wait: int)
      requires rate > 0.0
      modifies this`tokens, this`last
      ensures ok == Grants(old(Now()), n, now) && Now() == Taken(old(Now()), n, now)
      ensures wait == if ok then 0 else Nanos((n - Refilled(old(Now()), now).tokens) / rate)
    {
      tokens := MinReal(capacity, tokens + (now - last) * rate);
      last := now;
      if tokens >= n {
        tokens := tokens - n;
        return true, 0;
      }
      var need := n - tokens;
      return false, Nanos(need / rate);
    }
  }

  class RateLimiter {
    var capacity: real
    var tokens: real
    var refillPer: real
    var last: real

    ghost function Now(): Bucket
      reads this
    {
      Bucket(capacity, refillPer, tokens, last)
    }

    constructor (perMinute: int, now: real)
      requires perMinute > 0
      ensures Now() == Bucket(perMinute as real, perMinute as real / 60.0, perMinute as real, now) && Valid(Now())
    {
      capacity, tokens, refillPer, last := perMinute as real, perMinute as real, perMinute as real / 60.0, now;
    }

    // Decides and ends up exactly as Take(1) would, as long as the clock does not run backwards.
    method Allow(now: real) returns (ok: bool, wait: int)
      requires Valid(Now()) && refillPer > 0.0 && now >= last
      modifies this`tokens, this`last
      ensures ok == Grants(old(Now()), 1.0, now) && Now() == Taken(old(Now()), 1.0, now)
      ensures wait == if ok then 0 else Nanos((1.0 - Refilled(old(Now()), now).tokens) / refillPer)
    {
      var elapsed := now - last;
      if elapsed > 0.0 {
        tokens := tokens + elapsed * refillPer;
        if tokens > capacity { tokens := capacity; }
        last := now;
      }
      assert Now() == Refilled(old(Now()), now);
      if tokens >= 1.0 {
        tokens := tokens - 1.0;
        return true, 0;
      }
      wait := Nanos((1.0 - tokens) / refillPer);
      ok := false;
    }

    method SetCapacity(perMinute: int)
      requires Valid(Now())
      modifies this`capacity, this`tokens, this`refillPer
      ensures Valid(Now())
      ensures perMinute <= 0 ==> Now() == old(Now())
      ensures perMinute > 0 ==>
                Now() == Bucket(perMinute as real, perMinute as real / 60.0, MinReal(old(tokens), perMinute as real),
                                last)
    {
      if perMinute > 0 {
        capacity := perMinute as real;
        refillPer := perMinute as real / 60.0;
        if tokens > capacity { tokens := capacity; }
      }
    }
  }

  // ---- Runs ---------------------------------------------------------------------------------------------------

  datatype Call = Call(n: real, now: real)
  datatype Served = Served(bucket: Bucket, granted: real)

  function Serve(b: Bucket, c: Call): Served {
    Served(Taken(b, c.n, c.now), if Grants(b, c.n, c.now) then c.n else 0.0)
  }

  // The bucket after a run of calls, and what they were granted altogether.
  ghost function Run(serve: (Bucket, Call) -> Served, b: Bucket, calls: seq<Call>): Served
    decreases |calls|
  {
    if calls == [] then Served(b, 0.0)
    else
      var first := serve(b, calls[0]);
      var rest := Run(serve, first.bucket, calls[1..]);
      Served(rest.bucket, first.granted + rest.granted)
  }

  // Requests are not negative and the clock does not run backwards.
  ghost predicate Ordered(last: real, calls: seq<Call>) {
    && (forall i :: 0 <= i < |calls| ==> calls[i].n >= 0.0 && calls[i].now >= last)
    && (forall i, j :: 0 <= i < j < |calls| ==> calls[i].now <= calls[j].now)
  }

  // The calls can go on from this bucket, which still has its rate and capacity.
  ghost predicate Ready(rate: real, capacity: real, b: Bucket, calls: seq<Call>) {
    Valid(b) && b.rate == rate && b.capacity == capacity && Ordered(b.last, calls)
  }

  // Tokens above the line the refill draws.
  ghost function Level(rate: real, b: Bucket): real {
    b.tokens - b.last * rate
  }

  lemma Product(x: real, y: real)
    requires x >= 0.0 && y >= 0.0
    ensures x * y >= 0.0
  {
  }

  lemma RefillKeepsBounds(b: Bucket, now: real)
    requires Valid(b) && now >= b.last
    ensures var r := Refilled(b, now);
            Valid(r) && r.capacity == b.capacity && r.rate == b.rate && r.last == now &&
                Level(b.rate, r) <= Level(b.rate, b)
  {
    Product(now - b.last, b.rate);
    assert (now - b.last) * b.rate == now * b.rate - b.last * b.rate;
  }

  // One call: what is granted comes out of the level.
  lemma ServeKeeps(rate: real, capacity: real, b: Bucket, calls: seq<Call>)
    requires Ready(rate, capacity, b, calls) && calls != []
    ensures Ready(rate, capacity, Serve(b, calls[0]).bucket, calls[1..])
    ensures Serve(b, calls[0]).granted + Level(rate, Serve(b, calls[0]).bucket) <= Level(rate, b)
  {
    RefillKeepsBounds(b, calls[0].now);
    assert forall i :: 0 <= i < |calls[1..]| ==> calls[1..][i] == calls[i + 1];
  }

  // What every call keeps, and takes out of the level, the run keeps and takes out.
  lemma {:induction false} Telescopes(serve: (Bucket, Call) -> Served, ready: (Bucket, seq<Call>) -> bool,
                                      level: Bucket -> real, b: Bucket, calls: seq<Call>)
    requires ready(b, calls)
    requires forall x, cs ::
               ready(x, cs) && cs != [] ==>
                 ready(serve(x, cs[0]).bucket, cs[1..]) &&
                     serve(x, cs[0]).granted + level(serve(x, cs[0]).bucket) <= level(x)
    ensures var end := Run(serve, b, calls); ready(end.bucket, []) && end.granted + level(end.bucket) <= level(b)
    decreases |calls|
  {
    if calls != [] { Telescopes(serve, ready, level, serve(b, calls[0]).bucket, calls[1..]); }
  }

  // Tokens are conserved: granted plus left never exceeds what was there plus the refill.
  lemma NothingFromNothing(b: Bucket, calls: seq<Call>)
    requires Valid(b) && Ordered(b.last, calls)
    ensures var end := Run(Serve, b, calls);
            && Valid(end.bucket) && end.bucket.capacity == b.capacity && end.bucket.rate == b.rate
            && end.granted + Level(b.rate, end.bucket) <= Level(b.rate, b)
  {
    var ready := (x, cs) => Ready(b.rate, b.capacity, x, cs);
    var level := x => Level(b.rate, x);
    forall x, cs | ready(x, cs) && cs != []
      ensures ready(Serve(x, cs[0]).bucket, cs[1..]) &&
              Serve(x, cs[0]).granted + level(Serve(x, cs[0]).bucket) <= level(x)
    {
      ServeKeeps(b.rate, b.capacity, x, cs);
    }
    Telescopes(Serve, ready, level, b, calls);
  }

  lemma {:induction false} LastIsLast(b: Bucket, calls: seq<Call>)
    requires calls != []
    ensures Run(Serve, b, calls).bucket.last == calls[|calls| - 1].now
    decreases |calls|
  {
    if |calls| > 1 { LastIsLast(Serve(b, calls[0]).bucket, calls[1..]); }
  }

  // Refilling twice at the same time is refilling once.
  lemma RefillFirst(b: Bucket, c: Call)
    requires Valid(b) && c.now >= b.last
    ensures Serve(Refilled(b, c.now), c) == Serve(b, c)
  {
    RefillKeepsBounds(b, c.now);
    var r := Refilled(b, c.now);
    assert (c.now - r.last) * r.rate == 0.0;
  }

  // What the level says about a run between two clock readings.
  lemma SpentBetween(r: Bucket, e: Bucket, granted: real, capacity: real, rate: real, first: real, last: real)
    requires r.last == first && e.last == last && r.tokens <= capacity && e.tokens >= 0.0
    requires granted + Level(rate, e) <= Level(rate, r)
    ensures granted <= capacity + (last - first) * rate
  {
    assert Level(rate, r) == r.tokens - first * rate && Level(rate, e) == e.tokens - last * rate;
    assert (last - first) * rate == last * rate - first * rate;
  }

  // A full bucket and the refill from first to last.
  ghost function Allowance(capacity: real, rate: real, first: real, last: real): real {
    capacity + (last - first) * rate
  }

  // The window starts with at most a full bucket.
  lemma WindowFrom(b: Bucket, window: seq<Call>, capacity: real, rate: real, first: real, last: real, granted: real)
    requires Ready(rate, capacity, b, window) && granted == Run(Serve, b, window).granted
    requires window != [] && window[0].now == first && window[|window| - 1].now == last
    ensures granted <= Allowance(capacity, rate, first, last)
  {
    var r, end := Refilled(b, first), Run(Serve, b, window);
    RefillKeepsBounds(b, first);
    FromRefilled(b, r, window, end);
    SpentBetween(r, end.bucket, end.granted, capacity, rate, first, last);
  }

  lemma FromRefilled(b: Bucket, r: Bucket, window: seq<Call>, end: Served)
    requires Valid(b) && window != [] && Ordered(b.last, window) && r == Refilled(b, window[0].now) &&
             end == Run(Serve, b, window)
    ensures Valid(end.bucket) && end.bucket.last == window[|window| - 1].now &&
            end.granted + Level(b.rate, end.bucket) <= Level(b.rate, r)
  {
    RefillKeepsBounds(b, window[0].now);
    RefillFirst(b, window[0]);
    assert Run(Serve, r, window) == end;
    NothingFromNothing(r, window);
    LastIsLast(r, window);
  }

  lemma OrderedSlice(last: real, calls: seq<Call>, i: nat, j: nat)
    requires Ordered(last, calls) && i <= j <= |calls|
    ensures Ordered(last, calls[..i]) && Ordered(if i == 0 then last else calls[i - 1].now, calls[i..j])
  {
    forall k | 0 <= k < j - i
      ensures calls[i..j][k] == calls[i + k] && (i > 0 ==> calls[i - 1].now <= calls[i + k].now)
    {
    }
  }

  lemma WindowReady(b: Bucket, calls: seq<Call>, i: nat, j: nat)
    requires Valid(b) && Ordered(b.last, calls) && i <= j <= |calls|
    ensures Ready(b.rate, b.capacity, Run(Serve, b, calls[..i]).bucket, calls[i..j])
  {
    OrderedSlice(b.last, calls, i, j);
    NothingFromNothing(b, calls[..i]);
    if i > 0 { LastIsLast(b, calls[..i]); }
  }

  // In every window of every run, at most a full bucket and the refill of the window are granted.
  lemma WindowBound(b: Bucket, calls: seq<Call>, i: nat, j: nat)
    requires Valid(b) && Ordered(b.last, calls) && i < j <= |calls|
    ensures Run(Serve, Run(Serve, b, calls[..i]).bucket, calls[i..j]).granted <= Allowance(b.capacity, b.rate,
            calls[i].now, calls[j - 1].now)
  {
    var c := Run(Serve, b, calls[..i]).bucket;
    WindowReady(b, calls, i, j);
    WindowFrom(c, calls[i..j], b.capacity, b.rate, calls[i].now, calls[j - 1].now, Run(Serve, c, calls[i..j]).granted);
  }

  // ---- Waiting ------------------------------------------------------------------------------------------------

  // After a refusal, with nobody else taking, the next try is granted if and only if the refill has had
  // its time, for requests the bucket can hold.
  lemma RefillTime(b: Bucket, n: real, now: real, later: real)
    requires Valid(b) && b.rate > 0.0 && now >= b.last && later >= now && n <= b.capacity && !Grants(b, n, now)
    ensures var wait := (n - Refilled(b, now).tokens) / b.rate;
            wait > 0.0 && (Grants(Taken(b, n, now), n, later) <==> later - now >= wait)
  {
    var r := Refilled(b, now);
    var wait := (n - r.tokens) / b.rate;
    assert wait * b.rate == n - r.tokens;
    Times(later - now, wait, b.rate);
  }

  // The wait returned is cut off to nanoseconds. A try after fewer nanoseconds is refused, one after more is granted,
  // and one after exactly so many is granted if and only if nothing was cut off.
  lemma WaitIsExact(b: Bucket, n: real, now: real, after: nat)
    requires Valid(b) && b.rate > 0.0 && now >= b.last && n <= b.capacity && !Grants(b, n, now)
    ensures var seconds := (n - Refilled(b, now).tokens) / b.rate;
            var wait := Nanos(seconds);
            && wait >= 0
            && (Grants(Taken(b, n, now), n, now + after as real / NANOS) <==>
                after > wait || (after == wait && wait as real == seconds * NANOS))
  {
    var seconds := (n - Refilled(b, now).tokens) / b.rate;
    var later := now + after as real / NANOS;
    RefillTime(b, n, now, later);
    Product(seconds, NANOS);
    Times(after as real / NANOS, seconds, NANOS);
    assert after as real / NANOS * NANOS == after as real;
  }

  lemma Times(x: real, y: real, r: real)
    requires r > 0.0
    ensures x * r >= y * r <==> x >= y
  {
    if x >= y { Product(x - y, r); } else { assert (y - x) * r > 0.0; }
  }

  // A request larger than the bucket is refused whenever it is made.
  lemma TooLargeIsNeverGranted(b: Bucket, n: real, now: real)
    requires n > b.capacity
    ensures !Grants(b, n, now)
  {
  }
}
