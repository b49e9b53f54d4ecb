// The token bucket of src/infra/rate-limiter.ts, over reals. Every iteration of every
// waiter's `acquire` loop is one attempt, so a sequence of attempts is an interleaving.
module RateLimiter {
  import opened Options

  datatype Config = Config(maxTokens: real, refillRate: real)

  datatype Bucket = Bucket(tokens: real, lastRefill: int)

  datatype Outcome = Granted | Sleep(waitMs: int)

  predicate Sound(c: Config) {
    c.maxTokens >= 0.0 && c.refillRate > 0.0
  }

  predicate InRange(b: Bucket, c: Config) {
    0.0 <= b.tokens <= c.maxTokens
  }

  function Min(x: real, y: real): real {
    if x <= y then x else y
  }

  function Ceil(x: real): (n: int)
    ensures x <= n as real < x + 1.0
  {
    -((-x).Floor)
  }

  /** Tokens that come in over a time in milliseconds. */
  function Accrued(c: Config, ms: int): real {
    ms as real / 1000.0 * c.refillRate
  }

  function Refill(b: Bucket, c: Config, now: int): Bucket {
    Bucket(Min(c.maxTokens, b.tokens + Accrued(c, now - b.lastRefill)), now)
  }

  /** One iteration of the loop in `acquire`. */
  function Attempt(b: Bucket, c: Config, now: int): (Bucket, Outcome)
    requires Sound(c)
  {
    var r := Refill(b, c, now);
    if r.tokens >= 1.0 then (r.(tokens := r.tokens - 1.0), Granted)
    else (r, Sleep(Ceil((1.0 - r.tokens) / c.refillRate * 1000.0)))
  }

  class TokenBucket {
    const config: Config
    var tokens: real
    var lastRefill: int

    ghost function Value(): Bucket
      reads this
    {
      Bucket(tokens, lastRefill)
    }

    constructor (config: Config, now: int)
      ensures this.config == config && Value() == Bucket(config.maxTokens, now)
    {
      this.config := config;
      tokens, lastRefill := config.maxTokens, now;
    }

    method RefillNow(now: int)
      modifies this
      ensures Value() == Refill(old(Value()), config, now)
    {
      var elapsed := (now - lastRefill) as real / 1000.0;
      tokens := Min(config.maxTokens, tokens + elapsed * config.refillRate);
      lastRefill := now;
    }

    method TryTake(now: int) returns (outcome: Outcome)
      requires Sound(config)
      modifies this
      ensures (Value(), outcome) == Attempt(old(Value()), config, now)
    {
      RefillNow(now);
      if tokens >= 1.0 {
        tokens := tokens - 1.0;
        return Granted;
      }
      var waitMs := (1.0 - tokens) / config.refillRate * 1000.0;
      return Sleep(Ceil(waitMs));
    }
  }

  class Limiter {
    var buckets: map<string, TokenBucket>

    constructor ()
      ensures buckets == map[]
    {
      buckets := map[];
    }

    /** A reconfigured provider starts over with a full bucket. */
    method Configure(provider: string, maxTokens: real, refillRate: real, now: int)
      modifies this
      ensures provider in buckets && fresh(buckets[provider])
      ensures buckets == old(buckets)[provider := buckets[provider]]
      ensures buckets[provider].config == Config(maxTokens, refillRate)
      ensures buckets[provider].Value() == Bucket(maxTokens, now)
    {
      var bucket := new TokenBucket(Config(maxTokens, refillRate), now);
      buckets := buckets[provider := bucket];
    }

    /** `acquire` with nobody else at the bucket; `delays[i]` is how late the i-th timer fires. */
    method Acquire(provider: string, now: int, delays: seq<nat>) returns (sleeps: nat, grantedAt: int)
      requires provider in buckets ==> Sound(buckets[provider].config) && buckets[provider].config.maxTokens >= 1.0
      modifies if provider in buckets then {buckets[provider]} else {}
      ensures sleeps <= 1 && now <= grantedAt
      ensures provider !in buckets ==> sleeps == 0 && grantedAt == now
      ensures provider in buckets ==>
                var (b, outcome) := Attempt(old(buckets[provider].Value()), buckets[provider].config, now);
                if outcome.Granted? then sleeps == 0 && grantedAt == now && buckets[provider].Value() == b
                else
                  sleeps == 1 && grantedAt == now + outcome.waitMs + (if delays == [] then 0 else delays[0]) &&
                  (buckets[provider].Value(), Granted) == Attempt(b, buckets[provider].config, grantedAt)
    {
      sleeps, grantedAt := 0, now;
      if provider !in buckets {
        return;
      }
      var bucket := buckets[provider];
      ghost var start := bucket.Value();
      while true
        invariant bucket == buckets[provider] && sleeps <= 1 && now <= grantedAt
        invariant sleeps == 0 ==> bucket.Value() == start && grantedAt == now
        invariant sleeps == 1 ==>
                    var (b, outcome) := Attempt(start, bucket.config, now);
                    bucket.Value() == b && outcome.Sleep? &&
                    grantedAt == now + outcome.waitMs + if delays == [] then 0 else delays[0]
        decreases 1 - sleeps
      {
        if sleeps == 1 {
          SleepIsForward(bucket.Value(), bucket.config);
          OneSleepIsEnough(start, bucket.config, now, grantedAt);
        }
        var outcome := bucket.TryTake(grantedAt);
        if outcome.Granted? {
          return;
        }
        SleepIsForward(bucket.Value(), bucket.config);
        grantedAt := grantedAt + outcome.waitMs + if sleeps < |delays| then delays[sleeps] else 0;
        sleeps := sleeps + 1;
      }
    }
  }

  lemma AccruedAdds(c: Config, x: int, y: int)
    ensures Accrued(c, x + y) == Accrued(c, x) + Accrued(c, y)
  {
    var r := c.refillRate;
    assert (x + y) as real / 1000.0 == x as real / 1000.0 + y as real / 1000.0;
    assert (x as real / 1000.0 + y as real / 1000.0) * r == x as real / 1000.0 * r + y as real / 1000.0 * r;
  }

  lemma AccruedGrows(c: Config, x: int, y: int)
    requires Sound(c) && x <= y
    ensures Accrued(c, x) <= Accrued(c, y)
  {
    assert (y - x) as real / 1000.0 >= 0.0;
    assert Accrued(c, y - x) >= 0.0;
    AccruedAdds(c, x, y - x);
  }

  lemma SleepIsForward(b: Bucket, c: Config)
    requires Sound(c) && b.tokens < 1.0
    ensures Ceil((1.0 - b.tokens) / c.refillRate * 1000.0) >= 0
  {
    assert (1.0 - b.tokens) / c.refillRate >= 0.0;
  }

  /** The computed sleep is long enough for the missing part of a token. */
  lemma SleepAccruesAToken(tokens: real, c: Config, ms: int)
    requires Sound(c) && ms as real >= (1.0 - tokens) / c.refillRate * 1000.0
    ensures tokens + Accrued(c, ms) >= 1.0
  {
    var need := (1.0 - tokens) / c.refillRate;
    assert need * c.refillRate == 1.0 - tokens;
    assert ms as real / 1000.0 >= need;
    assert ms as real / 1000.0 * c.refillRate >= need * c.refillRate;
  }

  /** No shorter sleep in whole milliseconds is. */
  lemma SleepIsShortest(tokens: real, c: Config, ms: int)
    requires Sound(c) && tokens + Accrued(c, ms) >= 1.0
    ensures ms >= Ceil((1.0 - tokens) / c.refillRate * 1000.0)
  {
    var need, slept := (1.0 - tokens) / c.refillRate, ms as real / 1000.0;
    assert need * c.refillRate == 1.0 - tokens;
    assert slept < need ==> slept * c.refillRate < need * c.refillRate;
    assert need * 1000.0 <= ms as real;
  }

  /** A waiter that nobody overtakes is granted exactly from the end of the computed sleep on, if the
      bucket can hold a whole token; otherwise it waits forever. */
  lemma OneSleepIsEnough(b: Bucket, c: Config, now: int, later: int)
    requires Sound(c) && now <= later && Attempt(b, c, now).1.Sleep?
    ensures var (r, outcome) := Attempt(b, c, now);
            Attempt(r, c, later).1.Granted? <==> c.maxTokens >= 1.0 && later >= now + outcome.waitMs
  {
    var (r, outcome) := Attempt(b, c, now);
    if later >= now + outcome.waitMs {
      SleepAccruesAToken(r.tokens, c, later - now);
    } else if r.tokens + Accrued(c, later - now) >= 1.0 {
      SleepIsShortest(r.tokens, c, later - now);
    }
  }

  // ---------------------------------------------------------------- runs

  ghost predicate Monotone(start: int, times: seq<int>) {
    && (forall i :: 0 <= i < |times| ==> start <= times[i])
    && (forall i, j :: 0 <= i < j < |times| ==> times[i] <= times[j])
  }

  /** The bucket after a run of attempts, and how many were granted. */
  function Run(b: Bucket, c: Config, times: seq<int>): (r: (Bucket, nat))
    requires Sound(c)
    decreases |times|
  {
    if times == [] then (b, 0)
    else
      var (next, outcome) := Attempt(b, c, times[0]);
      var (last, grants) := Run(next, c, times[1..]);
      (last, grants + if outcome.Granted? then 1 else 0)
  }

  /** A bucket that cannot hold a token grants nothing, however often and late it is asked: the loop
      of its waiters never ends. */
  lemma {:induction false} SmallBucketGrantsNothing(b: Bucket, c: Config, times: seq<int>)
    requires Sound(c) && c.maxTokens < 1.0
    ensures Run(b, c, times).1 == 0
    decreases |times|
  {
    if times != [] {
      SmallBucketGrantsNothing(Attempt(b, c, times[0]).0, c, times[1..]);
    }
  }

  lemma AttemptStaysInRange(b: Bucket, c: Config, now: int)
    requires Sound(c) && InRange(b, c) && b.lastRefill <= now
    ensures InRange(Attempt(b, c, now).0, c)
  {
    AccruedGrows(c, 0, now - b.lastRefill);
  }

  /** Tokens are conserved: grants are paid from the tokens held and those that came in. */
  lemma {:induction false} GrantsArePaid(b: Bucket, c: Config, times: seq<int>, until: int)
    requires Sound(c) && InRange(b, c) && Monotone(b.lastRefill, times)
    requires b.lastRefill <= until && forall i :: 0 <= i < |times| ==> times[i] <= until
    ensures var (last, grants) := Run(b, c, times);
            InRange(last, c) && grants as real + last.tokens <= b.tokens + Accrued(c, until - b.lastRefill)
    decreases |times|
  {
    if times == [] {
      AccruedGrows(c, 0, until - b.lastRefill);
    } else {
      var next := Attempt(b, c, times[0]).0;
      AttemptStaysInRange(b, c, times[0]);
      AccruedAdds(c, times[0] - b.lastRefill, until - times[0]);
      hide Accrued;
      GrantsArePaid(next, c, times[1..], until);
    }
  }

  /** In any window of time the waiters together get at most the bucket's capacity plus what
      comes in during the window. */
  lemma WindowBound(b: Bucket, c: Config, times: seq<int>, i: nat, j: nat, from: int, until: int)
    requires Sound(c) && InRange(b, c) && Monotone(b.lastRefill, times)
    requires i <= j <= |times| && from <= until && forall k :: i <= k < j ==> from <= times[k] <= until
    ensures var before := Run(b, c, times[..i]).0;
            InRange(before, c) &&
            Run(before, c, times[i..j]).1 as real <= c.maxTokens + Accrued(c, until - from)
  {
    hide Accrued, Attempt, Run, InRange;
    var before := Run(b, c, times[..i]).0;
    var last := if i == 0 then b.lastRefill else times[i - 1];
    GrantsArePaid(b, c, times[..i], last);
    RunEndsAt(b, c, times[..i]);
    var window := times[i..j];
    if window == [] {
      NothingAccrues(before, c);
      AccruedGrows(c, 0, until - from);
    } else {
      AccruedGrows(c, until - window[0], until - from);
      WindowFromFirst(before, c, window, until);
    }
  }

  /** A window that starts with its first attempt; what came in before counts as held. */
  lemma WindowFromFirst(before: Bucket, c: Config, window: seq<int>, until: int)
    requires Sound(c) && InRange(before, c) && window != [] && Monotone(before.lastRefill, window)
    requires forall k :: 0 <= k < |window| ==> window[k] <= until
    ensures Run(before, c, window).1 as real <= c.maxTokens + Accrued(c, until - window[0])
  {
    hide Accrued, Attempt, Refill;
    var first := Refill(before, c, window[0]);
    RefillTwice(before, c, window[0]);
    SameRun(before, first, c, window);
    GrantsArePaid(first, c, window, until);
  }

  lemma SameRun(a: Bucket, b: Bucket, c: Config, times: seq<int>)
    requires Sound(c) && times != [] && Attempt(a, c, times[0]) == Attempt(b, c, times[0])
    ensures Run(a, c, times) == Run(b, c, times)
  {
    hide Attempt;
  }

  lemma NothingAccrues(b: Bucket, c: Config)
    requires Sound(c)
    ensures Accrued(c, 0) == 0.0 && Run(b, c, []).1 == 0
  {
  }

  lemma RefillTwice(b: Bucket, c: Config, now: int)
    requires Sound(c) && InRange(b, c) && b.lastRefill <= now
    ensures var first := Refill(b, c, now);
            first.lastRefill == now && InRange(first, c) && Attempt(first, c, now) == Attempt(b, c, now)
  {
    AccruedGrows(c, 0, now - b.lastRefill);
  }

  lemma {:induction false} RunEndsAt(b: Bucket, c: Config, times: seq<int>)
    requires Sound(c)
    ensures Run(b, c, times).0.lastRefill == if times == [] then b.lastRefill else times[|times| - 1]
    decreases |times|
  {
    if times != [] {
      RunEndsAt(Attempt(b, c, times[0]).0, c, times[1..]);
    }
  }

  // ---------------------------------------------------------------- no token is lost

  /** The window from attempt i until now has room for so many tokens more. */
  ghost predicate HasRoom(b: Bucket, c: Config, times: seq<int>, i: nat, now: int, more: real)
    requires Sound(c) && i < |times|
  {
    var before := Run(b, c, times[..i]).0;
    Run(before, c, times[i..]).1 as real + more <= c.maxTokens + Accrued(c, now - times[i])
  }

  /** All windows have room, the one from the very start with what the bucket held then. */
  ghost predicate AllHaveRoom(b: Bucket, c: Config, times: seq<int>, now: int, more: real)
    requires Sound(c)
  {
    && more <= c.maxTokens
    && Run(b, c, times).1 as real + more <= b.tokens + Accrued(c, now - b.lastRefill)
    && forall i :: 0 <= i < |times| ==> HasRoom(b, c, times, i, now, more)
  }

  lemma RoomOfTail(b: Bucket, c: Config, times: seq<int>, i: nat, now: int, more: real)
    requires Sound(c) && 0 < i < |times|
    ensures HasRoom(b, c, times, i, now, more)
            <==> HasRoom(Attempt(b, c, times[0]).0, c, times[1..], i - 1, now, more)
  {
    hide Attempt, Accrued;
    var tail := times[1..];
    assert times[..i][0] == times[0] && times[..i][1..] == tail[..i - 1];
    assert times[i..] == tail[i - 1..];
  }

  lemma RoomOfFirst(b: Bucket, c: Config, times: seq<int>, now: int, more: real)
    requires Sound(c) && times != [] && b.lastRefill <= times[0] <= now
    ensures var next, grants := Attempt(b, c, times[0]).0, Run(Attempt(b, c, times[0]).0, c, times[1..]).1;
            grants as real + more <= next.tokens + Accrued(c, now - times[0])
            <==> HasRoom(b, c, times, 0, now, more) &&
                 Run(b, c, times).1 as real + more <= b.tokens + Accrued(c, now - b.lastRefill)
  {
    assert times[..0] == [] && times[0..] == times;
    AccruedAdds(c, times[0] - b.lastRefill, now - times[0]);
    hide Accrued;
  }

  lemma {:induction false} LevelIsRoom(b: Bucket, c: Config, times: seq<int>, now: int, more: real)
    requires Sound(c) && InRange(b, c) && Monotone(b.lastRefill, times + [now])
    ensures Refill(Run(b, c, times).0, c, now).tokens >= more <==> AllHaveRoom(b, c, times, now, more)
    decreases |times|
  {
    hide Accrued, HasRoom, InRange;
    if times != [] {
      var next, tail := Attempt(b, c, times[0]).0, times[1..];
      MonotoneTail(b.lastRefill, times, now);
      AttemptStaysInRange(b, c, times[0]);
      LevelIsRoom(next, c, tail, now, more);
      RoomOfFirst(b, c, times, now, more);
      forall i | 0 <= i < |tail|
        ensures HasRoom(b, c, times, i + 1, now, more) <==> HasRoom(next, c, tail, i, now, more)
      {
        RoomOfTail(b, c, times, i + 1, now, more);
      }
      if AllHaveRoom(next, c, tail, now, more) && HasRoom(b, c, times, 0, now, more) {
        forall i | 0 <= i < |times| ensures HasRoom(b, c, times, i, now, more) {
          assert i > 0 ==> HasRoom(next, c, tail, i - 1, now, more);
        }
      }
    }
  }

  lemma MonotoneTail(start: int, times: seq<int>, now: int)
    requires times != [] && Monotone(start, times + [now])
    ensures start <= times[0] <= now && Monotone(times[0], times[1..] + [now])
  {
    var all, rest := times + [now], times[1..] + [now];
    assert all[0] == times[0] && all[|times|] == now;
    assert forall i :: 0 <= i < |rest| ==> rest[i] == all[i + 1];
  }

  /** No token is lost: an attempt is granted exactly if its token fits the bound of every window, from
      each earlier attempt and from the start. It is refused only where a bound would be broken. */
  lemma GrantedIfItFits(b: Bucket, c: Config, times: seq<int>, now: int)
    requires Sound(c) && InRange(b, c) && Monotone(b.lastRefill, times + [now])
    ensures Attempt(Run(b, c, times).0, c, now).1.Granted? <==> AllHaveRoom(b, c, times, now, 1.0)
  {
    LevelIsRoom(b, c, times, now, 1.0);
    hide Run, AllHaveRoom;
  }
}
