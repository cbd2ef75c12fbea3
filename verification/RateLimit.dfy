/**
 The shared NVD rate limiter (app/workers/rate_limit.py).

 One token bucket per API key lives in Redis. `TokenBucket` is the pure arithmetic, `RedisBucket.RunScript`
 is the Lua script that applies it in one atomic step, and `RedisRateLimiter.Acquire` blocks on that script.
 Workers read their own clocks, so the `now` values of a run are arbitrary: they may jump backwards.
 */
module RateLimit {
  import opened Wrappers

  /** The two constants of a bucket; both are real, so that refilling does not round. */
  datatype BucketSpec = BucketSpec(capacity: real, refillPerSec: real)
  {
    predicate Valid() {
      0.0 <= capacity && 0.0 <= refillPerSec
    }

    /** What `elapsed` seconds refill. */
    function Gain(elapsed: real): real {
      elapsed * refillPerSec
    }

    /** How long `deficit` takes to refill; -1 when it never does. */
    function Wait(deficit: real): real {
      if refillPerSec > 0.0 then deficit / refillPerSec else -1.0
    }
  }

  function FromWindow(perWindow: nat, windowSeconds: real): BucketSpec {
    var rate := if windowSeconds > 0.0 then perWindow as real / windowSeconds else 0.0;
    BucketSpec(perWindow as real, rate)
  }

  datatype Decision = Decision(allowed: bool, tokens: real, retryAfter: real)

  function Min(x: real, y: real): real {
    if x <= y then x else y
  }

  /** The reference form: functions of the tokens and the two times they are given. */
  datatype TokenBucket = TokenBucket(spec: BucketSpec)
  {
    function Replenish(tokens: real, lastTs: real, now: real): real {
      if now <= lastTs then
        Min(spec.capacity, tokens)
      else
        Min(spec.capacity, tokens + spec.Gain(now - lastTs))
    }

    function Consume(tokens: real, lastTs: real, now: real, amount: real, reserve: real): Decision {
      var available := Replenish(tokens, lastTs, now);
      var needed := amount + reserve;
      if available >= needed then
        Decision(true, available - amount, 0.0)
      else
        Decision(false, available, spec.Wait(needed - available))
    }
  }

  /** The bucket hash in Redis: the tokens left and the time they were counted at. */
  datatype Stored = Stored(tokens: real, ts: real)

  /** One call of the script by one worker, at that worker's clock reading. */
  datatype Attempt = Attempt(now: real, amount: real, reserve: real)
  {
    predicate Valid() {
      0.0 <= amount && 0.0 <= reserve
    }
  }

  predicate Bounded(spec: BucketSpec, s: Stored) {
    0.0 <= s.tokens <= spec.capacity
  }

  predicate ValidRun(attempts: seq<Attempt>) {
    forall i :: 0 <= i < |attempts| ==> attempts[i].Valid()
  }

  // ---------------------------------------------------------------------------
  // The script as a state transformer
  // ---------------------------------------------------------------------------

  /** The bucket the script works on: a missing key counts as a full bucket at `now`. */
  function Load(spec: BucketSpec, s: Option<Stored>, now: real): Stored {
    match s
    case None => Stored(spec.capacity, now)
    case Some(stored) => stored
  }

  /** Refill up to `now`; a clock reading at or before `ts` changes nothing. */
  function Advance(spec: BucketSpec, s: Stored, now: real): Stored {
    if now > s.ts then Stored(Min(spec.capacity, s.tokens + spec.Gain(now - s.ts)), now) else s
  }

  function Refilled(spec: BucketSpec, s: Option<Stored>, a: Attempt): Stored {
    Advance(spec, Load(spec, s, a.now), a.now)
  }

  predicate Allowed(spec: BucketSpec, s: Option<Stored>, a: Attempt) {
    Refilled(spec, s, a).tokens >= a.amount + a.reserve
  }

  function Next(spec: BucketSpec, s: Option<Stored>, a: Attempt): Stored {
    var b := Refilled(spec, s, a);
    if Allowed(spec, s, a) then b.(tokens := b.tokens - a.amount) else b
  }

  function Reply(spec: BucketSpec, s: Option<Stored>, a: Attempt): Decision {
    var left := Next(spec, s, a).tokens;
    if Allowed(spec, s, a) then
      Decision(true, left, 0.0)
    else
      Decision(false, left, spec.Wait(a.amount + a.reserve - left))
  }

  /** One bucket key in Redis. */
  class RedisBucket {
    var stored: Option<Stored>

    constructor ()
      ensures stored == None
    {
      stored := None;
    }

    /** The Lua script: refill, then consume, in one atomic step. */
    method RunScript(spec: BucketSpec, a: Attempt) returns (d: Decision)
      modifies this
      ensures stored == Some(Next(spec, old(stored), a))
      ensures d == Reply(spec, old(stored), a)
    {
      var tokens, ts;
      match stored {
        case None => tokens, ts := spec.capacity, a.now;
        case Some(s) => tokens, ts := s.tokens, s.ts;
      }
      if a.now > ts {
        tokens := Min(spec.capacity, tokens + spec.Gain(a.now - ts));
        ts := a.now;
      }
      var allowed, retry := false, 0.0;
      if tokens >= a.amount + a.reserve {
        tokens := tokens - a.amount;
        allowed := true;
      } else {
        retry := spec.Wait(a.amount + a.reserve - tokens);
      }
      stored := Some(Stored(tokens, ts));
      d := Decision(allowed, tokens, retry);
    }
  }

  /**
   The script answers what `TokenBucket.consume` answers exactly when the stored tokens respect the capacity or the
   clock moved on: only the pure form clamps a stored excess when no time has passed. Either way the stored time is
   the later of the two clocks.
   */
  lemma ScriptRefinesTokenBucket(spec: BucketSpec, s: Stored, a: Attempt)
    requires a.Valid()
    ensures Next(spec, Some(s), a).ts == if a.now > s.ts then a.now else s.ts
    ensures Next(spec, Some(s), a).tokens == Reply(spec, Some(s), a).tokens
    ensures Reply(spec, Some(s), a) == TokenBucket(spec).Consume(s.tokens, s.ts, a.now, a.amount, a.reserve)
       <==> (s.tokens <= spec.capacity || a.now > s.ts)
  {
  }

  // ---------------------------------------------------------------------------
  // Runs: any number of workers, in any interleaving
  // ---------------------------------------------------------------------------

  function Run(spec: BucketSpec, s: Option<Stored>, attempts: seq<Attempt>): (e: Option<Stored>)
    ensures (s.Some? || attempts != []) ==> e.Some?
    decreases |attempts|
  {
    if attempts == [] then s else Run(spec, Some(Next(spec, s, attempts[0])), attempts[1..])
  }

  function Decisions(spec: BucketSpec, s: Option<Stored>, attempts: seq<Attempt>): (ds: seq<Decision>)
    ensures |ds| == |attempts|
    decreases |attempts|
  {
    if attempts == [] then []
    else [Reply(spec, s, attempts[0])] + Decisions(spec, Some(Next(spec, s, attempts[0])), attempts[1..])
  }

  /** The tokens handed out over a run. */
  function Granted(spec: BucketSpec, s: Option<Stored>, attempts: seq<Attempt>): real
    decreases |attempts|
  {
    if attempts == [] then 0.0
    else
      (if Allowed(spec, s, attempts[0]) then attempts[0].amount else 0.0)
      + Granted(spec, Some(Next(spec, s, attempts[0])), attempts[1..])
  }

  lemma GainNonNegative(spec: BucketSpec, elapsed: real)
    requires spec.Valid() && 0.0 <= elapsed
    ensures 0.0 <= spec.Gain(elapsed)
  {
  }

  lemma GainAdds(spec: BucketSpec, x: real, y: real)
    ensures spec.Gain(x + y) == spec.Gain(x) + spec.Gain(y)
  {
  }

  /** What a bucket holds, less what the clock has refilled so far. */
  function Balance(spec: BucketSpec, s: Stored): real {
    s.tokens - spec.Gain(s.ts)
  }

  /** What the refill adds between two states of the bucket. */
  function Accrued(spec: BucketSpec, s: Stored, e: Stored): real {
    spec.Gain(e.ts - s.ts)
  }

  lemma NextIsBounded(spec: BucketSpec, s: Option<Stored>, a: Attempt)
    requires spec.Valid() && a.Valid()
    requires s.Some? ==> Bounded(spec, s.value)
    ensures Bounded(spec, Next(spec, s, a))
    ensures s.Some? ==> s.value.ts <= Next(spec, s, a).ts
  {
    var b := Load(spec, s, a.now);
    if a.now > b.ts {
      GainNonNegative(spec, a.now - b.ts);
    }
  }

  lemma NextSpends(spec: BucketSpec, s: Stored, a: Attempt)
    ensures Balance(spec, Next(spec, Some(s), a)) + (if Allowed(spec, Some(s), a) then a.amount else 0.0)
         <= Balance(spec, s)
  {
  }

  /** Grants come out of the balance, which never grows. */
  lemma {:induction false} BalancePays(spec: BucketSpec, s: Stored, attempts: seq<Attempt>)
    ensures Granted(spec, Some(s), attempts) + Balance(spec, Run(spec, Some(s), attempts).value) <= Balance(spec, s)
    decreases |attempts|
  {
    if attempts == [] {
    } else {
      NextSpends(spec, s, attempts[0]);
      BalancePays(spec, Next(spec, Some(s), attempts[0]), attempts[1..]);
    }
  }

  lemma {:induction false} RunStaysBounded(spec: BucketSpec, s: Stored, attempts: seq<Attempt>)
    requires spec.Valid() && ValidRun(attempts) && Bounded(spec, s)
    ensures var e := Run(spec, Some(s), attempts).value;
            Bounded(spec, e) && s.ts <= e.ts
    decreases |attempts|
  {
    if attempts == [] {
    } else {
      NextIsBounded(spec, Some(s), attempts[0]);
      RunStaysBounded(spec, Next(spec, Some(s), attempts[0]), attempts[1..]);
    }
  }

  /** Granted tokens and tokens left never exceed what was there plus what the elapsed stored time refilled. */
  lemma Conservation(spec: BucketSpec, s: Stored, attempts: seq<Attempt>)
    requires spec.Valid() && ValidRun(attempts) && Bounded(spec, s)
    ensures var e := Run(spec, Some(s), attempts).value;
            && Bounded(spec, e)
            && s.ts <= e.ts
            && Granted(spec, Some(s), attempts) + e.tokens <= s.tokens + Accrued(spec, s, e)
  {
    BalancePays(spec, s, attempts);
    RunStaysBounded(spec, s, attempts);
    BalanceGap(spec, s, Run(spec, Some(s), attempts).value, Granted(spec, Some(s), attempts));
  }

  lemma BalanceGap(spec: BucketSpec, s: Stored, e: Stored, granted: real)
    requires granted + Balance(spec, e) <= Balance(spec, s)
    ensures granted + e.tokens <= s.tokens + Accrued(spec, s, e)
  {
    GainAdds(spec, e.ts - s.ts, s.ts);
  }

  lemma RunIsBounded(spec: BucketSpec, s: Option<Stored>, attempts: seq<Attempt>)
    requires spec.Valid() && ValidRun(attempts)
    requires s.Some? ==> Bounded(spec, s.value)
    ensures Run(spec, s, attempts).Some? ==> Bounded(spec, Run(spec, s, attempts).value)
  {
    if attempts == [] {
    } else {
      NextIsBounded(spec, s, attempts[0]);
      Conservation(spec, Next(spec, s, attempts[0]), attempts[1..]);
    }
  }

  /**
   The rate bound, between any two points of any run of any number of workers with arbitrary clocks: the stored time
   never decreases, the tokens stay within the bucket, and at most `capacity + refill * elapsed` tokens are granted.
   */
  lemma RateBound(spec: BucketSpec, start: Option<Stored>, before: seq<Attempt>, window: seq<Attempt>)
    requires spec.Valid() && ValidRun(before) && ValidRun(window)
    requires start.Some? ==> Bounded(spec, start.value)
    requires start.Some? || before != []
    ensures var s := Run(spec, start, before).value;
            var e := Run(spec, Some(s), window).value;
            && s.ts <= e.ts && Bounded(spec, s) && Bounded(spec, e)
            && Granted(spec, Some(s), window) <= spec.capacity + Accrued(spec, s, e)
  {
    RunIsBounded(spec, start, before);
    var s := Run(spec, start, before).value;
    Conservation(spec, s, window);
  }

  /** For a rolling window of N requests per W seconds that is at most 2N in any stretch of W seconds. */
  lemma AtMostTwiceTheWindow(n: nat, w: real, start: Option<Stored>, before: seq<Attempt>, window: seq<Attempt>)
    requires w > 0.0 && ValidRun(before) && ValidRun(window)
    requires start.Some? ==> Bounded(FromWindow(n, w), start.value)
    requires start.Some? || before != []
    ensures var spec := FromWindow(n, w);
            var s := Run(spec, start, before).value;
            Run(spec, Some(s), window).value.ts - s.ts <= w ==> Granted(spec, Some(s), window) <= 2.0 * n as real
  {
    var spec := FromWindow(n, w);
    RateBound(spec, start, before, window);
    var s := Run(spec, start, before).value;
    var e := Run(spec, Some(s), window).value;
    if e.ts - s.ts <= w {
      AccruedInWindow(n, w, s, e);
    }
  }

  lemma AccruedInWindow(n: nat, w: real, s: Stored, e: Stored)
    requires w > 0.0 && s.ts <= e.ts <= s.ts + w
    ensures Accrued(FromWindow(n, w), s, e) <= n as real
  {
  }

  // ---------------------------------------------------------------------------
  // N requests per window: when the NVD promise itself holds
  // ---------------------------------------------------------------------------

  predicate UnitRun(attempts: seq<Attempt>) {
    forall i :: 0 <= i < |attempts| ==> attempts[i].amount == 1.0 && 0.0 <= attempts[i].reserve
  }

  ghost predicate KeepsWindow(n: nat, w: real, s: Stored) {
    var spec := FromWindow(n, w);
    forall attempts: seq<Attempt> ::
      UnitRun(attempts) && Run(spec, Some(s), attempts).value.ts <= s.ts + w
      ==> Granted(spec, Some(s), attempts) <= n as real
  }

  /** Unit requests are granted whole. */
  lemma {:induction false} GrantedIsWhole(spec: BucketSpec, s: Option<Stored>, attempts: seq<Attempt>) returns (k: nat)
    requires UnitRun(attempts)
    ensures Granted(spec, s, attempts) == k as real
    decreases |attempts|
  {
    if attempts == [] {
      k := 0;
    } else {
      var rest := GrantedIsWhole(spec, Some(Next(spec, s, attempts[0])), attempts[1..]);
      k := if Allowed(spec, s, attempts[0]) then rest + 1 else rest;
    }
  }

  /** `k` requests, each sent the moment one more token has been refilled. */
  function Paced(from: real, step: real, k: nat): (attempts: seq<Attempt>)
    ensures |attempts| == k
    decreases k
  {
    if k == 0 then [] else [Attempt(from + step, 1.0, 0.0)] + Paced(from + step, step, k - 1)
  }

  /** The first of them is granted one step later, and leaves the bucket within its bounds. */
  lemma PacedStep(spec: BucketSpec, s: Stored, step: real)
    requires spec.capacity >= 1.0 && Bounded(spec, s) && step > 0.0 && spec.Gain(step) == 1.0
    ensures var a := Attempt(s.ts + step, 1.0, 0.0);
            && Allowed(spec, Some(s), a)
            && Next(spec, Some(s), a).ts == s.ts + step && Bounded(spec, Next(spec, Some(s), a))
  {
    assert Advance(spec, s, s.ts + step).tokens == Min(spec.capacity, s.tokens + 1.0);
  }

  lemma {:induction false} PacedIsGranted(spec: BucketSpec, s: Stored, step: real, k: nat)
    requires spec.capacity >= 1.0 && Bounded(spec, s) && step > 0.0 && spec.Gain(step) == 1.0
    ensures UnitRun(Paced(s.ts, step, k))
    ensures Granted(spec, Some(s), Paced(s.ts, step, k)) == k as real
    ensures Run(spec, Some(s), Paced(s.ts, step, k)).value.ts == s.ts + k as real * step
    decreases k
  {
    if k > 0 {
      var a := Attempt(s.ts + step, 1.0, 0.0);
      var m := Next(spec, Some(s), a);
      PacedStep(spec, s, step);
      PacedIsGranted(spec, m, step, k - 1);
      assert Paced(s.ts, step, k)[0] == a && Paced(s.ts, step, k)[1..] == Paced(m.ts, step, k - 1);
      assert (k - 1) as real * step + step == k as real * step;
    }
  }

  /**
   "N requests per W seconds" fails for some schedule exactly when the window opens with a whole token in hand: the
   token goes out at once and the refill still serves N more before the window closes. So N per window is guaranteed
   if and only if the bucket holds less than one token when the window opens.
   */
  lemma WindowPromiseIffDrained(n: nat, w: real, s: Stored)
    requires n > 0 && w > 0.0 && Bounded(FromWindow(n, w), s)
    ensures KeepsWindow(n, w, s) <==> s.tokens < 1.0
  {
    var spec := FromWindow(n, w);
    if s.tokens < 1.0 {
      forall attempts: seq<Attempt> | UnitRun(attempts) && Run(spec, Some(s), attempts).value.ts <= s.ts + w
        ensures Granted(spec, Some(s), attempts) <= n as real
      {
        DrainedGrants(n, w, s, attempts);
      }
    } else {
      var attempts := OverfullWindow(n, w, s);
    }
  }

  lemma DrainedGrants(n: nat, w: real, s: Stored, attempts: seq<Attempt>)
    requires n > 0 && w > 0.0 && Bounded(FromWindow(n, w), s) && s.tokens < 1.0 && UnitRun(attempts)
    requires Run(FromWindow(n, w), Some(s), attempts).value.ts <= s.ts + w
    ensures Granted(FromWindow(n, w), Some(s), attempts) <= n as real
  {
    var spec := FromWindow(n, w);
    Conservation(spec, s, attempts);
    AccruedInWindow(n, w, s, Run(spec, Some(s), attempts).value);
    var k := GrantedIsWhole(spec, Some(s), attempts);
    WholeBelow(k, n, s.tokens);
  }

  lemma WholeBelow(k: nat, n: nat, t: real)
    requires k as real <= t + n as real && t < 1.0
    ensures k as real <= n as real
  {
    assert (k - n) as real < 1.0;
  }

  lemma OverfullWindow(n: nat, w: real, s: Stored) returns (attempts: seq<Attempt>)
    requires n > 0 && w > 0.0 && Bounded(FromWindow(n, w), s) && s.tokens >= 1.0
    ensures UnitRun(attempts) && Run(FromWindow(n, w), Some(s), attempts).value.ts == s.ts + w
    ensures Granted(FromWindow(n, w), Some(s), attempts) == 1.0 + n as real
  {
    var spec, first, step := FromWindow(n, w), Attempt(s.ts, 1.0, 0.0), w / n as real;
    StepRefillsOne(n, w);
    var m := Next(spec, Some(s), first);
    PacedIsGranted(spec, m, step, n);
    attempts := [first] + Paced(m.ts, step, n);
    assert attempts[0] == first && attempts[1..] == Paced(m.ts, step, n);
  }

  lemma CancelRight(x: real, y: real, z: real)
    requires z != 0.0 && x * z == y * z
    ensures x == y
  {
  }

  lemma StepRefillsOne(n: nat, w: real)
    requires n > 0 && w > 0.0
    ensures w / n as real > 0.0
    ensures FromWindow(n, w).Gain(w / n as real) == 1.0
    ensures n as real * (w / n as real) == w
  {
    var x := n as real;
    var step, rate := w / x, x / w;
    assert step * x == w && rate * w == x;
    CancelRight(step * rate, 1.0, w);
  }

  // ---------------------------------------------------------------------------
  // Polls that are denied, and keys that expire, cannot be seen
  // ---------------------------------------------------------------------------

  predicate Monotone(from: real, attempts: seq<Attempt>)
    decreases |attempts|
  {
    attempts == [] || (from <= attempts[0].now && Monotone(attempts[0].now, attempts[1..]))
  }

  /** The elements of `xs` whose mark is set. */
  function Kept<T>(xs: seq<T>, keep: seq<bool>): seq<T>
    requires |xs| == |keep|
  {
    if xs == [] then [] else (if keep[0] then [xs[0]] else []) + Kept(xs[1..], keep[1..])
  }

  lemma AdvanceComposes(spec: BucketSpec, s: Stored, t: real, u: real)
    requires spec.Valid() && Bounded(spec, s) && s.ts <= t <= u
    ensures Advance(spec, Advance(spec, s, t), u) == Advance(spec, s, u)
    ensures Bounded(spec, Advance(spec, s, t))
  {
    GainNonNegative(spec, t - s.ts);
    GainNonNegative(spec, u - t);
    GainAdds(spec, t - s.ts, u - t);
  }

  /**
   On a clock that does not run backwards, dropping any denied attempts from a run changes no other decision: whoever
   polls and is refused has no effect on anyone. `keep` marks the attempts that stay; every granted one must stay.
   */
  lemma {:induction false} DeniedPollsAreInvisible(
      spec: BucketSpec, s: Stored, behind: Stored, attempts: seq<Attempt>, keep: seq<bool>)
    requires spec.Valid() && Bounded(spec, behind) && behind.ts <= s.ts && s == Advance(spec, behind, s.ts)
    requires ValidRun(attempts) && Monotone(s.ts, attempts)
    requires |keep| == |attempts|
    requires forall i :: 0 <= i < |attempts| && Decisions(spec, Some(s), attempts)[i].allowed ==> keep[i]
    ensures Decisions(spec, Some(behind), Kept(attempts, keep)) == Kept(Decisions(spec, Some(s), attempts), keep)
    decreases |attempts|
  {
    if attempts == [] {
    } else {
      var a, rest := attempts[0], attempts[1..];
      var ds := Decisions(spec, Some(s), attempts);
      var m := Next(spec, Some(s), a);
      AdvanceComposes(spec, behind, s.ts, a.now);
      NextIsBounded(spec, Some(s), a);
      assert Decisions(spec, Some(m), rest) == ds[1..];
      assert forall i :: 0 <= i < |rest| ==> ds[1..][i] == ds[i + 1] && keep[1..][i] == keep[i + 1];
      if keep[0] {
        assert Next(spec, Some(behind), a) == m && Reply(spec, Some(behind), a) == ds[0];
        DeniedPollsAreInvisible(spec, m, m, rest, keep[1..]);
        var kept := Kept(attempts, keep);
        assert kept[0] == a && kept[1..] == Kept(rest, keep[1..]);
      } else {
        assert !ds[0].allowed;
        DeniedPollsAreInvisible(spec, m, behind, rest, keep[1..]);
        assert Kept(attempts, keep) == Kept(rest, keep[1..]) && Kept(ds, keep) == Kept(ds[1..], keep[1..]);
      }
    }
  }

  /** Every bounded bucket left alone for `ttl` seconds acts like the fresh bucket an expired key turns into. */
  ghost predicate ExpiryInvisible(spec: BucketSpec, ttl: real) {
    forall s: Stored, a: Attempt :: Bounded(spec, s) && s.ts + ttl <= a.now
      ==> Next(spec, Some(s), a) == Next(spec, None, a) && Reply(spec, Some(s), a) == Reply(spec, None, a)
  }

  /** Redis may drop an idle key unseen exactly when the idle time refills a whole bucket. */
  lemma ExpiryInvisibleIff(spec: BucketSpec, ttl: real)
    requires spec.Valid() && ttl > 0.0
    ensures ExpiryInvisible(spec, ttl) <==> spec.Gain(ttl) >= spec.capacity
  {
    if spec.Gain(ttl) >= spec.capacity {
      forall s: Stored, a: Attempt | Bounded(spec, s) && s.ts + ttl <= a.now
        ensures Advance(spec, s, a.now) == Stored(spec.capacity, a.now)
      {
        GainNonNegative(spec, a.now - s.ts - ttl);
        GainAdds(spec, a.now - s.ts - ttl, ttl);
      }
    } else {
      var s, a := Stored(0.0, 0.0), Attempt(ttl, 0.0, 0.0);
      assert Advance(spec, s, a.now).tokens == spec.Gain(ttl);
      assert Next(spec, Some(s), a) != Next(spec, None, a);
    }
  }

  /** An attempt, and whether Redis had dropped the key just before it. */
  datatype Visit = Visit(expired: bool, attempt: Attempt)

  function Answers(spec: BucketSpec, s: Option<Stored>, visits: seq<Visit>): seq<Decision>
    decreases |visits|
  {
    if visits == [] then []
    else
      var seen := if visits[0].expired then None else s;
      [Reply(spec, seen, visits[0].attempt)] + Answers(spec, Some(Next(spec, seen, visits[0].attempt)), visits[1..])
  }

  /** Redis drops the key only when nobody has touched it for `ttl` seconds. */
  predicate ExpiresWhenIdle(spec: BucketSpec, ttl: real, s: Stored, visits: seq<Visit>)
    decreases |visits|
  {
    visits == [] ||
    (var v := visits[0];
     && (v.expired ==> s.ts + ttl <= v.attempt.now)
     && ExpiresWhenIdle(spec, ttl, Next(spec, if v.expired then None else Some(s), v.attempt), visits[1..]))
  }

  lemma {:induction false} ExpiryChangesNoAnswer(spec: BucketSpec, ttl: real, s: Stored, visits: seq<Visit>)
    requires spec.Valid() && Bounded(spec, s) && ttl > 0.0 && spec.Gain(ttl) >= spec.capacity
    requires forall i :: 0 <= i < |visits| ==> visits[i].attempt.Valid()
    requires ExpiresWhenIdle(spec, ttl, s, visits)
    ensures Answers(spec, Some(s), visits)
         == Decisions(spec, Some(s), seq(|visits|, i requires 0 <= i < |visits| => visits[i].attempt))
    decreases |visits|
  {
    if visits == [] {
    } else {
      var v := visits[0];
      ExpiryInvisibleIff(spec, ttl);
      NextIsBounded(spec, Some(s), v.attempt);
      var m := Next(spec, Some(s), v.attempt);
      assert v.expired ==> Next(spec, None, v.attempt) == m;
      ExpiryChangesNoAnswer(spec, ttl, m, visits[1..]);
      var all := seq(|visits|, i requires 0 <= i < |visits| => visits[i].attempt);
      assert all[1..] == seq(|visits| - 1, i requires 0 <= i < |visits| - 1 => visits[1..][i].attempt);
    }
  }

  // ---------------------------------------------------------------------------
  // The backfill reserve (app/services/nvd_limits.py)
  // ---------------------------------------------------------------------------

  function Ceil(x: real): int {
    -((-x).Floor)
  }

  lemma CeilWithin(x: real, k: int)
    ensures Ceil(x) <= k <==> x <= k as real
  {
  }

  function BackfillReserve(spec: BucketSpec, fraction: real): real {
    Ceil(spec.capacity * fraction) as real
  }

  /** A backfill on an N-token bucket can run at all exactly when the reserve leaves room for its one token. */
  lemma BackfillCanRunIff(n: nat, w: real, fraction: real)
    requires n > 0 && w > 0.0 && fraction >= 0.0
    ensures var spec := FromWindow(n, w);
            (exists b: Stored, now: real :: Bounded(spec, b)
               && Allowed(spec, Some(b), Attempt(now, 1.0, BackfillReserve(spec, fraction))))
            <==> n as real * fraction <= n as real - 1.0
  {
    var spec := FromWindow(n, w);
    var reserve := BackfillReserve(spec, fraction);
    var full := Stored(spec.capacity, 0.0);
    assert Bounded(spec, full);
    if n as real * fraction <= n as real - 1.0 {
      CeilWithin(spec.capacity * fraction, n - 1);
      assert reserve == Ceil(spec.capacity * fraction) as real <= (n - 1) as real;
      assert Allowed(spec, Some(full), Attempt(0.0, 1.0, reserve));
    } else {
      assert 1.0 + reserve > spec.capacity;
    }
  }

  /** What callers that keep less than `r` in reserve were granted. */
  function GrantedWithout(spec: BucketSpec, s: Option<Stored>, attempts: seq<Attempt>, r: real): real
    decreases |attempts|
  {
    if attempts == [] then 0.0
    else
      (if Allowed(spec, s, attempts[0]) && attempts[0].reserve < r then attempts[0].amount else 0.0)
      + GrantedWithout(spec, Some(Next(spec, s, attempts[0])), attempts[1..], r)
  }

  /**
   Backfills take nothing from the others' share: from any point where the bucket holds the reserve, and however many
   backfills run, the bucket lacks at most what callers without that reserve were granted themselves. So such a caller
   is refused only because of its own kind.
   */
  lemma BackfillsNeverStarve(spec: BucketSpec, s: Stored, attempts: seq<Attempt>, r: real, a: Attempt)
    requires spec.Valid() && ValidRun(attempts) && Bounded(spec, s) && a.Valid() && a.reserve == 0.0
    requires s.tokens >= r
    ensures var e := Run(spec, Some(s), attempts);
            var others := GrantedWithout(spec, Some(s), attempts, r);
            && e.value.tokens >= r - others
            && (!Reply(spec, e, a).allowed ==> others > r - a.amount)
  {
    ReserveAccount(spec, s, attempts, r, 0.0);
    RunIsBounded(spec, Some(s), attempts);
    var e := Run(spec, Some(s), attempts).value;
    NextIsBounded(spec, Some(e), a);
    Conservation(spec, s, attempts);
    RefillOnlyAdds(spec, e, a.now);
  }

  lemma RefillOnlyAdds(spec: BucketSpec, s: Stored, now: real)
    requires spec.Valid() && Bounded(spec, s)
    ensures Advance(spec, s, now).tokens >= s.tokens
  {
    if now > s.ts {
      GainNonNegative(spec, now - s.ts);
    }
  }

  lemma {:induction false} ReserveAccount(spec: BucketSpec, s: Stored, attempts: seq<Attempt>, r: real, spent: real)
    requires spec.Valid() && ValidRun(attempts) && Bounded(spec, s)
    requires s.tokens >= r - spent && spec.capacity >= r && spent >= 0.0
    ensures Run(spec, Some(s), attempts).value.tokens >= r - spent - GrantedWithout(spec, Some(s), attempts, r)
    decreases |attempts|
  {
    if attempts == [] {
    } else {
      var a := attempts[0];
      var m := Next(spec, Some(s), a);
      NextIsBounded(spec, Some(s), a);
      if a.now > s.ts {
        GainNonNegative(spec, a.now - s.ts);
      }
      var more := if Allowed(spec, Some(s), a) && a.reserve < r then a.amount else 0.0;
      ReserveAccount(spec, m, attempts[1..], r, spent + more);
    }
  }

  // ---------------------------------------------------------------------------
  // Waiting for a token
  // ---------------------------------------------------------------------------

  /**
   `retry_after` is exact: with nobody else drawing, an attempt repeated at time `t` is granted exactly when it fits
   into the bucket at all and `t` is no earlier than the stored time plus `retry_after`.
   */
  lemma RetryAfterIsExact(spec: BucketSpec, s: Option<Stored>, a: Attempt, t: real)
    requires spec.Valid() && spec.refillPerSec > 0.0 && a.Valid()
    requires s.Some? ==> Bounded(spec, s.value)
    requires !Allowed(spec, s, a)
    requires t >= Next(spec, s, a).ts
    ensures Allowed(spec, Some(Next(spec, s, a)), a.(now := t))
       <==> a.amount + a.reserve <= spec.capacity && t >= Next(spec, s, a).ts + Reply(spec, s, a).retryAfter
  {
    var m := Next(spec, s, a);
    var deficit := a.amount + a.reserve - m.tokens;
    assert deficit > 0.0 && Reply(spec, s, a).retryAfter == spec.Wait(deficit);
    RefillReaches(spec, t - m.ts, deficit);
  }

  lemma RefillReaches(spec: BucketSpec, elapsed: real, deficit: real)
    requires spec.refillPerSec > 0.0 && deficit > 0.0
    ensures spec.Wait(deficit) > 0.0
    ensures spec.Gain(elapsed) >= deficit <==> elapsed >= spec.Wait(deficit)
  {
  }

  /** What one worker meets at one poll: the script calls of the others since its last poll, then its own clock. */
  datatype Turn = Turn(others: seq<Attempt>, now: real)

  /** How a call ended; `StillWaiting` when the given turns do not decide it. */
  datatype Outcome = Acquired | CannotRefill | TimedOut | StillWaiting

  datatype Limits = Limits(maxWait: real, pollCeiling: real)

  /** How `acquire` acts on the script's replies: how the call ends, what it sleeps, and how many polls it makes. */
  datatype Settled = Settled(outcome: Outcome, sleeps: seq<real>, polls: nat)

  function Settle(lim: Limits, waited: real, replies: seq<Decision>): (r: Settled)
    ensures r.polls <= |replies|
    decreases |replies|
  {
    if replies == [] then Settled(StillWaiting, [], 0) else
    var d := replies[0];
    var wait := Min(d.retryAfter, lim.pollCeiling);
    if d.allowed then Settled(Acquired, [], 1)
    else if d.retryAfter < 0.0 then Settled(CannotRefill, [], 1)
    else if waited + wait > lim.maxWait then Settled(TimedOut, [], 1)
    else
      var rest := Settle(lim, waited + wait, replies[1..]);
      Settled(rest.outcome, [wait] + rest.sleeps, rest.polls + 1)
  }

  function TurnState(spec: BucketSpec, s: Option<Stored>, amount: real, reserve: real, turn: Turn): Option<Stored> {
    Some(Next(spec, Run(spec, s, turn.others), Attempt(turn.now, amount, reserve)))
  }

  function TurnReply(spec: BucketSpec, s: Option<Stored>, amount: real, reserve: real, turn: Turn): Decision {
    Reply(spec, Run(spec, s, turn.others), Attempt(turn.now, amount, reserve))
  }

  /** The bucket after the given turns. */
  function AfterTurns(spec: BucketSpec, s: Option<Stored>, amount: real, reserve: real, turns: seq<Turn>)
      : Option<Stored>
    decreases |turns|
  {
    if turns == [] then s
    else AfterTurns(spec, TurnState(spec, s, amount, reserve, turns[0]), amount, reserve, turns[1..])
  }

  /** What the script replies at each of the given turns. */
  function Replies(spec: BucketSpec, s: Option<Stored>, amount: real, reserve: real, turns: seq<Turn>)
      : (ds: seq<Decision>)
    ensures |ds| == |turns|
    decreases |turns|
  {
    if turns == [] then []
    else [TurnReply(spec, s, amount, reserve, turns[0])]
         + Replies(spec, TurnState(spec, s, amount, reserve, turns[0]), amount, reserve, turns[1..])
  }

  lemma {:induction false} TurnsSplit(spec: BucketSpec, s: Option<Stored>, amount: real, reserve: real,
                                      turns: seq<Turn>, i: nat)
    requires i <= |turns|
    ensures Replies(spec, s, amount, reserve, turns)[i..]
         == Replies(spec, AfterTurns(spec, s, amount, reserve, turns[..i]), amount, reserve, turns[i..])
    decreases i
  {
    if i == 0 {
      assert turns[..0] == [] && turns[0..] == turns;
    } else {
      TurnsSplit(spec, TurnState(spec, s, amount, reserve, turns[0]), amount, reserve, turns[1..], i - 1);
      assert turns[..i][1..] == turns[1..][..i - 1];
      assert turns[1..][i - 1..] == turns[i..];
    }
  }

  lemma {:induction false} OneMoreTurn(spec: BucketSpec, s: Option<Stored>, amount: real, reserve: real,
                                       turns: seq<Turn>, i: nat)
    requires i < |turns|
    ensures AfterTurns(spec, s, amount, reserve, turns[..i + 1])
         == TurnState(spec, AfterTurns(spec, s, amount, reserve, turns[..i]), amount, reserve, turns[i])
    decreases i
  {
    if i == 0 {
      assert turns[..1] == [turns[0]] && turns[..1][1..] == [];
    } else {
      OneMoreTurn(spec, TurnState(spec, s, amount, reserve, turns[0]), amount, reserve, turns[1..], i - 1);
      assert turns[..i][1..] == turns[1..][..i - 1] && turns[..i + 1][1..] == turns[1..][..i];
    }
  }

  lemma ReplyAt(spec: BucketSpec, s: Option<Stored>, amount: real, reserve: real, turns: seq<Turn>, i: nat)
    requires i < |turns|
    ensures Replies(spec, s, amount, reserve, turns)[i]
         == TurnReply(spec, AfterTurns(spec, s, amount, reserve, turns[..i]), amount, reserve, turns[i])
  {
    TurnsSplit(spec, s, amount, reserve, turns, i);
    assert Replies(spec, s, amount, reserve, turns)[i] == Replies(spec, s, amount, reserve, turns)[i..][0];
  }

  /** After `i` polls and the given sleeps, the rest of the replies decides. */
  predicate Undecided(lim: Limits, whole: Settled, sleeps: seq<real>, waited: real, replies: seq<Decision>, i: nat) {
    i <= |replies|
    && var rest := Settle(lim, waited, replies[i..]);
       whole == Settled(rest.outcome, sleeps + rest.sleeps, rest.polls + i)
  }

  /** The next reply ends the call, or adds one sleep. */
  lemma OneMorePoll(lim: Limits, whole: Settled, sleeps: seq<real>, waited: real, replies: seq<Decision>, i: nat)
    requires i < |replies| && Undecided(lim, whole, sleeps, waited, replies, i)
    ensures var d, wait := replies[i], Min(replies[i].retryAfter, lim.pollCeiling);
            if d.allowed then whole == Settled(Acquired, sleeps, i + 1)
            else if d.retryAfter < 0.0 then whole == Settled(CannotRefill, sleeps, i + 1)
            else if waited + wait > lim.maxWait then whole == Settled(TimedOut, sleeps, i + 1)
            else Undecided(lim, whole, sleeps + [wait], waited + wait, replies, i + 1)
  {
    assert replies[i..][0] == replies[i] && replies[i..][1..] == replies[i + 1..];
    assert sleeps + [] == sleeps;
    var wait := Min(replies[i].retryAfter, lim.pollCeiling);
    var more := Settle(lim, waited + wait, replies[i + 1..]).sleeps;
    assert sleeps + ([wait] + more) == (sleeps + [wait]) + more;
  }

  class RedisRateLimiter {
    const redis: RedisBucket
    const lim: Limits

    constructor (redis: RedisBucket, lim: Limits)
      ensures this.redis == redis && this.lim == lim
    {
      this.redis, this.lim := redis, lim;
    }

    /** Let other workers run the script, then run it for this one. */
    method Poll(spec: BucketSpec, amount: real, reserve: real, turn: Turn) returns (d: Decision)
      modifies redis
      ensures redis.stored == TurnState(spec, old(redis.stored), amount, reserve, turn)
      ensures d == TurnReply(spec, old(redis.stored), amount, reserve, turn)
    {
      var others := turn.others;
      for i := 0 to |others|
        invariant Run(spec, redis.stored, others[i..]) == Run(spec, old(redis.stored), others)
      {
        var _ := redis.RunScript(spec, others[i]);
      }
      d := redis.RunScript(spec, Attempt(turn.now, amount, reserve));
    }

    /** Consume `amount`, polling until the script grants it, the wait cap is hit, or the turns run out. */
    method Acquire(spec: BucketSpec, amount: real, reserve: real, turns: seq<Turn>)
      returns (outcome: Outcome, sleeps: seq<real>, polls: nat)
      modifies redis
      ensures Settled(outcome, sleeps, polls)
           == Settle(lim, 0.0, Replies(spec, old(redis.stored), amount, reserve, turns))
      ensures redis.stored == AfterTurns(spec, old(redis.stored), amount, reserve, turns[..polls])
    {
      var waited := 0.0;
      sleeps := [];
      ghost var start := redis.stored;
      ghost var replies := Replies(spec, start, amount, reserve, turns);
      ghost var whole := Settle(lim, 0.0, replies);
      assert replies[0..] == replies && [] + whole.sleeps == whole.sleeps;
      for i := 0 to |turns|
        invariant redis.stored == AfterTurns(spec, start, amount, reserve, turns[..i])
        invariant Undecided(lim, whole, sleeps, waited, replies, i)
      {
        ReplyAt(spec, start, amount, reserve, turns, i);
        OneMoreTurn(spec, start, amount, reserve, turns, i);
        OneMorePoll(lim, whole, sleeps, waited, replies, i);
        var d := Poll(spec, amount, reserve, turns[i]);
        if d.allowed {
          return Acquired, sleeps, i + 1;
        }
        if d.retryAfter < 0.0 {
          return CannotRefill, sleeps, i + 1;
        }
        var wait := Min(d.retryAfter, lim.pollCeiling);
        waited := waited + wait;
        if waited > lim.maxWait {
          return TimedOut, sleeps, i + 1;
        }
        sleeps := sleeps + [wait];
      }
      assert turns[..|turns|] == turns;
      outcome, polls := StillWaiting, |turns|;
    }
  }

  function Sum(xs: seq<real>): real {
    if xs == [] then 0.0 else xs[0] + Sum(xs[1..])
  }

  /** A reply of the script: a grant, or a refusal with a positive wait or none. */
  predicate Proper(d: Decision) {
    if d.allowed then d.retryAfter == 0.0 else d.retryAfter > 0.0 || d.retryAfter == -1.0
  }

  predicate AllProper(ds: seq<Decision>) {
    forall i :: 0 <= i < |ds| ==> Proper(ds[i])
  }

  /** Every grant left the reserve, and there is none unless the request fits into the bucket. */
  predicate GrantsLeave(ds: seq<Decision>, fits: bool, reserve: real) {
    forall i :: 0 <= i < |ds| && ds[i].allowed ==> fits && ds[i].tokens >= reserve
  }

  lemma SumOfFirst(x: real, xs: seq<real>)
    ensures Sum([x] + xs) == x + Sum(xs)
  {
    assert ([x] + xs)[1..] == xs;
  }

  /** The sleeps stay within the ceiling, and together with what was waited before within the cap. */
  lemma {:induction false} SleepsAreCapped(lim: Limits, waited: real, replies: seq<Decision>)
    requires waited <= lim.maxWait && lim.pollCeiling >= 0.0
    requires AllProper(replies)
    ensures var r := Settle(lim, waited, replies);
            && waited + Sum(r.sleeps) <= lim.maxWait
            && forall i :: 0 <= i < |r.sleeps| ==> 0.0 <= r.sleeps[i] <= lim.pollCeiling
    decreases |replies|
  {
    if replies != [] {
      var wait := Min(replies[0].retryAfter, lim.pollCeiling);
      if !replies[0].allowed && replies[0].retryAfter >= 0.0 && waited + wait <= lim.maxWait {
        var r, rest := Settle(lim, waited, replies), Settle(lim, waited + wait, replies[1..]);
        SleepsAreCapped(lim, waited + wait, replies[1..]);
        assert r.sleeps == [wait] + rest.sleeps;
        SumOfFirst(wait, rest.sleeps);
      }
    }
  }

  lemma {:induction false} SettleIsHonest(lim: Limits, waited: real, replies: seq<Decision>)
    requires waited <= lim.maxWait && lim.pollCeiling >= 0.0
    requires AllProper(replies)
    ensures var r := Settle(lim, waited, replies);
            && (r.outcome == Acquired ==> r.polls > 0)
            && (forall i :: 0 <= i < r.polls ==> (replies[i].allowed <==> r.outcome == Acquired && i == r.polls - 1))
            && waited + Sum(r.sleeps) <= lim.maxWait
            && (forall i :: 0 <= i < |r.sleeps| ==> 0.0 <= r.sleeps[i] <= lim.pollCeiling)
            && (r.outcome == CannotRefill <==> r.polls > 0 && replies[r.polls - 1].retryAfter == -1.0)
    decreases |replies|
  {
    SleepsAreCapped(lim, waited, replies);
    if replies != [] {
      var wait := Min(replies[0].retryAfter, lim.pollCeiling);
      if !replies[0].allowed && replies[0].retryAfter >= 0.0 && waited + wait <= lim.maxWait {
        var r, rest := Settle(lim, waited, replies), Settle(lim, waited + wait, replies[1..]);
        SettleIsHonest(lim, waited + wait, replies[1..]);
        assert r.outcome == rest.outcome && r.polls == rest.polls + 1;
        assert forall i :: 0 < i < r.polls ==> replies[i] == replies[1..][i - 1];
      }
    }
  }

  lemma ReplyIsProper(spec: BucketSpec, s: Option<Stored>, a: Attempt)
    requires spec.Valid() && a.Valid() && (s.Some? ==> Bounded(spec, s.value))
    ensures Proper(Reply(spec, s, a))
    ensures Reply(spec, s, a).allowed ==> a.amount + a.reserve <= spec.capacity && Reply(spec, s, a).tokens >= a.reserve
  {
  }

  lemma {:induction false} RepliesAreProper(spec: BucketSpec, s: Option<Stored>, amount: real, reserve: real,
                                            turns: seq<Turn>)
    requires spec.Valid() && 0.0 <= amount && 0.0 <= reserve && (s.Some? ==> Bounded(spec, s.value))
    requires forall i :: 0 <= i < |turns| ==> ValidRun(turns[i].others)
    ensures AllProper(Replies(spec, s, amount, reserve, turns))
    ensures GrantsLeave(Replies(spec, s, amount, reserve, turns), amount + reserve <= spec.capacity, reserve)
    decreases |turns|
  {
    if turns == [] {
    } else {
      var seen, a := Run(spec, s, turns[0].others), Attempt(turns[0].now, amount, reserve);
      RunIsBounded(spec, s, turns[0].others);
      NextIsBounded(spec, seen, a);
      ReplyIsProper(spec, seen, a);
      RepliesAreProper(spec, TurnState(spec, s, amount, reserve, turns[0]), amount, reserve, turns[1..]);
    }
  }

  /**
   Whatever the other workers do: a call returns only after one grant, its last poll; a call that fails was granted
   nothing; its sleeps never add up to more than the cap; a granted call leaves the reserve in the bucket; and a
   request that does not fit into the bucket is never granted.
   */
  lemma AcquireIsHonest(spec: BucketSpec, lim: Limits, s: Option<Stored>, amount: real, reserve: real, turns: seq<Turn>)
    requires spec.Valid() && 0.0 <= amount && 0.0 <= reserve && 0.0 <= lim.maxWait && 0.0 <= lim.pollCeiling
    requires s.Some? ==> Bounded(spec, s.value)
    requires forall i :: 0 <= i < |turns| ==> ValidRun(turns[i].others)
    ensures var ds := Replies(spec, s, amount, reserve, turns);
            var r := Settle(lim, 0.0, ds);
            && (forall i :: 0 <= i < r.polls ==> (ds[i].allowed <==> r.outcome == Acquired && i == r.polls - 1))
            && (r.outcome == Acquired ==>
                  r.polls > 0 && ds[r.polls - 1].tokens >= reserve && amount + reserve <= spec.capacity)
            && Sum(r.sleeps) <= lim.maxWait
            && (forall i :: 0 <= i < |r.sleeps| ==> 0.0 <= r.sleeps[i] <= lim.pollCeiling)
  {
    RepliesAreProper(spec, s, amount, reserve, turns);
    SettleIsHonest(lim, 0.0, Replies(spec, s, amount, reserve, turns));
  }

  /** The turns of a worker that has the bucket to itself: it polls, sleeps what `acquire` sleeps, and polls again. */
  function AloneTurns(spec: BucketSpec, lim: Limits, s: Stored, now: real, amount: real, reserve: real, n: nat)
      : (turns: seq<Turn>)
    ensures |turns| == n
    decreases n
  {
    if n == 0 then [] else
    var a := Attempt(now, amount, reserve);
    var wait := Min(Reply(spec, Some(s), a).retryAfter, lim.pollCeiling);
    [Turn([], now)] + AloneTurns(spec, lim, Next(spec, Some(s), a), now + wait, amount, reserve, n - 1)
  }

  /** The longest `n` sleeps can last together. */
  function Longest(n: nat, ceiling: real): real {
    if n == 0 then 0.0 else ceiling + Longest(n - 1, ceiling)
  }

  /** Replies that count one wait down, poll by poll: each is what is left of it. */
  predicate CountsDown(lim: Limits, retry: real, replies: seq<Decision>)
    decreases |replies|
  {
    replies == [] ||
    (&& replies[0].retryAfter == retry
     && (replies[0].allowed <==> retry == 0.0)
     && (!replies[0].allowed ==> CountsDown(lim, retry - Min(retry, lim.pollCeiling), replies[1..])))
  }

  lemma {:induction false} CountdownSettles(lim: Limits, waited: real, retry: real, replies: seq<Decision>)
    requires CountsDown(lim, retry, replies) && replies != []
    requires lim.pollCeiling > 0.0 && waited <= lim.maxWait
    requires 0.0 <= retry <= Longest(|replies| - 1, lim.pollCeiling)
    ensures var r := Settle(lim, waited, replies);
            && (r.outcome == Acquired <==> waited + retry <= lim.maxWait)
            && (r.outcome == TimedOut <==> waited + retry > lim.maxWait)
            && (r.outcome == Acquired ==> Sum(r.sleeps) == retry)
    decreases |replies|
  {
    if !replies[0].allowed {
      var wait := Min(retry, lim.pollCeiling);
      assert |replies| > 1;
      LongestIsPositive(|replies| - 2, lim.pollCeiling);
      if waited + wait <= lim.maxWait {
        CountdownSettles(lim, waited + wait, retry - wait, replies[1..]);
      }
    }
  }

  lemma {:induction false} AloneCountsDown(
      spec: BucketSpec, lim: Limits, s: Stored, now: real, amount: real, reserve: real, n: nat)
    requires spec.Valid() && spec.refillPerSec > 0.0 && Bounded(spec, s) && s.ts <= now
    requires 0.0 <= amount && 0.0 <= reserve && amount + reserve <= spec.capacity && lim.pollCeiling > 0.0
    ensures CountsDown(lim, Reply(spec, Some(s), Attempt(now, amount, reserve)).retryAfter,
                       Replies(spec, Some(s), amount, reserve, AloneTurns(spec, lim, s, now, amount, reserve, n)))
    decreases n
  {
    if n == 0 {
    } else {
      var a := Attempt(now, amount, reserve);
      var retry, m := Reply(spec, Some(s), a).retryAfter, Next(spec, Some(s), a);
      var wait := Min(retry, lim.pollCeiling);
      var turns := AloneTurns(spec, lim, s, now, amount, reserve, n);
      var replies := Replies(spec, Some(s), amount, reserve, turns);
      assert Run(spec, Some(s), []) == Some(s);
      assert replies[0] == Reply(spec, Some(s), a);
      NextIsBounded(spec, Some(s), a);
      if !Allowed(spec, Some(s), a) {
        RetryIsPositive(spec, Some(s), a);
        RetryShrinks(spec, s, a, wait);
        AloneCountsDown(spec, lim, m, now + wait, amount, reserve, n - 1);
        assert turns[1..] == AloneTurns(spec, lim, m, now + wait, amount, reserve, n - 1);
        assert replies[1..] == Replies(spec, Some(m), amount, reserve, turns[1..]);
      }
    }
  }

  /**
   A worker alone with a bucket its request fits into sleeps exactly the first `retry_after` and is then granted, if
   that is within the cap, and otherwise times out. One more poll than the ceiling needs is enough.
   */
  lemma AloneAcquires(spec: BucketSpec, lim: Limits, s: Stored, now: real, amount: real, reserve: real, n: nat)
    requires spec.Valid() && spec.refillPerSec > 0.0 && Bounded(spec, s) && s.ts <= now
    requires 0.0 <= amount && 0.0 <= reserve && amount + reserve <= spec.capacity
    requires lim.pollCeiling > 0.0 && 0.0 <= lim.maxWait
    requires Reply(spec, Some(s), Attempt(now, amount, reserve)).retryAfter <= Longest(n, lim.pollCeiling)
    ensures var retry := Reply(spec, Some(s), Attempt(now, amount, reserve)).retryAfter;
            var turns := AloneTurns(spec, lim, s, now, amount, reserve, n + 1);
            var r := Settle(lim, 0.0, Replies(spec, Some(s), amount, reserve, turns));
            && (r.outcome == Acquired <==> retry <= lim.maxWait)
            && (r.outcome == TimedOut <==> retry > lim.maxWait)
            && (r.outcome == Acquired ==> Sum(r.sleeps) == retry)
  {
    var retry := Reply(spec, Some(s), Attempt(now, amount, reserve)).retryAfter;
    if !Allowed(spec, Some(s), Attempt(now, amount, reserve)) {
      RetryIsPositive(spec, Some(s), Attempt(now, amount, reserve));
    }
    AloneCountsDown(spec, lim, s, now, amount, reserve, n + 1);
    var turns := AloneTurns(spec, lim, s, now, amount, reserve, n + 1);
    CountdownSettles(lim, 0.0, retry, Replies(spec, Some(s), amount, reserve, turns));
  }

  lemma LongestIsPositive(n: nat, ceiling: real)
    requires ceiling > 0.0
    ensures Longest(n, ceiling) >= 0.0
  {
  }

  lemma RetryIsPositive(spec: BucketSpec, s: Option<Stored>, a: Attempt)
    requires spec.refillPerSec > 0.0 && !Allowed(spec, s, a)
    ensures Reply(spec, s, a).retryAfter > 0.0
  {
  }

  /** Sleeping part of `retry_after` leaves the rest of it. */
  lemma RetryShrinks(spec: BucketSpec, s: Stored, a: Attempt, wait: real)
    requires spec.Valid() && spec.refillPerSec > 0.0 && Bounded(spec, s) && s.ts <= a.now && a.Valid()
    requires a.amount + a.reserve <= spec.capacity && !Allowed(spec, Some(s), a)
    requires 0.0 < wait <= Reply(spec, Some(s), a).retryAfter
    ensures Reply(spec, Some(Next(spec, Some(s), a)), a.(now := a.now + wait)).retryAfter
         == Reply(spec, Some(s), a).retryAfter - wait
  {
    var m, later := Next(spec, Some(s), a), a.(now := a.now + wait);
    var deficit := a.amount + a.reserve - m.tokens;
    DivideOut(spec, deficit, wait);
    assert Refilled(spec, Some(m), later).tokens == m.tokens + spec.Gain(wait);
    assert Next(spec, Some(m), later).tokens ==
      if Allowed(spec, Some(m), later) then m.tokens + spec.Gain(wait) - a.amount
      else m.tokens + spec.Gain(wait);
  }

  lemma DivideOut(spec: BucketSpec, deficit: real, wait: real)
    requires spec.refillPerSec > 0.0 && wait <= spec.Wait(deficit)
    ensures spec.Gain(wait) <= deficit
    ensures spec.Wait(deficit - spec.Gain(wait)) == spec.Wait(deficit) - wait
    ensures spec.Gain(wait) == deficit ==> spec.Wait(deficit) == wait
  {
  }

  /** After every refusal it sleeps the wait it was told, but at most the ceiling. */
  lemma {:induction false} SleepsTell(lim: Limits, waited: real, replies: seq<Decision>)
    requires AllProper(replies)
    ensures var r := Settle(lim, waited, replies);
            && |r.sleeps| == (if r.outcome == StillWaiting then r.polls else r.polls - 1)
            && (r.outcome == StillWaiting ==> r.polls == |replies|)
            && (forall i :: 0 <= i < |r.sleeps| ==>
                  r.sleeps[i] == if replies[i].retryAfter < lim.pollCeiling then replies[i].retryAfter
                                 else lim.pollCeiling)
    decreases |replies|
  {
    if replies != [] {
      var wait := Min(replies[0].retryAfter, lim.pollCeiling);
      if !replies[0].allowed && replies[0].retryAfter >= 0.0 && waited + wait <= lim.maxWait {
        var r, rest := Settle(lim, waited, replies), Settle(lim, waited + wait, replies[1..]);
        SleepsTell(lim, waited + wait, replies[1..]);
        assert r == Settled(rest.outcome, [wait] + rest.sleeps, rest.polls + 1) && r.sleeps[1..] == rest.sleeps;
        forall i | 0 < i < |r.sleeps|
          ensures r.sleeps[i] == Min(replies[i].retryAfter, lim.pollCeiling)
        {
          assert replies[i] == replies[1..][i - 1] && r.sleeps[i] == rest.sleeps[i - 1];
        }
      }
    }
  }

  /** It gives up only when the next such sleep would take it past the cap. */
  lemma {:induction false} GivesUpTells(lim: Limits, waited: real, replies: seq<Decision>)
    requires AllProper(replies)
    ensures var r := Settle(lim, waited, replies);
            r.outcome == TimedOut ==>
              var last := replies[r.polls - 1].retryAfter;
              && last > 0.0
              && waited + Sum(r.sleeps) + (if last < lim.pollCeiling then last else lim.pollCeiling) > lim.maxWait
    decreases |replies|
  {
    if replies != [] {
      var wait := Min(replies[0].retryAfter, lim.pollCeiling);
      if !replies[0].allowed && replies[0].retryAfter >= 0.0 && waited + wait <= lim.maxWait {
        var r, rest := Settle(lim, waited, replies), Settle(lim, waited + wait, replies[1..]);
        GivesUpTells(lim, waited + wait, replies[1..]);
        assert r == Settled(rest.outcome, [wait] + rest.sleeps, rest.polls + 1);
        SumOfFirst(wait, rest.sleeps);
        if r.outcome == TimedOut {
          assert replies[r.polls - 1] == replies[1..][rest.polls - 1];
        }
      }
    }
  }

  /** A window without a length refills nothing: the first poll decides, and nobody ever sleeps for it. */
  lemma WithoutRefill(n: nat, w: real, lim: Limits, s: Option<Stored>, amount: real, reserve: real, turns: seq<Turn>)
    requires w <= 0.0 && turns != []
    ensures var r := Settle(lim, 0.0, Replies(FromWindow(n, w), s, amount, reserve, turns));
            r.polls == 1 && r.sleeps == [] && r.outcome in {Acquired, CannotRefill}
  {
  }
}
