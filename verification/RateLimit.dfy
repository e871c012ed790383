/** The gateway's sliding-window limiter for failed logins. */
module RateLimit {

  type Address = string
  /** Monotonic clock readings, in nanoseconds. */
  type Time = nat

  // ----- Specification on values -----

  datatype Limits = Limits(maxAttempts: nat, window: nat)

  type Attempts = map<Address, seq<Time>>

  predicate Fresh(t: Time, now: Time, window: nat) {
    now < t + window
  }

  /** The recorded times that are still inside the window at `now`, in order. */
  function Retain(times: seq<Time>, now: Time, window: nat): (r: seq<Time>)
    ensures |r| <= |times|
    ensures forall i :: 0 <= i < |r| ==> r[i] in times && Fresh(r[i], now, window)
  {
    if times == [] then []
    else
      var init := Retain(times[..|times| - 1], now, window);
      if Fresh(times[|times| - 1], now, window) then init + [times[|times| - 1]] else init
  }

  function TimesOf(m: Attempts, ip: Address): seq<Time> {
    if ip in m then m[ip] else []
  }

  function CleanedUp(m: Attempts, now: Time, window: nat): Attempts {
    map ip | ip in m && Retain(m[ip], now, window) != [] :: Retain(m[ip], now, window)
  }

  /** Pruning keeps exactly the times less than a window old. */
  lemma {:induction false} RetainExactly(times: seq<Time>, now: Time, window: nat)
    ensures forall t :: t in Retain(times, now, window) <==> t in times && now - t < window
  {
    if times != [] {
      var init, last := times[..|times| - 1], times[|times| - 1];
      RetainExactly(init, now, window);
      assert times == init + [last];
    }
  }

  /** Cleaning up keeps exactly the addresses with a failure less than a window old. */
  lemma CleanedUpExactly(m: Attempts, now: Time, window: nat)
    ensures forall ip :: ip in CleanedUp(m, now, window) <==> ip in m && exists t :: t in m[ip] && now - t < window
    ensures forall ip | ip in CleanedUp(m, now, window) ::
              forall t :: t in CleanedUp(m, now, window)[ip] <==> t in m[ip] && now - t < window
  {
    forall ip | ip in m
      ensures Retain(m[ip], now, window) != [] <==> exists t :: t in m[ip] && now - t < window
      ensures forall t :: t in Retain(m[ip], now, window) <==> t in m[ip] && now - t < window
    {
      RetainExactly(m[ip], now, window);
      hide Retain;
      assert Retain(m[ip], now, window) != [] ==> Retain(m[ip], now, window)[0] in m[ip];
    }
    hide Retain;
  }

  // ----- The limiter object -----

  method RetainFresh(times: seq<Time>, now: Time, window: nat) returns (kept: seq<Time>)
    ensures kept == Retain(times, now, window)
  {
    kept := [];
    for i := 0 to |times|
      invariant kept == Retain(times[..i], now, window)
    {
      assert times[..i + 1][..i] == times[..i];
      if Fresh(times[i], now, window) {
        kept := kept + [times[i]];
      }
    }
    assert times[..|times|] == times;
  }

  class LoginRateLimiter {
    const limits: Limits
    var attempts: Attempts

    constructor (maxAttempts: nat, windowSecs: nat)
      ensures limits == Limits(maxAttempts, windowSecs * 1_000_000_000) && attempts == map[]
    {
      limits := Limits(maxAttempts, windowSecs * 1_000_000_000);
      attempts := map[];
    }

    method IsLimited(ip: Address, now: Time) returns (limited: bool)
      modifies this
      ensures Outcome(attempts, limited) == Apply(limits, old(attempts), Query(ip, now))
    {
      if ip in attempts {
        var times := RetainFresh(attempts[ip], now, limits.window);
        attempts := attempts[ip := times];
        limited := |times| >= limits.maxAttempts;
      } else {
        limited := false;
      }
    }

    method CheckAndRecord(ip: Address, now: Time) returns (limited: bool)
      modifies this
      ensures Outcome(attempts, limited) == Apply(limits, old(attempts), Record(ip, now))
    {
      var times := RetainFresh(if ip in attempts then attempts[ip] else [], now, limits.window);
      limited := |times| >= limits.maxAttempts;
      attempts := attempts[ip := if limited then times else times + [now]];
    }

    method Cleanup(now: Time)
      modifies this
      ensures Outcome(attempts, false) == Apply(limits, old(attempts), Sweep(now))
    {
      var todo := attempts.Keys;
      var kept: Attempts := map[];
      while todo != {}
        invariant todo <= attempts.Keys
        invariant attempts == old(attempts)
        invariant kept == CleanedUp(map ip | ip in attempts && ip !in todo :: attempts[ip], now, limits.window)
        decreases todo
      {
        var ip :| ip in todo;
        var times := RetainFresh(attempts[ip], now, limits.window);
        if times != [] {
          kept := kept[ip := times];
        }
        todo := todo - {ip};
      }
      assert attempts == map ip | ip in attempts && ip !in todo :: attempts[ip];
      attempts := kept;
    }
  }

  // ----- Whole runs -----

  datatype Op = Query(ip: Address, now: Time) | Record(ip: Address, now: Time) | Sweep(now: Time)

  datatype Outcome = Outcome(attempts: Attempts, limited: bool)

  function Apply(l: Limits, m: Attempts, op: Op): Outcome {
    match op
    case Query(ip, now) =>
      if ip in m then
        var times := Retain(m[ip], now, l.window);
        Outcome(m[ip := times], |times| >= l.maxAttempts)
      else Outcome(m, false)
    case Record(ip, now) =>
      var times := Retain(TimesOf(m, ip), now, l.window);
      if |times| >= l.maxAttempts then Outcome(m[ip := times], true)
      else Outcome(m[ip := times + [now]], false)
    case Sweep(now) => Outcome(CleanedUp(m, now, l.window), false)
  }

  /** The clock never runs backwards. */
  predicate Ordered(ops: seq<Op>) {
    forall i, j :: 0 <= i < j < |ops| ==> ops[i].now <= ops[j].now
  }

  function Run(l: Limits, ops: seq<Op>): Outcome {
    if ops == [] then Outcome(map[], false)
    else Apply(l, Run(l, ops[..|ops| - 1]).attempts, ops[|ops| - 1])
  }

  /** Every failure that was recorded for `ip`, never pruned. */
  function History(l: Limits, ops: seq<Op>, ip: Address): seq<Time> {
    if ops == [] then []
    else
      var init, op := ops[..|ops| - 1], ops[|ops| - 1];
      if op.Record? && op.ip == ip && !Run(l, ops).limited then History(l, init, ip) + [op.now]
      else History(l, init, ip)
  }

  /** How many times lie in the span (x - window, x]. */
  function CountIn(times: seq<Time>, x: int, window: nat): nat {
    if times == [] then 0
    else CountIn(times[..|times| - 1], x, window) + if x - window < times[|times| - 1] <= x then 1 else 0
  }

  lemma {:induction false} RetainAppend(a: seq<Time>, t: Time, now: Time, window: nat)
    ensures Retain(a + [t], now, window) == Retain(a, now, window) + if Fresh(t, now, window) then [t] else []
  {
    assert (a + [t])[..|a|] == a;
  }

  /** Pruning early loses nothing that a later pruning would have kept. */
  lemma {:induction false} RetainTwice(times: seq<Time>, earlier: Time, now: Time, window: nat)
    requires earlier <= now
    ensures Retain(Retain(times, earlier, window), now, window) == Retain(times, now, window)
  {
    if times != [] {
      var init, t := times[..|times| - 1], times[|times| - 1];
      RetainTwice(init, earlier, now, window);
      RetainAppend(Retain(init, earlier, window), t, now, window);
    }
  }

  lemma ApplyKeepsView(l: Limits, m: Attempts, op: Op, ip: Address, later: Time)
    requires op.now <= later
    ensures var m' := Apply(l, m, op).attempts;
            Retain(TimesOf(m', ip), later, l.window) ==
            Retain(TimesOf(m, ip) + (if op.Record? && op.ip == ip && !Apply(l, m, op).limited then [op.now] else []),
                   later, l.window)
  {
    hide Retain;
    var times := TimesOf(m, ip);
    RetainTwice(times, op.now, later, l.window);
    RetainAppend(times, op.now, later, l.window);
    RetainAppend(Retain(times, op.now, l.window), op.now, later, l.window);
    RetainNone(later, l.window);
    assert times + [] == times;
  }

  lemma RetainNone(now: Time, window: nat)
    ensures Retain([], now, window) == []
  {
  }

  lemma {:induction false} RunRefines(l: Limits, ops: seq<Op>, ip: Address, later: Time)
    requires Ordered(ops) && (ops != [] ==> ops[|ops| - 1].now <= later)
    ensures Retain(TimesOf(Run(l, ops).attempts, ip), later, l.window) == Retain(History(l, ops, ip), later, l.window)
  {
    if ops != [] {
      var init, op := ops[..|ops| - 1], ops[|ops| - 1];
      RunRefines(l, init, ip, later);
      var m := Run(l, init).attempts;
      ApplyKeepsView(l, m, op, ip, later);
      if op.Record? && op.ip == ip && !Run(l, ops).limited {
        RetainAppend(TimesOf(m, ip), op.now, later, l.window);
        RetainAppend(History(l, init, ip), op.now, later, l.window);
      } else {
        assert TimesOf(m, ip) + [] == TimesOf(m, ip);
      }
    }
  }

  lemma {:induction false} RetainCounts(times: seq<Time>, now: Time, window: nat)
    requires forall i :: 0 <= i < |times| ==> times[i] <= now
    ensures |Retain(times, now, window)| == CountIn(times, now, window)
  {
    if times != [] {
      RetainCounts(times[..|times| - 1], now, window);
    }
  }

  lemma {:induction false} HistoryBefore(l: Limits, ops: seq<Op>, ip: Address, now: Time)
    requires Ordered(ops) && (ops != [] ==> ops[|ops| - 1].now <= now)
    ensures forall i :: 0 <= i < |History(l, ops, ip)| ==> History(l, ops, ip)[i] <= now
  {
    if ops != [] {
      HistoryBefore(l, ops[..|ops| - 1], ip, now);
    }
  }

  /**
   * Each answer equals the one computed from the full history: limited exactly when at least
   * `maxAttempts` failures lie in the window that ends now. (A query about an address without an
   * entry answers "not limited" even if `maxAttempts` is zero.)
   */
  lemma AnswerFromHistory(l: Limits, ops: seq<Op>, op: Op)
    requires Ordered(ops + [op]) && !op.Sweep?
    ensures op.Record? || l.maxAttempts > 0 ==>
              (Run(l, ops + [op]).limited <==> CountIn(History(l, ops, op.ip), op.now, l.window) >= l.maxAttempts)
  {
    assert (ops + [op])[..|ops|] == ops;
    assert forall i :: 0 <= i < |ops| ==> (ops + [op])[i] == ops[i];
    assert (ops + [op])[|ops|] == op;
    RunRefines(l, ops, op.ip, op.now);
    HistoryBefore(l, ops, op.ip, op.now);
    RetainCounts(History(l, ops, op.ip), op.now, l.window);
  }

  /** Once everything is at or before `now`, a later span holds no more than the one ending `now`. */
  lemma {:induction false} CountShift(times: seq<Time>, now: Time, x: int, window: nat)
    requires forall i :: 0 <= i < |times| ==> times[i] <= now
    requires now <= x
    ensures CountIn(times, x, window) <= CountIn(times, now, window)
  {
    if times != [] {
      CountShift(times[..|times| - 1], now, x, window);
    }
  }

  lemma BoundSurvivesRecord(h: seq<Time>, now: Time, x: int, window: nat, bound: nat)
    requires forall i :: 0 <= i < |h| ==> h[i] <= now
    requires CountIn(h, x, window) <= bound && CountIn(h, now, window) < bound
    ensures CountIn(h + [now], x, window) <= bound
  {
    assert (h + [now])[..|h|] == h;
    if now <= x {
      CountShift(h, now, x, window);
    }
  }

  lemma WindowBoundStep(l: Limits, ops: seq<Op>, op: Op, ip: Address, x: int)
    requires Ordered(ops + [op])
    requires CountIn(History(l, ops, ip), x, l.window) <= l.maxAttempts
    ensures CountIn(History(l, ops + [op], ip), x, l.window) <= l.maxAttempts
  {
    assert (ops + [op])[..|ops|] == ops;
    if op.Record? && op.ip == ip && !Run(l, ops + [op]).limited {
      AnswerFromHistory(l, ops, op);
      assert forall i :: 0 <= i < |ops| ==> (ops + [op])[i] == ops[i];
      assert (ops + [op])[|ops|] == op;
      HistoryBefore(l, ops, ip, op.now);
      BoundSurvivesRecord(History(l, ops, ip), op.now, x, l.window, l.maxAttempts);
    }
  }

  /** At most `maxAttempts` recorded failures of one address lie in any span (x - window, x]. */
  lemma {:induction false} WindowBound(l: Limits, ops: seq<Op>, ip: Address, x: int)
    requires Ordered(ops)
    ensures CountIn(History(l, ops, ip), x, l.window) <= l.maxAttempts
  {
    if ops != [] {
      var init, op := ops[..|ops| - 1], ops[|ops| - 1];
      WindowBound(l, init, ip, x);
      assert ops == init + [op];
      WindowBoundStep(l, init, op, ip, x);
    }
  }

  // ----- Cleanup is unobservable -----

  function WithoutSweeps(ops: seq<Op>): seq<Op> {
    if ops == [] then []
    else WithoutSweeps(ops[..|ops| - 1]) + if ops[|ops| - 1].Sweep? then [] else [ops[|ops| - 1]]
  }

  lemma {:induction false} WithoutSweepsOrdered(ops: seq<Op>)
    requires Ordered(ops)
    ensures Ordered(WithoutSweeps(ops))
    ensures forall op | op in WithoutSweeps(ops) :: op in ops && !op.Sweep?
  {
    if ops != [] {
      WithoutSweepsOrdered(ops[..|ops| - 1]);
      var init := WithoutSweeps(ops[..|ops| - 1]);
      forall i | 0 <= i < |init| ensures init[i].now <= ops[|ops| - 1].now {
        assert init[i] in ops[..|ops| - 1];
      }
    }
  }

  lemma WithoutSweepsAppend(ops: seq<Op>, op: Op)
    requires Ordered(ops + [op]) && !op.Sweep?
    ensures WithoutSweeps(ops + [op]) == WithoutSweeps(ops) + [op]
    ensures Ordered(ops) && Ordered(WithoutSweeps(ops) + [op])
  {
    assert (ops + [op])[..|ops|] == ops;
    assert forall i :: 0 <= i < |ops| ==> (ops + [op])[i] == ops[i];
    WithoutSweepsOrdered(ops + [op]);
  }

  lemma HistoryAppend(l: Limits, ops: seq<Op>, op: Op, ip: Address)
    ensures History(l, ops + [op], ip)
         == History(l, ops, ip) + if op.Record? && op.ip == ip && !Run(l, ops + [op]).limited then [op.now] else []
  {
    assert (ops + [op])[..|ops|] == ops;
  }

  lemma {:induction false} HistoryIgnoresSweeps(l: Limits, ops: seq<Op>, ip: Address)
    requires Ordered(ops)
    ensures History(l, WithoutSweeps(ops), ip) == History(l, ops, ip)
  {
    if ops != [] {
      var init, op := ops[..|ops| - 1], ops[|ops| - 1];
      assert ops == init + [op];
      HistoryIgnoresSweeps(l, init, ip);
      if !op.Sweep? {
        WithoutSweepsAppend(init, op);
        HistoryAppend(l, init, op, ip);
        HistoryAppend(l, WithoutSweeps(init), op, ip);
        if op.Record? && op.ip == ip {
          AnswerFromHistory(l, init, op);
          AnswerFromHistory(l, WithoutSweeps(init), op);
        }
      } else {
        assert WithoutSweeps(ops) == WithoutSweeps(init);
      }
    }
  }

  /** Leaving every cleanup out of a run changes no answer. */
  lemma CleanupUnobservable(l: Limits, ops: seq<Op>, op: Op)
    requires Ordered(ops + [op]) && !op.Sweep? && l.maxAttempts > 0
    ensures Run(l, ops + [op]).limited == Run(l, WithoutSweeps(ops) + [op]).limited
  {
    WithoutSweepsAppend(ops, op);
    HistoryIgnoresSweeps(l, ops, op.ip);
    AnswerFromHistory(l, ops, op);
    AnswerFromHistory(l, WithoutSweeps(ops), op);
  }

  ghost predicate CleanupNeverSeen(l: Limits) {
    forall ops, op | Ordered(ops + [op]) && !op.Sweep? ::
      Run(l, ops + [op]).limited == Run(l, WithoutSweeps(ops) + [op]).limited
  }

  /** Allowing no attempt at all, a failure recorded long ago still limits until a sweep forgets it. */
  lemma ZeroAttemptsShowSweep(l: Limits)
    requires l.maxAttempts == 0
    ensures var ops, op := [Record("a", 0), Sweep(0)], Query("a", 0);
            Ordered(ops + [op]) && Run(l, ops + [op]).limited != Run(l, WithoutSweeps(ops) + [op]).limited
  {
    var record, sweep, query := Record("a", 0), Sweep(0), Query("a", 0);
    var ops := [record, sweep];
    assert ops[..1] == [record] && [record][..0] == [];
    assert WithoutSweeps([record]) == [record];
    assert WithoutSweeps(ops) == [record];
    assert Run(l, [record]).attempts == map["a" := []];
    assert Run(l, ops).attempts == map[];
    assert (ops + [query])[..2] == ops && ([record] + [query])[..1] == [record];
    assert !Run(l, ops + [query]).limited && Run(l, [record] + [query]).limited;
  }

  /** A limiter configured with zero attempts is the one that lets a cleanup show. */
  lemma CleanupNeverSeenExactly(l: Limits)
    ensures CleanupNeverSeen(l) <==> l.maxAttempts > 0
  {
    hide Run, Ordered, WithoutSweeps;
    if l.maxAttempts > 0 {
      forall ops, op | Ordered(ops + [op]) && !op.Sweep?
        ensures Run(l, ops + [op]).limited == Run(l, WithoutSweeps(ops) + [op]).limited
      {
        CleanupUnobservable(l, ops, op);
      }
    } else {
      ZeroAttemptsShowSweep(l);
      var ops, op := [Record("a", 0), Sweep(0)], Query("a", 0);
      assert Run(l, ops + [op]).limited != Run(l, WithoutSweeps(ops) + [op]).limited;
    }
  }
}
