/** The agent's lockout of superuser verification: a counter per user in a fixed window. */
module Lockout {

  type User = string
  /** Monotonic clock readings, in nanoseconds. */
  type Time = nat

  const MAX_ATTEMPTS := 6
  const LOCKOUT_WINDOW_SECS := 15 * 60
  const PRUNE_THRESHOLD := 50
  const NANOS := 1_000_000_000

  datatype Counter = Counter(count: nat, since: Time)

  type Limiter = map<User, Counter>

  /** Whole seconds since the window opened, rounded down. */
  function ElapsedSecs(c: Counter, now: Time): nat {
    if now < c.since then 0 else (now - c.since) / NANOS
  }

  predicate Expired(c: Counter, now: Time) {
    ElapsedSecs(c, now) > LOCKOUT_WINDOW_SECS
  }

  /** The window really lasts one second longer than its name, because the seconds are rounded down. */
  const WINDOW := (LOCKOUT_WINDOW_SECS + 1) * NANOS

  lemma ExpiredExactly(c: Counter, now: Time)
    ensures Expired(c, now) <==> now >= c.since + WINDOW
    ensures Expired(c, now) <==> now >= c.since + 901_000_000_000
  {
  }

  /** One call of the handler's `open`, with the clock before and after the password check. */
  datatype Attempt = Attempt(user: User, password: string, correct: bool, checkedAt: Time, doneAt: Time)

  datatype Verdict = Refused | Blocked | Accepted | Failed(locked: bool)

  datatype Outcome = Outcome(limiter: Limiter, verdict: Verdict)

  // ----- Specification on values -----

  function LookedUp(m: Limiter, user: User, now: Time): Limiter {
    if user in m && Expired(m[user], now) then m - {user} else m
  }

  predicate LockedOut(m: Limiter, user: User, now: Time) {
    user in m && !Expired(m[user], now) && m[user].count >= MAX_ATTEMPTS
  }

  /** The counter after one more failure. */
  function Bumped(m: Limiter, user: User, now: Time): Counter {
    if user in m && !Expired(m[user], now) then Counter(m[user].count + 1, m[user].since) else Counter(1, now)
  }

  function Pruned(m: Limiter, now: Time): Limiter {
    if |m| > PRUNE_THRESHOLD then map u | u in m && !Expired(m[u], now) :: m[u] else m
  }

  function Verify(m: Limiter, a: Attempt): Outcome {
    if a.password == "" || a.user == "" then Outcome(m, Refused)
    else
      var seen := LookedUp(m, a.user, a.checkedAt);
      if LockedOut(m, a.user, a.checkedAt) then Outcome(seen, Blocked)
      else if a.correct then Outcome(seen - {a.user}, Accepted)
      else
        var c := Bumped(seen, a.user, a.doneAt);
        Outcome(Pruned(seen[a.user := c], a.doneAt), Failed(c.count >= MAX_ATTEMPTS))
  }

  /** Above fifty users the expired ones are dropped, and none but these. */
  lemma PrunedExactly(m: Limiter, now: Time)
    ensures |m| <= 50 ==> Pruned(m, now) == m
    ensures |m| > 50 ==> forall u :: u in Pruned(m, now) <==> u in m && now < m[u].since + 901_000_000_000
    ensures forall u | u in Pruned(m, now) :: Pruned(m, now)[u] == m[u]
  {
    forall u | u in m ensures Expired(m[u], now) <==> now >= m[u].since + 901_000_000_000 {
      ExpiredExactly(m[u], now);
    }
    hide Expired;
  }

  // ----- The limiter object -----

  class SuperuserLimiter {
    var failures: Limiter

    constructor ()
      ensures failures == map[]
    {
      failures := map[];
    }

    method IsLockedOut(user: User, now: Time) returns (locked: bool)
      modifies this
      ensures failures == LookedUp(old(failures), user, now)
      ensures locked <==> LockedOut(old(failures), user, now)
    {
      locked := false;
      if user in failures {
        if ElapsedSecs(failures[user], now) > LOCKOUT_WINDOW_SECS {
          failures := failures - {user};
        } else {
          locked := failures[user].count >= MAX_ATTEMPTS;
        }
      }
    }

    method RecordFailure(user: User, now: Time) returns (locked: bool)
      modifies this
      ensures var c := Bumped(old(failures), user, now);
              failures == Pruned(old(failures)[user := c], now) && locked == (c.count >= MAX_ATTEMPTS)
    {
      var entry := if user in failures then failures[user] else Counter(0, now);
      if ElapsedSecs(entry, now) > LOCKOUT_WINDOW_SECS {
        entry := Counter(0, now);
      }
      entry := entry.(count := entry.count + 1);
      failures := failures[user := entry];
      locked := entry.count >= MAX_ATTEMPTS;
      if |failures| > PRUNE_THRESHOLD {
        failures := map u | u in failures && ElapsedSecs(failures[u], now) <= LOCKOUT_WINDOW_SECS :: failures[u];
      }
    }

    method ClearFailures(user: User)
      modifies this
      ensures failures == old(failures) - {user}
    {
      failures := failures - {user};
    }

    method Open(a: Attempt) returns (v: Verdict)
      modifies this
      ensures Outcome(failures, v) == Verify(old(failures), a)
    {
      if a.password == "" || a.user == "" {
        return Refused;
      }
      var locked := IsLockedOut(a.user, a.checkedAt);
      if locked {
        return Blocked;
      }
      if a.correct {
        ClearFailures(a.user);
        v := Accepted;
      } else {
        var nowLocked := RecordFailure(a.user, a.doneAt);
        v := Failed(nowLocked);
      }
    }
  }

  // ----- Whole runs: pruning never changes an answer -----

  /** The agent handles one message at a time, under a clock that never runs backwards. */
  predicate Serial(tries: seq<Attempt>) {
    && (forall i :: 0 <= i < |tries| ==> tries[i].checkedAt <= tries[i].doneAt)
    && (forall i, j :: 0 <= i < j < |tries| ==> tries[i].doneAt <= tries[j].checkedAt)
  }

  function Run(tries: seq<Attempt>): Outcome {
    if tries == [] then Outcome(map[], Refused)
    else Verify(Run(tries[..|tries| - 1]).limiter, tries[|tries| - 1])
  }

  /** The same handler with every removal of an expired entry taken out. */
  function VerifyPlain(m: Limiter, a: Attempt): Outcome {
    if a.password == "" || a.user == "" then Outcome(m, Refused)
    else if LockedOut(m, a.user, a.checkedAt) then Outcome(m, Blocked)
    else if a.correct then Outcome(m - {a.user}, Accepted)
    else
      var c := Bumped(m, a.user, a.doneAt);
      Outcome(m[a.user := c], Failed(c.count >= MAX_ATTEMPTS))
  }

  function RunPlain(tries: seq<Attempt>): Outcome {
    if tries == [] then Outcome(map[], Refused)
    else VerifyPlain(RunPlain(tries[..|tries| - 1]).limiter, tries[|tries| - 1])
  }

  /** `m` is `plain` less some entries that have expired by `now`. */
  ghost predicate PrunedFrom(m: Limiter, plain: Limiter, now: Time) {
    && (forall u :: u in m ==> u in plain && m[u] == plain[u])
    && (forall u :: u in plain && u !in m ==> Expired(plain[u], now))
  }

  lemma ExpiredLater(c: Counter, now: Time, later: Time)
    requires now <= later && Expired(c, now)
    ensures Expired(c, later)
  {
    ExpiredExactly(c, now);
    ExpiredExactly(c, later);
  }

  lemma PrunedFromLater(m: Limiter, plain: Limiter, now: Time, later: Time)
    requires PrunedFrom(m, plain, now) && now <= later
    ensures PrunedFrom(m, plain, later)
  {
    hide Expired;
    forall u | u in plain && u !in m ensures Expired(plain[u], later) {
      ExpiredLater(plain[u], now, later);
    }
  }

  /** Looking up and pruning drop nothing but expired entries. */
  lemma RemovalsKeepPrunedFrom(m: Limiter, plain: Limiter, user: User, now: Time)
    requires PrunedFrom(m, plain, now)
    ensures PrunedFrom(LookedUp(m, user, now), plain, now) && PrunedFrom(Pruned(m, now), plain, now)
    ensures LockedOut(m, user, now) == LockedOut(plain, user, now)
    ensures Bumped(m, user, now) == Bumped(plain, user, now)
  {
    hide Expired;
  }

  lemma UpdatesKeepPrunedFrom(m: Limiter, plain: Limiter, user: User, c: Counter, now: Time)
    requires PrunedFrom(m, plain, now)
    ensures PrunedFrom(m - {user}, plain - {user}, now) && PrunedFrom(m[user := c], plain[user := c], now)
  {
    hide Expired;
  }

  lemma VerifyIgnoresPruning(m: Limiter, plain: Limiter, a: Attempt, now: Time)
    requires now <= a.checkedAt <= a.doneAt
    requires PrunedFrom(m, plain, now)
    ensures Verify(m, a).verdict == VerifyPlain(plain, a).verdict
    ensures PrunedFrom(Verify(m, a).limiter, VerifyPlain(plain, a).limiter, a.doneAt)
  {
    hide LookedUp, LockedOut, Bumped, Pruned, PrunedFrom;
    PrunedFromLater(m, plain, now, a.doneAt);
    PrunedFromLater(m, plain, now, a.checkedAt);
    RemovalsKeepPrunedFrom(m, plain, a.user, a.checkedAt);
    var seen, c := LookedUp(m, a.user, a.checkedAt), Bumped(plain, a.user, a.doneAt);
    PrunedFromLater(seen, plain, a.checkedAt, a.doneAt);
    RemovalsKeepPrunedFrom(seen, plain, a.user, a.doneAt);
    UpdatesKeepPrunedFrom(seen, plain, a.user, c, a.doneAt);
    RemovalsKeepPrunedFrom(seen[a.user := c], plain[a.user := c], a.user, a.doneAt);
  }

  function LastTime(tries: seq<Attempt>): Time {
    if tries == [] then 0 else tries[|tries| - 1].doneAt
  }

  lemma {:induction false} PruningUnobservable(tries: seq<Attempt>)
    requires Serial(tries)
    ensures Run(tries).verdict == RunPlain(tries).verdict
    ensures PrunedFrom(Run(tries).limiter, RunPlain(tries).limiter, LastTime(tries))
  {
    if tries != [] {
      var init, a := tries[..|tries| - 1], tries[|tries| - 1];
      PruningUnobservable(init);
      VerifyIgnoresPruning(Run(init).limiter, RunPlain(init).limiter, a, LastTime(init));
    }
  }

  // ----- Whole runs: how many failures fit into a window -----

  predicate IsFailure(tries: seq<Attempt>, k: nat, user: User)
    requires k < |tries|
  {
    tries[k].user == user && Run(tries[..k + 1]).verdict.Failed?
  }

  predicate IsSuccess(tries: seq<Attempt>, k: nat, user: User)
    requires k < |tries|
  {
    tries[k].user == user && Run(tries[..k + 1]).verdict.Accepted?
  }

  /** The user's failures since the last success, grouped by the counter window they fell into. */
  function Windows(tries: seq<Attempt>, user: User): seq<seq<Time>> {
    if tries == [] then []
    else
      WindowsAfter(Windows(tries[..|tries| - 1], user), tries[|tries| - 1], RunPlain(tries).verdict, user)
  }

  predicate InWindow(w: seq<Time>) {
    && 0 < |w| <= MAX_ATTEMPTS
    && forall i :: 0 <= i < |w| ==> w[0] <= w[i] < w[0] + WINDOW
  }

  /** Each window opens only after the one before it has run out. */
  predicate WellSpaced(ws: seq<seq<Time>>) {
    && (forall j :: 0 <= j < |ws| ==> InWindow(ws[j]))
    && (forall i, j :: 0 <= i < j < |ws| ==> ws[i][0] + WINDOW <= ws[j][0])
  }

  ghost predicate CounterMatches(m: Limiter, ws: seq<seq<Time>>, user: User) {
    if ws == [] then user !in m
    else ws[|ws| - 1] != [] && user in m && m[user] == Counter(|ws[|ws| - 1]|, ws[|ws| - 1][0])
  }

  /** The windows after one more attempt, from the counter before it. */
  function WindowsAfter(ws: seq<seq<Time>>, a: Attempt, verdict: Verdict, user: User): seq<seq<Time>> {
    if a.user != user then ws
    else if verdict.Accepted? then []
    else if !verdict.Failed? then ws
    else if ws != [] && ws[|ws| - 1] != [] && a.doneAt < ws[|ws| - 1][0] + WINDOW then
      ws[|ws| - 1 := ws[|ws| - 1] + [a.doneAt]]
    else ws + [[a.doneAt]]
  }

  predicate AllBefore(ws: seq<seq<Time>>, now: Time) {
    forall j, i :: 0 <= j < |ws| && 0 <= i < |ws[j]| ==> ws[j][i] <= now
  }

  lemma WindowsAfterMatch(m: Limiter, ws: seq<seq<Time>>, a: Attempt, user: User, before: Time)
    requires CounterMatches(m, ws, user) && WellSpaced(ws) && AllBefore(ws, before)
    requires before <= a.checkedAt <= a.doneAt
    ensures var out := VerifyPlain(m, a);
            var ws' := WindowsAfter(ws, a, out.verdict, user);
            CounterMatches(out.limiter, ws', user) && WellSpaced(ws') && AllBefore(ws', a.doneAt)
  {
    if user in m {
      ExpiredExactly(m[user], a.checkedAt);
      ExpiredExactly(m[user], a.doneAt);
    }
    hide Expired;
  }

  lemma {:induction false} WindowsMatchCounter(tries: seq<Attempt>, user: User)
    requires Serial(tries)
    ensures CounterMatches(RunPlain(tries).limiter, Windows(tries, user), user)
    ensures WellSpaced(Windows(tries, user))
    ensures AllBefore(Windows(tries, user), LastTime(tries))
  {
    if tries != [] {
      var init, a := tries[..|tries| - 1], tries[|tries| - 1];
      WindowsMatchCounter(init, user);
      WindowsAfterMatch(RunPlain(init).limiter, Windows(init, user), a, user, LastTime(init));
      hide VerifyPlain, CounterMatches, WellSpaced, AllBefore;
    }
  }

  /** By the history, the user has failed six times in a window that is still open. */
  predicate LockedBy(ws: seq<seq<Time>>, now: Time) {
    ws != [] && |ws[|ws| - 1]| >= 6 && now < ws[|ws| - 1][0] + 901_000_000_000
  }

  /** By the history, one more failure now is the user's sixth in its window. */
  predicate SixthBy(ws: seq<seq<Time>>, now: Time) {
    ws != [] && |ws[|ws| - 1]| >= 5 && now < ws[|ws| - 1][0] + 901_000_000_000
  }

  /**
   * What each attempt is answered, by the user's failures since the last success: refused without a
   * user or password, blocked while six of them lie in the open window, and otherwise accepted if
   * the password is right and failed if it is not, with the notice of a lockout at the sixth.
   */
  lemma VerdictExactly(tries: seq<Attempt>, a: Attempt)
    requires Serial(tries + [a])
    ensures var ws := Windows(tries, a.user);
            Run(tries + [a]).verdict ==
            if a.password == "" || a.user == "" then Refused
            else if LockedBy(ws, a.checkedAt) then Blocked
            else if a.correct then Accepted
            else Failed(SixthBy(ws, a.doneAt))
  {
    var all := tries + [a];
    assert all[..|tries|] == tries && all[|tries|] == a;
    assert forall i :: 0 <= i < |tries| ==> all[i] == tries[i];
    PruningUnobservable(all);
    WindowsMatchCounter(tries, a.user);
    var m := RunPlain(tries).limiter;
    if a.user in m {
      ExpiredExactly(m[a.user], a.checkedAt);
      ExpiredExactly(m[a.user], a.doneAt);
    }
    hide Expired, Windows, RunPlain, Run, WellSpaced, AllBefore;
    assert RunPlain(all) == VerifyPlain(m, a) by {
      LastPlain(tries, a);
    }
  }

  lemma LastPlain(tries: seq<Attempt>, a: Attempt)
    ensures RunPlain(tries + [a]) == VerifyPlain(RunPlain(tries).limiter, a)
  {
    assert (tries + [a])[..|tries|] == tries;
  }

  /** A stored count never exceeds the limit. */
  lemma {:induction false} CountNeverExceedsLimit(tries: seq<Attempt>, user: User)
    requires Serial(tries)
    ensures user in Run(tries).limiter ==> Run(tries).limiter[user].count <= MAX_ATTEMPTS
  {
    PruningUnobservable(tries);
    WindowsMatchCounter(tries, user);
  }

  /** How many times lie in [x, x + WINDOW). */
  function CountIn(w: seq<Time>, x: Time): nat {
    if w == [] then 0
    else CountIn(w[..|w| - 1], x) + if x <= w[|w| - 1] < x + WINDOW then 1 else 0
  }

  function CountAll(ws: seq<seq<Time>>, x: Time): nat {
    if ws == [] then 0 else CountAll(ws[..|ws| - 1], x) + CountIn(ws[|ws| - 1], x)
  }

  lemma {:induction false} CountInBound(w: seq<Time>, x: Time)
    ensures CountIn(w, x) <= |w|
    ensures w != [] && w[0] < x ==> CountIn(w, x) < |w|
    ensures (forall i :: 0 <= i < |w| ==> w[i] < x || w[i] >= x + WINDOW) ==> CountIn(w, x) == 0
  {
    if w != [] {
      CountInBound(w[..|w| - 1], x);
    }
  }

  lemma {:induction false} CountAllZero(ws: seq<seq<Time>>, x: Time)
    requires forall j, i :: 0 <= j < |ws| && 0 <= i < |ws[j]| ==> ws[j][i] < x
    ensures CountAll(ws, x) == 0
  {
    if ws != [] {
      CountAllZero(ws[..|ws| - 1], x);
      CountInBound(ws[|ws| - 1], x);
    }
  }

  lemma CountAllOpenedBefore(ws: seq<seq<Time>>, x: Time)
    requires WellSpaced(ws) && (ws != [] ==> ws[|ws| - 1][0] < x)
    ensures CountAll(ws, x) <= MAX_ATTEMPTS - 1
  {
    if ws != [] {
      var init := ws[..|ws| - 1];
      forall j, i | 0 <= j < |init| && 0 <= i < |init[j]| ensures init[j][i] < x {
        assert InWindow(ws[j]) && ws[j][0] + WINDOW <= ws[|ws| - 1][0];
      }
      CountAllZero(init, x);
      CountInBound(ws[|ws| - 1], x);
    }
  }

  lemma {:induction false} CountAllBound(ws: seq<seq<Time>>, x: Time)
    requires WellSpaced(ws)
    ensures CountAll(ws, x) <= 2 * MAX_ATTEMPTS - 1
  {
    if ws != [] {
      var init, w := ws[..|ws| - 1], ws[|ws| - 1];
      assert InWindow(w);
      CountInBound(w, x);
      if w[0] < x {
        CountAllOpenedBefore(ws, x);
      } else if w[0] >= x + WINDOW {
        CountAllBound(init, x);
      } else {
        assert init != [] ==> init[|init| - 1][0] + WINDOW <= w[0];
        CountAllOpenedBefore(init, x);
      }
    }
  }

  /** Number of the user's failures among attempts `i` to `j`. */
  function FailuresBetween(tries: seq<Attempt>, i: nat, j: nat, user: User): nat
    requires i <= j <= |tries|
  {
    if i == j then 0 else FailuresBetween(tries, i, j - 1, user) + if IsFailure(tries, j - 1, user) then 1 else 0
  }

  lemma CountAllPush(ws: seq<seq<Time>>, w: seq<Time>, t: Time, x: Time)
    requires x <= t < x + WINDOW
    ensures CountAll(ws + [w + [t]], x) == CountAll(ws, x) + CountIn(w, x) + 1
  {
    assert (ws + [w + [t]])[..|ws|] == ws && (w + [t])[..|w|] == w;
  }

  /** One more attempt without a success adds its failure, if any, to the count. */
  lemma WindowsCountStep(init: seq<Attempt>, a: Attempt, user: User, x: Time)
    requires x <= a.doneAt < x + WINDOW
    requires !(a.user == user && RunPlain(init + [a]).verdict.Accepted?)
    ensures CountAll(Windows(init + [a], user), x)
         >= CountAll(Windows(init, user), x) + if a.user == user && RunPlain(init + [a]).verdict.Failed? then 1 else 0
  {
    assert (init + [a])[..|init|] == init;
    var ws := Windows(init, user);
    if a.user == user && RunPlain(init + [a]).verdict.Failed? {
      if ws != [] && ws[|ws| - 1] != [] && a.doneAt < ws[|ws| - 1][0] + WINDOW {
        CountAllPush(ws[..|ws| - 1], ws[|ws| - 1], a.doneAt, x);
        assert ws[|ws| - 1 := ws[|ws| - 1] + [a.doneAt]] == ws[..|ws| - 1] + [ws[|ws| - 1] + [a.doneAt]];
      } else {
        CountAllPush(ws, [], a.doneAt, x);
        assert [] + [a.doneAt] == [a.doneAt];
      }
    }
  }

  lemma VerdictAt(tries: seq<Attempt>, k: nat)
    requires Serial(tries) && k < |tries|
    ensures tries[..k + 1] == tries[..k] + [tries[k]]
    ensures Run(tries[..k + 1]).verdict == RunPlain(tries[..k] + [tries[k]]).verdict
  {
    assert tries[..k + 1] == tries[..k] + [tries[k]];
    PruningUnobservable(tries[..k + 1]);
  }

  lemma {:induction false} FailuresAreCounted(tries: seq<Attempt>, i: nat, j: nat, user: User)
    requires Serial(tries) && i <= j <= |tries| && i < |tries|
    requires forall k :: i <= k < j ==> !IsSuccess(tries, k, user)
    requires i < j ==> tries[j - 1].doneAt < tries[i].doneAt + WINDOW
    ensures FailuresBetween(tries, i, j, user) <= CountAll(Windows(tries[..j], user), tries[i].doneAt)
    decreases j
  {
    if i < j {
      var last := tries[j - 1];
      assert i < j - 1 ==> tries[j - 2].doneAt <= last.checkedAt <= last.doneAt && tries[i].doneAt <= last.checkedAt;
      FailuresAreCounted(tries, i, j - 1, user);
      VerdictAt(tries, j - 1);
      assert !IsSuccess(tries, j - 1, user);
      hide Serial, Run, RunPlain, Windows, CountAll;
      WindowsCountStep(tries[..j - 1], last, user, tries[i].doneAt);
    }
  }

  /**
   * Any stretch of attempts that spans less than 901 seconds and holds no success of the user holds
   * at most eleven failures of that user.
   */
  lemma LockoutBound(tries: seq<Attempt>, i: nat, j: nat, user: User)
    requires Serial(tries) && i < j <= |tries|
    requires forall k :: i <= k < j ==> !IsSuccess(tries, k, user)
    requires tries[j - 1].doneAt - tries[i].doneAt < WINDOW
    ensures FailuresBetween(tries, i, j, user) <= 11
  {
    FailuresAreCounted(tries, i, j, user);
    assert Serial(tries[..j]);
    WindowsMatchCounter(tries[..j], user);
    CountAllBound(Windows(tries[..j], user), tries[i].doneAt);
  }

  // ----- The bound is reached -----

  /** A wrong password at the end of one window, and again as soon as the next can open. */
  function WrongAt(user: User, i: nat): Attempt {
    var t := if i == 0 then 0 else if i < MAX_ATTEMPTS then WINDOW - 1 else WINDOW;
    Attempt(user, "wrong", false, t, t)
  }

  function Wrong(user: User, n: nat): (tries: seq<Attempt>)
    ensures |tries| == n
  {
    seq(n, i requires i >= 0 => WrongAt(user, i))
  }

  /** The counter after `n` wrong passwords. */
  function WrongCounter(n: nat): Counter {
    if n <= MAX_ATTEMPTS then Counter(n, 0) else Counter(n - MAX_ATTEMPTS, WINDOW)
  }

  function AfterWrong(user: User, n: nat): Limiter {
    if n == 0 then map[] else map[user := WrongCounter(n)]
  }

  lemma OneMoreFails(user: User, n: nat)
    requires user != "" && n < 2 * MAX_ATTEMPTS
    ensures VerifyPlain(AfterWrong(user, n), WrongAt(user, n))
         == Outcome(AfterWrong(user, n + 1), Failed(WrongCounter(n + 1).count >= MAX_ATTEMPTS))
  {
    ExpiredExactly(WrongCounter(n), WrongAt(user, n).doneAt);
    hide Expired;
  }

  lemma {:induction false} AllWrongFail(user: User, n: nat)
    requires user != "" && n <= 2 * MAX_ATTEMPTS
    ensures n > 0 ==> RunPlain(Wrong(user, n)).verdict.Failed?
    ensures RunPlain(Wrong(user, n)).limiter == AfterWrong(user, n)
  {
    if n > 0 {
      AllWrongFail(user, n - 1);
      OneMoreFails(user, n - 1);
      assert Wrong(user, n)[..n - 1] == Wrong(user, n - 1) && Wrong(user, n)[n - 1] == WrongAt(user, n - 1);
      hide VerifyPlain, AfterWrong, WrongAt, Wrong;
    }
  }

  lemma {:induction false} WrongIsFailure(user: User, n: nat, k: nat)
    requires user != "" && k < n <= 2 * MAX_ATTEMPTS
    ensures IsFailure(Wrong(user, n), k, user)
  {
    assert Wrong(user, n)[..k + 1] == Wrong(user, k + 1);
    assert Serial(Wrong(user, k + 1)) && Wrong(user, n)[k].user == user;
    hide Serial, Wrong;
    AllWrongFail(user, k + 1);
    PruningUnobservable(Wrong(user, k + 1));
    hide Run, RunPlain;
  }

  lemma {:induction false} WrongCounts(user: User, n: nat, i: nat, j: nat)
    requires user != "" && i <= j <= n <= 2 * MAX_ATTEMPTS
    ensures FailuresBetween(Wrong(user, n), i, j, user) == j - i
  {
    hide IsFailure, Wrong;
    if j > i {
      WrongCounts(user, n, i, j - 1);
      WrongIsFailure(user, n, j - 1);
    }
  }

  /**
   * Neither number can be improved: eleven failures fit into a single nanosecond, and a span of
   * exactly 901 seconds can hold twelve.
   */
  lemma LockoutBoundReached(user: User)
    requires user != ""
    ensures var tries := Wrong(user, 2 * MAX_ATTEMPTS);
            && Serial(tries) && |tries| == 12
            && (forall k :: 0 <= k < 12 ==> !IsSuccess(tries, k, user))
            && tries[11].doneAt - tries[1].doneAt == 1 && FailuresBetween(tries, 1, 12, user) == 11
            && tries[11].doneAt - tries[0].doneAt == WINDOW && FailuresBetween(tries, 0, 12, user) == 12
  {
    var tries := Wrong(user, 2 * MAX_ATTEMPTS);
    forall k | 0 <= k < 12 ensures !IsSuccess(tries, k, user) {
      WrongIsFailure(user, 12, k);
    }
    WrongCounts(user, 12, 1, 12);
    WrongCounts(user, 12, 0, 12);
    hide FailuresBetween, IsSuccess;
  }
}
