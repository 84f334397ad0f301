/** Model of runWithReconnect in portforward.go: the retry loop of one port
    forward, run against everything the network, the user and the cluster may do. */
module Reconnect {
  import opened Common

  const MAX_RETRIES: nat := 10
  const MAX_BACKOFF: nat := 30

  /** What happens around one attempt: the user stops the forward before it, during
      it or during the wait after it; it became ready or did not; and the pod is
      still there when looked at after the wait. */
  datatype Attempt = Attempt(stoppedBefore: bool, connected: bool, stoppedDuring: bool, stoppedInWait: bool,
    podAlive: bool)

  datatype Outcome = Stopped | PodGone | GaveUp

  predicate Halts(a: Attempt) {
    a.stoppedBefore || a.stoppedDuring || a.stoppedInWait
  }

  predicate Gone(isPod: bool, a: Attempt) {
    isPod && !a.podAlive
  }

  /** The attempts before the n-th that never became ready, counted back to the
      last one that did, or to the start. */
  function Streak(f: nat -> Attempt, n: nat): nat {
    if n == 0 || f(n - 1).connected then 0 else Streak(f, n - 1) + 1
  }

  predicate Cold(f: nat -> Attempt, n: nat) {
    Streak(f, n) == n
  }

  /** The seconds waited after the n-th attempt: 1, 2, 4, ... up to 30; a dropped
      connection is followed by 1 and the doubling starts over. */
  function Wait(f: nat -> Attempt, n: nat): nat {
    var j := Streak(f, n + 1);
    if Cold(f, n + 1) then Min(MAX_BACKOFF, Pow2(n)) else Min(MAX_BACKOFF, Pow2(j))
  }

  ghost predicate NoneHalts(f: nat -> Attempt, n: nat) {
    forall i | 0 <= i < n :: !Halts(f(i))
  }

  ghost predicate NoneGone(isPod: bool, f: nat -> Attempt, n: int) {
    forall i | 0 <= i < n :: !Gone(isPod, f(i))
  }

  ghost predicate NotYetTen(f: nat -> Attempt, n: nat) {
    forall i | 0 <= i < n :: Streak(f, i) < MAX_RETRIES
  }

  /** The loop ends with this outcome after n complete waits. */
  ghost predicate EndsAt(isPod: bool, f: nat -> Attempt, outcome: Outcome, n: nat) {
    && NoneHalts(f, n) && NotYetTen(f, n) && NoneGone(isPod, f, n - 1)
    && match outcome
       case PodGone => n > 0 && Gone(isPod, f(n - 1))
       case GaveUp => n > 0 && NoneGone(isPod, f, n) && Streak(f, n) == MAX_RETRIES
       case Stopped => NoneGone(isPod, f, n) && Streak(f, n) < MAX_RETRIES && Halts(f(n))
  }

  lemma NoLaterEnding(isPod: bool, f: nat -> Attempt, o1: Outcome, n1: nat, o2: Outcome, n2: nat)
    requires EndsAt(isPod, f, o1, n1) && n1 < n2
    ensures !EndsAt(isPod, f, o2, n2)
  {
    if Streak(f, n1) < MAX_RETRIES && !Halts(f(n1)) {
      assert n1 > 0 && Gone(isPod, f(n1 - 1));
    }
  }

  /** What happens decides how a run ends: no two endings fit the same attempts. */
  lemma EndingIsDetermined(isPod: bool, f: nat -> Attempt, o1: Outcome, n1: nat, o2: Outcome, n2: nat)
    requires EndsAt(isPod, f, o1, n1) && EndsAt(isPod, f, o2, n2)
    ensures o1 == o2 && n1 == n2
  {
    if n1 < n2 { NoLaterEnding(isPod, f, o1, n1, o2, n2); }
    if n2 < n1 { NoLaterEnding(isPod, f, o2, n2, o1, n1); }
  }

  lemma {:induction false} StreakCounts(f: nat -> Attempt, n: nat, i: nat)
    requires n - Streak(f, n) <= i < n
    ensures Streak(f, n) <= n && !f(i).connected && Streak(f, i) == i - (n - Streak(f, n))
    decreases n
  {
    if i < n - 1 {
      StreakCounts(f, n - 1, i);
    } else {
      StreakBound(f, n - 1);
    }
  }

  lemma {:induction false} StreakBound(f: nat -> Attempt, n: nat)
    ensures Streak(f, n) <= n && (Streak(f, n) < n ==> f(n - Streak(f, n) - 1).connected)
  {
    if n > 0 && !f(n - 1).connected {
      StreakBound(f, n - 1);
    }
  }

  lemma TenthFailure(f: nat -> Attempt, n: nat)
    requires Streak(f, n) == MAX_RETRIES
    ensures n >= MAX_RETRIES && (forall i | n - MAX_RETRIES <= i < n :: !f(i).connected)
    ensures n > MAX_RETRIES ==> f(n - MAX_RETRIES - 1).connected
  {
    StreakBound(f, n);
    forall i | n - MAX_RETRIES <= i < n ensures !f(i).connected {
      StreakCounts(f, n, i);
    }
  }

  ghost predicate Undisturbed(isPod: bool, f: nat -> Attempt) {
    forall i: nat :: !Halts(f(i)) && !Gone(isPod, f(i))
  }

  lemma EndsAtTheFirstTen(isPod: bool, f: nat -> Attempt, outcome: Outcome, n: nat)
    requires Undisturbed(isPod, f)
    ensures EndsAt(isPod, f, outcome, n) <==>
      outcome == GaveUp && Streak(f, n) == MAX_RETRIES && NotYetTen(f, n)
  {
    assert !Halts(f(n)) && (n > 0 ==> !Gone(isPod, f(n - 1)));
    assert NoneHalts(f, n) && NoneGone(isPod, f, n);
  }

  /** The ten attempts before the n-th never became ready. */
  ghost predicate TenInARow(f: nat -> Attempt, n: nat) {
    n >= MAX_RETRIES && forall i | n - MAX_RETRIES <= i < n :: !f(i).connected
  }

  lemma {:induction false} StreakOfFailures(f: nat -> Attempt, n: nat, k: nat)
    requires k <= n && forall i | n - k <= i < n :: !f(i).connected
    ensures Streak(f, n) >= k
  {
    if k > 0 {
      assert !f(n - 1).connected;
      StreakOfFailures(f, n - 1, k - 1);
    }
  }

  lemma StreakIsTenInARow(f: nat -> Attempt, n: nat)
    ensures Streak(f, n) >= MAX_RETRIES <==> TenInARow(f, n)
  {
    StreakBound(f, n);
    if Streak(f, n) >= MAX_RETRIES {
      forall i | n - MAX_RETRIES <= i < n ensures !f(i).connected {
        StreakCounts(f, n, i);
      }
    } else if n >= MAX_RETRIES && forall i | n - MAX_RETRIES <= i < n :: !f(i).connected {
      StreakOfFailures(f, n, MAX_RETRIES);
    }
  }

  /** Without a stop or a dead pod the loop gives up exactly when, for the first time,
      the last ten attempts in a row never became ready, and ends in no other way. */
  lemma GivesUpAfterTenFailures(isPod: bool, f: nat -> Attempt, outcome: Outcome, n: nat)
    requires Undisturbed(isPod, f)
    ensures EndsAt(isPod, f, outcome, n) <==>
      outcome == GaveUp && TenInARow(f, n) && forall m: nat | m < n :: !TenInARow(f, m)
  {
    EndsAtTheFirstTen(isPod, f, outcome, n);
    forall m: nat ensures Streak(f, m) >= MAX_RETRIES <==> TenInARow(f, m) {
      StreakIsTenInARow(f, m);
    }
    if TenInARow(f, n) && n > 0 {
      assert Streak(f, n) == Streak(f, n - 1) + 1;
    }
  }

  /** The waits after the attempts from lo to hi - 1. */
  function Total(f: nat -> Attempt, lo: nat, hi: nat): nat
    requires lo <= hi
    decreases hi - lo
  {
    if lo == hi then 0 else Total(f, lo, hi - 1) + Wait(f, hi - 1)
  }

  lemma {:induction false} TotalOfStreak(f: nat -> Attempt, from: nat, n: nat, cold: bool)
    requires from <= n <= from + MAX_RETRIES && Streak(f, n) == n - from
    requires if cold then from == 0 else from > 0 && f(from - 1).connected
    ensures Total(f, if cold then 0 else from - 1, n) == if cold then ColdTotal(n) else DropTotal(n - from)
    decreases n
  {
    if n > from {
      StreakCounts(f, n, n - 1);
      TotalOfStreak(f, from, n - 1, cold);
    } else if !cold {
      StreakBound(f, n);
    }
  }

  /** The waits of the first n attempts when none became ready. */
  function ColdTotal(n: nat): nat {
    if n == 0 then 0 else ColdTotal(n - 1) + Min(MAX_BACKOFF, Pow2(n - 1))
  }

  /** The waits after a dropped connection and n attempts that never became ready. */
  function DropTotal(n: nat): nat {
    if n == 0 then 1 else DropTotal(n - 1) + Min(MAX_BACKOFF, Pow2(n))
  }

  lemma Powers()
    ensures Pow2(1) == 2 && Pow2(2) == 4 && Pow2(3) == 8 && Pow2(4) == 16 && Pow2(5) == 32
    ensures forall j | 5 <= j <= 10 :: Pow2(j) >= 32
  {
    assert Pow2(6) == 64 && Pow2(7) == 128 && Pow2(8) == 256 && Pow2(9) == 512 && Pow2(10) == 1024;
  }

  /** A forward that never came up is given up after waiting 181 seconds in all. */
  lemma ColdStartWaits181(isPod: bool, f: nat -> Attempt, n: nat)
    requires EndsAt(isPod, f, GaveUp, n) && forall i | 0 <= i < n :: !f(i).connected
    ensures n == MAX_RETRIES && Total(f, 0, n) == 181
  {
    StreakBound(f, n);
    TenthFailure(f, n);
    TotalOfStreak(f, 0, n, true);
    Powers();
    assert ColdTotal(5) == 31 && ColdTotal(10) == 181;
  }

  /** One that dropped is given up 211 seconds of waiting after the drop. */
  lemma DropWaits211(isPod: bool, f: nat -> Attempt, n: nat)
    requires EndsAt(isPod, f, GaveUp, n) && exists i :: 0 <= i < n && f(i).connected
    ensures n > MAX_RETRIES && f(n - MAX_RETRIES - 1).connected && Total(f, n - MAX_RETRIES - 1, n) == 211
  {
    TenthFailure(f, n);
    TotalOfStreak(f, n - MAX_RETRIES, n, false);
    Powers();
    assert DropTotal(4) == 31 && DropTotal(10) == 211;
  }

  /** The wait that would follow one more attempt that does not become ready. */
  function NextWait(f: nat -> Attempt, n: nat): nat {
    if Cold(f, n) then Min(MAX_BACKOFF, Pow2(n)) else Min(MAX_BACKOFF, Pow2(Streak(f, n) + 1))
  }

  lemma NextWaitDoubles(f: nat -> Attempt, n: nat)
    ensures Wait(f, n) == if f(n).connected then 1 else NextWait(f, n)
    ensures NextWait(f, n + 1) == Min(MAX_BACKOFF, 2 * Wait(f, n))
  {
    StreakBound(f, n);
  }

  ghost predicate WaitsAre(f: nat -> Attempt, waits: seq<nat>) {
    forall i | 0 <= i < |waits| :: waits[i] == Wait(f, i) && 1 <= waits[i] <= MAX_BACKOFF
  }

  /** What one more round that runs to the end of its wait adds. */
  lemma OneMoreRound(isPod: bool, f: nat -> Attempt, waits: seq<nat>, backoff: nat)
    requires WaitsAre(f, waits) && backoff == NextWait(f, |waits|)
    requires NoneHalts(f, |waits|) && NoneGone(isPod, f, |waits|) && NotYetTen(f, |waits|)
      && Streak(f, |waits|) < MAX_RETRIES
    requires !Halts(f(|waits|))
    ensures var n, w := |waits|, if f(|waits|).connected then 1 else backoff;
      && WaitsAre(f, waits + [w]) && NextWait(f, n + 1) == Min(MAX_BACKOFF, 2 * w)
      && NoneHalts(f, n + 1) && NotYetTen(f, n + 1) && (!Gone(isPod, f(n)) ==> NoneGone(isPod, f, n + 1))
      && Streak(f, n + 1) == if f(n).connected then 0 else Streak(f, n) + 1
  {
    NextWaitDoubles(f, |waits|);
    Pow2IsPositive(|waits|);
    Pow2IsPositive(Streak(f, |waits| + 1));
  }

  /** What each ending means: nobody stopped the forward and its pod was there in every
      round before. */
  ghost predicate EndingFits(isPod: bool, f: nat -> Attempt, outcome: Outcome, n: nat) {
    && (forall i | 0 <= i < n :: !f(i).stoppedBefore && !f(i).stoppedDuring && !f(i).stoppedInWait)
    && (isPod ==> forall i | 0 <= i < n - 1 :: f(i).podAlive)
    && (outcome.Stopped? ==> f(n).stoppedBefore || f(n).stoppedDuring || f(n).stoppedInWait)
    && (outcome.PodGone? <==> isPod && n > 0 && !f(n - 1).podAlive)
  }

  lemma EndingFitsTheAttempts(isPod: bool, f: nat -> Attempt, outcome: Outcome, n: nat)
    requires EndsAt(isPod, f, outcome, n)
    ensures EndingFits(isPod, f, outcome, n)
  {
    forall i | 0 <= i < n ensures !f(i).stoppedBefore && !f(i).stoppedDuring && !f(i).stoppedInWait {
      assert !Halts(f(i));
    }
    forall i | 0 <= i < n && (isPod && i < n - 1) ensures f(i).podAlive {
      assert !Gone(isPod, f(i));
    }
    if n > 0 && !outcome.PodGone? { assert !Gone(isPod, f(n - 1)); }
  }

  /** The waits start at one second, double up to thirty, and start over when the
      connection was ready. */
  ghost predicate Doubling(f: nat -> Attempt, waits: seq<nat>) {
    && (waits != [] ==> waits[0] == 1)
    && forall i | 0 < i < |waits| :: waits[i] == if f(i).connected then 1 else Min(30, 2 * waits[i - 1])
  }

  lemma WaitsDouble(f: nat -> Attempt, waits: seq<nat>)
    requires WaitsAre(f, waits)
    ensures Doubling(f, waits)
  {
    forall i | 0 <= i < |waits|
      ensures waits[i] == if i == 0 || f(i).connected then 1 else Min(30, 2 * waits[i - 1])
    {
      NextWaitDoubles(f, i);
      if i > 0 { NextWaitDoubles(f, i - 1); }
    }
  }

  /** The loop itself.  It ends whatever happens, provided the connection becomes
      ready only finitely often: `last` bounds when. */
  method RunWithReconnect(isPod: bool, f: nat -> Attempt, ghost last: nat) returns (outcome: Outcome, waits: seq<nat>)
    requires forall n: nat | n >= last :: !f(n).connected
    ensures EndsAt(isPod, f, outcome, |waits|)
    ensures WaitsAre(f, waits)
  {
    var attempt, backoff := 0, 1;
    waits := [];
    while attempt < MAX_RETRIES
      invariant 0 <= attempt <= MAX_RETRIES && attempt == Streak(f, |waits|)
      invariant NoneHalts(f, |waits|) && NoneGone(isPod, f, |waits|) && NotYetTen(f, |waits|)
      invariant WaitsAre(f, waits) && backoff == NextWait(f, |waits|)
      decreases if |waits| < last then last - |waits| else 0, MAX_RETRIES - attempt
    {
      var a := f(|waits|);
      if a.stoppedBefore {
        return Stopped, waits;
      }
      if a.stoppedDuring {
        return Stopped, waits;
      }
      ghost var next := backoff;
      if a.connected {
        attempt := -1;
        backoff := 1;
      }
      if a.stoppedInWait {
        return Stopped, waits;
      }
      OneMoreRound(isPod, f, waits, next);
      waits := waits + [backoff];
      backoff := backoff * 2;
      if backoff > MAX_BACKOFF {
        backoff := MAX_BACKOFF;
      }
      if isPod {
        if !a.podAlive {
          return PodGone, waits;
        }
      }
      attempt := attempt + 1;
    }
    outcome := GaveUp;
  }
}
