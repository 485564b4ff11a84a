/** When the watchdog gives up on the wireless link and reboots the board. */
module Watchdog {
  import opened Wrappers

  /** One poll: whether the link is broken, and what a scan for the access point would find. */
  datatype Poll = Poll(broken: bool, found: bool)

  // ---------------------------------------------------------------- the rule, over histories

  /** The fourth broken poll in a row, or a later one. */
  predicate FourBroken(h: seq<Poll>, n: nat)
    requires n < |h|
  {
    n >= 3 && h[n].broken && h[n - 1].broken && h[n - 2].broken && h[n - 3].broken
  }

  /** A broken poll scans for the access point, unless it is the fourth in a row. */
  predicate Scans(h: seq<Poll>, n: nat)
    requires n < |h|
  {
    h[n].broken && !FourBroken(h, n)
  }

  predicate Misses(h: seq<Poll>, n: nat)
    requires n < |h|
  {
    Scans(h, n) && !h[n].found
  }

  predicate Finds(h: seq<Poll>, n: nat)
    requires n < |h|
  {
    Scans(h, n) && h[n].found
  }

  /** Scans at the polls `at`, before poll `n`, have failed, with no successful one since the first of them. */
  predicate MissedAt(h: seq<Poll>, n: nat, at: seq<nat>)
    requires n <= |h|
  {
    && (forall i :: 0 <= i < |at| ==> at[i] < n && Misses(h, at[i]))
    && (forall i, j :: 0 <= i < j < |at| ==> at[i] < at[j])
    && (forall i, m :: 0 <= i < |at| && at[i] <= m < n ==> !Finds(h, m))
  }

  ghost predicate FourMissed(h: seq<Poll>, n: nat)
    requires n < |h|
  {
    exists at: seq<nat> :: |at| == 4 && MissedAt(h, n + 1, at)
  }

  ghost predicate Hopeless(h: seq<Poll>, n: nat)
    requires n < |h|
  {
    FourBroken(h, n) || FourMissed(h, n)
  }

  // ---------------------------------------------------------------- what the two counters hold

  /** Broken polls in a row before poll `n`. */
  function Streak(h: seq<Poll>, n: nat): nat
    requires n <= |h|
  {
    if n == 0 || !h[n - 1].broken then 0 else 1 + Streak(h, n - 1)
  }

  /** Failed scans before poll `n`, since the last successful one. */
  function Failures(h: seq<Poll>, n: nat): nat
    requires n <= |h|
  {
    if n == 0 || Finds(h, n - 1) then 0
    else if Misses(h, n - 1) then 1 + Failures(h, n - 1)
    else Failures(h, n - 1)
  }

  lemma StreakIsFourBroken(h: seq<Poll>, n: nat)
    requires n < |h|
    ensures FourBroken(h, n) <==> Streak(h, n + 1) >= 4
  {
    if n >= 3 {
      assert Streak(h, n + 1) == if h[n].broken then 1 + Streak(h, n) else 0;
      assert Streak(h, n) == if h[n - 1].broken then 1 + Streak(h, n - 1) else 0;
      assert Streak(h, n - 1) == if h[n - 2].broken then 1 + Streak(h, n - 2) else 0;
      assert Streak(h, n - 2) == if h[n - 3].broken then 1 + Streak(h, n - 3) else 0;
    } else {
      StreakBound(h, n + 1);
    }
  }

  lemma {:induction false} StreakBound(h: seq<Poll>, n: nat)
    requires n <= |h|
    ensures Streak(h, n) <= n
  {
    if n > 0 {
      StreakBound(h, n - 1);
    }
  }

  /** The polls whose failed scans are counted. */
  lemma {:induction false} CountedMisses(h: seq<Poll>, n: nat) returns (at: seq<nat>)
    requires n <= |h|
    ensures |at| == Failures(h, n) && MissedAt(h, n, at)
  {
    hide Scans;
    if n == 0 || Finds(h, n - 1) {
      at := [];
    } else {
      at := CountedMisses(h, n - 1);
      if Misses(h, n - 1) {
        at := at + [n - 1];
      }
    }
  }

  /** The last of the polls, taken away when it is the latest one. */
  function Earlier(n: nat, at: seq<nat>): seq<nat> {
    if at != [] && at[|at| - 1] + 1 == n then at[..|at| - 1] else at
  }

  lemma EarlierMissed(h: seq<Poll>, n: nat, at: seq<nat>)
    requires 0 < n <= |h| && MissedAt(h, n, at)
    ensures MissedAt(h, n - 1, Earlier(n, at))
    ensures at != [] ==> !Finds(h, n - 1) && (|Earlier(n, at)| < |at| ==> Misses(h, n - 1))
    ensures |at| <= |Earlier(n, at)| + 1
  {
    hide Misses, Finds;
    if at != [] {
      assert at[|at| - 1] <= n - 1 < n;
      assert !Finds(h, n - 1);
    }
  }

  lemma {:induction false} MissesAreCounted(h: seq<Poll>, n: nat, at: seq<nat>)
    requires n <= |h| && MissedAt(h, n, at)
    ensures Failures(h, n) >= |at|
    decreases n
  {
    if at != [] {
      assert at[0] < n;
      hide Misses, Finds, MissedAt, Earlier;
      EarlierMissed(h, n, at);
      MissesAreCounted(h, n - 1, Earlier(n, at));
    }
  }

  lemma FailuresAreFourMissed(h: seq<Poll>, n: nat)
    requires n < |h|
    ensures FourMissed(h, n) <==> Failures(h, n + 1) >= 4
  {
    if FourMissed(h, n) {
      var at :| |at| == 4 && MissedAt(h, n + 1, at);
      MissesAreCounted(h, n + 1, at);
    }
    if Failures(h, n + 1) >= 4 {
      var at := CountedMisses(h, n + 1);
      var last := at[|at| - 4..];
      assert MissedAt(h, n + 1, last);
    }
  }

  // ---------------------------------------------------------------- the program

  class Watch {
    var flag: nat
    var noAp: nat
    var linkBrk: nat

    constructor ()
      ensures flag == 0 && noAp == 0 && linkBrk == 0
    {
      flag, noAp, linkBrk := 0, 0, 0;
    }

    /** A broken poll: reboot after the fourth in a row, otherwise scan and count. */
    method OnLinkBreakage(found: bool)
      modifies this`flag, this`noAp
      ensures flag == old(flag) + 1
      ensures noAp == if old(flag) == 3 then old(noAp) else if found then 0 else old(noAp) + 1
    {
      if flag == 3 {
        flag := 4;
        return;
      }
      if found {
        noAp := 0;
      } else {
        noAp := noAp + 1;
      }
      flag := flag + 1;
    }

    /** The polling loop: it leaves, to reboot, at the first hopeless poll and at no other. */
    method Polls(h: seq<Poll>) returns (exit: Option<nat>)
      requires flag == 0 && noAp == 0 && linkBrk == 0
      modifies this
      ensures exit.Some? ==>
        && exit.value < |h| && Hopeless(h, exit.value)
        && (forall m :: 0 <= m < exit.value ==> !Hopeless(h, m))
        && (flag == 4 <==> FourBroken(h, exit.value)) && (noAp == 4 <==> FourMissed(h, exit.value))
      ensures exit.None? ==> forall m :: 0 <= m < |h| ==> !Hopeless(h, m)
      ensures exit.None? ==> flag == linkBrk == Streak(h, |h|) && noAp == Failures(h, |h|)
    {
      hide FourBroken, FourMissed;
      var i := 0;
      while i < |h|
        invariant i <= |h|
        invariant flag == linkBrk == Streak(h, i) <= 3 && noAp == Failures(h, i) <= 3
        invariant forall m :: 0 <= m < i ==> !Hopeless(h, m)
      {
        StreakIsFourBroken(h, i);
        FailuresAreFourMissed(h, i);
        if h[i].broken {
          linkBrk := linkBrk + 1;
          OnLinkBreakage(h[i].found);
          if flag == 4 || noAp == 4 {
            return Some(i);
          }
        } else {
          flag := 0;
          linkBrk := 0;
        }
        i := i + 1;
      }
      return None;
    }
  }
}
