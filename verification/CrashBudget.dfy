/** The sliding-window crash budget of the backend supervisor. */
module CrashBudget {
  import opened Positions

  /** `Instant::duration_since`, which saturates at zero for a later argument. */
  function Since(now: int, t: int): nat {
    if now >= t then now - t else 0
  }

  /** The entries of `log` younger than `window` at `now`, in order. */
  function Recent(log: seq<int>, now: int, window: nat): seq<int> {
    if log == [] then []
    else
      var rest := Recent(log[..|log| - 1], now, window);
      if Since(now, log[|log| - 1]) < window then rest + [log[|log| - 1]] else rest
  }

  ghost predicate NonDecreasing(log: seq<int>) {
    forall i, j :: 0 <= i < j < |log| ==> log[i] <= log[j]
  }

  /** What the budget stores after the whole crash log, recorded one crash at a time. */
  function Stored(log: seq<int>, window: nat): seq<int> {
    if log == [] then []
    else
      var now := log[|log| - 1];
      Recent(Stored(log[..|log| - 1], window), now, window) + [now]
  }

  /** Whether the `i`-th crash of the log was granted a restart. */
  ghost predicate Granted(log: seq<int>, i: int, window: nat, max: nat)
    requires 0 <= i < |log|
  {
    |Stored(log[..i + 1], window)| < max
  }

  class Budget {
    const window: nat
    const max: nat
    var crashes: seq<int>
    /** Every crash recorded since construction or the last reset. */
    ghost var log: seq<int>

    ghost predicate Valid() reads this {
      crashes == Stored(log, window)
    }

    constructor (window: nat, max: nat)
      ensures Valid() && log == [] && this.window == window && this.max == max
    {
      this.window, this.max := window, max;
      crashes, log := [], [];
    }

    method RecordAndAllowsRestart(now: int) returns (allowed: bool)
      requires Valid()
      modifies this
      ensures Valid()
      ensures log == old(log) + [now]
      ensures allowed <==> Granted(log, |log| - 1, window, max)
    {
      var kept: seq<int> := [];
      for i := 0 to |crashes|
        invariant kept == Recent(crashes[..i], now, window)
      {
        assert crashes[..i + 1][..i] == crashes[..i];
        if Since(now, crashes[i]) < window {
          kept := kept + [crashes[i]];
        }
      }
      assert crashes[..|crashes|] == crashes;
      log := log + [now];
      assert log[..|log| - 1] == old(log) && log[..|log|] == log;
      crashes := kept + [now];
      allowed := |crashes| < max;
    }

    method Reset()
      modifies this
      ensures Valid() && log == []
    {
      crashes, log := [], [];
    }
  }

  // ── The stored vector is the full log, filtered to the window ──

  /** Pruning at an earlier instant first loses nothing that a later pruning would keep. */
  lemma {:induction false} RecentOfRecent(log: seq<int>, t0: int, t1: int, window: nat)
    requires t0 <= t1
    requires forall i :: 0 <= i < |log| ==> log[i] <= t0
    ensures Recent(Recent(log, t0, window), t1, window) == Recent(log, t1, window)
  {
    if log != [] {
      var init, last := log[..|log| - 1], log[|log| - 1];
      RecentOfRecent(init, t0, t1, window);
      var rest := Recent(init, t0, window);
      assert (rest + [last])[..|rest|] == rest;
    }
  }

  lemma {:induction false} StoredIsRecent(log: seq<int>, window: nat)
    requires NonDecreasing(log) && log != []
    ensures Stored(log, window)
            == Recent(log[..|log| - 1], log[|log| - 1], window) + [log[|log| - 1]]
  {
    var init, now := log[..|log| - 1], log[|log| - 1];
    if init != [] {
      StoredIsRecent(init, window);
      var init2, prev := init[..|init| - 1], init[|init| - 1];
      var kept := Recent(init2, prev, window);
      assert (kept + [prev])[..|kept|] == kept;
      RecentOfRecent(init2, prev, now, window);
    }
  }

  // ── At most max - 1 restarts in any window ──

  ghost predicate Increasing(picks: seq<int>, bound: int) {
    && (forall k :: 0 <= k < |picks| ==> 0 <= picks[k] < bound)
    && (forall k, l :: 0 <= k < l < |picks| ==> picks[k] < picks[l])
  }

  /** Distinct log positions inside the window are all counted by `Recent`. */
  lemma {:induction false} RecentCounts(log: seq<int>, now: int, window: nat, picks: seq<int>)
    requires Increasing(picks, |log|)
    requires forall k :: 0 <= k < |picks| ==> Since(now, log[picks[k]]) < window
    ensures |picks| <= |Recent(log, now, window)|
  {
    if picks != [] {
      assert 0 <= picks[|picks| - 1] < |log|;
      var init := log[..|log| - 1];
      if picks[|picks| - 1] == |log| - 1 {
        RecentCounts(init, now, window, picks[..|picks| - 1]);
      } else {
        RecentCounts(init, now, window, picks);
      }
    }
  }

  /** Crashes granted a restart within less than one window of each other number at most max - 1. */
  lemma {:induction false} RestartsPerWindow(log: seq<int>, window: nat, max: nat, granted: seq<int>)
    requires NonDecreasing(log)
    requires Increasing(granted, |log|) && granted != []
    requires forall k :: 0 <= k < |granted| ==> Granted(log, granted[k], window, max)
    requires log[granted[|granted| - 1]] - log[granted[0]] < window
    ensures |granted| <= max - 1
  {
    hide Recent, Stored;
    var last := granted[|granted| - 1];
    var prefix := log[..last + 1];
    StoredIsRecent(prefix, window);
    assert prefix[..|prefix| - 1] == log[..last];
    var earlier := granted[..|granted| - 1];
    forall k | 0 <= k < |earlier| ensures Since(log[last], log[..last][earlier[k]]) < window {
      assert log[granted[0]] <= log[earlier[k]];
    }
    RecentCounts(log[..last], log[last], window, earlier);
  }

  /** The positions of the entries younger than the window; those after `now` count as new. */
  function Young(log: seq<int>, now: int, window: nat): set<nat> {
    set i | 0 <= i < |log| && (if now >= log[i] then now - log[i] else 0) < window
  }

  lemma YoungNext(log: seq<int>, now: int, window: nat)
    requires log != []
    ensures var n: nat := |log| - 1;
            Young(log, now, window)
            == Young(log[..n], now, window) + (if Since(now, log[n]) < window then {n} else {})
  {
  }

  /** What is kept, in order: exactly the entries younger than the window. */
  lemma {:induction false} RecentIs(log: seq<int>, now: int, window: nat) returns (at: seq<nat>)
    ensures Lists(at, Young(log, now, window)) && |at| == |Recent(log, now, window)|
    ensures forall k :: 0 <= k < |at| ==> at[k] < |log| && Recent(log, now, window)[k] == log[at[k]]
  {
    if log == [] {
      at := [];
    } else {
      hide Young, Lists;
      var n := |log| - 1;
      at := RecentIs(log[..n], now, window);
      YoungNext(log, now, window);
      if Since(now, log[n]) < window {
        YoungBefore(log[..n], now, window);
        ListsNext(at, Young(log[..n], now, window), n);
        at := at + [n];
      }
    }
  }

  lemma YoungBefore(log: seq<int>, now: int, window: nat)
    ensures forall i :: i in Young(log, now, window) ==> i < |log|
  {
  }

  /** A restart is refused exactly when max - 1 earlier crashes already lie in the window. */
  lemma RefusedIff(log: seq<int>, i: int, window: nat, max: nat)
    requires NonDecreasing(log) && 0 <= i < |log|
    ensures !Granted(log, i, window, max)
            <==> |set j: nat | j < i && log[i] - log[j] < window| + 1 >= max
  {
    StoredIsRecent(log[..i + 1], window);
    assert log[..i + 1][..i] == log[..i];
    var at := RecentIs(log[..i], log[i], window);
    ListsSize(at, Young(log[..i], log[i], window));
    assert Young(log[..i], log[i], window) == set j: nat | j < i && log[i] - log[j] < window;
  }
}
