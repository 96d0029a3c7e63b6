/**
 * The `Stats` component's sample window: two parallel arrays, the
 * console's receipt times and the stats payloads, appended on every
 * collect and trimmed of the leading samples older than the retention
 * horizon `now - timeRange * 1.25`.
 */
module Window {
  import opened Payload

  /** The last `TimeRange` milliseconds are shown in the graphs. */
  const TimeRange: int := 300000
  /** Statistics are collected every `SampleRate` milliseconds. */
  const SampleRate: int := 2000
  /** `timeRange * 1.25`, exact in floating point: 375000 ms. */
  const Retention: int := TimeRange * 5 / 4

  /** The length of the leading run of times strictly below `cutoff`. */
  function StaleRun(ts: seq<int>, cutoff: int): (k: nat)
    ensures k <= |ts|
    ensures forall j :: 0 <= j < k ==> ts[j] < cutoff
    ensures k < |ts| ==> ts[k] >= cutoff
  {
    if |ts| == 0 || ts[0] >= cutoff then 0 else 1 + StaleRun(ts[1..], cutoff)
  }

  /** The leading stale run is the only prefix length with the two properties above. */
  lemma {:induction false} StaleRunUnique(ts: seq<int>, cutoff: int, k: nat)
    requires k <= |ts|
    requires forall j :: 0 <= j < k ==> ts[j] < cutoff
    requires k < |ts| ==> ts[k] >= cutoff
    ensures k == StaleRun(ts, cutoff)
  {
    if k > 0 {
      StaleRunUnique(ts[1..], cutoff, k - 1);
    }
  }

  /** The `while` loop of the collect callback: scan for the first time still in range. */
  method ScanStale(ts: seq<int>, cutoff: int) returns (i: nat)
    ensures i == StaleRun(ts, cutoff)
  {
    i := 0;
    while i < |ts| && ts[i] < cutoff
      invariant i <= |ts|
      invariant forall j :: 0 <= j < i ==> ts[j] < cutoff
    {
      i := i + 1;
    }
    StaleRunUnique(ts, cutoff, i);
  }

  /** The sample received at `now` is never older than `now - Retention`, so it is never trimmed. */
  lemma NewestKept(ts: seq<int>, now: int)
    ensures StaleRun(ts + [now], now - Retention) <= |ts|
  {
    var all := ts + [now];
    assert all[|ts|] == now;
  }

  /** The times kept after a collect at `now`. */
  function Trimmed(ts: seq<int>, now: int): seq<int>
  {
    ts[StaleRun(ts, now - Retention)..]
  }

  class StatsWindow {
    var timestamps: seq<int>
    var data: seq<Stats>

    ghost predicate Valid()
      reads this
    {
      |timestamps| == |data|
    }

    constructor ()
      ensures Valid() && timestamps == [] && data == []
    {
      timestamps := [];
      data := [];
    }

    /**
     * The collect callback: append `(now, payload)`, then drop the
     * leading run of samples received before `now - Retention` from
     * both arrays at once.
     */
    method Collect(now: int, payload: Stats)
      requires Valid()
      modifies this
      ensures Valid()
      ensures var k := StaleRun(old(timestamps) + [now], now - Retention);
        && timestamps == (old(timestamps) + [now])[k..]
        && data == (old(data) + [payload])[k..]
      ensures timestamps == Trimmed(old(timestamps) + [now], now)
      // the sample just appended always survives the trim
      ensures |timestamps| > 0 && timestamps[|timestamps| - 1] == now && data[|data| - 1] == payload
    {
      timestamps := timestamps + [now];
      data := data + [payload];
      var firstVisibleTime := now - Retention;
      var i := ScanStale(timestamps, firstVisibleTime);
      NewestKept(old(timestamps), now);
      if i != 0 {
        timestamps := timestamps[i..];
        data := data[i..];
      }
    }
  }

  /** Times never decrease along the window. */
  ghost predicate Ascending(ts: seq<int>)
  {
    forall i, j :: 0 <= i < j < |ts| ==> ts[i] <= ts[j]
  }

  /** Consecutive times are at least `gap` apart. */
  ghost predicate Spaced(ts: seq<int>, gap: int)
  {
    forall i :: 0 < i < |ts| ==> ts[i] - ts[i - 1] >= gap
  }

  /** The trim keeps a non-empty suffix of the appended window that ends with the newest sample. */
  lemma TrimmedSuffix(ts: seq<int>, now: int)
    ensures var kept := Trimmed(ts + [now], now);
      && 0 < |kept| <= |ts| + 1
      && kept == (ts + [now])[|ts| + 1 - |kept|..]
      && kept[|kept| - 1] == now
  {
    NewestKept(ts, now);
  }

  /** On an ascending window every kept time lies in `[now - Retention, now]`. */
  lemma TrimmedInRange(ts: seq<int>, now: int)
    requires Ascending(ts + [now])
    ensures var kept := Trimmed(ts + [now], now);
      forall j :: 0 <= j < |kept| ==> now - Retention <= kept[j] <= now
  {
    var all := ts + [now];
    var k := StaleRun(all, now - Retention);
    var kept := all[k..];
    NewestKept(ts, now);
    forall j | 0 <= j < |kept| ensures now - Retention <= kept[j] <= now {
      assert kept[j] == all[k + j];
      assert all[k] <= all[k + j] || j == 0;
      assert k + j == |all| - 1 || all[k + j] <= all[|all| - 1];
    }
  }

  /** Times at least `gap` apart span at least `gap` per step. */
  lemma {:induction false} SpacedSpan(ts: seq<int>, gap: int)
    requires |ts| > 0 && Spaced(ts, gap)
    ensures ts[|ts| - 1] - ts[0] >= (|ts| - 1) * gap
  {
    if |ts| > 1 {
      var front := ts[..|ts| - 1];
      assert Spaced(front, gap) by {
        forall i | 0 < i < |front| ensures front[i] - front[i - 1] >= gap {
          assert front[i] == ts[i] && front[i - 1] == ts[i - 1];
        }
      }
      SpacedSpan(front, gap);
    }
  }

  /**
   * The window does not grow without bound: when samples arrive at
   * least `SampleRate` apart and the window lies within the retention
   * horizon, it holds at most `Retention / SampleRate + 1` (188) samples.
   */
  lemma WindowBounded(ts: seq<int>, now: int)
    requires |ts| > 0 && Spaced(ts, SampleRate)
    requires forall j :: 0 <= j < |ts| ==> now - Retention <= ts[j] <= now
    ensures |ts| <= Retention / SampleRate + 1
  {
    SpacedSpan(ts, SampleRate);
    assert (|ts| - 1) * SampleRate <= Retention;
  }

  /** Spacing of at least one positive gap makes a window ascending. */
  lemma {:induction false} SpacedAscending(ts: seq<int>, gap: int)
    requires gap >= 0 && Spaced(ts, gap)
    ensures Ascending(ts)
  {
    if |ts| > 1 {
      var front := ts[..|ts| - 1];
      assert Spaced(front, gap) by {
        forall i | 0 < i < |front| ensures front[i] - front[i - 1] >= gap {
          assert front[i] == ts[i] && front[i - 1] == ts[i - 1];
        }
      }
      SpacedAscending(front, gap);
      forall i, j | 0 <= i < j < |ts| ensures ts[i] <= ts[j] {
        if j < |ts| - 1 {
          assert ts[i] == front[i] && ts[j] == front[j];
        } else {
          assert ts[i] <= ts[j - 1] by { assert i == j - 1 || (ts[i] == front[i] && ts[j - 1] == front[j - 1]); }
        }
      }
    }
  }

  /**
   * Steady state: if the window so far was collected at least
   * `SampleRate` apart and the next collect comes at least `SampleRate`
   * later, the window after the collect holds at most 188 samples.
   */
  lemma SteadyStateBound(ts: seq<int>, now: int)
    requires Spaced(ts + [now], SampleRate)
    ensures |Trimmed(ts + [now], now)| <= Retention / SampleRate + 1
  {
    var all := ts + [now];
    SpacedAscending(all, SampleRate);
    TrimmedSuffix(ts, now);
    TrimmedInRange(ts, now);
    var kept := Trimmed(all, now);
    var k := |all| - |kept|;
    assert Spaced(kept, SampleRate) by {
      forall i | 0 < i < |kept| ensures kept[i] - kept[i - 1] >= SampleRate {
        assert kept[i] == all[k + i] && kept[i - 1] == all[k + i - 1];
      }
    }
    WindowBounded(kept, now);
  }
}
