// The editor's timing rules: the debounced save that follows every edit and
// the age limit on a restorable draft. Time is a number of milliseconds
// supplied by the caller; no real clock is read.
module AutoSave {
  import opened Text

  /** Delay between the last edit and the debounced save. */
  const DebounceMs: int := 2000

  /** A stored draft older than this is not offered for restoring. */
  const DraftMaxAgeMs: int := 24 * 60 * 60 * 1000

  /** The draft freshness test: saved strictly less than a day before `now`. */
  function IsFresh(lastSave: int, now: int): (recent: bool)
    ensures recent <==> now - lastSave < 86400000
  {
    lastSave > now - DraftMaxAgeMs
  }

  /** The single pending timeout behind the debounced save. */
  class DebounceTimer {
    var deadline: Option<int>

    constructor()
      ensures deadline == None
    {
      deadline := None;
    }

    /** Clear the pending timeout and start a new one at `now`. */
    method Trigger(now: int)
      modifies this
      ensures deadline == Some(now + DebounceMs)
    {
      deadline := Some(now + DebounceMs);
    }

    /** Let the clock reach `now`: a deadline that has passed fires once and is gone. */
    method Tick(now: int) returns (fired: Option<int>)
      modifies this
      ensures old(deadline).Some? && old(deadline).value <= now ==>
                fired == old(deadline) && deadline == None
      ensures !(old(deadline).Some? && old(deadline).value <= now) ==>
                fired == None && deadline == old(deadline)
    {
      if deadline.Some? && deadline.value <= now {
        fired := deadline;
        deadline := None;
      } else {
        fired := None;
      }
    }
  }

  /** The save that fires between two consecutive edits: only when the gap is at least the delay. */
  function GapFire(before: int, after: int): seq<int> {
    if before + DebounceMs <= after then [before + DebounceMs] else []
  }

  /** The saves fired inside a series of edit times, not counting the one after the last edit. */
  function QuietFires(times: seq<int>): seq<int>
    decreases |times|
  {
    if |times| < 2 then [] else GapFire(times[0], times[1]) + QuietFires(times[1..])
  }

  /** Every save fired by a series of edits, the clock running on after the last one. */
  function DebounceFires(times: seq<int>): seq<int> {
    if times == [] then [] else QuietFires(times) + [times[|times| - 1] + DebounceMs]
  }

  lemma {:induction false} QuietFiresSnoc(times: seq<int>)
    requires |times| >= 2
    ensures QuietFires(times) ==
            QuietFires(times[..|times| - 1]) + GapFire(times[|times| - 2], times[|times| - 1])
    decreases |times|
  {
    if |times| > 2 {
      QuietFiresSnoc(times[1..]);
      assert times[1..][..|times| - 2] == times[..|times| - 1][1..];
    }
  }

  /**
   * Replays the timer over a series of edits: each edit first lets the clock
   * reach its time, then re-arms the timeout; after the last edit the clock
   * runs until the timer is idle. A deadline equal to the next edit's time
   * fires before that edit.
   */
  method ReplayEdits(times: seq<int>) returns (fires: seq<int>)
    ensures fires == DebounceFires(times)
  {
    var timer := new DebounceTimer();
    fires := [];
    var i := 0;
    while i < |times|
      invariant 0 <= i <= |times|
      invariant timer.deadline == if i == 0 then None else Some(times[i - 1] + DebounceMs)
      invariant fires == QuietFires(times[..i])
    {
      var f := timer.Tick(times[i]);
      if f.Some? {
        fires := fires + [f.value];
      }
      if i > 0 {
        QuietFiresSnoc(times[..i + 1]);
        assert times[..i + 1][..i] == times[..i];
      }
      timer.Trigger(times[i]);
      i := i + 1;
    }
    assert times[..i] == times;
    if timer.deadline.Some? {
      fires := fires + [timer.deadline.value];
    }
  }

  /** A burst of edits each within the delay of the previous one saves exactly once. */
  lemma {:induction false} BurstFiresOnce(times: seq<int>)
    requires |times| >= 1
    requires forall k :: 0 <= k < |times| - 1 ==> times[k + 1] < times[k] + DebounceMs
    ensures DebounceFires(times) == [times[|times| - 1] + DebounceMs]
  {
    BurstNoQuietFire(times);
  }

  lemma {:induction false} BurstNoQuietFire(times: seq<int>)
    requires forall k :: 0 <= k < |times| - 1 ==> times[k + 1] < times[k] + DebounceMs
    ensures QuietFires(times) == []
    decreases |times|
  {
    if |times| >= 2 {
      assert times[1] < times[0] + DebounceMs;
      BurstNoQuietFire(times[1..]);
    }
  }

  /** A save fires inside the series exactly DebounceMs after an edit followed by a long enough gap. */
  lemma {:induction false} QuietFiresAreGaps(times: seq<int>, f: int)
    ensures f in QuietFires(times) <==>
            exists k :: 0 <= k < |times| - 1 && times[k] + DebounceMs <= times[k + 1] &&
                        f == times[k] + DebounceMs
  {
    if f in QuietFires(times) {
      QuietFireHasGap(times, f);
    }
    if exists k :: 0 <= k < |times| - 1 && times[k] + DebounceMs <= times[k + 1] &&
                   f == times[k] + DebounceMs {
      var k :| 0 <= k < |times| - 1 && times[k] + DebounceMs <= times[k + 1] &&
               f == times[k] + DebounceMs;
      GapHasQuietFire(times, k);
    }
  }

  lemma {:induction false} QuietFireHasGap(times: seq<int>, f: int)
    requires f in QuietFires(times)
    ensures exists k :: 0 <= k < |times| - 1 && times[k] + DebounceMs <= times[k + 1] &&
                        f == times[k] + DebounceMs
    decreases |times|
  {
    if f in GapFire(times[0], times[1]) {
      assert times[0] + DebounceMs <= times[1] && f == times[0] + DebounceMs;
    } else {
      assert f in QuietFires(times[1..]);
      QuietFireHasGap(times[1..], f);
      var k :| 0 <= k < |times| - 2 && times[1..][k] + DebounceMs <= times[1..][k + 1] &&
               f == times[1..][k] + DebounceMs;
      assert times[k + 1] + DebounceMs <= times[k + 2] && f == times[k + 1] + DebounceMs;
    }
  }

  lemma {:induction false} GapHasQuietFire(times: seq<int>, k: nat)
    requires k < |times| - 1 && times[k] + DebounceMs <= times[k + 1]
    ensures times[k] + DebounceMs in QuietFires(times)
    decreases k
  {
    if k > 0 {
      assert times[1..][k - 1] == times[k] && times[1..][k] == times[k + 1];
      GapHasQuietFire(times[1..], k - 1);
    }
  }
}
