/**
 * The frame-rate counter of shapes/FpsCounter.cs: a first-in first-out queue
 * of deadlines in clock ticks, one second after each frame was drawn. The two
 * reads of the wall clock are handed in as parameters.
 */
module FrameCounter {

  /** TimeSpan.TicksPerSecond: ticks are units of 100 nanoseconds. */
  const TicksPerSecond: int := 10_000_000

  /** The front deadline has passed at `snapshot`, written as the source compares it. */
  predicate Passed(deadline: int, snapshot: int) {
    deadline - snapshot < 0
  }

  /** The queue after Update's check: the front entry is dropped when its deadline has passed. */
  function Expire(frames: seq<int>, snapshot: int): (rest: seq<int>)
    ensures rest == frames || (|frames| > 0 && rest == frames[1..])
    ensures |rest| < |frames| <==> |frames| > 0 && Passed(frames[0], snapshot)
  {
    if |frames| > 0 && Passed(frames[0], snapshot) then frames[1..] else frames
  }

  /** The queue after Update with the clock reading `snapshot` for the check and `now` for the new frame. */
  function AfterUpdate(frames: seq<int>, snapshot: int, now: int): seq<int> {
    Expire(frames, snapshot) + [now + TicksPerSecond]
  }

  /**
   * What one Update does to the queue: the new deadline is at the back, in
   * front of it stand the old entries in their old order, less the front one
   * exactly when that one had passed, so the count grows by one or stays.
   */
  lemma UpdateShape(frames: seq<int>, snapshot: int, now: int)
    ensures var q := AfterUpdate(frames, snapshot, now);
      |q| > 0 && q[|q| - 1] == now + TicksPerSecond &&
      (q[..|q| - 1] == frames || (|frames| > 0 && q[..|q| - 1] == frames[1..])) &&
      (|q| == |frames| + 1 || |q| == |frames|) &&
      (|q| == |frames| <==> |frames| > 0 && Passed(frames[0], snapshot))
  {
    var q := AfterUpdate(frames, snapshot, now);
    assert q[..|q| - 1] == Expire(frames, snapshot);
  }

  predicate Sorted(s: seq<int>) {
    forall i, j :: 0 <= i <= j < |s| ==> s[i] <= s[j]
  }

  /** A sorted queue stays sorted when the new deadline is no earlier than any queued one. */
  lemma UpdateKeepsSorted(frames: seq<int>, snapshot: int, now: int)
    requires Sorted(frames)
    requires forall i :: 0 <= i < |frames| ==> frames[i] <= now + TicksPerSecond
    ensures Sorted(AfterUpdate(frames, snapshot, now))
  {
    var rest := Expire(frames, snapshot);
    assert forall i :: 0 <= i < |rest| ==> rest[i] <= now + TicksPerSecond by {
      if rest != frames {
        assert forall i :: 0 <= i < |rest| ==> rest[i] == frames[i + 1];
      }
    }
  }

  /** The two clock readings of one Update. */
  datatype Reading = Reading(snapshot: int, now: int)

  /** The queue after a run of Updates, oldest reading first. */
  function Replay(frames: seq<int>, readings: seq<Reading>): seq<int>
    decreases |readings|
  {
    if readings == [] then frames
    else
      var last := readings[|readings| - 1];
      AfterUpdate(Replay(frames, readings[..|readings| - 1]), last.snapshot, last.now)
  }

  /** The frame-drawing clock readings never go backwards. */
  predicate Monotone(readings: seq<Reading>) {
    forall i, j :: 0 <= i <= j < |readings| ==> readings[i].now <= readings[j].now
  }

  /**
   * From an empty counter, Updates with a clock that never goes backwards keep
   * the queue sorted, with the latest deadline at the back; the queue holds at
   * least one and at most one entry per Update.
   */
  lemma {:induction false} ReplayKeepsSorted(readings: seq<Reading>)
    requires Monotone(readings)
    ensures var q := Replay([], readings);
      Sorted(q) && |q| <= |readings| &&
      (|readings| > 0 ==> 0 < |q| && q[|q| - 1] == readings[|readings| - 1].now + TicksPerSecond)
  {
    if readings != [] {
      var prefix := readings[..|readings| - 1];
      var last := readings[|readings| - 1];
      assert Monotone(prefix) by {
        assert forall i :: 0 <= i < |prefix| ==> prefix[i] == readings[i];
      }
      ReplayKeepsSorted(prefix);
      var before := Replay([], prefix);
      if prefix != [] {
        assert prefix[|prefix| - 1] == readings[|readings| - 2];
        assert before[|before| - 1] <= last.now + TicksPerSecond;
      }
      UpdateKeepsSorted(before, last.snapshot, last.now);
      UpdateShape(before, last.snapshot, last.now);
    }
  }

  class FpsCounter {
    /** Queue<long>: index 0 is the front (Peek, Dequeue), the end is the back (Enqueue). */
    var Frames: seq<int>

    constructor ()
      ensures Frames == []
      ensures FrameCount() == 0
    {
      Frames := [];
    }

    /** The number of queued deadlines. */
    function FrameCount(): (n: nat)
      reads this
      ensures n == |Frames|
    {
      |Frames|
    }

    /** `snapshotTicks` and `nowTicks` are the two clock readings, in that order. */
    method Update(snapshotTicks: int, nowTicks: int)
      modifies this
      ensures Frames == AfterUpdate(old(Frames), snapshotTicks, nowTicks)
      ensures 0 < FrameCount() && (FrameCount() == old(FrameCount()) || FrameCount() == old(FrameCount()) + 1)
    {
      if |Frames| > 0 {
        var snapshot := snapshotTicks;
        if Frames[0] - snapshot < 0 {
          Frames := Frames[1..];
        }
      }
      AddFrame(nowTicks);
    }

    method AddFrame(nowTicks: int)
      modifies this
      ensures Frames == old(Frames) + [nowTicks + TicksPerSecond]
    {
      var end := nowTicks + TicksPerSecond;
      Frames := Frames + [end];
    }
  }
}
