/** The playback queue of the voice roleplay simulator
    (components/LivePricingSimulator.tsx, `onmessage`): the time at which the next
    inbound chunk starts, and the set of sources that are playing or scheduled.
    Sources are named by number; the clock (`ctx.currentTime`) is an input. */
module Playback {

  function Max(a: real, b: real): (m: real)
    ensures m >= a && m >= b
    ensures m == a || m == b
  {
    if a >= b then a else b
  }

  datatype Queue = Queue(nextStart: real, sources: set<nat>)

  /** `nextStartTime = Math.max(nextStartTime, ctx.currentTime)`: a chunk never starts in
      the past, nor before the audio already queued has finished. */
  function StartTime(q: Queue, now: real): (t: real)
    ensures t >= now && t >= q.nextStart
    ensures t == now || t == q.nextStart
  {
    Max(q.nextStart, now)
  }

  /** A decoded chunk of `duration` seconds, played by source `id`: the source is started at
      the start time, the queue end moves exactly `duration` past it, and the source joins
      the live set. */
  function Schedule(q: Queue, now: real, duration: real, id: nat): (r: Queue)
    ensures r.nextStart - duration == StartTime(q, now)
    ensures r.nextStart >= now + duration && r.nextStart >= q.nextStart + duration
    ensures r.sources == q.sources + {id}
  {
    Queue(StartTime(q, now) + duration, q.sources + {id})
  }

  /** A chunk whose decoding threw: the start time was already raised to the clock, but no
      source is added and the queue end does not advance. */
  function Drop(q: Queue, now: real): (r: Queue)
    ensures r.sources == q.sources
    ensures r.nextStart == StartTime(q, now)
    ensures q.nextStart >= now ==> r == q
  {
    Queue(StartTime(q, now), q.sources)
  }

  /** An `interrupted` message: every source is stopped, the set is emptied and the queue
      end is reset to 0 (not to the clock). */
  function Interrupt(q: Queue): (r: Queue)
    ensures r.sources == {} && r.nextStart == 0.0
  {
    Queue(0.0, {})
  }

  /** The `ended` event of source `id` removes it from the live set. */
  function Ended(q: Queue, id: nat): (r: Queue)
    ensures r.nextStart == q.nextStart
    ensures r.sources == q.sources - {id}
    ensures id !in r.sources
  {
    Queue(q.nextStart, q.sources - {id})
  }

  /** After an interruption the next chunk starts at the current clock, whatever was queued. */
  lemma InterruptRestartsAtClock(q: Queue, now: real, duration: real, id: nat)
    requires now >= 0.0
    ensures StartTime(Interrupt(q), now) == now
    ensures Schedule(Interrupt(q), now, duration, id) == Queue(now + duration, {id})
  {
  }

  /** The `ended` event of a source that is not in the set (already cleared by an
      interruption or a teardown) changes nothing. */
  lemma EndedAbsent(q: Queue, id: nat)
    requires id !in q.sources
    ensures Ended(q, id) == q
  {
  }

  /** One inbound chunk, as the scheduler sees it: the clock when it arrives and the
      duration of its decoded buffer. */
  datatype Arrival = Arrival(now: real, duration: real)

  /** The start times of successive chunks, beginning with queue end `next`. */
  function Starts(next: real, arrivals: seq<Arrival>): (r: seq<real>)
    ensures |r| == |arrivals|
    ensures forall i :: 0 <= i < |r| ==> r[i] >= arrivals[i].now
    ensures |r| > 0 ==> r[0] == Max(next, arrivals[0].now)
    decreases |arrivals|
  {
    if arrivals == [] then []
    else
      var t := Max(next, arrivals[0].now);
      [t] + Starts(t + arrivals[0].duration, arrivals[1..])
  }

  /** The queue end after the successive chunks. */
  function FinalNext(next: real, arrivals: seq<Arrival>): real
    decreases |arrivals|
  {
    if arrivals == [] then next
    else FinalNext(Max(next, arrivals[0].now) + arrivals[0].duration, arrivals[1..])
  }

  /** Scheduling the successive chunks, source ids `firstId`, `firstId + 1`, ... */
  function Run(q: Queue, arrivals: seq<Arrival>, firstId: nat): Queue
    decreases |arrivals|
  {
    if arrivals == [] then q
    else Run(Schedule(q, arrivals[0].now, arrivals[0].duration, firstId), arrivals[1..], firstId + 1)
  }

  /** The source ids `lo`, ..., `lo + n - 1`. */
  function Ids(lo: nat, n: nat): (r: set<nat>)
    ensures forall k :: k in r <==> lo <= k < lo + n
  {
    if n == 0 then {} else Ids(lo, n - 1) + {lo + n - 1}
  }

  /** Running the scheduler chunk by chunk ends at `FinalNext`, with one new source per chunk. */
  lemma {:induction false} RunEnds(q: Queue, arrivals: seq<Arrival>, firstId: nat)
    ensures Run(q, arrivals, firstId).nextStart == FinalNext(q.nextStart, arrivals)
    ensures Run(q, arrivals, firstId).sources == q.sources + Ids(firstId, |arrivals|)
    decreases |arrivals|
  {
    if arrivals != [] {
      var q' := Schedule(q, arrivals[0].now, arrivals[0].duration, firstId);
      RunEnds(q', arrivals[1..], firstId + 1);
      assert q'.sources + Ids(firstId + 1, |arrivals| - 1) == q.sources + Ids(firstId, |arrivals|);
    }
  }

  /** Each chunk starts at the later of the previous chunk's end and its own arrival. */
  lemma {:induction false} StartsChain(next: real, arrivals: seq<Arrival>, i: nat)
    requires 0 < i < |arrivals|
    ensures Starts(next, arrivals)[i] ==
      Max(Starts(next, arrivals)[i - 1] + arrivals[i - 1].duration, arrivals[i].now)
    decreases |arrivals|
  {
    var t := Max(next, arrivals[0].now);
    var rest := Starts(t + arrivals[0].duration, arrivals[1..]);
    assert Starts(next, arrivals) == [t] + rest;
    assert Starts(next, arrivals)[i] == rest[i - 1] && arrivals[i] == arrivals[1..][i - 1];
    if i > 1 {
      StartsChain(t + arrivals[0].duration, arrivals[1..], i - 1);
      assert Starts(next, arrivals)[i - 1] == rest[i - 2] && arrivals[i - 1] == arrivals[1..][i - 2];
    }
  }

  /** The queue end after a burst is the end of its last chunk. */
  lemma {:induction false} FinalNextIsLastEnd(next: real, arrivals: seq<Arrival>)
    requires |arrivals| > 0
    ensures FinalNext(next, arrivals) ==
      Starts(next, arrivals)[|arrivals| - 1] + arrivals[|arrivals| - 1].duration
    decreases |arrivals|
  {
    var n := |arrivals|;
    var t := Max(next, arrivals[0].now);
    var rest := arrivals[1..];
    var starts := Starts(t + arrivals[0].duration, rest);
    assert Starts(next, arrivals) == [t] + starts;
    assert FinalNext(next, arrivals) == FinalNext(t + arrivals[0].duration, rest);
    if n > 1 {
      FinalNextIsLastEnd(t + arrivals[0].duration, rest);
      assert rest[n - 2] == arrivals[n - 1];
      assert Starts(next, arrivals)[n - 1] == starts[n - 2];
    }
  }

  /** No two chunks overlap: each starts no earlier than the previous one ends; and a chunk
      that arrives while earlier audio is still queued starts exactly when that audio ends. */
  lemma NoOverlapNoGap(next: real, arrivals: seq<Arrival>, i: nat)
    requires 0 < i < |arrivals|
    ensures Starts(next, arrivals)[i] >= Starts(next, arrivals)[i - 1] + arrivals[i - 1].duration
    ensures arrivals[i].now <= Starts(next, arrivals)[i - 1] + arrivals[i - 1].duration ==>
      Starts(next, arrivals)[i] == Starts(next, arrivals)[i - 1] + arrivals[i - 1].duration
    ensures arrivals[i].now > Starts(next, arrivals)[i - 1] + arrivals[i - 1].duration ==>
      Starts(next, arrivals)[i] == arrivals[i].now
  {
    StartsChain(next, arrivals, i);
  }

  /** With non-negative durations the start times never decrease. */
  lemma {:induction false} StartsNondecreasing(next: real, arrivals: seq<Arrival>)
    requires forall k :: 0 <= k < |arrivals| ==> arrivals[k].duration >= 0.0
    ensures forall i, j :: 0 <= i <= j < |arrivals| ==> Starts(next, arrivals)[i] <= Starts(next, arrivals)[j]
  {
    var r := Starts(next, arrivals);
    forall i, j | 0 <= i <= j < |arrivals|
      ensures r[i] <= r[j]
    {
      var k := i;
      while k < j
        invariant i <= k <= j
        invariant r[i] <= r[k]
      {
        StartsChain(next, arrivals, k + 1);
        k := k + 1;
      }
    }
  }

  function Sum(arrivals: seq<Arrival>): real
    decreases |arrivals|
  {
    if arrivals == [] then 0.0 else Sum(arrivals[..|arrivals| - 1]) + arrivals[|arrivals| - 1].duration
  }

  lemma SumPrefix(arrivals: seq<Arrival>, i: nat)
    requires i < |arrivals|
    ensures Sum(arrivals[..i + 1]) == Sum(arrivals[..i]) + arrivals[i].duration
  {
    assert arrivals[..i + 1][..i] == arrivals[..i];
  }

  /** One chunk of a gapless burst starts where the previous one ends. */
  lemma BackToBackStep(next: real, arrivals: seq<Arrival>, i: nat)
    requires 0 < i < |arrivals|
    requires arrivals[i].now <= Starts(next, arrivals)[i - 1] + arrivals[i - 1].duration
    requires Starts(next, arrivals)[i - 1] == Starts(next, arrivals)[0] + Sum(arrivals[..i - 1])
    ensures Starts(next, arrivals)[i] == Starts(next, arrivals)[0] + Sum(arrivals[..i])
  {
    NoOverlapNoGap(next, arrivals, i);
    SumPrefix(arrivals, i - 1);
  }

  /** A burst of chunks that each arrive before the queue drains plays gaplessly: chunk i
      starts at the first start plus the durations of the chunks before it, and the queue
      then ends at the first start plus the total duration. */
  lemma {:induction false} BackToBack(next: real, arrivals: seq<Arrival>)
    requires |arrivals| > 0
    requires forall i :: 0 < i < |arrivals| ==>
      arrivals[i].now <= Starts(next, arrivals)[i - 1] + arrivals[i - 1].duration
    ensures forall i :: 0 <= i < |arrivals| ==>
      Starts(next, arrivals)[i] == Starts(next, arrivals)[0] + Sum(arrivals[..i])
    ensures FinalNext(next, arrivals) == Starts(next, arrivals)[0] + Sum(arrivals)
  {
    var r := Starts(next, arrivals);
    var i := 0;
    assert arrivals[..0] == [];
    while i < |arrivals| - 1
      invariant 0 <= i < |arrivals|
      invariant forall k :: 0 <= k <= i ==> r[k] == r[0] + Sum(arrivals[..k])
    {
      BackToBackStep(next, arrivals, i + 1);
      i := i + 1;
    }
    var n := |arrivals|;
    FinalNextIsLastEnd(next, arrivals);
    SumPrefix(arrivals, n - 1);
    assert arrivals[..n] == arrivals;
  }
}
