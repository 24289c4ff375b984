/** Clients that reconnect: what two streams of one task give together, and from which
    numbers it is safe to resume. */
module Reconnecting {
  import opened Types
  import opened Sequences
  import opened Events
  import opened Pipeline
  import opened Subscribers
  import opened TaskObjects
  import opened Delivery

  /** The events up to number `n` are exactly the first `c`. */
  ghost predicate Cuts(hist: seq<SeqEvent>, c: nat, n: nat) {
    c <= |hist| && forall j | 0 <= j < |hist| :: hist[j].seqNo <= n <==> j < c
  }

  // ---- Two streams put together ----

  /** How far into history a stream had delivered with its item `m`. */
  function Through(first: Sub, m: nat): int
    requires m < |first.out|
  {
    Start(first) + |EventsOf(first.out[..m + 1])|
  }

  /** What two streams of one task delivered, the first only through its item `m`. */
  function Joined(first: Sub, second: Sub, m: nat): seq<SeqEvent>
    requires m < |first.out|
  {
    EventsOf(first.out[..m + 1]) + EventsOf(second.out)
  }

  /** The second stream resumed from an item the first one delivered - an event, or the
      task announced on its bus - which had been sent by then, with at most 256 events
      after it when the log was read. */
  ghost predicate Reconnects(lane: Lane, first: Sub, second: Sub, m: nat) {
    && Streaming(first) && first.gap.None? && Streaming(second) && second.gap.None?
    && m < |first.out| && second.since == Some(first.out[m].seqNo) && KnownId(lane, second)
    && second.snap <= Through(first, m) + EVENT_LOG_CAPACITY
  }

  ghost predicate IsStretch(hist: seq<SeqEvent>, from: int, events: seq<SeqEvent>) {
    0 <= from <= from + |events| <= |hist| && events == hist[from..from + |events|]
  }

  /** What one stream over this stretch of history would have given: all up to its first
      closing event, or, not yet done, a prefix of that. */
  ghost predicate AsOneStream(hist: seq<SeqEvent>, from: int, end: int, done: bool, events: seq<SeqEvent>) {
    && 0 <= from <= end <= |hist|
    && events <= UpToFirst(hist[from..end], ItemCloses)
    && (done ==> events == UpToFirst(hist[from..end], ItemCloses))
  }

  /** Two streams put together are one stretch of history; unless the client resumed
      from a closing event, they are what one unbroken stream would have given. */
  ghost predicate JoinsUp(lane: Lane, first: Sub, second: Sub, m: nat)
    requires m < |first.out| && second.bus.Some?
  {
    && second.bus.value < |lane.epochs|
    && IsStretch(lane.hist, Start(first), Joined(first, second, m))
    && (!ItemCloses(first.out[m]) ==>
          AsOneStream(lane.hist, Start(first), Horizon(lane, second), second.phase.Done?, Joined(first, second, m)))
  }

  /** Reconnecting loses nothing and repeats nothing. */
  lemma Reconnection(moves: seq<Move>, id: string, i: nat, k: nat, m: nat)
    requires i < |LaneAt(Run(moves), id).subs| && k < |LaneAt(Run(moves), id).subs|
    requires var lane := LaneAt(Run(moves), id);
             Reconnects(lane, lane.subs[i], lane.subs[k], m)
    ensures var lane := LaneAt(Run(moves), id);
            JoinsUp(lane, lane.subs[i], lane.subs[k], m)
  {
    var s, lane := Run(moves), LaneAt(Run(moves), id);
    FirstFacts(moves, id, i, m);
    StreamFactsIn(moves, id, k);
    KnownIsCleanIn(moves, id, k);
    ReconnectionOn(s.next, lane, lane.subs[i], lane.subs[k], m);
  }

  /** A stream through its item `m` gave the stretch of history up to that item's number,
      and nothing in it closes the stream but possibly the item itself. */
  ghost predicate FirstPart(hist: seq<SeqEvent>, first: Sub, m: nat)
    requires m < |first.out|
  {
    && 0 <= Start(first) <= Through(first, m)
    && Cuts(hist, Through(first, m), first.out[m].seqNo)
    && EventsOf(first.out[..m + 1]) == hist[Start(first)..Through(first, m)]
    && (!ItemCloses(first.out[m]) ==> NoneStops(EventsOf(first.out[..m + 1]), ItemCloses))
  }

  lemma FirstFacts(moves: seq<Move>, id: string, i: nat, m: nat)
    requires i < |LaneAt(Run(moves), id).subs|
    requires var first := LaneAt(Run(moves), id).subs[i];
             Streaming(first) && first.gap.None? && m < |first.out|
    ensures FirstPart(LaneAt(Run(moves), id).hist, LaneAt(Run(moves), id).subs[i], m)
  {
    var s, lane := Run(moves), LaneAt(Run(moves), id);
    ReachableSub(moves, id, i);
    ReachableTask(moves, id, i);
    BusOfSub(s.next, lane, lane.subs[i]);
    StreamReached(s.next, lane, lane.subs[i]);
    FirstPartHere(lane, lane.subs[i], m);
  }

  lemma FirstPartHere(lane: Lane, first: Sub, m: nat)
    requires Streaming(first) && first.gap.None? && first.bus.value < |lane.epochs| && m < |first.out|
    requires Increasing(lane.hist) && DeliveredStretch(lane, first) && StopsOnlyLast(first.out, ItemCloses)
    requires AllApart(lane) && AnnouncedOk(lane, first)
    ensures FirstPart(lane.hist, first, m)
  {
    var e := lane.epochs[first.bus.value];
    assert Apart(lane.hist, e);
    PartStops(first.out, m);
    if first.out[m].evt.TaskObject? {
      PartAtTask(lane.hist, e, Start(first), first.out, m);
    } else {
      PartAtEvent(lane.hist, Start(first), Reached(lane, first), first.out, m);
    }
  }

  lemma PartStops(out: seq<SeqEvent>, m: nat)
    requires StopsOnlyLast(out, ItemCloses) && m < |out|
    ensures !ItemCloses(out[m]) ==> NoneStops(EventsOf(out[..m + 1]), ItemCloses)
  {
    var part := EventsOf(out[..m + 1]);
    if !ItemCloses(out[m]) {
      forall k | 0 <= k < |part| ensures !ItemCloses(part[k]) {
        FilterSound(out[..m + 1], IsEvent, part[k]);
      }
    }
  }

  lemma EventsTake(out: seq<SeqEvent>, m: nat)
    requires m < |out|
    ensures EventsOf(out[..m + 1])
         == if out[m].evt.TaskObject? then EventsOf(out[..m]) else EventsOf(out[..m]) + [out[m]]
  {
    assert out[..m + 1] == out[..m] + [out[m]];
    EventsSnoc(out[..m], out[m]);
  }

  lemma EventsPrefix(out: seq<SeqEvent>, m: nat)
    requires m <= |out|
    ensures EventsOf(out[..m]) <= EventsOf(out)
  {
    assert out == out[..m] + out[m..];
    FilterConcat(out[..m], out[m..], IsEvent);
  }

  lemma PartAtTask(hist: seq<SeqEvent>, e: Epoch, from: int, out: seq<SeqEvent>, m: nat)
    requires InPlace(hist, e, from, out) && Apart(hist, e) && m < |out| && out[m].evt.TaskObject?
    ensures var part := EventsOf(out[..m + 1]);
            0 <= from && part == hist[from..e.base] && from + |part| == e.base && Cuts(hist, e.base, out[m].seqNo)
  {
    EventsTake(out, m);
  }

  lemma PartAtEvent(hist: seq<SeqEvent>, from: int, to: int, out: seq<SeqEvent>, m: nat)
    requires Increasing(hist) && 0 <= from <= to <= |hist| && EventsOf(out) == hist[from..to]
    requires m < |out| && !out[m].evt.TaskObject?
    ensures var part := EventsOf(out[..m + 1]);
            from + |part| <= to && part == hist[from..from + |part|] && Cuts(hist, from + |part|, out[m].seqNo)
  {
    EventsTake(out, m);
    EventsPrefix(out, m + 1);
    StretchUpTo(hist, from, to, EventsOf(out[..m]), out[m], EventsOf(out[..m + 1]));
  }

  /** A part of a stretch of history, from its start up to some event of it. */
  lemma StretchUpTo(hist: seq<SeqEvent>, from: int, to: int, before: seq<SeqEvent>, last: SeqEvent,
                    part: seq<SeqEvent>)
    requires Increasing(hist) && 0 <= from <= to <= |hist| && part == before + [last] && part <= hist[from..to]
    ensures from + |part| <= to && part == hist[from..from + |part|] && Cuts(hist, from + |part|, last.seqNo)
  {
    assert last == part[|part| - 1] == hist[from..to][|part| - 1] == hist[from + |part| - 1];
  }

  lemma ReconnectionOn(next: nat, lane: Lane, first: Sub, second: Sub, m: nat)
    requires Reconnects(lane, first, second, m) && FirstPart(lane.hist, first, m)
    requires StretchFacts(next, lane, second) && ResumesCleanly(second)
    ensures JoinsUp(lane, first, second, m)
  {
    StartsAfterCut(next, lane, second, Through(first, m), first.out[m].seqNo);
    JoinsFrom(lane, first, second, m);
  }

  /** A clean stream resumed from a number starts right behind the events up to it. */
  lemma StartsAfterCut(next: nat, lane: Lane, sub: Sub, c: nat, n: nat)
    requires Increasing(lane.hist) && Standing(next, lane, sub) && ResumesCleanly(sub)
    requires sub.since == Some(n) && Cuts(lane.hist, c, n) && sub.snap <= c + EVENT_LOG_CAPACITY
    ensures Start(sub) == c
  {
    assert sub.snap < |lane.hist| ==> (lane.hist[sub.snap].seqNo <= n <==> sub.snap < c);
    CleanStart(lane.hist, next, lane, sub);
    ReplayFromCut(lane.hist, sub.snap, c, n);
  }

  /** What a snapshot has past a number. */
  lemma ReplayFromCut(hist: seq<SeqEvent>, snap: nat, c: nat, n: nat)
    requires Cuts(hist, c, n) && snap <= |hist|
    ensures ReplayOf(hist, snap, Some(n)) == if c >= snap then [] else hist[Max(c, Oldest(snap))..snap]
  {
    var log, since := Tail(hist[..snap]), Some(n);
    TailIsStretch(hist, snap);
    var j := if c >= snap then |log| else Max(c, Oldest(snap)) - Oldest(snap);
    forall k | 0 <= k < |log| ensures PastId(since)(log[k]) <==> k >= j {
      assert log[k] == hist[Oldest(snap) + k];
    }
    PastStartsAt(log, since, j);
  }

  lemma JoinsFrom(lane: Lane, first: Sub, second: Sub, m: nat)
    requires m < |first.out| && FirstPart(lane.hist, first, m)
    requires Streaming(second) && second.bus.value < |lane.epochs| && Stretches(lane, second)
    requires Start(second) == Through(first, m)
    ensures JoinsUp(lane, first, second, m)
  {
    JoinStretches(lane.hist, Start(first), Through(first, m), Reached(lane, second), EventsOf(first.out[..m + 1]),
                  EventsOf(second.out), Horizon(lane, second), second.phase.Done?, ItemCloses(first.out[m]));
  }

  /** Two adjoining stretches, the second stopping at most at its end. */
  lemma JoinStretches(hist: seq<SeqEvent>, from: nat, mid: nat, to: nat, first: seq<SeqEvent>, second: seq<SeqEvent>,
                      end: nat, done: bool, closes: bool)
    requires from <= mid <= to <= end <= |hist| && first == hist[from..mid] && second == hist[mid..to]
    requires StopsOnlyLast(second, ItemCloses) && (!closes ==> NoneStops(first, ItemCloses))
    requires done ==> (second != [] && ItemCloses(second[|second| - 1])) || to == end
    ensures IsStretch(hist, from, first + second)
    ensures !closes ==> AsOneStream(hist, from, end, done, first + second)
  {
    Glue(hist, from, mid, to);
    if !closes {
      JoinedStops(first, second);
      JoinedIsCut(hist, from, to, end, first + second, done);
    }
  }

  lemma JoinedStops(first: seq<SeqEvent>, second: seq<SeqEvent>)
    requires NoneStops(first, ItemCloses) && StopsOnlyLast(second, ItemCloses)
    ensures StopsOnlyLast(first + second, ItemCloses)
    ensures second != [] ==> (first + second)[|first + second| - 1] == second[|second| - 1]
  {
  }

  lemma JoinedIsCut(hist: seq<SeqEvent>, from: nat, to: nat, end: nat, joined: seq<SeqEvent>, done: bool)
    requires from <= to <= end <= |hist| && joined == hist[from..to] && StopsOnlyLast(joined, ItemCloses)
    requires done ==> (joined != [] && ItemCloses(joined[|joined| - 1])) || to == end
    ensures AsOneStream(hist, from, end, done, joined)
  {
    assert hist[from..to] <= hist[from..end];
    PrefixOfCut(joined, hist[from..end], ItemCloses);
    if to == end {
      CutOfWhole(joined, ItemCloses);
    }
  }

  // ---- Resuming from a task object ----

  /** How much of the task's history a client knows that was given a task object: what the
      task reflects if it came first, and all of the replay too if it came last. */
  function Known(first: Sub): nat {
    if first.lead.Some? then first.read else first.snap
  }

  /** The second stream resumed from the number of the task object the first one gave,
      with at most 256 events logged since the client's knowledge. */
  predicate ResumesFromTask(first: Sub, second: Sub) {
    && ShownTask(first).Some? && !first.phase.IdleReplaying?
    && second.since == Some(ShownTask(first).value.seqNo) && Streaming(second) && second.gap.None?
    && second.snap <= Known(first) + EVENT_LOG_CAPACITY
  }

  /** No event was left out, from what the client knew to where the second stream is. */
  ghost predicate MissesNothing(lane: Lane, known: nat, second: Sub)
    requires Streaming(second) && second.bus.value < |lane.epochs|
  {
    forall j | known <= j < Reached(lane, second) && j < |lane.hist| :: lane.hist[j] in EventsOf(second.out)
  }

  /** A client that resumes from the number of a task object misses nothing if and only if
      it knew every event that had a number when the task object got its own, or the
      resumed stream's snapshot found nothing and nothing the client did not know had been
      sent when it attached. */
  lemma TaskIdCondition(moves: seq<Move>, id: string, i: nat, k: nat)
    requires i < |LaneAt(Run(moves), id).subs| && k < |LaneAt(Run(moves), id).subs|
    requires ResumesFromTask(LaneAt(Run(moves), id).subs[i], LaneAt(Run(moves), id).subs[k])
    ensures var lane := LaneAt(Run(moves), id);
            var first, second := lane.subs[i], lane.subs[k];
            && second.bus.value < |lane.epochs|
            && (MissesNothing(lane, Known(first), second)
                <==> first.numbered <= Known(first) || (second.replay == [] && second.sent0 <= Known(first)))
  {
    ReachableTask(moves, id, i);
    StreamFactsIn(moves, id, k);
    TaskConditionHere(Run(moves).next, LaneAt(Run(moves), id), LaneAt(Run(moves), id).subs[i],
                      LaneAt(Run(moves), id).subs[k]);
  }

  lemma TaskConditionHere(next: nat, lane: Lane, first: Sub, second: Sub)
    requires ResumesFromTask(first, second) && NumberedOk(next, lane, first) && StretchFacts(next, lane, second)
    ensures MissesNothing(lane, Known(first), second)
       <==> first.numbered <= Known(first) || (second.replay == [] && second.sent0 <= Known(first))
  {
    TaskCut(next, lane, first);
    StartFromCut(next, lane, second, first.numbered, Known(first));
    MissesBefore(lane, Known(first), second);
  }

  /** So a client that knew all events numbered by then may resume from the task object
      whenever it likes; whether it did is settled when the task object gets its number. */
  lemma TaskIdIsSafe(moves: seq<Move>, id: string, i: nat, k: nat)
    requires i < |LaneAt(Run(moves), id).subs| && k < |LaneAt(Run(moves), id).subs|
    requires ResumesFromTask(LaneAt(Run(moves), id).subs[i], LaneAt(Run(moves), id).subs[k])
    requires LaneAt(Run(moves), id).subs[i].numbered <= Known(LaneAt(Run(moves), id).subs[i])
    ensures var lane := LaneAt(Run(moves), id);
            var first, second := lane.subs[i], lane.subs[k];
            && second.bus.value < |lane.epochs| && MissesNothing(lane, Known(first), second)
  {
    TaskIdCondition(moves, id, i, k);
  }

  function Min(a: nat, b: nat): nat {
    if a < b then a else b
  }

  lemma TaskCut(next: nat, lane: Lane, first: Sub)
    requires NumberedOk(next, lane, first) && ShownTask(first).Some?
    ensures Cuts(lane.hist, Min(first.numbered, |lane.hist|), ShownTask(first).value.seqNo)
  {
  }

  /** Where a stream resumed from a number starts, against what its client knew. */
  lemma StartFromCut(next: nat, lane: Lane, sub: Sub, n: nat, known: nat)
    requires Increasing(lane.hist) && Standing(next, lane, sub) && sub.snap <= known + EVENT_LOG_CAPACITY
    requires sub.since.Some? && Cuts(lane.hist, Min(n, |lane.hist|), sub.since.value)
    ensures Start(sub) <= known <==> n <= known || (sub.replay == [] && sub.sent0 <= known)
  {
    ReplayFromCut(lane.hist, sub.snap, Min(n, |lane.hist|), sub.since.value);
  }

  lemma MissesBefore(lane: Lane, known: nat, second: Sub)
    requires Streaming(second) && second.bus.value < |lane.epochs|
    requires Increasing(lane.hist) && DeliveredStretch(lane, second)
    ensures MissesNothing(lane, known, second) <==> Start(second) <= known
  {
    var from, to, events := Start(second), Reached(lane, second), EventsOf(second.out);
    if from <= known {
      forall j | known <= j < to && j < |lane.hist| ensures lane.hist[j] in events {
        assert events[j - from] == lane.hist[j];
      }
    } else {
      forall m | 0 <= m < |events| ensures events[m] != lane.hist[known] {
        assert events[m] == lane.hist[from + m];
      }
      assert lane.hist[known] !in EventsOf(second.out) && known < to;
    }
  }
}
