/** What a stream that skipped an event can have delivered. */
module Losses {
  import opened Types
  import opened Sequences
  import opened Events
  import opened Pipeline
  import opened PipelineInvariant
  import opened Subscribers

  /** Up to the gap everything was delivered, and nothing of it closes the stream; since
      then only events that come after the one at the gap. */
  ghost predicate LostAt(hist: seq<SeqEvent>, from: int, gap: int, events: seq<SeqEvent>) {
    && 0 <= from <= gap < |hist| && gap - from <= |events|
    && events[..gap - from] == hist[from..gap] && NoneStops(hist[from..gap], ItemCloses)
    && (forall k | gap - from <= k < |events| :: events[k].seqNo > hist[gap].seqNo)
  }

  ghost predicate GapInv(lane: Lane, sub: Sub) {
    sub.gap.Some? ==>
      && (sub.phase.Live? || sub.phase.Done?)
      && sub.bus.Some? && sub.bus.value < |lane.epochs| && sub.pos <= |lane.epochs[sub.bus.value].bus|
      && sub.gap.value < Max(Covered(sub), Idx(lane.epochs[sub.bus.value], sub.pos))
      && LostAt(lane.hist, Start(sub), sub.gap.value, EventsOf(sub.out))
  }

  lemma LostKept(hist: seq<SeqEvent>, hist': seq<SeqEvent>, from: int, gap: int, events: seq<SeqEvent>)
    requires LostAt(hist, from, gap, events) && hist <= hist'
    ensures LostAt(hist', from, gap, events)
  {
    assert hist'[from..gap] == hist[from..gap];
  }

  lemma GapKept(lane: Lane, lane': Lane, sub: Sub)
    requires Grows(lane, lane') && GapInv(lane, sub)
    ensures GapInv(lane', sub)
  {
    if sub.gap.Some? {
      assert EpochGrows(lane.epochs[sub.bus.value], lane'.epochs[sub.bus.value]);
      IdxKept(lane.epochs[sub.bus.value], lane'.epochs[sub.bus.value], sub.pos);
      LostKept(lane.hist, lane'.hist, Start(sub), sub.gap.value, EventsOf(sub.out));
    }
  }

  // ---- The subscriber's own steps ----

  lemma LostStarts(hist: seq<SeqEvent>, from: int, gap: nat, out: seq<SeqEvent>)
    requires Delivered(hist, from, out, gap) && gap < |hist| && NoneStops(out, ItemCloses)
    ensures LostAt(hist, from, gap, EventsOf(out))
  {
    forall i | 0 <= i < gap - from ensures !ItemCloses(hist[from..gap][i]) {
      assert EventsOf(out)[i] in EventsOf(out);
      FilterSound(out, IsEvent, EventsOf(out)[i]);
    }
  }

  lemma LostGoesOn(hist: seq<SeqEvent>, from: int, gap: int, out: seq<SeqEvent>, item: SeqEvent)
    requires LostAt(hist, from, gap, EventsOf(out))
    requires item.evt.TaskObject? || item.seqNo > hist[gap].seqNo
    ensures LostAt(hist, from, gap, EventsOf(out + [item]))
  {
    EventsSnoc(out, item);
  }

  /** What a receiver takes after a gap is numbered past the event at the gap. */
  lemma TakenIsLater(hist: seq<SeqEvent>, e: Epoch, sub: Sub, gap: int)
    requires Increasing(hist) && e.base + SentOn(e) <= |hist| && BusCarries(e, hist[e.base..e.base + SentOn(e)])
    requires forall i | 0 <= i < |hist| :: !hist[i].evt.TaskObject?
    requires sub.pos < |e.bus| && sub.snap <= |hist| && sub.replay == ReplayOf(hist, sub.snap, sub.since)
    requires sub.maxReplayed == if sub.replay == [] then None else Some(sub.replay[|sub.replay| - 1].seqNo)
    requires 0 <= gap < Max(Covered(sub), Idx(e, sub.pos))
    requires !Skips(sub.maxReplayed, e.bus[sub.pos]) && !e.bus[sub.pos].evt.TaskObject?
    ensures gap < |hist| && e.bus[sub.pos].seqNo > hist[gap].seqNo
  {
    BusItem(hist, e, sub.pos);
    SkippedIffCovered(hist, sub, Idx(e, sub.pos));
  }

  lemma ReceiveAfterGap(next: nat, lane: Lane, sub: Sub)
    requires HistOk(next, lane.hist) && sub.phase.Live? && SubInv(next, lane, sub) && BusKnown(lane, sub.bus.value)
    requires GapInv(lane, sub) && sub.gap.Some? && sub.pos < |lane.epochs[sub.bus.value].bus|
    ensures LostAt(lane.hist, Start(sub), sub.gap.value,
                   EventsOf(Taking(sub.out, sub.maxReplayed, lane.epochs[sub.bus.value].bus[sub.pos])))
  {
    var e := lane.epochs[sub.bus.value];
    var item := e.bus[sub.pos];
    if !Skips(sub.maxReplayed, item) {
      if !item.evt.TaskObject? {
        TakenIsLater(lane.hist, e, sub, sub.gap.value);
      }
      LostGoesOn(lane.hist, Start(sub), sub.gap.value, sub.out, item);
    }
  }

  lemma ReadKeepsGap(lane: Lane, sub: Sub, sub': Sub)
    requires sub.phase.Live? && sub.bus.Some? && sub.bus.value < |lane.epochs| && GapInv(lane, sub)
    requires var e := lane.epochs[sub.bus.value];
             sub.pos < |e.bus| && sub.pos + EVENT_LOG_CAPACITY >= |e.bus| && sub' == AfterReceive(e, sub)
    requires sub.gap.Some? ==>
               LostAt(lane.hist, Start(sub), sub.gap.value,
                      EventsOf(Taking(sub.out, sub.maxReplayed, lane.epochs[sub.bus.value].bus[sub.pos])))
    ensures GapInv(lane, sub')
  {
    var e := lane.epochs[sub.bus.value];
    ReceiveShape(e, sub);
    IdxMonotone(e, sub.pos, sub.pos + 1);
  }

  lemma LagKeepsGap(lane: Lane, sub: Sub, sub': Sub)
    requires sub.phase.Live? && sub.bus.Some? && sub.bus.value < |lane.epochs| && GapInv(lane, sub)
    requires var e := lane.epochs[sub.bus.value];
             && LiveOk(lane, e, sub) && e.base + SentOn(e) <= |lane.hist|
             && sub.pos + EVENT_LOG_CAPACITY < |e.bus| && sub' == AfterReceive(e, sub)
    ensures GapInv(lane, sub')
  {
    var e := lane.epochs[sub.bus.value];
    IdxMonotone(e, sub.pos, sub'.pos);
    IdxMonotone(e, sub'.pos, |e.bus|);
    if sub.gap.None? && sub'.gap.Some? {
      LostStarts(lane.hist, Start(sub), sub'.gap.value, sub.out);
    }
  }

  lemma WaitKeepsGap(lane: Lane, sub: Sub, sub': Sub)
    requires sub.phase.Live? && GapInv(lane, sub) && sub.bus.Some? && sub.bus.value < |lane.epochs|
    requires var e := lane.epochs[sub.bus.value];
             sub.pos == |e.bus| && sub' == AfterReceive(e, sub)
    ensures GapInv(lane, sub')
  {
  }

  lemma ReceiveKeepsGap(next: nat, lane: Lane, sub: Sub, sub': Sub)
    requires HistOk(next, lane.hist) && sub.phase.Live? && SubInv(next, lane, sub) && BusKnown(lane, sub.bus.value)
    requires GapInv(lane, sub) && sub' == AfterReceive(lane.epochs[sub.bus.value], sub)
    ensures GapInv(lane, sub')
  {
    var e := lane.epochs[sub.bus.value];
    if sub.pos + EVENT_LOG_CAPACITY < |e.bus| {
      LagKeepsGap(lane, sub, sub');
    } else if sub.pos < |e.bus| {
      if sub.gap.Some? {
        ReceiveAfterGap(next, lane, sub);
      }
      ReadKeepsGap(lane, sub, sub');
    } else {
      WaitKeepsGap(lane, sub, sub');
    }
  }

  lemma LiveKeepsGap(next: nat, lane: Lane, sub: Sub, sub': Sub)
    requires LaneInv(next, lane) && sub.phase.Live? && SubInv(next, lane, sub) && GapInv(lane, sub)
    requires sub' == AfterSub(next, lane, sub)
    ensures GapInv(lane, sub')
  {
    BusIsKnown(next, lane, sub.bus.value);
    ReceiveKeepsGap(next, lane, sub, sub');
  }

  lemma SubStepKeepsGap(next: nat, lane: Lane, sub: Sub, sub': Sub)
    requires LaneInv(next, lane) && SubInv(next, lane, sub) && GapInv(lane, sub) && sub' == AfterSub(next, lane, sub)
    ensures GapInv(lane, sub')
  {
    if sub.phase.Live? {
      LiveKeepsGap(next, lane, sub, sub');
    }
  }
}
