/** Callers of SendStreamingMessage: what they are given, whatever the interleaving. */
module Streamers {
  import opened Sequences
  import opened Events
  import opened Pipeline
  import opened PipelineInvariant
  import opened Subscribers

  /** What was passed on of the first `pos` items of a bus. */
  ghost predicate PassedOn(bus: seq<SeqEvent>, pos: nat, out: seq<SeqEvent>) {
    && pos <= |bus| && Increasing(out)
    && (forall k | 0 <= k < |out| :: out[k] in bus[..pos])
  }

  ghost predicate StreamerInv(lane: Lane, s: Streamer) {
    && s.bus < |lane.epochs|
    && var e := lane.epochs[s.bus];
    && e.isTurn && PassedOn(e.bus, s.pos, s.out)
    && StopsOnlyLast(s.out, ItemCloses) && (!s.over ==> NoneStops(s.out, ItemCloses))
    && (s.over ==> (s.out != [] && ItemCloses(s.out[|s.out| - 1])) || (!e.open && s.pos == |e.bus|))
    && (!s.lossy ==> s.out == e.bus[..s.pos])
  }

  lemma StreamerStays(lane: Lane, lane': Lane, s: Streamer)
    requires Grows(lane, lane') && StreamerInv(lane, s)
    ensures StreamerInv(lane', s)
  {
    assert EpochGrows(lane.epochs[s.bus], lane'.epochs[s.bus]);
    assert lane'.epochs[s.bus].bus[..s.pos] == lane.epochs[s.bus].bus[..s.pos];
  }

  lemma FreshStreamer(lane: Lane, b: nat)
    requires b < |lane.epochs| && lane.epochs[b].isTurn
    ensures StreamerInv(lane, Streamer(b, 0, [], false, false))
  {
  }

  lemma PassOn(bus: seq<SeqEvent>, pos: nat, out: seq<SeqEvent>)
    requires Increasing(bus) && PassedOn(bus, pos, out) && pos < |bus|
    ensures PassedOn(bus, pos + 1, out + [bus[pos]])
    ensures out == bus[..pos] ==> out + [bus[pos]] == bus[..pos + 1]
  {
    assert bus[..pos + 1] == bus[..pos] + [bus[pos]];
    forall k | 0 <= k < |out| ensures out[k].seqNo < bus[pos].seqNo {
      assert out[k] in bus[..pos];
    }
  }

  lemma SkipAhead(bus: seq<SeqEvent>, pos: nat, out: seq<SeqEvent>, to: nat)
    requires PassedOn(bus, pos, out) && pos <= to <= |bus|
    ensures PassedOn(bus, to, out)
  {
    assert bus[..to] == bus[..pos] + bus[pos..to];
  }

  lemma StreamerStepKeeps(lane: Lane, s: Streamer)
    requires StreamerInv(lane, s) && Increasing(lane.epochs[s.bus].bus)
    ensures StreamerInv(lane, AfterStream(lane, s))
  {
    var e := lane.epochs[s.bus];
    if !s.over {
      if s.pos + EVENT_LOG_CAPACITY < |e.bus| {
        SkipAhead(e.bus, s.pos, s.out, |e.bus| - EVENT_LOG_CAPACITY);
      } else if s.pos < |e.bus| {
        PassOn(e.bus, s.pos, s.out);
      }
    }
  }

  lemma BusIncreases(next: nat, lane: Lane, b: nat)
    requires LaneInv(next, lane) && b < |lane.epochs| && lane.epochs[b].isTurn
    ensures Increasing(lane.epochs[b].bus)
  {
    BusIsKnown(next, lane, b);
  }
}
