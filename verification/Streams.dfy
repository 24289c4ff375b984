/** The two stream loops a client reads from: the live stream of SendStreamingMessage
    and the replay-then-live stream of SubscribeToTask. */
module Streams {
  import opened Types
  import opened Sequences
  import opened Turns
  import opened Events

  /** One result of receiving from a bus. A receiver that fell too far behind is told
      so and goes on; after the last result the bus is closed. */
  datatype Received = Item(item: SeqEvent) | Lagged

  function Items(received: seq<Received>): seq<SeqEvent> {
    if received == [] then []
    else
      var n := |received| - 1;
      Items(received[..n]) + (if received[n].Item? then [received[n].item] else [])
  }

  lemma ItemsSnoc(received: seq<Received>, i: nat)
    requires i < |received|
    ensures Items(received[..i + 1])
         == Items(received[..i]) + (if received[i].Item? then [received[i].item] else [])
  {
    assert received[..i + 1][..i] == received[..i];
  }

  lemma {:induction false} ItemsSplit(received: seq<Received>, i: nat)
    requires i <= |received|
    ensures Items(received[..i]) <= Items(received)
    decreases |received| - i
  {
    if i == |received| {
      assert received[..i] == received;
    } else {
      ItemsSnoc(received, i);
      ItemsSplit(received, i + 1);
    }
  }

  /** A stream that stopped where its whole source first stops, or at the end of it. */
  lemma CutReached<T>(out: seq<T>, source: seq<T>, stop: T -> bool)
    requires out <= source && StopsOnlyLast(out, stop)
    requires out == source || (out != [] && stop(out[|out| - 1]))
    ensures out == UpToFirst(source, stop)
  {
    PrefixOfCut(out, source, stop);
    if out == source {
      CutOfWhole(source, stop);
    }
  }

  /** One more element of the source is put out: the stream is over, or goes on. */
  lemma OneMore<T>(out: seq<T>, x: T, source: seq<T>, stop: T -> bool)
    requires out + [x] <= source && NoneStops(out, stop)
    ensures if stop(x) then out + [x] == UpToFirst(source, stop) else NoneStops(out + [x], stop)
  {
    if stop(x) {
      CutReached(out + [x], source, stop);
    }
  }

  lemma PayloadsPrefix(a: seq<SeqEvent>, b: seq<SeqEvent>)
    requires a <= b
    ensures Payloads(a) <= Payloads(b)
  {
  }

  /** The live stream: every received event through the first closing one. */
  method StreamThroughClose(received: seq<Received>) returns (out: seq<StreamResponse>)
    ensures out == UpToFirst(Payloads(Items(received)), Closes)
  {
    out := [];
    assert received[..0] == [];
    for i := 0 to |received|
      invariant out == Payloads(Items(received[..i])) && NoneStops(out, Closes)
    {
      ItemsSnoc(received, i);
      ItemsSplit(received, i + 1);
      match received[i]
      case Lagged =>
      case Item(e) =>
        PayloadsSnoc(Items(received[..i]), e);
        PayloadsPrefix(Items(received[..i + 1]), Items(received));
        out := out + [e.evt];
        if e.evt.ClosesStream() {
          CutReached(out, Payloads(Items(received)), Closes);
          return;
        }
    }
    assert received[..|received|] == received;
    CutReached(out, Payloads(Items(received)), Closes);
  }

  function LeadItems(lead: Option<SeqEvent>): seq<SeqEvent> {
    match lead
    case None => []
    case Some(e) => [e]
  }

  /** Everything a subscription could deliver if nothing closed it. */
  function Source(lead: Option<SeqEvent>, replay: seq<SeqEvent>, live: seq<SeqEvent>, maxReplayed: Option<nat>)
    : seq<SeqEvent>
  {
    LeadItems(lead) + replay + Filter(live, PastId(maxReplayed))
  }

  lemma {:induction false} FilterPrefix<T>(a: seq<T>, b: seq<T>, keep: T -> bool)
    requires a <= b
    ensures Filter(a, keep) <= Filter(b, keep)
  {
    assert b == a + b[|a|..];
    FilterConcat(a, b[|a|..], keep);
  }

  /** What has been put out after `i` replayed events. */
  function Replayed(lead: Option<SeqEvent>, replay: seq<SeqEvent>, i: nat): seq<SeqEvent>
    requires i <= |replay|
  {
    LeadItems(lead) + replay[..i]
  }

  lemma ReplayedSnoc(lead: Option<SeqEvent>, replay: seq<SeqEvent>, live: seq<SeqEvent>, maxReplayed: Option<nat>,
                     i: nat)
    requires i < |replay|
    ensures Replayed(lead, replay, i + 1) == Replayed(lead, replay, i) + [replay[i]]
    ensures Replayed(lead, replay, i + 1) <= Source(lead, replay, live, maxReplayed)
  {
  }

  lemma ReplayedEnds(lead: Option<SeqEvent>, replay: seq<SeqEvent>, live: seq<SeqEvent>, maxReplayed: Option<nat>)
    ensures Replayed(lead, replay, 0) == LeadItems(lead) <= Source(lead, replay, live, maxReplayed)
    ensures Source(lead, replay, live, maxReplayed)
         == Replayed(lead, replay, |replay|) + Filter(live, PastId(maxReplayed))
  {
    assert replay[..|replay|] == replay;
  }

  /** The live events let through among the first `i` receive results. */
  function LetThrough(received: seq<Received>, maxReplayed: Option<nat>, i: nat): seq<SeqEvent>
    requires i <= |received|
  {
    Filter(Items(received[..i]), PastId(maxReplayed))
  }

  lemma LetThroughSnoc(received: seq<Received>, maxReplayed: Option<nat>, i: nat)
    requires i < |received|
    ensures LetThrough(received, maxReplayed, i + 1)
         == LetThrough(received, maxReplayed, i)
            + (if received[i].Item? && PastId(maxReplayed)(received[i].item) then [received[i].item] else [])
  {
    ItemsSnoc(received, i);
    if received[i].Item? {
      FilterSnoc(Items(received[..i]), received[i].item, PastId(maxReplayed));
    } else {
      assert Items(received[..i + 1]) == Items(received[..i]);
    }
  }

  lemma LetThroughPrefix(received: seq<Received>, maxReplayed: Option<nat>, i: nat)
    requires i <= |received|
    ensures LetThrough(received, maxReplayed, i) <= Filter(Items(received), PastId(maxReplayed))
  {
    ItemsSplit(received, i);
    FilterPrefix(Items(received[..i]), Items(received), PastId(maxReplayed));
  }

  lemma LongerPrefix<T>(base: seq<T>, a: seq<T>, x: T, whole: seq<T>)
    requires a + [x] <= whole
    ensures base + (a + [x]) == base + a + [x]
    ensures base + a + [x] <= base + whole
  {
  }

  /** The subscription stream: lead, replay and the live events the replay did not
      cover, in this order, through the first closing one. */
  method ReplayThenLive(lead: Option<SeqEvent>, replay: seq<SeqEvent>, received: seq<Received>,
                        maxReplayed: Option<nat>)
    returns (out: seq<SeqEvent>)
    ensures out == UpToFirst(Source(lead, replay, Items(received), maxReplayed), ItemCloses)
  {
    ghost var source := Source(lead, replay, Items(received), maxReplayed);
    ReplayedEnds(lead, replay, Items(received), maxReplayed);
    out := [];
    if lead.Some? {
      OneMore([], lead.value, source, ItemCloses);
      out := [lead.value];
      if lead.value.evt.ClosesStream() {
        return;
      }
    }
    for i := 0 to |replay|
      invariant out == Replayed(lead, replay, i) && NoneStops(out, ItemCloses)
    {
      ReplayedSnoc(lead, replay, Items(received), maxReplayed, i);
      OneMore(out, replay[i], source, ItemCloses);
      out := out + [replay[i]];
      if replay[i].evt.ClosesStream() {
        return;
      }
    }
    ghost var before, live := out, Filter(Items(received), PastId(maxReplayed));
    for i := 0 to |received|
      invariant out == before + LetThrough(received, maxReplayed, i) && NoneStops(out, ItemCloses)
    {
      LetThroughSnoc(received, maxReplayed, i);
      match received[i]
      case Lagged =>
      case Item(e) =>
        if maxReplayed.Some? && e.seqNo <= maxReplayed.value {
          continue;
        }
        LetThroughPrefix(received, maxReplayed, i + 1);
        LongerPrefix(before, LetThrough(received, maxReplayed, i), e, live);
        OneMore(out, e, source, ItemCloses);
        out := out + [e];
        if e.evt.ClosesStream() {
          return;
        }
    }
    assert received[..|received|] == received;
    CutReached(out, source, ItemCloses);
  }

  // ---- Several writers on one task ----

  function LastNumber(replay: seq<SeqEvent>): Option<nat> {
    if replay == [] then None else Some(replay[|replay| - 1].seqNo)
  }

  /** What a resumed subscription delivers, from the log it snapshots and what its
      receiver gets. */
  function Resumed(log: seq<SeqEvent>, live: seq<SeqEvent>, since: Option<nat>): seq<SeqEvent> {
    var replay := Filter(log, PastId(since));
    UpToFirst(Source(None, replay, live, LastNumber(replay)), ItemCloses)
  }

  /** With several writers on one task a log can be out of order, and the filter then
      lets an event through twice: numbers 5 and 6 logged as 6, 5. */
  lemma OutOfOrderLogRepeats(first: StreamResponse, second: StreamResponse)
    requires !first.ClosesStream() && !second.ClosesStream()
    ensures var five, six := SeqEvent(5, first), SeqEvent(6, second);
            var log := Pushed(Pushed([], six), five);
            !Increasing(log) && Resumed(log, [five, six], None) == [six, five, six]
  {
    var five, six := SeqEvent(5, first), SeqEvent(6, second);
    var log := [six, five];
    assert Pushed(Pushed([], six), five) == log;
    FilterAll(log, PastId(None));
    FilterPair(five, six, PastId(Some(5)));
    assert LastNumber(log) == Some(5);
    assert Source(None, log, [five, six], Some(5)) == [six, five, six];
    CutOfWhole([six, five, six], ItemCloses);
    assert log[0].seqNo > log[1].seqNo;
  }

  lemma FilterPair<T>(a: T, b: T, keep: T -> bool)
    requires !keep(a) && keep(b)
    ensures Filter([a, b], keep) == [b]
  {
    assert [a, b] == [a] + [b] && [a] == [] + [a];
    FilterSnoc([], a, keep);
    FilterSnoc([a], b, keep);
  }
}
