/** Subscriptions in every reachable state: exactly-once delivery, its exact condition, and
    where streams start and end. */
module Delivery {
  import opened Types
  import opened Sequences
  import opened Events
  import opened Pipeline
  import opened PipelineInvariant
  import opened Subscribers
  import opened Losses
  import opened Waiters
  import opened TaskObjects
  import opened Attachments
  import opened Reachable

  // ---- Exactly-once delivery ----

  /** The index of the oldest event a log snapshot after `snap` events can hold. */
  function Oldest(snap: nat): nat {
    if snap <= EVENT_LOG_CAPACITY then 0 else snap - EVENT_LOG_CAPACITY
  }

  /** What an attached subscription owes its client, said without reference to how the
      stream is put together: everything still retained when it took its snapshot, or
      logged later, that is past the client's id. */
  function Owed(lane: Lane, sub: Sub): seq<SeqEvent>
    requires sub.bus.Some? && sub.bus.value < |lane.epochs|
  {
    var from, to := Oldest(sub.snap), Horizon(lane, sub);
    if from <= to <= |lane.hist| then Filter(lane.hist[from..to], PastId(sub.since)) else []
  }

  lemma PastExtends(log: seq<SeqEvent>, later: seq<SeqEvent>, since: Option<nat>)
    requires forall i | 0 <= i < |later| :: PastId(since)(later[i])
    ensures Filter(log + later, PastId(since)) == Filter(log, PastId(since)) + later
  {
    FilterConcat(log, later, PastId(since));
    FilterAll(later, PastId(since));
  }

  lemma Glue(hist: seq<SeqEvent>, a: nat, b: nat, c: nat)
    requires a <= b <= c <= |hist|
    ensures hist[a..b] + hist[b..c] == hist[a..c]
  {
  }

  lemma TailIsStretch(hist: seq<SeqEvent>, snap: nat)
    requires snap <= |hist|
    ensures Tail(hist[..snap]) == hist[Oldest(snap)..snap]
  {
  }

  lemma RetainedPast(hist: seq<SeqEvent>, snap: nat, since: Option<nat>, to: nat)
    requires Increasing(hist) && snap <= to <= |hist|
    requires since.Some? ==> forall j | snap <= j < |hist| :: hist[j].seqNo > since.value
    ensures var from := snap - |ReplayOf(hist, snap, since)|;
            && Oldest(snap) <= from <= snap
            && Filter(hist[Oldest(snap)..to], PastId(since)) == hist[from..to]
  {
    var from := snap - |ReplayOf(hist, snap, since)|;
    TailIsStretch(hist, snap);
    PastSlice(hist, snap, since);
    PastExtends(hist[Oldest(snap)..snap], hist[snap..to], since);
    Glue(hist, Oldest(snap), snap, to);
    Glue(hist, from, snap, to);
  }

  /** When a resumed stream can be trusted: its snapshot found something past the id, or
      the id was drawn before attachment and nothing numbered up to it was in flight then.
      A fresh one always can. */
  predicate ResumesCleanly(sub: Sub) {
    sub.since.Some? && sub.replay == [] ==>
      sub.since.value < sub.counter && (sub.pending.Some? ==> sub.since.value < sub.pending.value)
  }

  /** Then the stream starts where its replay does, and everything from the snapshot on
      is past the id. */
  lemma CleanStart(hist: seq<SeqEvent>, next: nat, lane: Lane, sub: Sub)
    requires hist == lane.hist && Increasing(hist) && SinceAttach(next, lane, sub) && ResumesCleanly(sub)
    requires sub.sent0 <= sub.snap <= |hist| && sub.replay == ReplayOf(hist, sub.snap, sub.since)
    ensures Start(sub) == From(sub) && 0 <= From(sub) <= sub.snap
    ensures sub.since.Some? ==> forall j | sub.snap <= j < |hist| :: hist[j].seqNo > sub.since.value
  {
    ReplaySlice(hist, sub.snap, sub.since);
    if sub.since.Some? && sub.replay != [] {
      assert sub.replay[|sub.replay| - 1] == hist[sub.snap - 1];
      LastReplayedIsPast(hist, sub.snap, sub.since);
    }
  }

  lemma LastReplayedIsPast(hist: seq<SeqEvent>, snap: nat, since: Option<nat>)
    requires snap <= |hist| && ReplayOf(hist, snap, since) != []
    ensures var r := ReplayOf(hist, snap, since);
            PastId(since)(r[|r| - 1])
  {
    var r := ReplayOf(hist, snap, since);
    FilterSound(Tail(hist[..snap]), PastId(since), r[|r| - 1]);
  }

  lemma OwedIsStretch(next: nat, lane: Lane, sub: Sub)
    requires HistOk(next, lane.hist) && Standing(next, lane, sub) && ResumesCleanly(sub)
    requires BusKnown(lane, sub.bus.value)
    ensures 0 <= Start(sub) == From(sub) <= sub.snap <= Horizon(lane, sub) <= |lane.hist|
    ensures Owed(lane, sub) == lane.hist[From(sub)..Horizon(lane, sub)]
  {
    CleanStart(lane.hist, next, lane, sub);
    IdxMonotone(lane.epochs[sub.bus.value], sub.pos, |lane.epochs[sub.bus.value].bus|);
    RetainedPast(lane.hist, sub.snap, sub.since, Horizon(lane, sub));
  }

  lemma EventsStop(out: seq<SeqEvent>)
    requires StopsOnlyLast(out, ItemCloses)
    ensures StopsOnlyLast(EventsOf(out), ItemCloses)
    ensures out != [] && ItemCloses(out[|out| - 1]) ==>
              EventsOf(out) != [] && ItemCloses(EventsOf(out)[|EventsOf(out)| - 1])
  {
    if out != [] {
      var init, last := out[..|out| - 1], out[|out| - 1];
      forall x | x in Filter(init, IsEvent) ensures !ItemCloses(x) {
        FilterSound(init, IsEvent, x);
      }
    }
  }

  /** A stretch of what is owed, stopping at most at its end, is within the cut; it is
      the whole cut if it ends with a closing event or reaches the end. */
  lemma StretchOfCut(hist: seq<SeqEvent>, from: int, to: int, end: nat, out: seq<SeqEvent>)
    requires 0 <= from <= to <= end <= |hist| && EventsOf(out) == hist[from..to] && StopsOnlyLast(out, ItemCloses)
    ensures EventsOf(out) <= UpToFirst(hist[from..end], ItemCloses)
    ensures to == end || (out != [] && ItemCloses(out[|out| - 1])) ==>
              EventsOf(out) == UpToFirst(hist[from..end], ItemCloses)
  {
    EventsStop(out);
    assert hist[from..to] <= hist[from..end];
    PrefixOfCut(EventsOf(out), hist[from..end], ItemCloses);
    if to == end {
      CutOfWhole(EventsOf(out), ItemCloses);
    }
  }

  predicate Streaming(sub: Sub) {
    sub.bus.Some? && (sub.phase.Replaying? || sub.phase.Live? || sub.phase.Done?)
  }

  /** How far into history a stream has delivered. */
  function Reached(lane: Lane, sub: Sub): int
    requires Streaming(sub) && sub.bus.value < |lane.epochs|
  {
    match sub.phase
    case Replaying(i) => Start(sub) + i
    case Live => Max(Covered(sub), Idx(lane.epochs[sub.bus.value], sub.pos))
    case _ => Start(sub) + |EventsOf(sub.out)|
  }

  /** What a stream that lost nothing has delivered is one stretch of history, whatever
      id it was resumed from. */
  ghost predicate DeliveredStretch(lane: Lane, sub: Sub)
    requires Streaming(sub) && sub.bus.value < |lane.epochs|
  {
    && 0 <= Start(sub) <= Reached(lane, sub) <= Horizon(lane, sub) <= |lane.hist|
    && EventsOf(sub.out) == lane.hist[Start(sub)..Reached(lane, sub)]
  }

  lemma ReplayReached(next: nat, lane: Lane, sub: Sub)
    requires HistOk(next, lane.hist) && SubInv(next, lane, sub) && Streaming(sub) && sub.phase.Replaying?
    requires BusKnown(lane, sub.bus.value)
    ensures StopsOnlyLast(sub.out, ItemCloses) && Increasing(sub.out) && DeliveredStretch(lane, sub)
  {
    var e := lane.epochs[sub.bus.value];
    IdxMonotone(e, sub.pos, |e.bus|);
    HorizonPastReplay(lane, sub);
    if sub.replay != [] {
      ReplayedSome(next, lane.hist, sub, sub.phase.next);
    }
  }

  lemma LiveReached(next: nat, lane: Lane, sub: Sub)
    requires SubInv(next, lane, sub) && Streaming(sub) && sub.phase.Live? && BusKnown(lane, sub.bus.value)
    ensures StopsOnlyLast(sub.out, ItemCloses) && Increasing(sub.out)
    ensures sub.gap.None? ==> DeliveredStretch(lane, sub)
  {
    var e := lane.epochs[sub.bus.value];
    IdxMonotone(e, sub.pos, |e.bus|);
  }

  lemma DoneReached(next: nat, lane: Lane, sub: Sub)
    requires SubInv(next, lane, sub) && Streaming(sub) && sub.phase.Done? && BusKnown(lane, sub.bus.value)
    ensures StopsOnlyLast(sub.out, ItemCloses) && Increasing(sub.out)
    ensures sub.gap.None? ==>
              && DeliveredStretch(lane, sub)
              && ((sub.out != [] && ItemCloses(sub.out[|sub.out| - 1])) || Reached(lane, sub) == Horizon(lane, sub))
  {
    DoneEnded(next, lane, sub);
    DoneStretch(lane, sub);
  }

  lemma DoneStretch(lane: Lane, sub: Sub)
    requires Streaming(sub) && sub.phase.Done? && sub.bus.value < |lane.epochs|
    requires EndedOk(lane, sub) && Horizon(lane, sub) <= |lane.hist|
    ensures StopsOnlyLast(sub.out, ItemCloses) && Increasing(sub.out)
    ensures sub.gap.None? ==>
              && DeliveredStretch(lane, sub)
              && ((sub.out != [] && ItemCloses(sub.out[|sub.out| - 1])) || Reached(lane, sub) == Horizon(lane, sub))
  {
    EndedReached(lane.hist, Start(sub), Horizon(lane, sub), lane.epochs[sub.bus.value].open, sub.gap.None?, sub.out);
  }

  lemma DoneEnded(next: nat, lane: Lane, sub: Sub)
    requires SubInv(next, lane, sub) && Streaming(sub) && sub.phase.Done? && BusKnown(lane, sub.bus.value)
    ensures EndedOk(lane, sub) && Horizon(lane, sub) <= |lane.hist|
  {
  }

  lemma EndedReached(hist: seq<SeqEvent>, from: int, horizon: nat, open: bool, exact: bool, out: seq<SeqEvent>)
    requires EndedOn(hist, from, horizon, open, exact, out)
    ensures StopsOnlyLast(out, ItemCloses) && Increasing(out)
    ensures exact ==>
              var to := from + |EventsOf(out)|;
              && 0 <= from <= to <= horizon && to <= |hist| && EventsOf(out) == hist[from..to]
              && ((out != [] && ItemCloses(out[|out| - 1])) || to == horizon)
  {
  }

  lemma StreamReached(next: nat, lane: Lane, sub: Sub)
    requires HistOk(next, lane.hist) && SubInv(next, lane, sub) && Streaming(sub) && BusKnown(lane, sub.bus.value)
    ensures StopsOnlyLast(sub.out, ItemCloses) && Increasing(sub.out)
    ensures sub.gap.None? ==> DeliveredStretch(lane, sub)
    ensures sub.phase.Done? && sub.gap.None? ==>
              (sub.out != [] && ItemCloses(sub.out[|sub.out| - 1])) || Reached(lane, sub) == Horizon(lane, sub)
  {
    match sub.phase
    case Replaying(_) => ReplayReached(next, lane, sub);
    case Live => LiveReached(next, lane, sub);
    case Done => DoneReached(next, lane, sub);
  }

  lemma StreamAttached(next: nat, lane: Lane, sub: Sub)
    requires SubInv(next, lane, sub) && Streaming(sub)
    ensures sub.bus.value < |lane.epochs| && lane.epochs[sub.bus.value].isTurn
  {
  }

  lemma BusOfSub(next: nat, lane: Lane, sub: Sub)
    requires LaneInv(next, lane) && SubInv(next, lane, sub) && Streaming(sub)
    ensures BusKnown(lane, sub.bus.value)
  {
    StreamAttached(next, lane, sub);
    BusIsKnown(next, lane, sub.bus.value);
  }

  lemma ReachableSub(moves: seq<Move>, id: string, i: nat)
    requires i < |LaneAt(Run(moves), id).subs|
    ensures var s := Run(moves);
            LaneInv(s.next, LaneAt(s, id)) && SubInv(s.next, LaneAt(s, id), LaneAt(s, id).subs[i])
  {
    AlwaysGood(moves, id);
  }

  lemma ReachableTask(moves: seq<Move>, id: string, i: nat)
    requires i < |LaneAt(Run(moves), id).subs|
    ensures var s := Run(moves);
            NumbersInv(s.next, LaneAt(s, id)) && TaskInv(s.next, LaneAt(s, id), LaneAt(s, id).subs[i])
  {
    AlwaysGood(moves, id);
  }

  lemma OwedOfStream(next: nat, lane: Lane, sub: Sub)
    requires HistOk(next, lane.hist) && SubInv(next, lane, sub) && Streaming(sub) && ResumesCleanly(sub)
    requires BusKnown(lane, sub.bus.value)
    ensures 0 <= Start(sub) == From(sub) <= Horizon(lane, sub) <= |lane.hist|
    ensures Owed(lane, sub) == lane.hist[Start(sub)..Horizon(lane, sub)]
  {
    OwedIsStretch(next, lane, sub);
  }

  lemma DeliveredOfOwed(hist: seq<SeqEvent>, from: int, reached: int, end: nat, out: seq<SeqEvent>, owed: seq<SeqEvent>)
    requires Increasing(hist) && 0 <= from <= reached <= end <= |hist|
    requires EventsOf(out) == hist[from..reached] && owed == hist[from..end] && StopsOnlyLast(out, ItemCloses)
    ensures EventsOf(out) <= UpToFirst(owed, ItemCloses)
    ensures reached == end || (out != [] && ItemCloses(out[|out| - 1])) ==> EventsOf(out) == UpToFirst(owed, ItemCloses)
    ensures Increasing(owed)
  {
    StretchOfCut(hist, from, reached, end, out);
    StretchIncreasing(hist, from, end);
  }

  predicate CleanStream(sub: Sub) {
    ResumesCleanly(sub) && sub.gap.None?
  }

  lemma ExactlyOnceOn(next: nat, lane: Lane, sub: Sub)
    requires HistOk(next, lane.hist) && SubInv(next, lane, sub) && Streaming(sub) && CleanStream(sub)
    requires BusKnown(lane, sub.bus.value)
    ensures EventsOf(sub.out) <= UpToFirst(Owed(lane, sub), ItemCloses)
    ensures sub.phase.Done? ==> EventsOf(sub.out) == UpToFirst(Owed(lane, sub), ItemCloses)
    ensures Increasing(sub.out) && Increasing(Owed(lane, sub))
  {
    StreamReached(next, lane, sub);
    OwedOfStream(next, lane, sub);
    DeliveredOfOwed(lane.hist, Start(sub), Reached(lane, sub), Horizon(lane, sub), sub.out, Owed(lane, sub));
  }

  lemma ExactlyOnceHere(next: nat, lane: Lane, sub: Sub)
    requires LaneInv(next, lane) && SubInv(next, lane, sub) && Streaming(sub) && CleanStream(sub)
    ensures sub.bus.value < |lane.epochs|
    ensures EventsOf(sub.out) <= UpToFirst(Owed(lane, sub), ItemCloses)
    ensures sub.phase.Done? ==> EventsOf(sub.out) == UpToFirst(Owed(lane, sub), ItemCloses)
    ensures Increasing(sub.out) && Increasing(Owed(lane, sub))
  {
    BusOfSub(next, lane, sub);
    ExactlyOnceOn(next, lane, sub);
  }

  /** What a stream attached to a bus promises: delivered so far is a prefix of what is
      owed, cut after the first closing event; when the stream ends, it is all of that. */
  ghost predicate KeepsPromise(lane: Lane, sub: Sub)
    requires sub.bus.Some?
  {
    && sub.bus.value < |lane.epochs|
    && Increasing(sub.out) && Increasing(Owed(lane, sub))
    && EventsOf(sub.out) <= UpToFirst(Owed(lane, sub), ItemCloses)
    && (sub.phase.Done? ==> EventsOf(sub.out) == UpToFirst(Owed(lane, sub), ItemCloses))
  }

  /** Exactly once, in order, without gaps, in every reachable state, for every stream
      that resumed cleanly and skipped no event. */
  lemma ExactlyOnce(moves: seq<Move>, id: string, i: nat)
    requires i < |LaneAt(Run(moves), id).subs|
    requires Streaming(LaneAt(Run(moves), id).subs[i]) && CleanStream(LaneAt(Run(moves), id).subs[i])
    ensures KeepsPromise(LaneAt(Run(moves), id), LaneAt(Run(moves), id).subs[i])
  {
    ReachableSub(moves, id, i);
    ExactlyOnceHere(Run(moves).next, LaneAt(Run(moves), id), LaneAt(Run(moves), id).subs[i]);
  }

  predicate Holds(items: seq<SeqEvent>, n: nat) {
    exists k | 0 <= k < |items| :: items[k].seqNo == n
  }

  /** The number of an event sent before the subscription attached, or of an item then on
      a bus: an event, or the task announced there. */
  ghost predicate SentBefore(lane: Lane, sub: Sub, n: nat)
    requires sub.bus.Some?
  {
    && sub.bus.value < |lane.epochs|
    && ((sub.sent0 <= |lane.hist| && Holds(lane.hist[..sub.sent0], n))
        || exists b: nat | b <= sub.bus.value :: Holds(ItemsThen(lane, sub, b), n))
  }

  /** The client named nothing, or something already sent when it attached. */
  ghost predicate KnownId(lane: Lane, sub: Sub)
    requires sub.bus.Some?
  {
    sub.since.Some? ==> SentBefore(lane, sub, sub.since.value)
  }

  lemma KnownIsClean(next: nat, lane: Lane, sub: Sub)
    requires SinceAttach(next, lane, sub) && ItemsSettled(lane, sub) && sub.bus.Some? && KnownId(lane, sub)
    ensures ResumesCleanly(sub)
  {
    if sub.since.Some? && !Holds(lane.hist[..sub.sent0], sub.since.value) {
      var b: nat :| b <= sub.bus.value && Holds(ItemsThen(lane, sub, b), sub.since.value);
      assert AllSettled(sub, ItemsThen(lane, sub, b));
    }
  }

  lemma KnownIsCleanIn(moves: seq<Move>, id: string, i: nat)
    requires i < |LaneAt(Run(moves), id).subs|
    requires var lane := LaneAt(Run(moves), id);
             Streaming(lane.subs[i]) && KnownId(lane, lane.subs[i])
    ensures ResumesCleanly(LaneAt(Run(moves), id).subs[i])
  {
    ReachableSub(moves, id, i);
    ReachableTask(moves, id, i);
    AttachedSince(Run(moves).next, LaneAt(Run(moves), id), LaneAt(Run(moves), id).subs[i]);
    KnownIsClean(Run(moves).next, LaneAt(Run(moves), id), LaneAt(Run(moves), id).subs[i]);
  }

  lemma AttachedSince(next: nat, lane: Lane, sub: Sub)
    requires SubInv(next, lane, sub) && Streaming(sub)
    ensures Standing(next, lane, sub) && SinceAttach(next, lane, sub)
  {
  }

  /** So a fresh subscription, or one resumed from anything that had been sent, is given
      every retained or later event past its id exactly once and in order. */
  lemma ExactlyOnceFromKnownId(moves: seq<Move>, id: string, i: nat)
    requires i < |LaneAt(Run(moves), id).subs|
    requires var lane := LaneAt(Run(moves), id);
             Streaming(lane.subs[i]) && KnownId(lane, lane.subs[i]) && lane.subs[i].gap.None?
    ensures KeepsPromise(LaneAt(Run(moves), id), LaneAt(Run(moves), id).subs[i])
  {
    KnownIsCleanIn(moves, id, i);
    ExactlyOnce(moves, id, i);
  }

  /** The exact condition. A stream that did not lag and has delivered an event keeps its
      promise, and delivers only events past its id, if and only if it is fresh, or its
      snapshot found something, or no event numbered up to the id was in flight when it
      attached. The id must be a number that had been drawn by then; no other was ever
      given to a client. */
  lemma ExactlyOnceCondition(moves: seq<Move>, id: string, i: nat)
    requires i < |LaneAt(Run(moves), id).subs|
    requires var sub := LaneAt(Run(moves), id).subs[i];
             Streaming(sub) && sub.gap.None? && EventsOf(sub.out) != [] && NamesDrawn(sub)
    ensures var lane, sub := LaneAt(Run(moves), id), LaneAt(Run(moves), id).subs[i];
            var clean := || sub.since.None? || sub.replay != []
                         || sub.pending.None? || sub.since.value < sub.pending.value;
            && (KeepsPromise(lane, sub) <==> clean)
            && (AllPast(EventsOf(sub.out), sub.since) <==> clean)
  {
    ReachableSub(moves, id, i);
    ConditionHere(Run(moves).next, LaneAt(Run(moves), id), LaneAt(Run(moves), id).subs[i]);
  }

  predicate NamesDrawn(sub: Sub) {
    sub.since.Some? && sub.replay == [] ==> sub.since.value < sub.counter
  }

  lemma ConditionHere(next: nat, lane: Lane, sub: Sub)
    requires LaneInv(next, lane) && SubInv(next, lane, sub) && Streaming(sub)
    requires sub.gap.None? && EventsOf(sub.out) != []
    requires NamesDrawn(sub)
    ensures KeepsPromise(lane, sub) <==> ResumesCleanly(sub)
    ensures AllPast(EventsOf(sub.out), sub.since) <==> ResumesCleanly(sub)
  {
    BusOfSub(next, lane, sub);
    OwedIsPast(lane, sub);
    if ResumesCleanly(sub) {
      ExactlyOnceHere(next, lane, sub);
    } else {
      PendingComesFirst(next, lane, sub);
    }
  }

  predicate AllPast(s: seq<SeqEvent>, since: Option<nat>) {
    forall i | 0 <= i < |s| :: PastId(since)(s[i])
  }

  lemma OwedIsPast(lane: Lane, sub: Sub)
    requires sub.bus.Some? && sub.bus.value < |lane.epochs|
    ensures EventsOf(sub.out) <= UpToFirst(Owed(lane, sub), ItemCloses) ==> AllPast(EventsOf(sub.out), sub.since)
  {
    var owed, from, to := Owed(lane, sub), Oldest(sub.snap), Horizon(lane, sub);
    forall x | x in owed ensures PastId(sub.since)(x) {
      if from <= to <= |lane.hist| {
        FilterSound(lane.hist[from..to], PastId(sub.since), x);
      }
    }
    if EventsOf(sub.out) <= UpToFirst(owed, ItemCloses) {
      forall k | 0 <= k < |EventsOf(sub.out)| ensures PastId(sub.since)(EventsOf(sub.out)[k]) {
        assert EventsOf(sub.out)[k] == owed[k];
      }
    }
  }

  /** If it did not resume cleanly, the first event it delivers is the one that was in
      flight, which the client already had. */
  lemma PendingComesFirst(next: nat, lane: Lane, sub: Sub)
    requires HistOk(next, lane.hist) && SubInv(next, lane, sub) && Streaming(sub) && BusKnown(lane, sub.bus.value)
    requires !ResumesCleanly(sub) && sub.gap.None? && EventsOf(sub.out) != [] && NamesDrawn(sub)
    ensures sub.pending == Some(EventsOf(sub.out)[0].seqNo) && !AllPast(EventsOf(sub.out), sub.since)
  {
    AttachedSince(next, lane, sub);
    StreamReached(next, lane, sub);
    var first := EventsOf(sub.out)[0];
    assert first == lane.hist[sub.sent0];
    assert !PastId(sub.since)(first);
  }

  // ---- What lagging costs ----

  /** Falling behind breaks the promise exactly from the moment on at which the stream
      delivers something, or ends, after it has skipped an event: a cleanly resumed
      stream keeps it if and only if it skipped nothing its replay did not cover, or has
      neither ended nor delivered anything since. */
  lemma LossCondition(moves: seq<Move>, id: string, i: nat)
    requires i < |LaneAt(Run(moves), id).subs|
    requires Streaming(LaneAt(Run(moves), id).subs[i]) && ResumesCleanly(LaneAt(Run(moves), id).subs[i])
    ensures var lane, sub := LaneAt(Run(moves), id), LaneAt(Run(moves), id).subs[i];
            KeepsPromise(lane, sub)
            <==> sub.gap.None? || (!sub.phase.Done? && Start(sub) + |EventsOf(sub.out)| == sub.gap.value)
  {
    ReachableSub(moves, id, i);
    GapIn(moves, id, i);
    if LaneAt(Run(moves), id).subs[i].gap.None? {
      ExactlyOnce(moves, id, i);
    } else {
      NeverTwice(moves, id, i);
      LossHere(Run(moves).next, LaneAt(Run(moves), id), LaneAt(Run(moves), id).subs[i]);
    }
  }

  lemma GapIn(moves: seq<Move>, id: string, i: nat)
    requires i < |LaneAt(Run(moves), id).subs|
    ensures GapInv(LaneAt(Run(moves), id), LaneAt(Run(moves), id).subs[i])
  {
    AlwaysGood(moves, id);
  }

  lemma LossHere(next: nat, lane: Lane, sub: Sub)
    requires LaneInv(next, lane) && SubInv(next, lane, sub) && Streaming(sub) && ResumesCleanly(sub)
    requires GapInv(lane, sub) && sub.gap.Some? && Increasing(sub.out)
    ensures KeepsPromise(lane, sub)
       <==> !sub.phase.Done? && Start(sub) + |EventsOf(sub.out)| == sub.gap.value
  {
    BusOfSub(next, lane, sub);
    OwedOfStream(next, lane, sub);
    GapBeforeHorizon(lane, sub);
    StretchIncreasing(lane.hist, Start(sub), Horizon(lane, sub));
    LostIsNoPrefix(lane.hist, Start(sub), sub.gap.value, Horizon(lane, sub), EventsOf(sub.out));
  }

  lemma GapBeforeHorizon(lane: Lane, sub: Sub)
    requires GapInv(lane, sub) && sub.gap.Some? && BusKnown(lane, sub.bus.value)
    ensures sub.gap.value < Horizon(lane, sub)
  {
    var e := lane.epochs[sub.bus.value];
    IdxMonotone(e, sub.pos, |e.bus|);
  }

  lemma LostIsNoPrefix(hist: seq<SeqEvent>, from: int, gap: int, end: int, events: seq<SeqEvent>)
    requires LostAt(hist, from, gap, events) && gap < end <= |hist|
    ensures events != UpToFirst(hist[from..end], ItemCloses)
    ensures events <= UpToFirst(hist[from..end], ItemCloses) <==> from + |events| == gap
  {
    var owed := hist[from..end];
    UpToFirstStopsOnlyLast(owed, ItemCloses);
    if from + |events| == gap {
      assert events == hist[from..gap] <= owed;
      PrefixOfCut(events, owed, ItemCloses);
    } else {
      assert events[gap - from].seqNo > owed[gap - from].seqNo;
    }
  }

  // ---- Order, catching up, known ids ----

  /** No stream attached to a bus ever repeats or reorders anything, whatever id it was
      resumed from and however far it fell behind. */
  lemma NeverTwice(moves: seq<Move>, id: string, i: nat)
    requires i < |LaneAt(Run(moves), id).subs| && Streaming(LaneAt(Run(moves), id).subs[i])
    ensures Increasing(LaneAt(Run(moves), id).subs[i].out)
  {
    ReachableSub(moves, id, i);
    var s, lane := Run(moves), LaneAt(Run(moves), id);
    BusOfSub(s.next, lane, lane.subs[i]);
    StreamReached(s.next, lane, lane.subs[i]);
  }

  lemma SentWhenQuiet(next: nat, lane: Lane, b: nat)
    requires LaneInv(next, lane) && b < |lane.epochs| && lane.epochs[b].isTurn && lane.epochs[b].open
    ensures lane.epochs[b].base + SentOn(lane.epochs[b]) == |lane.hist| - Behind(lane)
  {
    BusFacts(next, lane, b);
    CurrentFacts(next, lane);
  }

  /** A live reader that has read its whole bus, while no event is between log and bus. */
  predicate HasReadAll(lane: Lane, sub: Sub) {
    && sub.phase.Live? && sub.bus.Some? && Behind(lane) == 0
    && (sub.bus.value < |lane.epochs| ==> sub.pos == |lane.epochs[sub.bus.value].bus|)
  }

  /** Such a reader has delivered everything it owes. */
  lemma CaughtUp(moves: seq<Move>, id: string, i: nat)
    requires i < |LaneAt(Run(moves), id).subs|
    requires var lane := LaneAt(Run(moves), id);
             HasReadAll(lane, lane.subs[i]) && CleanStream(lane.subs[i])
    ensures var lane := LaneAt(Run(moves), id);
            var sub := lane.subs[i];
            sub.bus.value < |lane.epochs| && EventsOf(sub.out) == Owed(lane, sub)
  {
    ReachableSub(moves, id, i);
    CaughtUpHere(Run(moves).next, LaneAt(Run(moves), id), LaneAt(Run(moves), id).subs[i]);
  }

  lemma CaughtUpFromKnownId(moves: seq<Move>, id: string, i: nat)
    requires i < |LaneAt(Run(moves), id).subs|
    requires var lane := LaneAt(Run(moves), id);
             HasReadAll(lane, lane.subs[i]) && KnownId(lane, lane.subs[i]) && lane.subs[i].gap.None?
    ensures var lane := LaneAt(Run(moves), id);
            var sub := lane.subs[i];
            sub.bus.value < |lane.epochs| && EventsOf(sub.out) == Owed(lane, sub)
  {
    KnownIsCleanIn(moves, id, i);
    CaughtUp(moves, id, i);
  }

  lemma CaughtUpHere(next: nat, lane: Lane, sub: Sub)
    requires LaneInv(next, lane) && SubInv(next, lane, sub) && HasReadAll(lane, sub) && CleanStream(sub)
    ensures sub.bus.value < |lane.epochs| && EventsOf(sub.out) == Owed(lane, sub)
  {
    BusOfSub(next, lane, sub);
    StreamReached(next, lane, sub);
    OwedOfStream(next, lane, sub);
    var e := lane.epochs[sub.bus.value];
    if e.open {
      SentWhenQuiet(next, lane, sub.bus.value);
    }
    assert Reached(lane, sub) == Horizon(lane, sub);
  }

  /** The number of something already sent: an event, or a task announced on a bus. */
  predicate SentNumber(lane: Lane, n: nat)
    requires Behind(lane) <= |lane.hist|
  {
    || Holds(lane.hist[..|lane.hist| - Behind(lane)], n)
    || exists b | 0 <= b < |lane.epochs| :: Holds(lane.epochs[b].bus, n)
  }

  /** Such a number is a good id to resume from: nothing numbered up to it can still be
      sent. */
  lemma SentIdsAreSettled(moves: seq<Move>, id: string, n: nat)
    requires SentNumber(LaneAt(Run(moves), id), n)
    ensures NothingUpToIsPending(Run(moves).next, LaneAt(Run(moves), id), n)
  {
    AlwaysGood(moves, id);
    SentIdSettledHere(Run(moves).next, LaneAt(Run(moves), id), n);
  }

  lemma SentIdSettledHere(next: nat, lane: Lane, n: nat)
    requires LaneInv(next, lane) && BusNumbers(next, lane) && SentNumber(lane, n)
    ensures NothingUpToIsPending(next, lane, n)
  {
    if b :| 0 <= b < |lane.epochs| && Holds(lane.epochs[b].bus, n) {
      assert AllSent(next, lane, lane.epochs[b].bus);
    } else {
      var j :| 0 <= j < |lane.hist| - Behind(lane) && lane.hist[j].seqNo == n;
      SentEventSettled(next, lane, j);
    }
  }

  lemma SentEventSettled(next: nat, lane: Lane, j: nat)
    requires LaneInv(next, lane) && j < |lane.hist| - Behind(lane)
    ensures NothingUpToIsPending(next, lane, lane.hist[j].seqNo)
  {
    if lane.epochs != [] {
      assert CurrentOk(next, lane);
    }
  }

  // ---- What a subscription starts with, and subscriptions to idle tasks ----

  /** The task object a subscription was given is the record that the first `read` events
      of the task left, and that was not terminal. */
  ghost predicate ShowsRecord(lane: Lane, sub: Sub, item: SeqEvent) {
    && 0 < sub.turns <= |lane.epochs| && sub.read <= |lane.hist|
    && var record := RecordTo(lane.hist, lane.epochs[sub.turns - 1], sub.read);
    && record.Some? && !record.value.status.state.IsTerminal() && item.evt == TaskObject(record.value)
  }

  /** A fresh subscription starts with such a task object; a resumed one does not. */
  lemma LeadFirst(moves: seq<Move>, id: string, i: nat)
    requires i < |LaneAt(Run(moves), id).subs| && Streaming(LaneAt(Run(moves), id).subs[i])
    ensures var lane, sub := LaneAt(Run(moves), id), LaneAt(Run(moves), id).subs[i];
            && (sub.lead.Some? <==> sub.since.None?)
            && (sub.lead.Some? ==> ShowsRecord(lane, sub, sub.lead.value))
  {
    ReachableTask(moves, id, i);
  }

  /** Every turn begun by then had logged its last event among the first `sent`. */
  ghost predicate NothingRan(lane: Lane, begun: nat, sent: nat) {
    && begun <= |lane.epochs| && sent <= |lane.hist|
    && forall b: nat | b < begun && lane.epochs[b].isTurn :: TurnEnd(lane, b) <= sent
  }

  /** A subscription has no bus exactly if no turn was running when it attached: it has the
      bus of the last turn begun by then, or all of them had sent everything they ever
      log. */
  lemma BusOrIdle(moves: seq<Move>, id: string, i: nat)
    requires i < |LaneAt(Run(moves), id).subs| && HasAttached(LaneAt(Run(moves), id).subs[i])
    ensures var lane, sub := LaneAt(Run(moves), id), LaneAt(Run(moves), id).subs[i];
            && sub.begun <= |lane.epochs|
            && (sub.bus.Some? ==> sub.bus.value + 1 == sub.begun && lane.epochs[sub.bus.value].isTurn)
            && (sub.bus.None? ==> NothingRan(lane, sub.begun, sub.sent0))
  {
    ReachableAttachment(moves, id, i);
    ReachableSub(moves, id, i);
    BusOrIdleHere(Run(moves).next, LaneAt(Run(moves), id), LaneAt(Run(moves), id).subs[i]);
  }

  lemma BusOrIdleHere(next: nat, lane: Lane, sub: Sub)
    requires SubInv(next, lane, sub) && AttachInv(lane, sub) && HasAttached(sub)
    ensures sub.begun <= |lane.epochs|
    ensures sub.bus.Some? ==> sub.bus.value + 1 == sub.begun && lane.epochs[sub.bus.value].isTurn
    ensures sub.bus.None? ==> NothingRan(lane, sub.begun, sub.sent0)
  {
    if sub.bus.Some? {
      BusIsTurn(next, lane, sub);
    } else {
      forall b: nat | b < sub.begun && lane.epochs[b].isTurn ensures TurnEnd(lane, b) <= sub.sent0 {
        assert OverBy(lane, b, sub.sent0);
      }
    }
  }

  lemma BusIsTurn(next: nat, lane: Lane, sub: Sub)
    requires SubInv(next, lane, sub) && HasAttached(sub) && sub.bus.Some?
    ensures sub.bus.value < |lane.epochs| && lane.epochs[sub.bus.value].isTurn
  {
  }

  lemma ReachableAttachment(moves: seq<Move>, id: string, i: nat)
    requires i < |LaneAt(Run(moves), id).subs|
    ensures AttachInv(LaneAt(Run(moves), id), LaneAt(Run(moves), id).subs[i])
  {
    AlwaysGood(moves, id);
  }

  /** A pump is at work on a turn that has not been taken out of the registry. */
  predicate TurnRuns(lane: Lane) {
    && lane.writer.Active? && !lane.writer.phase.Unregistered?
    && lane.epochs != [] && Current(lane).isTurn
  }

  /** Attaching, in any reachable state: to the bus of the running turn if there is one, and
      otherwise to none. */
  lemma AttachesToRunningTurn(moves: seq<Move>, id: string, i: nat)
    requires i < |LaneAt(Run(moves), id).subs| && LaneAt(Run(moves), id).subs[i].phase.Attaching?
    ensures var lane := LaneAt(Run(moves), id);
            var sub := LaneAt(Run(moves + [Move(id, AdvanceSub(i))]), id).subs[i];
            && HasAttached(sub) && sub.begun == |lane.epochs|
            && sub.bus == if TurnRuns(lane) then Some(|lane.epochs| - 1) else None
  {
    ReachableSub(moves, id, i);
    AttachNow(Run(moves).next, LaneAt(Run(moves), id));
    RunOn(moves, Move(id, AdvanceSub(i)));
    AdvanceHere(Run(moves), id, i);
  }

  lemma RunOn(moves: seq<Move>, m: Move)
    ensures Run(moves + [m]) == Next(Run(moves), m.id, m.st)
  {
    assert (moves + [m])[..|moves|] == moves;
  }

  /** A subscriber's step changes the subscription and, at most, the counter. */
  lemma AdvanceHere(s: State, id: string, i: nat)
    requires i < |LaneAt(s, id).subs|
    ensures var lane, s' := LaneAt(s, id), Next(s, id, AdvanceSub(i));
            LaneAt(s', id) == lane.(subs := lane.subs[i := AfterSub(s.next, lane, lane.subs[i])])
  {
  }

  lemma AttachNow(next: nat, lane: Lane)
    requires LaneInv(next, lane)
    ensures lane.registered == if TurnRuns(lane) then Some(|lane.epochs| - 1) else None
  {
  }

  /** What a subscription to an idle task gives: such a task object alone if it is fresh,
      otherwise every retained event past its id, each once and in order, closing events
      included, and then the task object. No turn begun before has anything further. */
  ghost predicate IdleStream(lane: Lane, sub: Sub) {
    && sub.snap <= |lane.hist| && NothingRan(lane, sub.begun, sub.snap)
    && if sub.since.None? then sub.lead.Some? && ShowsRecord(lane, sub, sub.lead.value) && sub.out == []
       else
         var owed := Filter(lane.hist[Oldest(sub.snap)..sub.snap], PastId(sub.since));
         && |sub.out| == |owed| + 1 && sub.out[..|owed|] == owed && Increasing(owed)
         && ShowsRecord(lane, sub, sub.out[|owed|])
  }

  lemma IdleSubscription(moves: seq<Move>, id: string, i: nat)
    requires i < |LaneAt(Run(moves), id).subs|
    requires LaneAt(Run(moves), id).subs[i].phase.Done? && LaneAt(Run(moves), id).subs[i].bus.None?
    ensures IdleStream(LaneAt(Run(moves), id), LaneAt(Run(moves), id).subs[i])
  {
    ReachableSub(moves, id, i);
    ReachableTask(moves, id, i);
    ReachableAttachment(moves, id, i);
    IdleStreamHere(Run(moves).next, LaneAt(Run(moves), id), LaneAt(Run(moves), id).subs[i]);
  }

  lemma IdleStreamHere(next: nat, lane: Lane, sub: Sub)
    requires HistOk(next, lane.hist) && SubInv(next, lane, sub) && TaskInv(next, lane, sub)
    requires sub.phase.Done? && sub.bus.None? && AttachInv(lane, sub)
    ensures IdleStream(lane, sub)
  {
    IdleHere(next, lane, sub);
    NothingRanHere(lane, sub);
    ShownHere(lane, sub);
  }

  lemma NothingRanHere(lane: Lane, sub: Sub)
    requires AttachInv(lane, sub) && sub.phase.Done? && sub.bus.None? && sub.snap <= |lane.hist|
    ensures NothingRan(lane, sub.begun, sub.snap)
  {
    forall b: nat | b < sub.begun && lane.epochs[b].isTurn ensures TurnEnd(lane, b) <= sub.snap {
      assert OverBy(lane, b, sub.sent0);
    }
  }

  lemma ShownHere(lane: Lane, sub: Sub)
    requires Reflects(lane, sub) && sub.phase.Done? && ShownTask(sub).Some?
    ensures ShowsRecord(lane, sub, ShownTask(sub).value)
  {
  }

  lemma IdleHere(next: nat, lane: Lane, sub: Sub)
    requires HistOk(next, lane.hist) && SubInv(next, lane, sub) && sub.phase.Done? && sub.bus.None?
    ensures sub.snap <= |lane.hist| && sub.replay == Filter(lane.hist[Oldest(sub.snap)..sub.snap], PastId(sub.since))
    ensures Increasing(sub.replay)
    ensures if sub.since.None? then sub.out == []
            else |sub.out| == |sub.replay| + 1 && sub.out[..|sub.replay|] == sub.replay
                 && sub.out[|sub.replay|].evt.TaskObject?
  {
    TailIsStretch(lane.hist, sub.snap);
    ReplaySlice(lane.hist, sub.snap, sub.since);
    StretchIncreasing(lane.hist, From(sub), sub.snap);
  }

  /** A stream delivered a stretch of history that stops at most at its end; one that is
      done stopped there or at its horizon. */
  ghost predicate Stretches(lane: Lane, sub: Sub)
    requires Streaming(sub) && sub.bus.value < |lane.epochs|
  {
    && DeliveredStretch(lane, sub) && StopsOnlyLast(EventsOf(sub.out), ItemCloses)
    && (sub.phase.Done? ==>
          || (EventsOf(sub.out) != [] && ItemCloses(EventsOf(sub.out)[|EventsOf(sub.out)| - 1]))
          || Reached(lane, sub) == Horizon(lane, sub))
  }

  /** What is known of a stream that did not lag. */
  ghost predicate StretchFacts(next: nat, lane: Lane, sub: Sub) {
    Increasing(lane.hist) && Streaming(sub) && Standing(next, lane, sub) && Stretches(lane, sub)
  }

  lemma StreamFactsIn(moves: seq<Move>, id: string, i: nat)
    requires i < |LaneAt(Run(moves), id).subs|
    requires Streaming(LaneAt(Run(moves), id).subs[i]) && LaneAt(Run(moves), id).subs[i].gap.None?
    ensures StretchFacts(Run(moves).next, LaneAt(Run(moves), id), LaneAt(Run(moves), id).subs[i])
  {
    ReachableSub(moves, id, i);
    StreamFacts(Run(moves).next, LaneAt(Run(moves), id), LaneAt(Run(moves), id).subs[i]);
  }

  lemma StreamFacts(next: nat, lane: Lane, sub: Sub)
    requires LaneInv(next, lane) && SubInv(next, lane, sub) && Streaming(sub) && sub.gap.None?
    ensures StretchFacts(next, lane, sub)
  {
    BusOfSub(next, lane, sub);
    AttachedSince(next, lane, sub);
    StreamReached(next, lane, sub);
    EventsStop(sub.out);
  }

  // ---- Closing events of earlier turns ----

  /** A closing event of an earlier turn that a subscription's snapshot still finds past
      its id. */
  ghost predicate StaleClosing(lane: Lane, sub: Sub, j: int)
    requires sub.bus.Some? && sub.bus.value < |lane.epochs|
  {
    && Oldest(sub.snap) <= j < lane.epochs[sub.bus.value].base && j < |lane.hist|
    && PastId(sub.since)(lane.hist[j]) && ItemCloses(lane.hist[j])
  }

  /** Logs outlive turns, so a stream attached to a running turn can end before it: of a
      finished stream whose turn sent anything, none of that turn's events was delivered
      if and only if the log still held a closing event of an earlier turn past the id. */
  lemma StaleClosingEndsStream(moves: seq<Move>, id: string, i: nat)
    requires i < |LaneAt(Run(moves), id).subs|
    requires var lane := LaneAt(Run(moves), id);
             var sub := lane.subs[i];
             && Streaming(sub) && CleanStream(sub) && sub.phase.Done?
             && (sub.bus.value < |lane.epochs| ==> SentOn(lane.epochs[sub.bus.value]) > 0)
    ensures var lane, sub := LaneAt(Run(moves), id), LaneAt(Run(moves), id).subs[i];
            && sub.bus.value < |lane.epochs|
            && ((exists j :: StaleClosing(lane, sub, j))
                <==> Start(sub) + |EventsOf(sub.out)| <= lane.epochs[sub.bus.value].base)
  {
    StreamFactsIn(moves, id, i);
    StreamBusIn(moves, id, i);
    StaleOn(Run(moves).next, LaneAt(Run(moves), id), LaneAt(Run(moves), id).subs[i]);
  }

  lemma StreamBusIn(moves: seq<Move>, id: string, i: nat)
    requires i < |LaneAt(Run(moves), id).subs| && Streaming(LaneAt(Run(moves), id).subs[i])
    ensures BusKnown(LaneAt(Run(moves), id), LaneAt(Run(moves), id).subs[i].bus.value)
  {
    ReachableSub(moves, id, i);
    BusOfSub(Run(moves).next, LaneAt(Run(moves), id), LaneAt(Run(moves), id).subs[i]);
  }

  lemma StopsAtClosing(hist: seq<SeqEvent>, from: nat, to: nat, j: nat)
    requires from <= j < to <= |hist| && StopsOnlyLast(hist[from..to], ItemCloses) && ItemCloses(hist[j])
    ensures to == j + 1
  {
    assert hist[from..to][j - from] == hist[j];
  }

  /** From `from` on everything is past the id, and before it nothing retained is. */
  ghost predicate PastBegins(hist: seq<SeqEvent>, oldest: nat, from: int, since: Option<nat>) {
    && oldest <= from <= |hist|
    && (forall j | oldest <= j < from :: !PastId(since)(hist[j]))
    && (forall j | from <= j < |hist| :: PastId(since)(hist[j]))
  }

  lemma PastBeginsAtStart(next: nat, lane: Lane, sub: Sub)
    requires Increasing(lane.hist) && Standing(next, lane, sub) && ResumesCleanly(sub)
    ensures PastBegins(lane.hist, Oldest(sub.snap), Start(sub), sub.since)
  {
    CleanStart(lane.hist, next, lane, sub);
    PastFrom(lane.hist, sub.snap, sub.since);
  }

  lemma StaleOn(next: nat, lane: Lane, sub: Sub)
    requires StretchFacts(next, lane, sub) && ResumesCleanly(sub) && sub.phase.Done?
    requires BusKnown(lane, sub.bus.value) && SentOn(lane.epochs[sub.bus.value]) > 0
    ensures (exists j :: StaleClosing(lane, sub, j))
       <==> Start(sub) + |EventsOf(sub.out)| <= lane.epochs[sub.bus.value].base
  {
    PastBeginsAtStart(next, lane, sub);
    StaleStretch(lane, sub, Start(sub), Reached(lane, sub), Horizon(lane, sub));
  }

  lemma StaleStretch(lane: Lane, sub: Sub, from: int, to: int, end: nat)
    requires sub.bus.Some? && sub.bus.value < |lane.epochs|
    requires PastBegins(lane.hist, Oldest(sub.snap), from, sub.since)
    requires from <= to <= end <= |lane.hist| && lane.epochs[sub.bus.value].base < end
    requires EventsOf(sub.out) == lane.hist[from..to] && StopsOnlyLast(lane.hist[from..to], ItemCloses)
    requires || (EventsOf(sub.out) != [] && ItemCloses(EventsOf(sub.out)[|EventsOf(sub.out)| - 1]))
             || to == end
    ensures (exists j :: StaleClosing(lane, sub, j)) <==> to <= lane.epochs[sub.bus.value].base
  {
    var base, hist := lane.epochs[sub.bus.value].base, lane.hist;
    if j :| StaleClosing(lane, sub, j) {
      if j < to {
        StopsAtClosing(hist, from, to, j);
      }
    }
    if to <= base {
      EndsBeforeTurn(hist, base, from, to, end, EventsOf(sub.out));
      assert StaleClosing(lane, sub, to - 1);
    }
  }

  /** A stream that ends before its turn's first event ends with a closing event. */
  lemma EndsBeforeTurn(hist: seq<SeqEvent>, base: nat, from: int, to: int, end: nat, events: seq<SeqEvent>)
    requires 0 <= from <= to <= base < end <= |hist| && events == hist[from..to]
    requires (events != [] && ItemCloses(events[|events| - 1])) || to == end
    ensures from < to && ItemCloses(hist[to - 1])
  {
    assert events[|events| - 1] == hist[to - 1];
  }

  /** In a snapshot, what is past an id is what the replay starts with, and nothing
      retained before it. */
  lemma PastFrom(hist: seq<SeqEvent>, snap: nat, since: Option<nat>)
    requires Increasing(hist) && snap <= |hist|
    ensures var from := snap - |ReplayOf(hist, snap, since)|;
            && Oldest(snap) <= from
            && (forall j | Oldest(snap) <= j < from :: !PastId(since)(hist[j]))
            && (forall j | from <= j < snap :: PastId(since)(hist[j]))
  {
    var log := Tail(hist[..snap]);
    TailIsStretch(hist, snap);
    PastIsSuffix(log, since);
    forall j | Oldest(snap) <= j < snap
      ensures PastId(since)(hist[j]) <==> j >= snap - |ReplayOf(hist, snap, since)|
    {
      assert hist[j] == log[j - Oldest(snap)];
    }
  }
}
