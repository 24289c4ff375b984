/** What the stored record is made of, in every reachable state: the whole-task
    conservation laws hold under every interleaving, not only for whole operations. */
module PipelineRecord {
  import opened Types
  import opened Sequences
  import opened Artifacts
  import opened Turns
  import opened Events
  import opened Pipeline
  import opened PipelineInvariant
  import opened Waiters
  import opened Reachable

  /** What one turn or cancel records: the seed message of a task-shaped turn and the
      status messages, in order. */
  function Contribution(e: Epoch, evs: seq<StreamResponse>): seq<Message> {
    if e.isTurn then TurnContribution(e.frame, evs) else StatusMessages(evs)
  }

  /** The events one finished turn or cancel logged. */
  function Logged(lane: Lane, b: nat): seq<StreamResponse>
    requires b + 1 < |lane.epochs|
  {
    var from, to := lane.epochs[b].base, lane.epochs[b + 1].base;
    if from <= to <= |lane.hist| then Payloads(lane.hist[from..to]) else []
  }

  /** What the first `n` turns and cancels, all finished, recorded. */
  function Recorded(lane: Lane, n: nat): seq<seq<Message>>
    requires n == 0 || n < |lane.epochs|
  {
    seq(n, i requires 0 <= i < n => Contribution(lane.epochs[i], Logged(lane, i)))
  }

  lemma FoldRecords(e: Epoch, span: seq<SeqEvent>)
    requires StopsOnlyLast(span, ItemCloses) || !e.isTurn
    requires forall i | 0 <= i < |span| :: !span[i].evt.TaskObject?
    requires !e.isTurn ==> e.before.Some?
    ensures HistoryOf(FoldSpan(e, span)) == HistoryOf(e.before) + Contribution(e, Payloads(span))
  {
    var evs := Payloads(span);
    if e.isTurn {
      forall i | 0 <= i < |evs| - 1 ensures !Closes(evs[i]) {
        assert evs[i] == span[i].evt && !ItemCloses(span[i]);
      }
      TurnHistory(e.before, e.frame, evs);
    } else {
      CancelHistory(e.before, e.frame, evs);
    }
  }

  lemma ChainRecords(hist: seq<SeqEvent>, e: Epoch, succ: Epoch)
    requires Chained(hist, e, succ) && forall i | 0 <= i < |hist| :: !hist[i].evt.TaskObject?
    ensures e.base <= succ.base <= |hist|
    ensures HistoryOf(succ.before) == HistoryOf(e.before) + Contribution(e, Payloads(hist[e.base..succ.base]))
  {
    FoldRecords(e, hist[e.base..succ.base]);
  }

  lemma RecordsOneMore(lane: Lane, n: nat)
    requires 0 < n < |lane.epochs| && AllChained(lane)
    requires forall i | 0 <= i < |lane.hist| :: !lane.hist[i].evt.TaskObject?
    ensures HistoryOf(lane.epochs[n].before)
         == HistoryOf(lane.epochs[n - 1].before) + Contribution(lane.epochs[n - 1], Logged(lane, n - 1))
  {
    assert ChainedAt(lane, n - 1);
    ChainRecords(lane.hist, lane.epochs[n - 1], lane.epochs[n]);
  }

  lemma RecordedSnoc(lane: Lane, n: nat)
    requires 0 < n < |lane.epochs|
    ensures Recorded(lane, n) == Recorded(lane, n - 1) + [Contribution(lane.epochs[n - 1], Logged(lane, n - 1))]
  {
  }

  lemma {:induction false} BeforeRecords(lane: Lane, n: nat)
    requires AllChained(lane) && Origin(lane) && n < |lane.epochs|
    requires forall i | 0 <= i < |lane.hist| :: !lane.hist[i].evt.TaskObject?
    ensures HistoryOf(lane.epochs[n].before) == Flatten(Recorded(lane, n))
  {
    if n == 0 {
      assert Recorded(lane, 0) == [];
    } else {
      BeforeRecords(lane, n - 1);
      RecordsOneMore(lane, n);
      RecordedSnoc(lane, n);
      FlattenSnoc(Recorded(lane, n - 1), Contribution(lane.epochs[n - 1], Logged(lane, n - 1)));
    }
  }

  lemma CurrentRecords(next: nat, lane: Lane)
    requires lane.epochs != [] && CurrentOk(next, lane) && HistOk(next, lane.hist)
    ensures var e := Current(lane);
            && e.base <= Folded(lane) <= |lane.hist|
            && HistoryOf(lane.store)
               == HistoryOf(e.before) + Contribution(e, Payloads(lane.hist[e.base..Folded(lane)]))
  {
    var e := Current(lane);
    var folded := Span(lane.hist, e.base, BehindStore(lane.writer));
    assert folded == lane.hist[e.base..Folded(lane)];
    if e.isTurn {
      WholeStops(next, lane);
      assert forall i | 0 <= i < |folded| :: folded[i] == Span(lane.hist, e.base, 0)[i];
    }
    FoldRecords(e, folded);
  }

  /** Conservation of history at every moment of every interleaving: the recorded
      history is, turn by turn and cancel by cancel, the seed message of each
      task-shaped turn followed by its status messages, the last of them as far as it
      has been folded. Nothing recorded is ever lost, repeated or reordered. */
  lemma RecordConservation(moves: seq<Move>, id: string)
    ensures var lane := LaneAt(Run(moves), id);
            if lane.epochs == [] then lane.store == None
            else
              var e, n := Current(lane), |lane.epochs| - 1;
              && e.base <= Folded(lane) <= |lane.hist|
              && HistoryOf(lane.store)
                 == Flatten(Recorded(lane, n)) + Contribution(e, Payloads(lane.hist[e.base..Folded(lane)]))
  {
    ReachableRecord(moves, id);
    if LaneAt(Run(moves), id).epochs != [] {
      RecordsHere(Run(moves).next, LaneAt(Run(moves), id));
    }
  }

  lemma ReachableRecord(moves: seq<Move>, id: string)
    ensures var lane := LaneAt(Run(moves), id);
            && LaneInv(Run(moves).next, lane) && Origin(lane) && NoEmptyArtifacts(lane)
            && (lane.epochs == [] ==> lane.store == None)
  {
    AlwaysGood(moves, id);
  }

  lemma RecordsHere(next: nat, lane: Lane)
    requires LaneInv(next, lane) && Origin(lane) && lane.epochs != []
    ensures var e, n := Current(lane), |lane.epochs| - 1;
            && e.base <= Folded(lane) <= |lane.hist|
            && HistoryOf(lane.store)
               == Flatten(Recorded(lane, n)) + Contribution(e, Payloads(lane.hist[e.base..Folded(lane)]))
  {
    BeforeRecords(lane, |lane.epochs| - 1);
    CurrentRecords(next, lane);
  }

  // ---- Artifacts ----

  lemma PayloadsConcat(a: seq<SeqEvent>, b: seq<SeqEvent>)
    ensures Payloads(a + b) == Payloads(a) + Payloads(b)
  {
  }

  lemma SpanArtifacts(hist: seq<SeqEvent>, e: Epoch, to: nat)
    requires e.base <= to <= |hist|
    requires ArtifactsOf(e.before) == MergeAll(Updates(Payloads(hist[..e.base])))
    ensures ArtifactsOf(FoldSpan(e, hist[e.base..to])) == MergeAll(Updates(Payloads(hist[..to])))
  {
    var evs, earlier := Payloads(hist[e.base..to]), Payloads(hist[..e.base]);
    FoldArtifacts(e.before, e.frame, e.isTurn, evs, Updates(earlier));
    assert hist[..to] == hist[..e.base] + hist[e.base..to];
    PayloadsConcat(hist[..e.base], hist[e.base..to]);
    UpdatesConcat(earlier, evs);
  }

  lemma ChainArtifacts(hist: seq<SeqEvent>, e: Epoch, succ: Epoch)
    requires Chained(hist, e, succ) && ArtifactsOf(e.before) == MergeAll(Updates(Payloads(hist[..e.base])))
    ensures succ.base <= |hist| && ArtifactsOf(succ.before) == MergeAll(Updates(Payloads(hist[..succ.base])))
  {
    SpanArtifacts(hist, e, succ.base);
  }

  lemma ArtifactsOneMore(lane: Lane, n: nat)
    requires 0 < n < |lane.epochs| && AllChained(lane) && lane.epochs[n - 1].base <= |lane.hist|
    requires ArtifactsOf(lane.epochs[n - 1].before) == MergeAll(Updates(Payloads(lane.hist[..lane.epochs[n - 1].base])))
    ensures lane.epochs[n].base <= |lane.hist|
    ensures ArtifactsOf(lane.epochs[n].before) == MergeAll(Updates(Payloads(lane.hist[..lane.epochs[n].base])))
  {
    assert ChainedAt(lane, n - 1);
    ChainArtifacts(lane.hist, lane.epochs[n - 1], lane.epochs[n]);
  }

  lemma {:induction false} BeforeArtifacts(lane: Lane, n: nat)
    requires AllChained(lane) && Origin(lane) && n < |lane.epochs|
    ensures lane.epochs[n].base <= |lane.hist|
    ensures ArtifactsOf(lane.epochs[n].before) == MergeAll(Updates(Payloads(lane.hist[..lane.epochs[n].base])))
  {
    if n > 0 {
      BeforeArtifacts(lane, n - 1);
      ArtifactsOneMore(lane, n);
    }
  }

  lemma StoredArtifacts(next: nat, lane: Lane)
    requires LaneInv(next, lane) && Origin(lane)
    ensures 0 <= Folded(lane) <= |lane.hist|
    ensures ArtifactsOf(lane.store) == MergeAll(Updates(Payloads(lane.hist[..Folded(lane)])))
  {
    if lane.epochs != [] {
      StoreIsRecord(next, lane);
      BeforeArtifacts(lane, |lane.epochs| - 1);
      SpanArtifacts(lane.hist, Current(lane), Folded(lane));
    }
  }

  lemma LoggedHaveParts(lane: Lane, to: nat)
    requires NoEmptyArtifacts(lane) && to <= |lane.hist|
    ensures NoEmptyUpdates(Payloads(lane.hist[..to]))
  {
  }

  /** At every moment the stored artifacts are what the task's whole update sequence, as
      far as it has been folded, declares: one per surviving version, in opening order,
      with distinct ids, one for every id ever mentioned, none without parts. */
  lemma RecordArtifacts(moves: seq<Move>, id: string)
    ensures var lane := LaneAt(Run(moves), id);
            && 0 <= Folded(lane) <= |lane.hist|
            && var us := Updates(Payloads(lane.hist[..Folded(lane)]));
            && ArtifactsOf(lane.store) == Declared(us)
            && DistinctIds(Declared(us))
            && (forall id :: Mentioned(us, id) <==> exists a | a in Declared(us) :: a.artifactId == id)
            && (forall a | a in Declared(us) :: a.parts != [])
  {
    ReachableRecord(moves, id);
    var lane := LaneAt(Run(moves), id);
    StoredArtifacts(Run(moves).next, lane);
    LoggedHaveParts(lane, Folded(lane));
    UpdatesHaveParts(Payloads(lane.hist[..Folded(lane)]));
    MergeAllIsDeclared(Updates(Payloads(lane.hist[..Folded(lane)])));
    MergeAllWellFormed(Updates(Payloads(lane.hist[..Folded(lane)])));
  }
}
