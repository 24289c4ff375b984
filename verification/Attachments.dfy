/** What a subscription found when it attached: the bus of the running turn, or none, and
    then every turn begun by then had already logged and sent all it ever would. */
module Attachments {
  import opened Types
  import opened Pipeline
  import opened PipelineInvariant
  import opened Subscribers

  /** Where the events of a turn end: where its successor's begin, or with the history. */
  function TurnEnd(lane: Lane, b: nat): nat
    requires b < |lane.epochs|
  {
    if b + 1 < |lane.epochs| then lane.epochs[b + 1].base else |lane.hist|
  }

  predicate HasAttached(sub: Sub) {
    !sub.phase.Reading? && !sub.phase.Attaching? && !sub.phase.Refused?
  }

  /** Nothing is at work on the task that still logs or sends. */
  predicate Quieted(lane: Lane) {
    lane.writer.NoWriter? || lane.writer.phase.Unregistered?
  }

  /** A turn that logged its last event among the task's first `sent`. */
  ghost predicate OverBy(lane: Lane, b: nat, sent: nat)
    requires b < |lane.epochs|
  {
    TurnEnd(lane, b) <= sent && (b + 1 == |lane.epochs| ==> Quieted(lane))
  }

  ghost predicate AllOverBy(lane: Lane, begun: nat, sent: nat)
    requires begun <= |lane.epochs|
  {
    forall b: nat | b < begun && lane.epochs[b].isTurn :: OverBy(lane, b, sent)
  }

  ghost predicate AttachInv(lane: Lane, sub: Sub) {
    HasAttached(sub) ==>
      && sub.begun <= |lane.epochs| && sub.sent0 <= |lane.hist|
      && (sub.bus.Some? ==> sub.bus.value + 1 == sub.begun)
      && (sub.bus.None? ==> AllOverBy(lane, sub.begun, sub.sent0))
      && (!sub.phase.Snapshotting? ==> sub.sent0 <= sub.snap)
  }

  lemma FreshAttachment(lane: Lane, since: Option<nat>)
    ensures AttachInv(lane, NewSubscriber(since))
  {
  }

  // ---- Attaching ----

  lemma {:induction false} BasesGrow(lane: Lane, a: nat, b: nat)
    requires AllChained(lane) && a <= b < |lane.epochs|
    ensures lane.epochs[a].base <= lane.epochs[b].base
  {
    if a < b {
      BasesGrow(lane, a, b - 1);
      assert ChainedAt(lane, b - 1);
    }
  }

  /** Where no bus is registered the current turn, if any, is over. */
  lemma CurrentIsOver(next: nat, lane: Lane)
    requires lane.epochs != [] && CurrentOk(next, lane) && lane.registered.None?
    ensures Current(lane).isTurn ==> Quieted(lane)
    ensures Current(lane).base <= |lane.hist| - Behind(lane) && (Quieted(lane) ==> Behind(lane) == 0)
  {
    if lane.writer.Active? {
      BehindIsInside(next, lane);
    }
  }

  lemma NoBusNoTurn(next: nat, lane: Lane)
    requires LaneInv(next, lane) && lane.registered.None? && Behind(lane) <= |lane.hist|
    ensures AllOverBy(lane, |lane.epochs|, |lane.hist| - Behind(lane))
  {
    forall b: nat | b < |lane.epochs| && lane.epochs[b].isTurn ensures OverBy(lane, b, |lane.hist| - Behind(lane)) {
      CurrentIsOver(next, lane);
      if b + 1 < |lane.epochs| {
        BasesGrow(lane, b + 1, |lane.epochs| - 1);
      }
    }
  }

  lemma AttachFinds(next: nat, lane: Lane, sub: Sub)
    requires LaneInv(next, lane) && sub.phase.Attaching?
    ensures AttachInv(lane, AfterAttach(next, lane, sub))
  {
    if lane.registered.Some? {
      RegisteredIsCurrent(next, lane);
    } else {
      NoBusNoTurn(next, lane);
    }
  }

  lemma AttachmentKept(lane: Lane, sub: Sub, sub': Sub)
    requires AttachInv(lane, sub) && HasAttached(sub) && HasAttached(sub')
    requires sub'.begun == sub.begun && sub'.sent0 == sub.sent0 && sub'.bus == sub.bus
    requires sub'.snap == (if sub.phase.Snapshotting? then |lane.hist| else sub.snap) && !sub'.phase.Snapshotting?
    ensures AttachInv(lane, sub')
  {
  }

  lemma OwnStepStays(next: nat, lane: Lane, sub: Sub)
    requires HasAttached(sub)
    ensures var sub' := AfterSub(next, lane, sub);
            && HasAttached(sub') && !sub'.phase.Snapshotting?
            && sub'.begun == sub.begun && sub'.sent0 == sub.sent0 && sub'.bus == sub.bus
            && sub'.snap == if sub.phase.Snapshotting? then |lane.hist| else sub.snap
  {
  }

  lemma SubStepKeepsAttachment(next: nat, lane: Lane, sub: Sub, sub': Sub)
    requires LaneInv(next, lane) && AttachInv(lane, sub) && sub' == AfterSub(next, lane, sub)
    ensures AttachInv(lane, sub')
  {
    if sub.phase.Attaching? {
      AttachFinds(next, lane, sub);
    } else if HasAttached(sub) {
      OwnStepStays(next, lane, sub);
      AttachmentKept(lane, sub, sub');
    }
  }

  // ---- The steps of others ----

  /** A task at rest logs nothing until the next turn or cancel begins, at the end of its
      history. */
  lemma RestStays(next: nat, lane: Lane, st: LaneStep, lane': Lane)
    requires Enabled(lane, st) && Quieted(lane) && lane' == AfterStep(next, lane, st)
    ensures lane'.hist == lane.hist
    ensures if |lane'.epochs| == |lane.epochs| then Quieted(lane')
            else |lane'.epochs| == |lane.epochs| + 1 && lane'.epochs[|lane.epochs|].base == |lane.hist|
  {
  }

  lemma OverStays(next: nat, lane: Lane, st: LaneStep, lane': Lane, b: nat, sent: nat)
    requires Enabled(lane, st) && Grows(lane, lane') && lane' == AfterStep(next, lane, st)
    requires b < |lane.epochs| && OverBy(lane, b, sent)
    ensures OverBy(lane', b, sent)
  {
    if b + 1 < |lane.epochs| {
      assert EpochGrows(lane.epochs[b + 1], lane'.epochs[b + 1]);
    } else {
      RestStays(next, lane, st, lane');
    }
  }

  lemma AttachmentStays(next: nat, lane: Lane, st: LaneStep, lane': Lane, sub: Sub)
    requires Enabled(lane, st) && Grows(lane, lane') && lane' == AfterStep(next, lane, st) && AttachInv(lane, sub)
    ensures AttachInv(lane', sub)
  {
    if HasAttached(sub) && sub.bus.None? {
      forall b: nat | b < sub.begun && lane'.epochs[b].isTurn ensures OverBy(lane', b, sub.sent0) {
        assert EpochGrows(lane.epochs[b], lane'.epochs[b]);
        OverStays(next, lane, st, lane', b, sub.sent0);
      }
    }
  }

  /** Only the list of subscriptions changes. */
  lemma AttachmentElsewhere(lane: Lane, lane': Lane, sub: Sub)
    requires AttachInv(lane, sub) && lane' == lane.(subs := lane'.subs)
    ensures AttachInv(lane', sub)
  {
    if HasAttached(sub) && sub.bus.None? {
      forall b: nat | b < sub.begun && lane'.epochs[b].isTurn ensures OverBy(lane', b, sub.sent0) {
        assert OverBy(lane, b, sub.sent0);
      }
    }
  }
}
