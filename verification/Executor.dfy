/** The handle an agent executor reports through: the only source of the events a
    turn or a cancel applies. */
module Executor {
  import opened Types
  import opened Sequences
  import opened Turns

  /** Fills in an id only where the executor left it out. */
  function StampContextId(m: Message, contextId: string): Message {
    if m.contextId.None? then m.(contextId := Some(contextId)) else m
  }

  function StampTaskId(m: Message, taskId: string): Message {
    if m.taskId.None? then m.(taskId := Some(taskId)) else m
  }

  class EventSink {
    const taskId: string
    const contextId: string
    /** Everything sent so far and not yet taken by the receiving side. */
    var sent: seq<StreamResponse>

    constructor (taskId: string, contextId: string)
      ensures this.taskId == taskId && this.contextId == contextId && sent == [] && Valid()
    {
      this.taskId := taskId;
      this.contextId := contextId;
      sent := [];
    }

    /** No sink ever carries a task object, and every status message in it has both ids. */
    predicate Valid()
      reads this
    {
      NoTaskObjects(sent) && StampedEvents(sent)
    }

    /** A bare reply gets a context id but never a task id: there is no task. */
    method Reply(message: Message)
      requires Valid()
      modifies this`sent
      ensures Valid()
      ensures sent == old(sent) + [BareMessage(message.(contextId := Some(message.contextId.GetOr(contextId))))]
    {
      sent := sent + [BareMessage(StampContextId(message, contextId))];
    }

    method Status(state: TaskState, at: DateTime)
      requires Valid()
      modifies this`sent
      ensures Valid()
      ensures sent
           == old(sent)
            + [StatusUpdate(TaskStatusUpdateEvent(taskId, contextId, TaskStatus(state, None, Some(at)), None))]
    {
      StatusWithMessage(state, None, at);
    }

    method StatusWithMessage(state: TaskState, message: Option<Message>, at: DateTime)
      requires Valid()
      modifies this`sent
      ensures Valid()
      ensures |sent| == |old(sent)| + 1 && old(sent) <= sent && sent[|old(sent)|].StatusUpdate?
      ensures var u := sent[|old(sent)|].statusUpdate;
              && u.taskId == taskId && u.contextId == contextId && u.metadata == None
              && u.status.state == state && u.status.timestamp == Some(at)
              && (message.None? ==> u.status.message == None)
              && (message.Some? ==>
                    u.status.message == Some(message.value.(
                      contextId := Some(message.value.contextId.GetOr(contextId)),
                      taskId := Some(message.value.taskId.GetOr(taskId)))))
    {
      var stamped := None;
      if message.Some? {
        stamped := Some(StampTaskId(StampContextId(message.value, contextId), taskId));
      }
      var u := TaskStatusUpdateEvent(taskId, contextId, TaskStatus(state, stamped, Some(at)), None);
      sent := sent + [StatusUpdate(u)];
    }

    /** A complete artifact is one replacing, final chunk. */
    method PublishArtifact(artifact: Artifact)
      requires Valid()
      modifies this`sent
      ensures Valid()
      ensures sent
           == old(sent) + [ArtifactUpdate(TaskArtifactUpdateEvent(taskId, contextId, artifact, false, true, None))]
    {
      PublishChunk(artifact, false, true);
    }

    method PublishChunk(artifact: Artifact, append: bool, lastChunk: bool)
      requires Valid()
      modifies this`sent
      ensures Valid()
      ensures sent
           == old(sent)
            + [ArtifactUpdate(TaskArtifactUpdateEvent(taskId, contextId, artifact, append, lastChunk, None))]
    {
      sent := sent + [ArtifactUpdate(TaskArtifactUpdateEvent(taskId, contextId, artifact, append, lastChunk, None))];
    }

    /** What `cancel` does unless an executor overrides it. */
    method DefaultCancel(at: DateTime)
      requires Valid()
      modifies this`sent
      ensures Valid()
      ensures sent
           == old(sent)
            + [StatusUpdate(TaskStatusUpdateEvent(taskId, contextId, TaskStatus(Canceled, None, Some(at)), None))]
    {
      Status(Canceled, at);
    }
  }

  /** With the default `cancel` nothing has to be added: the executor's own Canceled
      status is the only event applied, and the record's history does not change. */
  lemma DefaultCancelSuffices(cur: Option<Task>, f: Frame, at: DateTime, later: DateTime)
    requires cur.Some?
    ensures var evs := CancelEvents(cur, f, [CanceledEvent(f, at)], later);
            && evs == [CanceledEvent(f, at)]
            && HistoryOf(FoldEvents(cur, f, false, evs)) == HistoryOf(cur)
  {
    var emitted := [CanceledEvent(f, at)];
    assert emitted[..0] == [];
    FilterAll(emitted, Kept);
    LastStatusWins(cur, f, false, emitted);
    CancelLandsTerminal(cur, f, emitted, later);
  }

  /** What the executor reported during an operation. */
  function Reported(op: Op): seq<StreamResponse> {
    match op
    case TurnOp(_, raw, _, _) => raw
    case CancelOp(_, emitted, _, _) => emitted
  }

  /** When every operation's events came through a sink, everything recorded but the
      clients' own messages carries both ids, whatever the executor left out. */
  lemma SinkMessagesCarryIds(ops: seq<Op>, sinks: seq<EventSink>, m: Message)
    requires |sinks| == |ops|
    requires forall i | 0 <= i < |ops| :: sinks[i].Valid() && Reported(ops[i]) == sinks[i].sent
    requires m in HistoryOf(AfterOps(None, ops))
    ensures CarriesIds(m) || exists op | op in ops :: op.TurnOp? && m == op.frame.seed
  {
    forall i | 0 <= i < |ops| ensures SinkOp(ops[i]) && StampedOp(ops[i]) {
      assert sinks[i].Valid();
    }
    RecordedMessagesCarryIds(ops, m);
  }
}
