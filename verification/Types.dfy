/** The A2A data model: messages, parts, tasks, artifacts and stream events.

    `metadata` and structured part content are JSON trees; timestamps are
    values of a totally ordered type, read from a clock that is not modelled. */
module Types {

  datatype Option<+T> = None | Some(value: T) {
    function GetOr(default: T): T {
      match this
      case Some(v) => v
      case None => default
    }
  }

  datatype Result<+T, +E> = Ok(value: T) | Err(error: E)

  /** A JSON number is kept as an integer when it was written as one. */
  datatype Number = Int(i: int) | Float(f: real)

  datatype Json =
    | JNull
    | JBool(b: bool)
    | JNumber(n: Number)
    | JString(s: string)
    | JArray(items: seq<Json>)
    | JObject(fields: map<string, Json>)

  type JsonMap = map<string, Json>

  datatype DateTime = DateTime(seconds: int, nanos: int)

  predicate Earlier(a: DateTime, b: DateTime) {
    a.seconds < b.seconds || (a.seconds == b.seconds && a.nanos < b.nanos)
  }

  datatype Role = RoleUnspecified | User | Agent

  datatype PartContent =
    | Text(text: string)
    | Raw(raw: seq<bv8>)
    | Url(url: string)
    | Data(data: Json)

  datatype Part = Part(
    content: PartContent,
    metadata: Option<JsonMap>,
    filename: Option<string>,
    mediaType: Option<string>)

  datatype Message = Message(
    messageId: string,
    contextId: Option<string>,
    taskId: Option<string>,
    role: Role,
    parts: seq<Part>,
    metadata: Option<JsonMap>,
    extensions: seq<string>,
    referenceTaskIds: seq<string>)

  datatype TaskState =
    | Unspecified
    | Submitted
    | Working
    | Completed
    | Failed
    | Canceled
    | InputRequired
    | Rejected
    | AuthRequired
  {
    predicate IsTerminal() {
      Completed? || Failed? || Canceled? || Rejected?
    }

    predicate IsInterrupted() {
      InputRequired? || AuthRequired?
    }

    predicate IsFinalForBlockingSend() {
      IsTerminal() || IsInterrupted()
    }
  }

  datatype TaskStatus = TaskStatus(
    state: TaskState,
    message: Option<Message>,
    timestamp: Option<DateTime>)

  datatype Artifact = Artifact(
    artifactId: string,
    name: Option<string>,
    description: Option<string>,
    parts: seq<Part>,
    metadata: Option<JsonMap>,
    extensions: seq<string>)

  datatype Task = Task(
    id: string,
    contextId: Option<string>,
    status: TaskStatus,
    artifacts: seq<Artifact>,
    history: seq<Message>,
    metadata: Option<JsonMap>)

  function NewTask(id: string, contextId: string, state: TaskState, now: DateTime): Task {
    Task(id, Some(contextId), TaskStatus(state, None, Some(now)), [], [], None)
  }

  datatype TaskStatusUpdateEvent = TaskStatusUpdateEvent(
    taskId: string,
    contextId: string,
    status: TaskStatus,
    metadata: Option<JsonMap>)

  datatype TaskArtifactUpdateEvent = TaskArtifactUpdateEvent(
    taskId: string,
    contextId: string,
    artifact: Artifact,
    append: bool,
    lastChunk: bool,
    metadata: Option<JsonMap>)

  datatype StreamResponse =
    | TaskObject(task: Task)
    | BareMessage(message: Message)
    | StatusUpdate(statusUpdate: TaskStatusUpdateEvent)
    | ArtifactUpdate(artifactUpdate: TaskArtifactUpdateEvent)
  {
    /** True of the last event a live stream delivers. AUTH_REQUIRED is not one
        (A2A specification, section 7.6.1). */
    predicate ClosesStream() {
      match this
      case BareMessage(_) => true
      case StatusUpdate(u) => u.status.state.IsTerminal() || u.status.state == InputRequired
      case _ => false
    }

    /** True of an event that is a real outcome of one executor invocation. */
    predicate IsTurnOutcome() {
      match this
      case BareMessage(_) => true
      case StatusUpdate(u) => u.status.state.IsFinalForBlockingSend()
      case _ => false
    }
  }
}
