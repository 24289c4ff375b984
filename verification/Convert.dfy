/** Messages, tasks, events, results and requests against their protobuf forms. */
module Convert {
  import opened Types
  import opened Protobuf
  import opened JsonValues

  // ---- Leaves ----

  function NonEmpty(s: string): Option<string> {
    if s == "" then None else Some(s)
  }

  function OrEmpty(s: Option<string>): string {
    s.GetOr("")
  }

  /** An empty optional string becomes absent. */
  function NormalString(s: Option<string>): Option<string> {
    if s == Some("") then None else s
  }

  /** The seconds of chrono's first and last instants, in the years -262143 and 262142. */
  const MIN_SECONDS := -8_334_601_228_800
  const MAX_SECONDS := 8_210_266_876_799

  /** The instants chrono can hold; a leap second is only allowed in a minute's last. */
  predicate Representable(seconds: int, nanos: int) {
    && MIN_SECONDS <= seconds <= MAX_SECONDS
    && 0 <= nanos < (if seconds % 60 == 59 then 2_000_000_000 else 1_000_000_000)
  }

  function DecodeTimestamp(ts: PbTimestamp): Option<DateTime> {
    var nanos := if ts.nanos < 0 then 0 else ts.nanos;
    if Representable(ts.seconds, nanos) then Some(DateTime(ts.seconds, nanos)) else None
  }

  function EncodeTimestamp(t: DateTime): PbTimestamp {
    PbTimestamp(t.seconds, t.nanos)
  }

  function DecodeInstant(ts: Option<PbTimestamp>): Option<DateTime> {
    match ts case None => None case Some(t) => DecodeTimestamp(t)
  }

  function EncodeInstant(t: Option<DateTime>): Option<PbTimestamp> {
    match t case None => None case Some(d) => Some(EncodeTimestamp(d))
  }

  /** A value of chrono's own type. */
  predicate IsInstant(t: Option<DateTime>) {
    t.Some? ==> Representable(t.value.seconds, t.value.nanos)
  }

  function DecodeState(state: int): TaskState {
    match state
    case 1 => Submitted
    case 2 => Working
    case 3 => Completed
    case 4 => Failed
    case 5 => Canceled
    case 6 => InputRequired
    case 7 => Rejected
    case 8 => AuthRequired
    case _ => Unspecified
  }

  function EncodeState(state: TaskState): int {
    match state
    case Unspecified => 0
    case Submitted => 1
    case Working => 2
    case Completed => 3
    case Failed => 4
    case Canceled => 5
    case InputRequired => 6
    case Rejected => 7
    case AuthRequired => 8
  }

  function DecodeRole(role: int): Role {
    match role
    case 1 => User
    case 2 => Agent
    case _ => RoleUnspecified
  }

  function EncodeRole(role: Role): int {
    match role
    case RoleUnspecified => 0
    case User => 1
    case Agent => 2
  }

  function EncodeMetadata(m: Option<JsonMap>): Option<PbStruct> {
    match m case None => None case Some(fields) => Some(EncodeMap(fields))
  }

  function DecodeMetadata(m: Option<PbStruct>): Option<JsonMap> {
    match m case None => None case Some(s) => Some(DecodeStruct(s))
  }

  function NormalMetadata(m: Option<JsonMap>): Option<JsonMap> {
    match m case None => None case Some(fields) => Some(NormalMap(fields))
  }

  lemma MetadataTrip(m: Option<JsonMap>)
    ensures DecodeMetadata(EncodeMetadata(m)) == NormalMetadata(m)
    ensures EncodeMetadata(NormalMetadata(m)) == EncodeMetadata(m)
    ensures NormalMetadata(NormalMetadata(m)) == NormalMetadata(m)
  {
    if m.Some? {
      MapTrip(m.value);
    }
  }

  lemma DecodedMetadataNormal(m: Option<PbStruct>)
    ensures NormalMetadata(DecodeMetadata(m)) == DecodeMetadata(m)
  {
    if m.Some? {
      DecodedMapIsNormal(m.value);
    }
  }

  // ---- Lists ----

  function Each<A, B>(s: seq<A>, f: A -> B): seq<B> {
    seq(|s|, i requires 0 <= i < |s| => f(s[i]))
  }

  /** All results, or the first error. */
  function Collect<A, B>(s: seq<A>, f: A -> Result<B, Status>): Result<seq<B>, Status> {
    if s == [] then Ok([])
    else
      var n := |s| - 1;
      match Collect(s[..n], f)
      case Err(e) => Err(e)
      case Ok(done) =>
        match f(s[n])
        case Err(e) => Err(e)
        case Ok(v) => Ok(done + [v])
  }

  /** Collecting succeeds exactly if every element does, and then element by element;
      if all elements fail in the same way, so does the whole. */
  lemma {:induction false} CollectMeaning<A, B>(s: seq<A>, f: A -> Result<B, Status>)
    ensures Collect(s, f).Ok? <==> forall i | 0 <= i < |s| :: f(s[i]).Ok?
    ensures Collect(s, f).Ok? ==>
              && |Collect(s, f).value| == |s|
              && forall i | 0 <= i < |s| :: f(s[i]) == Ok(Collect(s, f).value[i])
    ensures Collect(s, f).Err? ==> exists i | 0 <= i < |s| :: f(s[i]) == Err(Collect(s, f).error)
  {
    if s != [] {
      CollectMeaning(s[..|s| - 1], f);
    }
  }

  lemma CollectTrip<A, B>(s: seq<A>, enc: A -> B, dec: B -> Result<A, Status>, norm: A -> A)
    requires forall i | 0 <= i < |s| :: dec(enc(s[i])) == Ok(norm(s[i]))
    ensures Collect(Each(s, enc), dec) == Ok(Each(s, norm))
  {
    var sent := Each(s, enc);
    CollectMeaning(sent, dec);
    assert forall i | 0 <= i < |s| :: sent[i] == enc(s[i]);
    var r := Collect(sent, dec);
    assert r.Ok? by {
      forall i | 0 <= i < |sent| ensures dec(sent[i]).Ok? {
      }
    }
    assert r.value == Each(s, norm);
  }

  lemma EachAgain<A, B>(s: seq<A>, norm: A -> A, f: A -> B)
    requires forall i | 0 <= i < |s| :: f(norm(s[i])) == f(s[i])
    ensures Each(Each(s, norm), f) == Each(s, f)
  {
  }

  /** What a trip is: decoding gives the normal form, the normal form travels the same
      way, and normalizing again changes nothing. */
  ghost predicate Travels<A, B>(x: A, enc: A -> B, dec: B -> Result<A, Status>, norm: A -> A) {
    dec(enc(x)) == Ok(norm(x)) && enc(norm(x)) == enc(x) && norm(norm(x)) == norm(x)
  }

  lemma AllTravel<A, B>(s: seq<A>, enc: A -> B, dec: B -> Result<A, Status>, norm: A -> A)
    requires forall i | 0 <= i < |s| :: Travels(s[i], enc, dec, norm)
    ensures Collect(Each(s, enc), dec) == Ok(Each(s, norm))
    ensures Each(Each(s, norm), enc) == Each(s, enc)
    ensures Each(Each(s, norm), norm) == Each(s, norm)
  {
    assert forall i | 0 <= i < |s| ::
        dec(enc(s[i])) == Ok(norm(s[i])) && enc(norm(s[i])) == enc(s[i]) && norm(norm(s[i])) == norm(s[i]) by {
      forall i | 0 <= i < |s|
      ensures dec(enc(s[i])) == Ok(norm(s[i])) && enc(norm(s[i])) == enc(s[i]) && norm(norm(s[i])) == norm(s[i])
    {
        assert Travels(s[i], enc, dec, norm);
      }
    }
    CollectTrip(s, enc, dec, norm);
    EachAgain(s, norm, enc);
    EachAgain(s, norm, norm);
  }

  // ---- Parts ----

  function EncodeContent(c: PartContent): PbContent {
    match c
    case Text(t) => PbText(t)
    case Raw(b) => PbRaw(b)
    case Url(u) => PbUrl(u)
    case Data(j) => PbData(EncodeJson(j))
  }

  function DecodeContent(c: PbContent): PartContent {
    match c
    case PbText(t) => Text(t)
    case PbRaw(b) => Raw(b)
    case PbUrl(u) => Url(u)
    case PbData(v) => Data(DecodeValue(v))
  }

  function NormalContent(c: PartContent): PartContent {
    match c
    case Data(j) => Data(NormalJson(j))
    case _ => c
  }

  function EncodePart(p: Part): PbPart {
    PbPart(Some(EncodeContent(p.content)), EncodeMetadata(p.metadata), OrEmpty(p.filename), OrEmpty(p.mediaType))
  }

  function DecodePart(p: PbPart): Result<Part, Status> {
    match p.content
    case None => Err(InvalidArgument)
    case Some(c) =>
      Ok(Part(DecodeContent(c), DecodeMetadata(p.metadata), NonEmpty(p.filename), NonEmpty(p.mediaType)))
  }

  function NormalPart(p: Part): Part {
    Part(NormalContent(p.content), NormalMetadata(p.metadata), NormalString(p.filename), NormalString(p.mediaType))
  }

  /** What a decode is: it succeeds exactly if nothing required is missing, fails with
      one code, and yields something already normal. */
  ghost predicate DecodesWhen<A(!new)>(r: Result<A, Status>, complete: bool, norm: A -> A) {
    && (r.Ok? <==> complete)
    && (r.Err? ==> r.error == InvalidArgument)
    && (r.Ok? ==> norm(r.value) == r.value)
  }

  lemma AllDecode<A(!new), B>(s: seq<B>, dec: B -> Result<A, Status>, complete: B -> bool, norm: A -> A)
    requires forall i | 0 <= i < |s| :: DecodesWhen(dec(s[i]), complete(s[i]), norm)
    ensures var r := Collect(s, dec);
            && (r.Ok? <==> forall i | 0 <= i < |s| :: complete(s[i]))
            && (r.Err? ==> r.error == InvalidArgument)
            && (r.Ok? ==> Each(r.value, norm) == r.value)
  {
    CollectMeaning(s, dec);
    var r := Collect(s, dec);
    forall i | 0 <= i < |s| ensures dec(s[i]).Ok? <==> complete(s[i]) {
      assert DecodesWhen(dec(s[i]), complete(s[i]), norm);
    }
    if r.Ok? {
      forall i | 0 <= i < |r.value| ensures norm(r.value[i]) == r.value[i] {
        assert DecodesWhen(dec(s[i]), complete(s[i]), norm);
      }
    } else {
      var i :| 0 <= i < |s| && dec(s[i]) == Err(r.error);
      assert DecodesWhen(dec(s[i]), complete(s[i]), norm);
    }
  }

  lemma PartTravels(p: Part)
    ensures Travels(p, EncodePart, DecodePart, NormalPart)
  {
    MetadataTrip(p.metadata);
    if p.content.Data? {
      JsonTrip(p.content.data);
    }
  }

  function HasContent(p: PbPart): bool {
    p.content.Some?
  }

  lemma PartDecodes(p: PbPart)
    ensures DecodesWhen(DecodePart(p), HasContent(p), NormalPart)
  {
    DecodedMetadataNormal(p.metadata);
    if p.content.Some? && p.content.value.PbData? {
      DecodedIsNormal(p.content.value.data);
    }
  }

  function PartsComplete(ps: seq<PbPart>): bool {
    forall i | 0 <= i < |ps| :: HasContent(ps[i])
  }

  lemma PartsTravel(ps: seq<Part>)
    ensures Collect(Each(ps, EncodePart), DecodePart) == Ok(Each(ps, NormalPart))
    ensures Each(Each(ps, NormalPart), EncodePart) == Each(ps, EncodePart)
    ensures Each(Each(ps, NormalPart), NormalPart) == Each(ps, NormalPart)
  {
    forall i | 0 <= i < |ps| ensures Travels(ps[i], EncodePart, DecodePart, NormalPart) {
      PartTravels(ps[i]);
    }
    AllTravel(ps, EncodePart, DecodePart, NormalPart);
  }

  lemma PartsDecode(ps: seq<PbPart>)
    ensures var r := Collect(ps, DecodePart);
            && (r.Ok? <==> PartsComplete(ps))
            && (r.Err? ==> r.error == InvalidArgument)
            && (r.Ok? ==> Each(r.value, NormalPart) == r.value)
  {
    forall i | 0 <= i < |ps| ensures DecodesWhen(DecodePart(ps[i]), HasContent(ps[i]), NormalPart) {
      PartDecodes(ps[i]);
    }
    AllDecode(ps, DecodePart, HasContent, NormalPart);
  }

  // ---- Messages ----

  function EncodeMessage(m: Message): PbMessage {
    PbMessage(m.messageId, OrEmpty(m.contextId), OrEmpty(m.taskId), EncodeRole(m.role), Each(m.parts, EncodePart),
              EncodeMetadata(m.metadata), m.extensions, m.referenceTaskIds)
  }

  function DecodeMessage(m: PbMessage): Result<Message, Status> {
    match Collect(m.parts, DecodePart)
    case Err(e) => Err(e)
    case Ok(parts) =>
      Ok(Message(m.messageId, NonEmpty(m.contextId), NonEmpty(m.taskId), DecodeRole(m.role), parts,
                 DecodeMetadata(m.metadata), m.extensions, m.referenceTaskIds))
  }

  function NormalMessage(m: Message): Message {
    m.(contextId := NormalString(m.contextId), taskId := NormalString(m.taskId),
       parts := Each(m.parts, NormalPart), metadata := NormalMetadata(m.metadata))
  }

  lemma MessageTravels(m: Message)
    ensures Travels(m, EncodeMessage, DecodeMessage, NormalMessage)
  {
    PartsTravel(m.parts);
    MetadataTrip(m.metadata);
  }

  function MessageComplete(m: PbMessage): bool {
    PartsComplete(m.parts)
  }

  lemma MessageDecodes(m: PbMessage)
    ensures DecodesWhen(DecodeMessage(m), MessageComplete(m), NormalMessage)
  {
    PartsDecode(m.parts);
    DecodedMetadataNormal(m.metadata);
  }

  // ---- Task status ----

  function EncodeStatus(s: TaskStatus): PbTaskStatus {
    PbTaskStatus(EncodeState(s.state),
                 match s.message case None => None case Some(m) => Some(EncodeMessage(m)),
                 EncodeInstant(s.timestamp))
  }

  function DecodeStatus(s: PbTaskStatus): Result<TaskStatus, Status> {
    match s.message
    case None => Ok(TaskStatus(DecodeState(s.state), None, DecodeInstant(s.timestamp)))
    case Some(m) =>
      match DecodeMessage(m)
      case Err(e) => Err(e)
      case Ok(message) => Ok(TaskStatus(DecodeState(s.state), Some(message), DecodeInstant(s.timestamp)))
  }

  function NormalStatus(s: TaskStatus): TaskStatus {
    s.(message := match s.message case None => None case Some(m) => Some(NormalMessage(m)))
  }

  lemma StatusTravels(s: TaskStatus)
    requires IsInstant(s.timestamp)
    ensures Travels(s, EncodeStatus, DecodeStatus, NormalStatus)
  {
    if s.message.Some? {
      MessageTravels(s.message.value);
    }
  }

  function StatusComplete(s: PbTaskStatus): bool {
    s.message.Some? ==> MessageComplete(s.message.value)
  }

  lemma StatusDecodes(s: PbTaskStatus)
    ensures DecodesWhen(DecodeStatus(s), StatusComplete(s), NormalStatus)
  {
    if s.message.Some? {
      MessageDecodes(s.message.value);
    }
  }

  // ---- Artifacts ----

  function EncodeArtifact(a: Artifact): PbArtifact {
    PbArtifact(a.artifactId, OrEmpty(a.name), OrEmpty(a.description), Each(a.parts, EncodePart),
               EncodeMetadata(a.metadata), a.extensions)
  }

  function DecodeArtifact(a: PbArtifact): Result<Artifact, Status> {
    match Collect(a.parts, DecodePart)
    case Err(e) => Err(e)
    case Ok(parts) =>
      Ok(Artifact(a.artifactId, NonEmpty(a.name), NonEmpty(a.description), parts, DecodeMetadata(a.metadata),
                  a.extensions))
  }

  function NormalArtifact(a: Artifact): Artifact {
    a.(name := NormalString(a.name), description := NormalString(a.description),
       parts := Each(a.parts, NormalPart), metadata := NormalMetadata(a.metadata))
  }

  lemma ArtifactTravels(a: Artifact)
    ensures Travels(a, EncodeArtifact, DecodeArtifact, NormalArtifact)
  {
    PartsTravel(a.parts);
    MetadataTrip(a.metadata);
  }

  function ArtifactComplete(a: PbArtifact): bool {
    PartsComplete(a.parts)
  }

  lemma ArtifactDecodes(a: PbArtifact)
    ensures DecodesWhen(DecodeArtifact(a), ArtifactComplete(a), NormalArtifact)
  {
    PartsDecode(a.parts);
    DecodedMetadataNormal(a.metadata);
  }

  // ---- Tasks ----

  function EncodeTask(t: Task): PbTask {
    PbTask(t.id, OrEmpty(t.contextId), Some(EncodeStatus(t.status)), Each(t.artifacts, EncodeArtifact),
           Each(t.history, EncodeMessage), EncodeMetadata(t.metadata))
  }

  function DecodeTask(t: PbTask): Result<Task, Status> {
    match t.status
    case None => Err(InvalidArgument)
    case Some(s) =>
      match DecodeStatus(s)
      case Err(e) => Err(e)
      case Ok(status) =>
        match Collect(t.artifacts, DecodeArtifact)
        case Err(e) => Err(e)
        case Ok(artifacts) =>
          match Collect(t.history, DecodeMessage)
          case Err(e) => Err(e)
          case Ok(history) =>
            Ok(Task(t.id, NonEmpty(t.contextId), status, artifacts, history, DecodeMetadata(t.metadata)))
  }

  /** A task after a trip: empty optional strings absent, JSON numbers doubles, in the
      status message, every artifact and every message of the history. */
  function NormalTask(t: Task): Task {
    t.(contextId := NormalString(t.contextId), status := NormalStatus(t.status),
       artifacts := Each(t.artifacts, NormalArtifact), history := Each(t.history, NormalMessage),
       metadata := NormalMetadata(t.metadata))
  }

  lemma HistoryTravels(ms: seq<Message>)
    ensures Collect(Each(ms, EncodeMessage), DecodeMessage) == Ok(Each(ms, NormalMessage))
    ensures Each(Each(ms, NormalMessage), EncodeMessage) == Each(ms, EncodeMessage)
    ensures Each(Each(ms, NormalMessage), NormalMessage) == Each(ms, NormalMessage)
  {
    forall i | 0 <= i < |ms| ensures Travels(ms[i], EncodeMessage, DecodeMessage, NormalMessage) {
      MessageTravels(ms[i]);
    }
    AllTravel(ms, EncodeMessage, DecodeMessage, NormalMessage);
  }

  lemma ArtifactsTravel(xs: seq<Artifact>)
    ensures Collect(Each(xs, EncodeArtifact), DecodeArtifact) == Ok(Each(xs, NormalArtifact))
    ensures Each(Each(xs, NormalArtifact), EncodeArtifact) == Each(xs, EncodeArtifact)
    ensures Each(Each(xs, NormalArtifact), NormalArtifact) == Each(xs, NormalArtifact)
  {
    forall i | 0 <= i < |xs| ensures Travels(xs[i], EncodeArtifact, DecodeArtifact, NormalArtifact) {
      ArtifactTravels(xs[i]);
    }
    AllTravel(xs, EncodeArtifact, DecodeArtifact, NormalArtifact);
  }

  /** Decoding the encoding of any task gives its normal form; the normal form travels
      unchanged, so a second trip is the identity. */
  lemma TaskTravels(t: Task)
    requires IsInstant(t.status.timestamp)
    ensures Travels(t, EncodeTask, DecodeTask, NormalTask)
  {
    StatusTravels(t.status);
    ArtifactsTravel(t.artifacts);
    HistoryTravels(t.history);
    MetadataTrip(t.metadata);
  }

  /** The status is there, and every part at every depth has content. */
  function TaskComplete(t: PbTask): bool {
    && t.status.Some? && StatusComplete(t.status.value)
    && (forall i | 0 <= i < |t.artifacts| :: ArtifactComplete(t.artifacts[i]))
    && (forall i | 0 <= i < |t.history| :: MessageComplete(t.history[i]))
  }

  /** A task decodes exactly if it is complete, and then to something normal. */
  lemma TaskDecodes(t: PbTask)
    ensures DecodesWhen(DecodeTask(t), TaskComplete(t), NormalTask)
  {
    if t.status.Some? {
      StatusDecodes(t.status.value);
    }
    forall i | 0 <= i < |t.artifacts|
      ensures DecodesWhen(DecodeArtifact(t.artifacts[i]), ArtifactComplete(t.artifacts[i]), NormalArtifact)
    {
      ArtifactDecodes(t.artifacts[i]);
    }
    AllDecode(t.artifacts, DecodeArtifact, ArtifactComplete, NormalArtifact);
    forall i | 0 <= i < |t.history|
      ensures DecodesWhen(DecodeMessage(t.history[i]), MessageComplete(t.history[i]), NormalMessage)
    {
      MessageDecodes(t.history[i]);
    }
    AllDecode(t.history, DecodeMessage, MessageComplete, NormalMessage);
    DecodedMetadataNormal(t.metadata);
  }

  // ---- Stream events ----

  function EncodeStatusUpdate(u: TaskStatusUpdateEvent): PbStatusUpdate {
    PbStatusUpdate(u.taskId, u.contextId, Some(EncodeStatus(u.status)), EncodeMetadata(u.metadata))
  }

  function DecodeStatusUpdate(u: PbStatusUpdate): Result<TaskStatusUpdateEvent, Status> {
    match u.status
    case None => Err(InvalidArgument)
    case Some(s) =>
      match DecodeStatus(s)
      case Err(e) => Err(e)
      case Ok(status) => Ok(TaskStatusUpdateEvent(u.taskId, u.contextId, status, DecodeMetadata(u.metadata)))
  }

  function EncodeArtifactUpdate(u: TaskArtifactUpdateEvent): PbArtifactUpdate {
    PbArtifactUpdate(u.taskId, u.contextId, Some(EncodeArtifact(u.artifact)), u.append, u.lastChunk,
                     EncodeMetadata(u.metadata))
  }

  function DecodeArtifactUpdate(u: PbArtifactUpdate): Result<TaskArtifactUpdateEvent, Status> {
    match u.artifact
    case None => Err(InvalidArgument)
    case Some(a) =>
      match DecodeArtifact(a)
      case Err(e) => Err(e)
      case Ok(artifact) =>
        Ok(TaskArtifactUpdateEvent(u.taskId, u.contextId, artifact, u.append, u.lastChunk, DecodeMetadata(u.metadata)))
  }

  function EncodeStreamResponse(r: StreamResponse): PbStreamResponse {
    PbStreamResponse(Some(
      match r
      case TaskObject(t) => TaskPayload(EncodeTask(t))
      case BareMessage(m) => MessagePayload(EncodeMessage(m))
      case StatusUpdate(u) => StatusPayload(EncodeStatusUpdate(u))
      case ArtifactUpdate(u) => ArtifactPayload(EncodeArtifactUpdate(u))))
  }

  function DecodeStreamResponse(r: PbStreamResponse): Result<StreamResponse, Status> {
    match r.payload
    case None => Err(Internal)
    case Some(TaskPayload(t)) => (match DecodeTask(t) case Err(e) => Err(e) case Ok(task) => Ok(TaskObject(task)))
    case Some(MessagePayload(m)) =>
      (match DecodeMessage(m) case Err(e) => Err(e) case Ok(message) => Ok(BareMessage(message)))
    case Some(StatusPayload(u)) =>
      (match DecodeStatusUpdate(u) case Err(e) => Err(e) case Ok(update) => Ok(StatusUpdate(update)))
    case Some(ArtifactPayload(u)) =>
      (match DecodeArtifactUpdate(u) case Err(e) => Err(e) case Ok(update) => Ok(ArtifactUpdate(update)))
  }

  function NormalStreamResponse(r: StreamResponse): StreamResponse {
    match r
    case TaskObject(t) => TaskObject(NormalTask(t))
    case BareMessage(m) => BareMessage(NormalMessage(m))
    case StatusUpdate(u) =>
      StatusUpdate(u.(status := NormalStatus(u.status), metadata := NormalMetadata(u.metadata)))
    case ArtifactUpdate(u) =>
      ArtifactUpdate(u.(artifact := NormalArtifact(u.artifact), metadata := NormalMetadata(u.metadata)))
  }

  predicate HasInstants(r: StreamResponse) {
    match r
    case TaskObject(t) => IsInstant(t.status.timestamp)
    case StatusUpdate(u) => IsInstant(u.status.timestamp)
    case _ => true
  }

  lemma StreamResponseTravels(r: StreamResponse)
    requires HasInstants(r)
    ensures Travels(r, EncodeStreamResponse, DecodeStreamResponse, NormalStreamResponse)
  {
    match r
    case TaskObject(t) => TaskTravels(t);
    case BareMessage(m) => MessageTravels(m);
    case StatusUpdate(u) =>
      StatusTravels(u.status);
      MetadataTrip(u.metadata);
    case ArtifactUpdate(u) =>
      ArtifactTravels(u.artifact);
      MetadataTrip(u.metadata);
  }

  /** Travelling does not change how an event steers a stream. */
  lemma TravelKeepsRole(r: StreamResponse)
    requires HasInstants(r)
    ensures var arrived := DecodeStreamResponse(EncodeStreamResponse(r));
            && arrived.Ok?
            && arrived.value.ClosesStream() == r.ClosesStream()
            && arrived.value.IsTurnOutcome() == r.IsTurnOutcome()
  {
    StreamResponseTravels(r);
  }

  predicate StreamResponseComplete(r: PbStreamResponse) {
    match r.payload
    case None => false
    case Some(TaskPayload(t)) => TaskComplete(t)
    case Some(MessagePayload(m)) => MessageComplete(m)
    case Some(StatusPayload(u)) => u.status.Some? && StatusComplete(u.status.value)
    case Some(ArtifactPayload(u)) => u.artifact.Some? && ArtifactComplete(u.artifact.value)
  }

  /** An event decodes exactly if it is complete; a missing payload is the server's own
      error, a missing field the sender's. */
  lemma StreamResponseDecodes(r: PbStreamResponse)
    ensures var d := DecodeStreamResponse(r);
            && (d.Ok? <==> StreamResponseComplete(r))
            && (d.Err? ==> d.error == if r.payload.None? then Internal else InvalidArgument)
            && (d.Ok? ==> NormalStreamResponse(d.value) == d.value)
  {
    match r.payload
    case None =>
    case Some(TaskPayload(t)) => TaskDecodes(t);
    case Some(MessagePayload(m)) => MessageDecodes(m);
    case Some(StatusPayload(u)) =>
      DecodedMetadataNormal(u.metadata);
      if u.status.Some? {
        StatusDecodes(u.status.value);
      }
    case Some(ArtifactPayload(u)) =>
      DecodedMetadataNormal(u.metadata);
      if u.artifact.Some? {
        ArtifactDecodes(u.artifact.value);
      }
  }

  // ---- What arrives exactly as it was ----

  predicate NotBlank(s: Option<string>) {
    s != Some("")
  }

  predicate DoublesOnly(m: Option<JsonMap>) {
    m.Some? ==> forall k | k in m.value :: AllDoubles(m.value[k])
  }

  /** An instant between chrono's first and last, its nanoseconds less than a second, or less
      than two in a minute's last second. */
  predicate ChronoInstant(t: Option<DateTime>) {
    t.Some? ==>
      && -8_334_601_228_800 <= t.value.seconds <= 8_210_266_876_799
      && (0 <= t.value.nanos < 1_000_000_000
          || (1_000_000_000 <= t.value.nanos < 2_000_000_000 && t.value.seconds % 60 == 59))
  }

  predicate PlainPart(p: Part) {
    && (p.content.Data? ==> AllDoubles(p.content.data)) && DoublesOnly(p.metadata)
    && NotBlank(p.filename) && NotBlank(p.mediaType)
  }

  predicate PlainMessage(m: Message) {
    && NotBlank(m.contextId) && NotBlank(m.taskId) && DoublesOnly(m.metadata)
    && forall i | 0 <= i < |m.parts| :: PlainPart(m.parts[i])
  }

  predicate PlainStatus(s: TaskStatus) {
    ChronoInstant(s.timestamp) && (s.message.Some? ==> PlainMessage(s.message.value))
  }

  predicate PlainArtifact(a: Artifact) {
    && NotBlank(a.name) && NotBlank(a.description) && DoublesOnly(a.metadata)
    && forall i | 0 <= i < |a.parts| :: PlainPart(a.parts[i])
  }

  predicate PlainTask(t: Task) {
    && NotBlank(t.contextId) && PlainStatus(t.status) && DoublesOnly(t.metadata)
    && (forall i | 0 <= i < |t.artifacts| :: PlainArtifact(t.artifacts[i]))
    && (forall i | 0 <= i < |t.history| :: PlainMessage(t.history[i]))
  }

  predicate PlainEvent(r: StreamResponse) {
    match r
    case TaskObject(t) => PlainTask(t)
    case BareMessage(m) => PlainMessage(m)
    case StatusUpdate(u) => PlainStatus(u.status) && DoublesOnly(u.metadata)
    case ArtifactUpdate(u) => PlainArtifact(u.artifact) && DoublesOnly(u.metadata)
  }

  lemma EachUnchanged<A>(s: seq<A>, norm: A -> A)
    ensures Each(s, norm) == s <==> forall i | 0 <= i < |s| :: norm(s[i]) == s[i]
  {
    assert forall i | 0 <= i < |s| :: Each(s, norm)[i] == norm(s[i]);
  }

  lemma MetadataUnchanged(m: Option<JsonMap>)
    ensures NormalMetadata(m) == m <==> DoublesOnly(m)
  {
    if m.Some? {
      MapIfDoubles(m.value);
    }
  }

  lemma PartUnchanged(p: Part)
    ensures NormalPart(p) == p <==> PlainPart(p)
  {
    MetadataUnchanged(p.metadata);
    if p.content.Data? {
      NormalIfDoubles(p.content.data);
    }
  }

  lemma PartsUnchanged(ps: seq<Part>)
    ensures Each(ps, NormalPart) == ps <==> forall i | 0 <= i < |ps| :: PlainPart(ps[i])
  {
    EachUnchanged(ps, NormalPart);
    forall i | 0 <= i < |ps| ensures NormalPart(ps[i]) == ps[i] <==> PlainPart(ps[i]) {
      PartUnchanged(ps[i]);
    }
  }

  lemma MessageUnchanged(m: Message)
    ensures NormalMessage(m) == m <==> PlainMessage(m)
  {
    PartsUnchanged(m.parts);
    MetadataUnchanged(m.metadata);
  }

  lemma ArtifactUnchanged(a: Artifact)
    ensures NormalArtifact(a) == a <==> PlainArtifact(a)
  {
    PartsUnchanged(a.parts);
    MetadataUnchanged(a.metadata);
  }

  /** An instant survives if and only if chrono can hold it; on the wire negative
      nanoseconds count as none. */
  lemma InstantsThatTravel(t: Option<DateTime>)
    ensures DecodeInstant(EncodeInstant(t)) == t <==> ChronoInstant(t)
    ensures t.Some? && t.value.nanos < 0 ==>
              DecodeInstant(EncodeInstant(t)) == DecodeInstant(EncodeInstant(Some(t.value.(nanos := 0))))
  {
  }

  lemma StatusArrives(s: TaskStatus)
    ensures var r := DecodeStatus(EncodeStatus(s));
            r.Ok? && (r.value == s <==> PlainStatus(s))
  {
    InstantsThatTravel(s.timestamp);
    if s.message.Some? {
      MessageTravels(s.message.value);
      MessageUnchanged(s.message.value);
    }
  }

  lemma ArtifactsUnchanged(xs: seq<Artifact>)
    ensures Each(xs, NormalArtifact) == xs <==> forall i | 0 <= i < |xs| :: PlainArtifact(xs[i])
  {
    EachUnchanged(xs, NormalArtifact);
    forall i | 0 <= i < |xs| ensures NormalArtifact(xs[i]) == xs[i] <==> PlainArtifact(xs[i]) {
      ArtifactUnchanged(xs[i]);
    }
  }

  lemma HistoryUnchanged(ms: seq<Message>)
    ensures Each(ms, NormalMessage) == ms <==> forall i | 0 <= i < |ms| :: PlainMessage(ms[i])
  {
    EachUnchanged(ms, NormalMessage);
    forall i | 0 <= i < |ms| ensures NormalMessage(ms[i]) == ms[i] <==> PlainMessage(ms[i]) {
      MessageUnchanged(ms[i]);
    }
  }

  /** A task always arrives, and exactly as it was if and only if chrono can hold its
      timestamp, all its JSON numbers are doubles and none of its optional strings is set
      but empty, at every depth. */
  lemma TaskArrives(t: Task)
    ensures var r := DecodeTask(EncodeTask(t));
            r.Ok? && (r.value == t <==> PlainTask(t))
  {
    StatusArrives(t.status);
    ArtifactsTravel(t.artifacts);
    ArtifactsUnchanged(t.artifacts);
    HistoryTravels(t.history);
    HistoryUnchanged(t.history);
    MetadataTrip(t.metadata);
    MetadataUnchanged(t.metadata);
  }

  /** The same for every stream event. */
  lemma StreamResponseArrives(r: StreamResponse)
    ensures var d := DecodeStreamResponse(EncodeStreamResponse(r));
            d.Ok? && (d.value == r <==> PlainEvent(r))
  {
    match r
    case TaskObject(t) => TaskArrives(t);
    case BareMessage(m) =>
      MessageTravels(m);
      MessageUnchanged(m);
    case StatusUpdate(u) =>
      StatusArrives(u.status);
      MetadataTrip(u.metadata);
      MetadataUnchanged(u.metadata);
    case ArtifactUpdate(u) =>
      ArtifactTravels(u.artifact);
      ArtifactUnchanged(u.artifact);
      MetadataTrip(u.metadata);
      MetadataUnchanged(u.metadata);
  }

  // ---- What is missing when a decode fails ----

  function Concat<A, B>(s: seq<A>, parts: A -> seq<B>): seq<B> {
    if s == [] then [] else Concat(s[..|s| - 1], parts) + parts(s[|s| - 1])
  }

  lemma {:induction false} InConcat<A, B>(s: seq<A>, parts: A -> seq<B>, p: B -> bool)
    ensures (forall x | x in Concat(s, parts) :: p(x))
       <==> forall i | 0 <= i < |s| :: forall x | x in parts(s[i]) :: p(x)
  {
    if s != [] {
      InConcat(s[..|s| - 1], parts, p);
    }
  }

  const MessageParts := (m: PbMessage) => m.parts
  const ArtifactParts := (a: PbArtifact) => a.parts

  /** All parts of a task on the wire: of its status message, its artifacts and its
      history. */
  function TaskParts(t: PbTask): seq<PbPart> {
    (if t.status.Some? && t.status.value.message.Some? then t.status.value.message.value.parts else [])
    + Concat(t.artifacts, ArtifactParts) + Concat(t.history, MessageParts)
  }

  /** A task fails to decode if and only if its status is missing or the content of one of
      its parts is. */
  lemma TaskMisses(t: PbTask)
    ensures DecodeTask(t).Err? <==> t.status.None? || exists p | p in TaskParts(t) :: p.content.None?
  {
    var present := (p: PbPart) => p.content.Some?;
    TaskDecodes(t);
    InConcat(t.artifacts, ArtifactParts, present);
    InConcat(t.history, MessageParts, present);
    forall i | 0 <= i < |t.history|
      ensures MessageComplete(t.history[i]) <==> forall p | p in MessageParts(t.history[i]) :: present(p)
    {
      PartsPresent(t.history[i].parts);
    }
    forall i | 0 <= i < |t.artifacts|
      ensures ArtifactComplete(t.artifacts[i]) <==> forall p | p in ArtifactParts(t.artifacts[i]) :: present(p)
    {
      PartsPresent(t.artifacts[i].parts);
    }
    if t.status.Some? && t.status.value.message.Some? {
      PartsPresent(t.status.value.message.value.parts);
    }
    assert forall p | p in TaskParts(t) :: present(p) <==> p.content.Some?;
  }

  lemma PartsPresent(ps: seq<PbPart>)
    ensures PartsComplete(ps) <==> forall p | p in ps :: p.content.Some?
  {
    assert forall i | 0 <= i < |ps| :: ps[i] in ps;
  }

  // ---- What is on the wire ----

  /** The numbers of the states and of the roles on the wire. */
  const STATES := [Unspecified, Submitted, Working, Completed, Failed, Canceled, InputRequired, Rejected, AuthRequired]
  const ROLES := [RoleUnspecified, User, Agent]

  /** Each state and each role travels under its own number, and a number that is none is
      read as unspecified. */
  lemma StatesTravel(state: TaskState, role: Role, n: int)
    ensures 0 <= EncodeState(state) < |STATES| && STATES[EncodeState(state)] == state
    ensures DecodeState(n) == if 0 <= n < |STATES| then STATES[n] else Unspecified
    ensures 0 <= EncodeRole(role) < |ROLES| && ROLES[EncodeRole(role)] == role
    ensures DecodeRole(n) == if 0 <= n < |ROLES| then ROLES[n] else RoleUnspecified
  {
    if 0 <= n < |STATES| {
      assert n == 0 || n == 1 || n == 2 || n == 3 || n == 4 || n == 5 || n == 6 || n == 7 || n == 8;
    }
  }

  /** A plain string stands for an optional one: empty for none. */
  predicate Stands(wire: string, s: Option<string>) {
    match s case None => wire == "" case Some(v) => wire == v
  }

  predicate MapOnWire(m: Option<JsonMap>, w: Option<PbStruct>) {
    match m
    case None => w.None?
    case Some(fields) =>
      && w.Some? && w.value.fields.Keys == fields.Keys
      && forall k | k in fields :: w.value.fields[k] == EncodeJson(fields[k])
  }

  predicate PartOnWire(p: Part, w: PbPart) {
    && (match p.content
        case Text(t) => w.content == Some(PbText(t))
        case Raw(b) => w.content == Some(PbRaw(b))
        case Url(u) => w.content == Some(PbUrl(u))
        case Data(j) => w.content == Some(PbData(EncodeJson(j))))
    && MapOnWire(p.metadata, w.metadata) && Stands(w.filename, p.filename) && Stands(w.mediaType, p.mediaType)
  }

  predicate PartsOnWire(ps: seq<Part>, ws: seq<PbPart>) {
    |ws| == |ps| && forall i | 0 <= i < |ps| :: PartOnWire(ps[i], ws[i])
  }

  predicate MessageOnWire(m: Message, w: PbMessage) {
    && w.messageId == m.messageId && Stands(w.contextId, m.contextId) && Stands(w.taskId, m.taskId)
    && 0 <= w.role < |ROLES| && ROLES[w.role] == m.role && PartsOnWire(m.parts, w.parts)
    && MapOnWire(m.metadata, w.metadata)
    && w.extensions == m.extensions && w.referenceTaskIds == m.referenceTaskIds
  }

  predicate StatusOnWire(s: TaskStatus, w: PbTaskStatus) {
    && 0 <= w.state < |STATES| && STATES[w.state] == s.state
    && (match s.message
        case None => w.message.None?
        case Some(m) => w.message.Some? && MessageOnWire(m, w.message.value))
    && (match s.timestamp
        case None => w.timestamp.None?
        case Some(t) => w.timestamp == Some(PbTimestamp(t.seconds, t.nanos)))
  }

  predicate ArtifactOnWire(a: Artifact, w: PbArtifact) {
    && w.artifactId == a.artifactId && Stands(w.name, a.name) && Stands(w.description, a.description)
    && PartsOnWire(a.parts, w.parts) && MapOnWire(a.metadata, w.metadata) && w.extensions == a.extensions
  }

  predicate TaskOnWire(t: Task, w: PbTask) {
    && w.id == t.id && Stands(w.contextId, t.contextId) && w.status.Some? && StatusOnWire(t.status, w.status.value)
    && |w.artifacts| == |t.artifacts|
    && (forall i | 0 <= i < |t.artifacts| :: ArtifactOnWire(t.artifacts[i], w.artifacts[i]))
    && |w.history| == |t.history| && (forall i | 0 <= i < |t.history| :: MessageOnWire(t.history[i], w.history[i]))
    && MapOnWire(t.metadata, w.metadata)
  }

  predicate EventOnWire(r: StreamResponse, w: PbStreamResponse) {
    && w.payload.Some?
    && match r
       case TaskObject(t) => w.payload.value.TaskPayload? && TaskOnWire(t, w.payload.value.task)
       case BareMessage(m) => w.payload.value.MessagePayload? && MessageOnWire(m, w.payload.value.message)
       case StatusUpdate(u) =>
         && w.payload.value.StatusPayload?
         && var v := w.payload.value.statusUpdate;
         && v.taskId == u.taskId && v.contextId == u.contextId && v.status.Some?
         && StatusOnWire(u.status, v.status.value) && MapOnWire(u.metadata, v.metadata)
       case ArtifactUpdate(u) =>
         && w.payload.value.ArtifactPayload?
         && var v := w.payload.value.artifactUpdate;
         && v.taskId == u.taskId && v.contextId == u.contextId && v.artifact.Some?
         && ArtifactOnWire(u.artifact, v.artifact.value) && v.append == u.append && v.lastChunk == u.lastChunk
         && MapOnWire(u.metadata, v.metadata)
  }

  lemma MapWire(m: Option<JsonMap>, w: Option<PbStruct>)
    ensures MapOnWire(m, w) <==> w == EncodeMetadata(m)
  {
    if m.Some? && w.Some? {
      var sent := EncodeMap(m.value).fields;
      assert sent.Keys == m.value.Keys;
      assert w.value.fields == sent
        <==> w.value.fields.Keys == sent.Keys && forall k | k in sent :: w.value.fields[k] == sent[k];
    }
  }

  lemma PartWire(p: Part, w: PbPart)
    ensures PartOnWire(p, w) <==> w == EncodePart(p)
  {
    MapWire(p.metadata, w.metadata);
  }

  lemma PartsWire(ps: seq<Part>, ws: seq<PbPart>)
    ensures PartsOnWire(ps, ws) <==> ws == Each(ps, EncodePart)
  {
    if |ws| == |ps| {
      forall i | 0 <= i < |ps| ensures PartOnWire(ps[i], ws[i]) <==> ws[i] == Each(ps, EncodePart)[i] {
        PartWire(ps[i], ws[i]);
      }
    }
  }

  lemma MessageWire(m: Message, w: PbMessage)
    ensures MessageOnWire(m, w) <==> w == EncodeMessage(m)
  {
    PartsWire(m.parts, w.parts);
    MapWire(m.metadata, w.metadata);
  }

  lemma StatusWire(s: TaskStatus, w: PbTaskStatus)
    ensures StatusOnWire(s, w) <==> w == EncodeStatus(s)
  {
    if s.message.Some? && w.message.Some? {
      MessageWire(s.message.value, w.message.value);
    }
  }

  lemma ArtifactWire(a: Artifact, w: PbArtifact)
    ensures ArtifactOnWire(a, w) <==> w == EncodeArtifact(a)
  {
    PartsWire(a.parts, w.parts);
    MapWire(a.metadata, w.metadata);
  }

  lemma ArtifactsWire(xs: seq<Artifact>, ws: seq<PbArtifact>)
    ensures |ws| == |xs| && (forall i | 0 <= i < |xs| :: ArtifactOnWire(xs[i], ws[i]))
       <==> ws == Each(xs, EncodeArtifact)
  {
    if |ws| == |xs| {
      forall i | 0 <= i < |xs| ensures ArtifactOnWire(xs[i], ws[i]) <==> ws[i] == Each(xs, EncodeArtifact)[i] {
        ArtifactWire(xs[i], ws[i]);
      }
    }
  }

  lemma HistoryWire(ms: seq<Message>, ws: seq<PbMessage>)
    ensures |ws| == |ms| && (forall i | 0 <= i < |ms| :: MessageOnWire(ms[i], ws[i]))
       <==> ws == Each(ms, EncodeMessage)
  {
    if |ws| == |ms| {
      forall i | 0 <= i < |ms| ensures MessageOnWire(ms[i], ws[i]) <==> ws[i] == Each(ms, EncodeMessage)[i] {
        MessageWire(ms[i], ws[i]);
      }
    }
  }

  /** What a task is on the wire, said without encoding it: every field under its own name,
      in the same order, nothing added. */
  lemma TaskWire(t: Task, w: PbTask)
    ensures TaskOnWire(t, w) <==> w == EncodeTask(t)
  {
    if w.status.Some? {
      StatusWire(t.status, w.status.value);
    }
    ArtifactsWire(t.artifacts, w.artifacts);
    HistoryWire(t.history, w.history);
    MapWire(t.metadata, w.metadata);
  }

  /** The same for every stream event. */
  lemma StreamResponseWire(r: StreamResponse, w: PbStreamResponse)
    ensures EventOnWire(r, w) <==> w == EncodeStreamResponse(r)
  {
    if w.payload.Some? {
      match r
      case TaskObject(t) =>
        if w.payload.value.TaskPayload? {
          TaskWire(t, w.payload.value.task);
        }
      case BareMessage(m) =>
        if w.payload.value.MessagePayload? {
          MessageWire(m, w.payload.value.message);
        }
      case StatusUpdate(u) =>
        if w.payload.value.StatusPayload? {
          MapWire(u.metadata, w.payload.value.statusUpdate.metadata);
          if w.payload.value.statusUpdate.status.Some? {
            StatusWire(u.status, w.payload.value.statusUpdate.status.value);
          }
        }
      case ArtifactUpdate(u) =>
        if w.payload.value.ArtifactPayload? {
          MapWire(u.metadata, w.payload.value.artifactUpdate.metadata);
          if w.payload.value.artifactUpdate.artifact.Some? {
            ArtifactWire(u.artifact, w.payload.value.artifactUpdate.artifact.value);
          }
        }
    }
  }
}
