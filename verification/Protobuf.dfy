/** The generated protobuf messages of the A2A protocol (A2A specification, section 10)
    and google.protobuf.Struct, Value and Timestamp, as values. A plain string or enum
    field has no way to be absent: it is "" or 0 then. */
module Protobuf {
  import opened Types

  /** A 64-bit float as it travels in a Value. */
  datatype Double = Finite(x: real) | Infinite(negative: bool) | NaN

  datatype PbStruct = PbStruct(fields: map<string, PbValue>)

  datatype PbValue = PbValue(kind: Option<Kind>)

  datatype Kind =
    | NullValue(tag: int)
    | NumberValue(number: Double)
    | StringValue(s: string)
    | BoolValue(b: bool)
    | StructValue(fields: PbStruct)
    | ListValue(values: seq<PbValue>)

  datatype PbTimestamp = PbTimestamp(seconds: int, nanos: int)

  datatype PbContent =
    | PbText(text: string)
    | PbRaw(raw: seq<bv8>)
    | PbUrl(url: string)
    | PbData(data: PbValue)

  datatype PbPart = PbPart(content: Option<PbContent>, metadata: Option<PbStruct>, filename: string, mediaType: string)

  datatype PbMessage = PbMessage(
    messageId: string,
    contextId: string,
    taskId: string,
    role: int,
    parts: seq<PbPart>,
    metadata: Option<PbStruct>,
    extensions: seq<string>,
    referenceTaskIds: seq<string>)

  datatype PbTaskStatus = PbTaskStatus(state: int, message: Option<PbMessage>, timestamp: Option<PbTimestamp>)

  datatype PbArtifact = PbArtifact(
    artifactId: string,
    name: string,
    description: string,
    parts: seq<PbPart>,
    metadata: Option<PbStruct>,
    extensions: seq<string>)

  datatype PbTask = PbTask(
    id: string,
    contextId: string,
    status: Option<PbTaskStatus>,
    artifacts: seq<PbArtifact>,
    history: seq<PbMessage>,
    metadata: Option<PbStruct>)

  datatype PbStatusUpdate = PbStatusUpdate(
    taskId: string,
    contextId: string,
    status: Option<PbTaskStatus>,
    metadata: Option<PbStruct>)

  datatype PbArtifactUpdate = PbArtifactUpdate(
    taskId: string,
    contextId: string,
    artifact: Option<PbArtifact>,
    append: bool,
    lastChunk: bool,
    metadata: Option<PbStruct>)

  datatype StreamPayload =
    | TaskPayload(task: PbTask)
    | MessagePayload(message: PbMessage)
    | StatusPayload(statusUpdate: PbStatusUpdate)
    | ArtifactPayload(artifactUpdate: PbArtifactUpdate)

  datatype PbStreamResponse = PbStreamResponse(payload: Option<StreamPayload>)

  datatype SendPayload = SentTask(task: PbTask) | SentMessage(message: PbMessage)

  datatype PbSendMessageResponse = PbSendMessageResponse(payload: Option<SendPayload>)

  datatype PbAuthInfo = PbAuthInfo(scheme: string, credentials: string)

  datatype PbPushConfig = PbPushConfig(
    tenant: string,
    id: string,
    taskId: string,
    url: string,
    token: string,
    authentication: Option<PbAuthInfo>)

  datatype PbSendConfiguration = PbSendConfiguration(
    acceptedOutputModes: seq<string>,
    taskPushNotificationConfig: Option<PbPushConfig>,
    historyLength: Option<int>,
    returnImmediately: bool)

  datatype PbSendMessageRequest = PbSendMessageRequest(
    tenant: string,
    message: Option<PbMessage>,
    configuration: Option<PbSendConfiguration>,
    metadata: Option<PbStruct>)

  datatype PbListTasksRequest = PbListTasksRequest(
    tenant: string,
    contextId: string,
    status: int,
    pageSize: Option<int>,
    pageToken: string,
    historyLength: Option<int>,
    statusTimestampAfter: Option<PbTimestamp>,
    includeArtifacts: Option<bool>)

  datatype PbListTasksResponse = PbListTasksResponse(
    tasks: seq<PbTask>,
    nextPageToken: string,
    pageSize: int,
    totalSize: int)

  datatype PbListConfigsRequest = PbListConfigsRequest(tenant: string, taskId: string, pageSize: int, pageToken: string)

  /** The gRPC codes a failed decode answers with. */
  datatype Status = InvalidArgument | Internal
}
