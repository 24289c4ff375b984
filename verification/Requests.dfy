/** Requests, responses and push notification configurations. */
module Requests {
  import opened Types

  datatype AuthenticationInfo = AuthenticationInfo(scheme: string, credentials: Option<string>)

  datatype PushConfig = PushConfig(
    tenant: Option<string>,
    id: Option<string>,
    taskId: Option<string>,
    url: string,
    token: Option<string>,
    authentication: Option<AuthenticationInfo>)

  datatype ListTasksRequest = ListTasksRequest(
    tenant: Option<string>,
    contextId: Option<string>,
    status: Option<TaskState>,
    pageSize: Option<int>,
    pageToken: Option<string>,
    historyLength: Option<int>,
    statusTimestampAfter: Option<DateTime>,
    includeArtifacts: Option<bool>)

  datatype ListTasksResponse = ListTasksResponse(
    tasks: seq<Task>,
    nextPageToken: string,
    pageSize: int,
    totalSize: int)

  datatype ListConfigsRequest = ListConfigsRequest(
    tenant: Option<string>,
    taskId: string,
    pageSize: Option<int>,
    pageToken: Option<string>)

  datatype ListConfigsResponse = ListConfigsResponse(configs: seq<PushConfig>, nextPageToken: string)

  datatype SendMessageConfiguration = SendMessageConfiguration(
    acceptedOutputModes: seq<string>,
    taskPushNotificationConfig: Option<PushConfig>,
    historyLength: Option<int>,
    returnImmediately: bool)

  datatype SendMessageRequest = SendMessageRequest(
    tenant: Option<string>,
    message: Message,
    configuration: Option<SendMessageConfiguration>,
    metadata: Option<JsonMap>)

  datatype SendMessageResult = TaskResult(task: Task) | MessageResult(message: Message)

  datatype CancelTaskRequest = CancelTaskRequest(
    tenant: Option<string>,
    id: string,
    metadata: Option<JsonMap>)

  /** What an agent's card declares and requests are checked against. */
  datatype AgentSupport = AgentSupport(pushNotifications: Option<bool>, defaultInputModes: seq<string>) {
    predicate Push() {
      pushNotifications == Some(true)
    }

    /** A part that names no media type makes no claim; an agent that declares no input
        modes takes anything. */
    predicate Accepts(part: Part) {
      defaultInputModes == [] || part.mediaType.None? || part.mediaType.value in defaultInputModes
    }

    /** The media type of the first part the agent does not accept. */
    function RefusedType(parts: seq<Part>): (r: Option<string>)
      ensures r.None? <==> forall i | 0 <= i < |parts| :: Accepts(parts[i])
      ensures r.Some? ==> exists i | 0 <= i < |parts| ::
                !Accepts(parts[i]) && parts[i].mediaType == r && forall j | 0 <= j < i :: Accepts(parts[j])
      ensures r.Some? ==> defaultInputModes != [] && r.value !in defaultInputModes
    {
      if parts == [] then None
      else if !Accepts(parts[0]) then parts[0].mediaType
      else
        var r := RefusedType(parts[1..]);
        assert parts == [parts[0]] + parts[1..];
        r
    }
  }

  /** The errors the modelled operations return. */
  datatype A2aError =
    | TaskNotFound(id: string)
    | TaskNotCancelable(id: string)
    | UnsupportedOperation(id: string)
    | PushNotificationNotSupported
    | ContentTypeNotSupported(mediaType: string)
    | InvalidParams
    | NotAuthorized
    | InvalidAgentResponse
    | ExecutorError(text: string)
}
