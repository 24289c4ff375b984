/** Requests and results over gRPC, and where an answer over gRPC can differ from the
    same request over another binding. */
module WireRequests {
  import opened Types
  import opened Requests
  import opened Protobuf
  import opened Convert
  import opened AgentCards
  import opened Paging
  import opened Store
  import opened ListOperations

  // ---- Results ----

  function EncodeResult(r: SendMessageResult): PbSendMessageResponse {
    PbSendMessageResponse(Some(
      match r
      case TaskResult(t) => SentTask(EncodeTask(t))
      case MessageResult(m) => SentMessage(EncodeMessage(m))))
  }

  function DecodeResult(r: PbSendMessageResponse): Result<SendMessageResult, Status> {
    match r.payload
    case None => Err(Internal)
    case Some(SentTask(t)) => (match DecodeTask(t) case Err(e) => Err(e) case Ok(task) => Ok(TaskResult(task)))
    case Some(SentMessage(m)) => (match DecodeMessage(m) case Err(e) => Err(e) case Ok(msg) => Ok(MessageResult(msg)))
  }

  function NormalResult(r: SendMessageResult): SendMessageResult {
    match r
    case TaskResult(t) => TaskResult(NormalTask(t))
    case MessageResult(m) => MessageResult(NormalMessage(m))
  }

  lemma ResultTravels(r: SendMessageResult)
    requires r.TaskResult? ==> IsInstant(r.task.status.timestamp)
    ensures Travels(r, EncodeResult, DecodeResult, NormalResult)
  {
    match r
    case TaskResult(t) => TaskTravels(t);
    case MessageResult(m) => MessageTravels(m);
  }

  function EncodeTasksResponse(r: ListTasksResponse): PbListTasksResponse {
    PbListTasksResponse(Each(r.tasks, EncodeTask), r.nextPageToken, r.pageSize, r.totalSize)
  }

  function DecodeTasksResponse(r: PbListTasksResponse): Result<ListTasksResponse, Status> {
    match Collect(r.tasks, DecodeTask)
    case Err(e) => Err(e)
    case Ok(tasks) => Ok(ListTasksResponse(tasks, r.nextPageToken, r.pageSize, r.totalSize))
  }

  function NormalTasksResponse(r: ListTasksResponse): ListTasksResponse {
    r.(tasks := Each(r.tasks, NormalTask))
  }

  lemma TasksResponseTravels(r: ListTasksResponse)
    requires forall i | 0 <= i < |r.tasks| :: IsInstant(r.tasks[i].status.timestamp)
    ensures Travels(r, EncodeTasksResponse, DecodeTasksResponse, NormalTasksResponse)
  {
    forall i | 0 <= i < |r.tasks| ensures Travels(r.tasks[i], EncodeTask, DecodeTask, NormalTask) {
      TaskTravels(r.tasks[i]);
    }
    AllTravel(r.tasks, EncodeTask, DecodeTask, NormalTask);
  }

  // ---- Push notification configurations ----

  function EncodeConfig(c: PushConfig): PbPushConfig {
    PbPushConfig(OrEmpty(c.tenant), OrEmpty(c.id), OrEmpty(c.taskId), c.url, OrEmpty(c.token),
                 match c.authentication
                 case None => None
                 case Some(a) => Some(PbAuthInfo(a.scheme, OrEmpty(a.credentials))))
  }

  function DecodeConfig(c: PbPushConfig): PushConfig {
    PushConfig(NonEmpty(c.tenant), NonEmpty(c.id), NonEmpty(c.taskId), c.url, NonEmpty(c.token),
               match c.authentication
               case None => None
               case Some(a) => Some(AuthenticationInfo(a.scheme, NonEmpty(a.credentials))))
  }

  function NormalConfig(c: PushConfig): PushConfig {
    PushConfig(NormalString(c.tenant), NormalString(c.id), NormalString(c.taskId), c.url, NormalString(c.token),
               match c.authentication
               case None => None
               case Some(a) => Some(AuthenticationInfo(a.scheme, NormalString(a.credentials))))
  }

  // ---- Requests ----

  function EncodeConfiguration(c: SendMessageConfiguration): PbSendConfiguration {
    PbSendConfiguration(c.acceptedOutputModes,
                        match c.taskPushNotificationConfig case None => None case Some(p) => Some(EncodeConfig(p)),
                        c.historyLength, c.returnImmediately)
  }

  function DecodeConfiguration(c: PbSendConfiguration): SendMessageConfiguration {
    SendMessageConfiguration(c.acceptedOutputModes,
                             match c.taskPushNotificationConfig case None => None case Some(p) => Some(DecodeConfig(p)),
                             c.historyLength, c.returnImmediately)
  }

  function NormalConfiguration(c: SendMessageConfiguration): SendMessageConfiguration {
    c.(taskPushNotificationConfig :=
         match c.taskPushNotificationConfig case None => None case Some(p) => Some(NormalConfig(p)))
  }

  lemma ConfigTravels(c: PushConfig)
    ensures TravelsTo(c, EncodeConfig, DecodeConfig, NormalConfig)
  {
  }

  lemma ConfigurationTravels(c: SendMessageConfiguration)
    ensures TravelsTo(c, EncodeConfiguration, DecodeConfiguration, NormalConfiguration)
  {
    if c.taskPushNotificationConfig.Some? {
      ConfigTravels(c.taskPushNotificationConfig.value);
    }
  }

  function EncodeSend(r: SendMessageRequest): PbSendMessageRequest {
    PbSendMessageRequest(OrEmpty(r.tenant), Some(EncodeMessage(r.message)),
                         match r.configuration case None => None case Some(c) => Some(EncodeConfiguration(c)),
                         EncodeMetadata(r.metadata))
  }

  function DecodeSend(r: PbSendMessageRequest): Result<SendMessageRequest, Status> {
    match r.message
    case None => Err(InvalidArgument)
    case Some(m) =>
      match DecodeMessage(m)
      case Err(e) => Err(e)
      case Ok(message) =>
        Ok(SendMessageRequest(NonEmpty(r.tenant), message,
                              match r.configuration case None => None case Some(c) => Some(DecodeConfiguration(c)),
                              DecodeMetadata(r.metadata)))
  }

  function NormalSend(r: SendMessageRequest): SendMessageRequest {
    SendMessageRequest(NormalString(r.tenant), NormalMessage(r.message),
                       match r.configuration case None => None case Some(c) => Some(NormalConfiguration(c)),
                       NormalMetadata(r.metadata))
  }

  lemma SendTravels(r: SendMessageRequest)
    ensures Travels(r, EncodeSend, DecodeSend, NormalSend)
  {
    MessageTravels(r.message);
    MetadataTrip(r.metadata);
    if r.configuration.Some? {
      ConfigurationTravels(r.configuration.value);
    }
  }

  lemma SendDecodes(r: PbSendMessageRequest)
    ensures DecodesWhen(DecodeSend(r), r.message.Some? && MessageComplete(r.message.value), NormalSend)
  {
    DecodedMetadataNormal(r.metadata);
    if r.message.Some? {
      MessageDecodes(r.message.value);
    }
  }

  function EncodeList(r: ListTasksRequest): PbListTasksRequest {
    PbListTasksRequest(OrEmpty(r.tenant), OrEmpty(r.contextId), EncodeState(r.status.GetOr(Unspecified)), r.pageSize,
                       OrEmpty(r.pageToken), r.historyLength, EncodeInstant(r.statusTimestampAfter), r.includeArtifacts)
  }

  function DecodeList(r: PbListTasksRequest): ListTasksRequest {
    ListTasksRequest(NonEmpty(r.tenant), NonEmpty(r.contextId),
                     if r.status == 0 then None else Some(DecodeState(r.status)),
                     r.pageSize, NonEmpty(r.pageToken), r.historyLength, DecodeInstant(r.statusTimestampAfter),
                     r.includeArtifacts)
  }

  function NormalList(r: ListTasksRequest): ListTasksRequest {
    r.(tenant := NormalString(r.tenant), contextId := NormalString(r.contextId),
       status := if r.status == Some(Unspecified) then None else r.status,
       pageToken := NormalString(r.pageToken))
  }

  lemma ListTravels(r: ListTasksRequest)
    requires IsInstant(r.statusTimestampAfter)
    ensures TravelsTo(r, EncodeList, DecodeList, NormalList)
  {
  }

  /** Over gRPC a listing request matches the same tasks and starts at the same place,
      unless it asks for the empty context id or for UNSPECIFIED status, which gRPC
      cannot say: there it matches at least as much. */
  lemma ListingOverGrpc(s: StoreState, r: ListTasksRequest)
    requires IsInstant(r.statusTimestampAfter)
    ensures var arrived := DecodeList(EncodeList(r));
            && Matching(s, r.tenant, r) <= Matching(s, arrived.tenant, arrived)
            && (r.contextId != Some("") && r.status != Some(Unspecified) ==>
                  Matching(s, arrived.tenant, arrived) == Matching(s, r.tenant, r)
                  && ShownListing(s, arrived) == ShownListing(s, r))
    ensures forall ids | "" !in ids :: PageStart(ids, NormalString(r.pageToken)) == PageStart(ids, r.pageToken)
  {
    ListTravels(r);
    assert TenantKey(NormalString(r.tenant)) == TenantKey(r.tenant);
    var arrived := NormalList(r);
    forall t ensures Matches(t, r) ==> Matches(t, arrived) {
    }
    if r.contextId != Some("") && r.status != Some(Unspecified) {
      assert forall t :: Matches(t, r) == Matches(t, arrived);
      assert Matching(s, arrived.tenant, arrived) == Matching(s, r.tenant, r);
    }
  }

  function EncodeConfigsRequest(r: ListConfigsRequest): PbListConfigsRequest {
    PbListConfigsRequest(OrEmpty(r.tenant), r.taskId, r.pageSize.GetOr(0), OrEmpty(r.pageToken))
  }

  function DecodeConfigsRequest(r: PbListConfigsRequest): ListConfigsRequest {
    ListConfigsRequest(NonEmpty(r.tenant), r.taskId, if r.pageSize == 0 then None else Some(r.pageSize),
                       NonEmpty(r.pageToken))
  }

  function NormalConfigsRequest(r: ListConfigsRequest): ListConfigsRequest {
    r.(tenant := NormalString(r.tenant), pageSize := if r.pageSize == Some(0) then None else r.pageSize,
       pageToken := NormalString(r.pageToken))
  }

  lemma ConfigsRequestTravels(r: ListConfigsRequest)
    ensures TravelsTo(r, EncodeConfigsRequest, DecodeConfigsRequest, NormalConfigsRequest)
  {
  }

  /** The page size a configuration listing is answered with is the same over gRPC
      exactly if the client did not ask for 0, which gRPC reads as no request and
      answers with the default instead of refusing. */
  lemma ConfigPageSizeOverGrpc(r: ListConfigsRequest)
    ensures EffectivePageSize(DecodeConfigsRequest(EncodeConfigsRequest(r)).pageSize) == EffectivePageSize(r.pageSize)
       <==> r.pageSize != Some(0)
  {
    ConfigsRequestTravels(r);
  }

  // ---- What arrives exactly as it was ----

  /** A result always arrives, and exactly as it was if and only if its task or message
      does. */
  lemma ResultArrives(r: SendMessageResult)
    ensures var d := DecodeResult(EncodeResult(r));
            d.Ok? && (d.value == r <==> if r.TaskResult? then PlainTask(r.task) else PlainMessage(r.message))
  {
    match r
    case TaskResult(t) => TaskArrives(t);
    case MessageResult(m) =>
      MessageTravels(m);
      MessageUnchanged(m);
  }

  lemma TasksArrive(ts: seq<Task>)
    ensures var r := Collect(Each(ts, EncodeTask), DecodeTask);
            r.Ok? && |r.value| == |ts| && (r.value == ts <==> forall i | 0 <= i < |ts| :: PlainTask(ts[i]))
  {
    var sent := Each(ts, EncodeTask);
    CollectMeaning(sent, DecodeTask);
    forall i | 0 <= i < |ts|
      ensures DecodeTask(sent[i]).Ok? && (DecodeTask(sent[i]).value == ts[i] <==> PlainTask(ts[i]))
    {
      TaskArrives(ts[i]);
    }
  }

  /** A listing always arrives with the same tokens and counts, and its tasks exactly as they
      were if and only if each of them does. */
  lemma TasksResponseArrives(r: ListTasksResponse)
    ensures var d := DecodeTasksResponse(EncodeTasksResponse(r));
            && d.Ok? && d.value == r.(tasks := d.value.tasks)
            && (d.value == r <==> forall i | 0 <= i < |r.tasks| :: PlainTask(r.tasks[i]))
  {
    TasksArrive(r.tasks);
  }

  predicate PlainConfig(c: PushConfig) {
    && NotBlank(c.tenant) && NotBlank(c.id) && NotBlank(c.taskId) && NotBlank(c.token)
    && (c.authentication.Some? ==> NotBlank(c.authentication.value.credentials))
  }

  predicate PlainSend(r: SendMessageRequest) {
    && NotBlank(r.tenant) && PlainMessage(r.message) && DoublesOnly(r.metadata)
    && (r.configuration.Some? && r.configuration.value.taskPushNotificationConfig.Some? ==>
          PlainConfig(r.configuration.value.taskPushNotificationConfig.value))
  }

  /** The requests of a client: each always arrives, and exactly as it was if and only if
      nothing in it is set but empty, zero where that stands for nothing, or a number that is
      not a double. */
  lemma SendArrives(r: SendMessageRequest)
    ensures var d := DecodeSend(EncodeSend(r));
            d.Ok? && (d.value == r <==> PlainSend(r))
  {
    SendTravels(r);
    MessageUnchanged(r.message);
    MetadataUnchanged(r.metadata);
    if r.configuration.Some? && r.configuration.value.taskPushNotificationConfig.Some? {
      ConfigUnchanged(r.configuration.value.taskPushNotificationConfig.value);
    }
    SendUnchanged(r);
  }

  lemma ConfigUnchanged(c: PushConfig)
    ensures NormalConfig(c) == c <==> PlainConfig(c)
  {
  }

  lemma SendUnchanged(r: SendMessageRequest)
    requires NormalMessage(r.message) == r.message <==> PlainMessage(r.message)
    requires NormalMetadata(r.metadata) == r.metadata <==> DoublesOnly(r.metadata)
    requires r.configuration.Some? && r.configuration.value.taskPushNotificationConfig.Some? ==>
               var c := r.configuration.value.taskPushNotificationConfig.value;
               NormalConfig(c) == c <==> PlainConfig(c)
    ensures NormalSend(r) == r <==> PlainSend(r)
  {
  }

  lemma ListArrives(r: ListTasksRequest)
    ensures DecodeList(EncodeList(r)) == r <==>
              && NotBlank(r.tenant) && NotBlank(r.contextId) && NotBlank(r.pageToken)
              && r.status != Some(Unspecified) && ChronoInstant(r.statusTimestampAfter)
  {
    InstantsThatTravel(r.statusTimestampAfter);
  }

  lemma ConfigsRequestArrives(r: ListConfigsRequest)
    ensures DecodeConfigsRequest(EncodeConfigsRequest(r)) == r <==>
              NotBlank(r.tenant) && NotBlank(r.pageToken) && r.pageSize != Some(0)
  {
  }
}
