/** The agent card and its protobuf form. Records without optional strings or JSON
    content are the same on both sides and are converted by copying. */
module AgentCards {
  import opened Types
  import opened Protobuf
  import opened Convert

  // ---- Cards ----

  datatype AgentInterface = AgentInterface(
    url: string,
    protocolBinding: string,
    tenant: Option<string>,
    protocolVersion: string)

  datatype AgentProvider = AgentProvider(url: string, organization: string)

  datatype AgentExtension = AgentExtension(uri: string, description: string, required: bool, params: Option<JsonMap>)

  datatype AgentCapabilities = AgentCapabilities(
    streaming: Option<bool>,
    pushNotifications: Option<bool>,
    extensions: seq<AgentExtension>,
    extendedAgentCard: Option<bool>)

  datatype SecurityRequirement = SecurityRequirement(schemes: map<string, seq<string>>)

  datatype AgentSkill = AgentSkill(
    id: string,
    name: string,
    description: string,
    tags: seq<string>,
    examples: seq<string>,
    inputModes: seq<string>,
    outputModes: seq<string>,
    securityRequirements: seq<SecurityRequirement>)

  datatype AgentCardSignature = AgentCardSignature(protected: string, signature: string, header: Option<JsonMap>)

  datatype OAuthFlow =
    | AuthorizationCode(authorizationUrl: string, tokenUrl: string, refreshUrl: Option<string>,
                        scopes: map<string, string>, pkceRequired: bool)
    | ClientCredentials(tokenUrl: string, refreshUrl: Option<string>, scopes: map<string, string>)
    | Implicit(authorizationUrl: string, refreshUrl: Option<string>, scopes: map<string, string>)
    | Password(tokenUrl: string, refreshUrl: Option<string>, scopes: map<string, string>)
    | DeviceCode(deviceAuthorizationUrl: string, tokenUrl: string, refreshUrl: Option<string>,
                 scopes: map<string, string>)

  datatype SecurityScheme =
    | ApiKey(description: Option<string>, location: string, name: string)
    | HttpAuth(description: Option<string>, scheme: string, bearerFormat: Option<string>)
    | OAuth2(description: Option<string>, flow: OAuthFlow, metadataUrl: Option<string>)
    | OpenIdConnect(description: Option<string>, openIdConnectUrl: string)
    | MutualTls(description: Option<string>)

  datatype AgentCard = AgentCard(
    name: string,
    description: string,
    supportedInterfaces: seq<AgentInterface>,
    provider: Option<AgentProvider>,
    version: string,
    documentationUrl: Option<string>,
    capabilities: AgentCapabilities,
    securitySchemes: map<string, SecurityScheme>,
    securityRequirements: seq<SecurityRequirement>,
    defaultInputModes: seq<string>,
    defaultOutputModes: seq<string>,
    skills: seq<AgentSkill>,
    signatures: seq<AgentCardSignature>,
    iconUrl: Option<string>)

  // ---- Protobuf cards ----

  datatype PbInterface = PbInterface(url: string, protocolBinding: string, tenant: string, protocolVersion: string)

  datatype PbExtension = PbExtension(uri: string, description: string, required: bool, params: Option<PbStruct>)

  datatype PbCapabilities = PbCapabilities(
    streaming: Option<bool>,
    pushNotifications: Option<bool>,
    extensions: seq<PbExtension>,
    extendedAgentCard: Option<bool>)

  datatype PbSignature = PbSignature(protected: string, signature: string, header: Option<PbStruct>)

  datatype PbFlow =
    | PbAuthorizationCode(authorizationUrl: string, tokenUrl: string, refreshUrl: string,
                          scopes: map<string, string>, pkceRequired: bool)
    | PbClientCredentials(tokenUrl: string, refreshUrl: string, scopes: map<string, string>)
    | PbImplicit(authorizationUrl: string, refreshUrl: string, scopes: map<string, string>)
    | PbPassword(tokenUrl: string, refreshUrl: string, scopes: map<string, string>)
    | PbDeviceCode(deviceAuthorizationUrl: string, tokenUrl: string, refreshUrl: string, scopes: map<string, string>)

  datatype PbOAuthFlows = PbOAuthFlows(flow: Option<PbFlow>)

  datatype PbSchemeKind =
    | PbApiKey(description: string, location: string, name: string)
    | PbHttpAuth(description: string, scheme: string, bearerFormat: string)
    | PbOAuth2(description: string, flows: Option<PbOAuthFlows>, metadataUrl: string)
    | PbOpenIdConnect(description: string, openIdConnectUrl: string)
    | PbMutualTls(description: string)

  datatype PbScheme = PbScheme(kind: Option<PbSchemeKind>)

  datatype PbAgentCard = PbAgentCard(
    name: string,
    description: string,
    supportedInterfaces: seq<PbInterface>,
    provider: Option<AgentProvider>,
    version: string,
    documentationUrl: Option<string>,
    capabilities: Option<PbCapabilities>,
    securitySchemes: map<string, PbScheme>,
    securityRequirements: seq<SecurityRequirement>,
    defaultInputModes: seq<string>,
    defaultOutputModes: seq<string>,
    skills: seq<AgentSkill>,
    signatures: seq<PbSignature>,
    iconUrl: Option<string>)

  // ---- Total conversions ----

  /** A trip that cannot fail. */
  ghost predicate TravelsTo<A, B>(x: A, enc: A -> B, dec: B -> A, norm: A -> A) {
    dec(enc(x)) == norm(x) && enc(norm(x)) == enc(x) && norm(norm(x)) == norm(x)
  }

  lemma AllTravelTo<A, B>(s: seq<A>, enc: A -> B, dec: B -> A, norm: A -> A)
    requires forall i | 0 <= i < |s| :: TravelsTo(s[i], enc, dec, norm)
    ensures Each(Each(s, enc), dec) == Each(s, norm)
    ensures Each(Each(s, norm), enc) == Each(s, enc)
    ensures Each(Each(s, norm), norm) == Each(s, norm)
  {
    forall i | 0 <= i < |s|
      ensures dec(enc(s[i])) == norm(s[i]) && enc(norm(s[i])) == enc(s[i]) && norm(norm(s[i])) == norm(s[i])
    {
      assert TravelsTo(s[i], enc, dec, norm);
    }
    EachAgain(s, norm, enc);
    EachAgain(s, norm, norm);
  }

  function EncodeInterface(i: AgentInterface): PbInterface {
    PbInterface(i.url, i.protocolBinding, OrEmpty(i.tenant), i.protocolVersion)
  }

  function DecodeInterface(i: PbInterface): AgentInterface {
    AgentInterface(i.url, i.protocolBinding, NonEmpty(i.tenant), i.protocolVersion)
  }

  function NormalInterface(i: AgentInterface): AgentInterface {
    i.(tenant := NormalString(i.tenant))
  }

  function EncodeExtension(e: AgentExtension): PbExtension {
    PbExtension(e.uri, e.description, e.required, EncodeMetadata(e.params))
  }

  function DecodeExtension(e: PbExtension): AgentExtension {
    AgentExtension(e.uri, e.description, e.required, DecodeMetadata(e.params))
  }

  function NormalExtension(e: AgentExtension): AgentExtension {
    e.(params := NormalMetadata(e.params))
  }

  function EncodeCapabilities(c: AgentCapabilities): PbCapabilities {
    PbCapabilities(c.streaming, c.pushNotifications, Each(c.extensions, EncodeExtension), c.extendedAgentCard)
  }

  function DecodeCapabilities(c: PbCapabilities): AgentCapabilities {
    AgentCapabilities(c.streaming, c.pushNotifications, Each(c.extensions, DecodeExtension), c.extendedAgentCard)
  }

  function NormalCapabilities(c: AgentCapabilities): AgentCapabilities {
    c.(extensions := Each(c.extensions, NormalExtension))
  }

  function EncodeSignature(s: AgentCardSignature): PbSignature {
    PbSignature(s.protected, s.signature, EncodeMetadata(s.header))
  }

  function DecodeSignature(s: PbSignature): AgentCardSignature {
    AgentCardSignature(s.protected, s.signature, DecodeMetadata(s.header))
  }

  function NormalSignature(s: AgentCardSignature): AgentCardSignature {
    s.(header := NormalMetadata(s.header))
  }

  function EncodeFlow(f: OAuthFlow): PbFlow {
    match f
    case AuthorizationCode(a, t, r, s, p) => PbAuthorizationCode(a, t, OrEmpty(r), s, p)
    case ClientCredentials(t, r, s) => PbClientCredentials(t, OrEmpty(r), s)
    case Implicit(a, r, s) => PbImplicit(a, OrEmpty(r), s)
    case Password(t, r, s) => PbPassword(t, OrEmpty(r), s)
    case DeviceCode(d, t, r, s) => PbDeviceCode(d, t, OrEmpty(r), s)
  }

  function DecodeFlow(f: PbFlow): OAuthFlow {
    match f
    case PbAuthorizationCode(a, t, r, s, p) => AuthorizationCode(a, t, NonEmpty(r), s, p)
    case PbClientCredentials(t, r, s) => ClientCredentials(t, NonEmpty(r), s)
    case PbImplicit(a, r, s) => Implicit(a, NonEmpty(r), s)
    case PbPassword(t, r, s) => Password(t, NonEmpty(r), s)
    case PbDeviceCode(d, t, r, s) => DeviceCode(d, t, NonEmpty(r), s)
  }

  function NormalFlow(f: OAuthFlow): OAuthFlow {
    f.(refreshUrl := NormalString(f.refreshUrl))
  }

  // ---- Security schemes ----

  function EncodeScheme(s: SecurityScheme): PbScheme {
    PbScheme(Some(
      match s
      case ApiKey(d, l, n) => PbApiKey(OrEmpty(d), l, n)
      case HttpAuth(d, k, b) => PbHttpAuth(OrEmpty(d), k, OrEmpty(b))
      case OAuth2(d, f, u) => PbOAuth2(OrEmpty(d), Some(PbOAuthFlows(Some(EncodeFlow(f)))), OrEmpty(u))
      case OpenIdConnect(d, u) => PbOpenIdConnect(OrEmpty(d), u)
      case MutualTls(d) => PbMutualTls(OrEmpty(d))))
  }

  function DecodeScheme(s: PbScheme): Result<SecurityScheme, Status> {
    match s.kind
    case None => Err(InvalidArgument)
    case Some(PbApiKey(d, l, n)) => Ok(ApiKey(NonEmpty(d), l, n))
    case Some(PbHttpAuth(d, k, b)) => Ok(HttpAuth(NonEmpty(d), k, NonEmpty(b)))
    case Some(PbOAuth2(d, flows, u)) =>
      (match flows
       case Some(PbOAuthFlows(Some(f))) => Ok(OAuth2(NonEmpty(d), DecodeFlow(f), NonEmpty(u)))
       case _ => Err(InvalidArgument))
    case Some(PbOpenIdConnect(d, u)) => Ok(OpenIdConnect(NonEmpty(d), u))
    case Some(PbMutualTls(d)) => Ok(MutualTls(NonEmpty(d)))
  }

  function NormalScheme(s: SecurityScheme): SecurityScheme {
    match s
    case ApiKey(d, l, n) => ApiKey(NormalString(d), l, n)
    case HttpAuth(d, k, b) => HttpAuth(NormalString(d), k, NormalString(b))
    case OAuth2(d, f, u) => OAuth2(NormalString(d), NormalFlow(f), NormalString(u))
    case OpenIdConnect(d, u) => OpenIdConnect(NormalString(d), u)
    case MutualTls(d) => MutualTls(NormalString(d))
  }

  lemma SchemeTravels(s: SecurityScheme)
    ensures Travels(s, EncodeScheme, DecodeScheme, NormalScheme)
  {
  }

  /** The scheme is named, and an OAuth 2 scheme names its flow. */
  predicate SchemeComplete(s: PbScheme) {
    s.kind.Some? && (s.kind.value.PbOAuth2? ==> s.kind.value.flows.Some? && s.kind.value.flows.value.flow.Some?)
  }

  lemma SchemeDecodes(s: PbScheme)
    ensures DecodesWhen(DecodeScheme(s), SchemeComplete(s), NormalScheme)
  {
  }

  function EncodeSchemes(m: map<string, SecurityScheme>): map<string, PbScheme> {
    map k | k in m :: EncodeScheme(m[k])
  }

  function DecodeSchemes(m: map<string, PbScheme>): Result<map<string, SecurityScheme>, Status> {
    if forall k | k in m :: DecodeScheme(m[k]).Ok? then Ok(map k | k in m :: DecodeScheme(m[k]).value)
    else Err(InvalidArgument)
  }

  function NormalSchemes(m: map<string, SecurityScheme>): map<string, SecurityScheme> {
    map k | k in m :: NormalScheme(m[k])
  }

  lemma SchemesArrive(m: map<string, SecurityScheme>)
    ensures DecodeSchemes(EncodeSchemes(m)) == Ok(NormalSchemes(m))
  {
    var sent, normal := EncodeSchemes(m), NormalSchemes(m);
    forall k | k in m ensures DecodeScheme(sent[k]) == Ok(normal[k]) {
      SchemeTravels(m[k]);
    }
    assert forall k | k in sent :: DecodeScheme(sent[k]).Ok?;
    assert DecodeSchemes(sent).Ok?;
    assert DecodeSchemes(sent).value == normal;
  }

  lemma SchemesSettle(m: map<string, SecurityScheme>)
    ensures EncodeSchemes(NormalSchemes(m)) == EncodeSchemes(m)
    ensures NormalSchemes(NormalSchemes(m)) == NormalSchemes(m)
  {
    forall k | k in m
      ensures EncodeScheme(NormalScheme(m[k])) == EncodeScheme(m[k])
      ensures NormalScheme(NormalScheme(m[k])) == NormalScheme(m[k])
    {
      SchemeTravels(m[k]);
    }
    assert EncodeSchemes(NormalSchemes(m)) == EncodeSchemes(m);
    assert NormalSchemes(NormalSchemes(m)) == NormalSchemes(m);
  }

  lemma SchemesTravel(m: map<string, SecurityScheme>)
    ensures Travels(m, EncodeSchemes, DecodeSchemes, NormalSchemes)
  {
    SchemesArrive(m);
    SchemesSettle(m);
  }

  predicate SchemesComplete(m: map<string, PbScheme>) {
    forall k | k in m :: SchemeComplete(m[k])
  }

  lemma SchemesDecode(m: map<string, PbScheme>)
    ensures DecodesWhen(DecodeSchemes(m), SchemesComplete(m), NormalSchemes)
  {
    forall k | k in m ensures DecodesWhen(DecodeScheme(m[k]), SchemeComplete(m[k]), NormalScheme) {
      SchemeDecodes(m[k]);
    }
    if DecodeSchemes(m).Ok? {
      var decoded := DecodeSchemes(m).value;
      assert forall k | k in m :: DecodesWhen(DecodeScheme(m[k]), SchemeComplete(m[k]), NormalScheme);
      assert NormalSchemes(decoded) == decoded;
    }
  }

  // ---- The whole card ----

  function EncodeCard(c: AgentCard): PbAgentCard {
    PbAgentCard(c.name, c.description, Each(c.supportedInterfaces, EncodeInterface), c.provider, c.version,
                c.documentationUrl, Some(EncodeCapabilities(c.capabilities)), EncodeSchemes(c.securitySchemes),
                c.securityRequirements, c.defaultInputModes, c.defaultOutputModes, c.skills,
                Each(c.signatures, EncodeSignature), c.iconUrl)
  }

  function DecodeCard(c: PbAgentCard): Result<AgentCard, Status> {
    match c.capabilities
    case None => Err(InvalidArgument)
    case Some(capabilities) =>
      match DecodeSchemes(c.securitySchemes)
      case Err(e) => Err(e)
      case Ok(schemes) =>
        Ok(AgentCard(c.name, c.description, Each(c.supportedInterfaces, DecodeInterface), c.provider, c.version,
                     c.documentationUrl, DecodeCapabilities(capabilities), schemes, c.securityRequirements,
                     c.defaultInputModes, c.defaultOutputModes, c.skills, Each(c.signatures, DecodeSignature),
                     c.iconUrl))
  }

  /** A card after a trip: empty optional strings absent and JSON numbers doubles -
      except the documentation and icon URLs, which the wire format can tell apart. */
  function NormalCard(c: AgentCard): AgentCard {
    c.(supportedInterfaces := Each(c.supportedInterfaces, NormalInterface),
       capabilities := NormalCapabilities(c.capabilities),
       securitySchemes := NormalSchemes(c.securitySchemes),
       signatures := Each(c.signatures, NormalSignature))
  }

  lemma InterfacesTravel(s: seq<AgentInterface>)
    ensures Each(Each(s, EncodeInterface), DecodeInterface) == Each(s, NormalInterface)
    ensures Each(Each(s, NormalInterface), EncodeInterface) == Each(s, EncodeInterface)
    ensures Each(Each(s, NormalInterface), NormalInterface) == Each(s, NormalInterface)
  {
    assert forall i | 0 <= i < |s| :: TravelsTo(s[i], EncodeInterface, DecodeInterface, NormalInterface);
    AllTravelTo(s, EncodeInterface, DecodeInterface, NormalInterface);
  }

  lemma SignaturesTravel(s: seq<AgentCardSignature>)
    ensures Each(Each(s, EncodeSignature), DecodeSignature) == Each(s, NormalSignature)
    ensures Each(Each(s, NormalSignature), EncodeSignature) == Each(s, EncodeSignature)
    ensures Each(Each(s, NormalSignature), NormalSignature) == Each(s, NormalSignature)
  {
    forall i | 0 <= i < |s| ensures TravelsTo(s[i], EncodeSignature, DecodeSignature, NormalSignature) {
      MetadataTrip(s[i].header);
    }
    AllTravelTo(s, EncodeSignature, DecodeSignature, NormalSignature);
  }

  lemma CapabilitiesTravel(c: AgentCapabilities)
    ensures TravelsTo(c, EncodeCapabilities, DecodeCapabilities, NormalCapabilities)
  {
    var s := c.extensions;
    forall i | 0 <= i < |s| ensures TravelsTo(s[i], EncodeExtension, DecodeExtension, NormalExtension) {
      MetadataTrip(s[i].params);
    }
    AllTravelTo(s, EncodeExtension, DecodeExtension, NormalExtension);
  }

  /** Decoding inverts encoding up to the normal form, and a second trip is the identity. */
  lemma CardTravels(c: AgentCard)
    ensures Travels(c, EncodeCard, DecodeCard, NormalCard)
  {
    InterfacesTravel(c.supportedInterfaces);
    CapabilitiesTravel(c.capabilities);
    SchemesTravel(c.securitySchemes);
    SignaturesTravel(c.signatures);
  }

  predicate CardComplete(c: PbAgentCard) {
    c.capabilities.Some? && SchemesComplete(c.securitySchemes)
  }

  /** A card decodes exactly if its capabilities, every scheme and every OAuth flow are
      present. */
  lemma CardDecodes(c: PbAgentCard)
    ensures DecodesWhen(DecodeCard(c), CardComplete(c), NormalCard)
  {
    SchemesDecode(c.securitySchemes);
    EachDecoded(c.supportedInterfaces, DecodeInterface, NormalInterface);
    forall i | 0 <= i < |c.signatures|
      ensures NormalSignature(DecodeSignature(c.signatures[i])) == DecodeSignature(c.signatures[i])
    {
      DecodedMetadataNormal(c.signatures[i].header);
    }
    EachDecoded(c.signatures, DecodeSignature, NormalSignature);
    if c.capabilities.Some? {
      CapabilitiesDecode(c.capabilities.value);
    }
  }

  lemma CapabilitiesDecode(c: PbCapabilities)
    ensures NormalCapabilities(DecodeCapabilities(c)) == DecodeCapabilities(c)
  {
    var s := c.extensions;
    forall i | 0 <= i < |s| ensures NormalExtension(DecodeExtension(s[i])) == DecodeExtension(s[i]) {
      DecodedMetadataNormal(s[i].params);
    }
    EachDecoded(s, DecodeExtension, NormalExtension);
  }

  lemma EachDecoded<A, B>(s: seq<B>, dec: B -> A, norm: A -> A)
    requires forall i | 0 <= i < |s| :: norm(dec(s[i])) == dec(s[i])
    ensures Each(Each(s, dec), norm) == Each(s, dec)
  {
  }

  // ---- What arrives exactly as it was ----

  predicate PlainScheme(s: SecurityScheme) {
    && NotBlank(s.description)
    && (s.HttpAuth? ==> NotBlank(s.bearerFormat))
    && (s.OAuth2? ==> NotBlank(s.metadataUrl) && NotBlank(s.flow.refreshUrl))
  }

  predicate PlainCard(c: AgentCard) {
    && (forall i | 0 <= i < |c.supportedInterfaces| :: NotBlank(c.supportedInterfaces[i].tenant))
    && (forall i | 0 <= i < |c.capabilities.extensions| :: DoublesOnly(c.capabilities.extensions[i].params))
    && (forall i | 0 <= i < |c.signatures| :: DoublesOnly(c.signatures[i].header))
    && (forall k | k in c.securitySchemes :: PlainScheme(c.securitySchemes[k]))
  }

  lemma SchemeUnchanged(s: SecurityScheme)
    ensures NormalScheme(s) == s <==> PlainScheme(s)
  {
  }

  lemma SchemesUnchanged(m: map<string, SecurityScheme>)
    ensures NormalSchemes(m) == m <==> forall k | k in m :: PlainScheme(m[k])
  {
    forall k | k in m ensures NormalScheme(m[k]) == m[k] <==> PlainScheme(m[k]) {
      SchemeUnchanged(m[k]);
    }
    assert forall k | k in m :: NormalSchemes(m)[k] == NormalScheme(m[k]);
    assert NormalSchemes(m) == m <==> forall k | k in m :: NormalScheme(m[k]) == m[k];
  }

  lemma InterfacesUnchanged(s: seq<AgentInterface>)
    ensures Each(s, NormalInterface) == s <==> forall i | 0 <= i < |s| :: NotBlank(s[i].tenant)
  {
    EachUnchanged(s, NormalInterface);
    assert forall i | 0 <= i < |s| :: NormalInterface(s[i]) == s[i] <==> NotBlank(s[i].tenant);
  }

  lemma SignaturesUnchanged(s: seq<AgentCardSignature>)
    ensures Each(s, NormalSignature) == s <==> forall i | 0 <= i < |s| :: DoublesOnly(s[i].header)
  {
    EachUnchanged(s, NormalSignature);
    forall i | 0 <= i < |s| ensures NormalSignature(s[i]) == s[i] <==> DoublesOnly(s[i].header) {
      MetadataUnchanged(s[i].header);
    }
  }

  lemma ExtensionsUnchanged(s: seq<AgentExtension>)
    ensures Each(s, NormalExtension) == s <==> forall i | 0 <= i < |s| :: DoublesOnly(s[i].params)
  {
    EachUnchanged(s, NormalExtension);
    forall i | 0 <= i < |s| ensures NormalExtension(s[i]) == s[i] <==> DoublesOnly(s[i].params) {
      MetadataUnchanged(s[i].params);
    }
  }

  /** A card always arrives, and exactly as it was if and only if none of the optional
      strings of its interfaces and schemes is set but empty and the numbers in its
      extensions and signatures are doubles. */
  lemma CardArrives(c: AgentCard)
    ensures var r := DecodeCard(EncodeCard(c));
            r.Ok? && (r.value == c <==> PlainCard(c))
  {
    CardTravels(c);
    InterfacesUnchanged(c.supportedInterfaces);
    ExtensionsUnchanged(c.capabilities.extensions);
    SchemesUnchanged(c.securitySchemes);
    SignaturesUnchanged(c.signatures);
  }

  /** A card fails to decode if and only if its capabilities, the kind of one of its schemes,
      or the flow of an OAuth 2 one are missing. */
  lemma CardMisses(c: PbAgentCard)
    ensures DecodeCard(c).Err? <==>
              || c.capabilities.None?
              || exists k | k in c.securitySchemes ::
                   var kind := c.securitySchemes[k].kind;
                   || kind.None?
                   || (kind.value.PbOAuth2? && (kind.value.flows.None? || kind.value.flows.value.flow.None?))
  {
    CardDecodes(c);
  }
}
