/**
 * The Underdog Protocol client factory (`createUnderdogClient`).
 *
 * A configuration is resolved once into a `Client`: the base URL every call
 * goes to, the optional `Authorization` header and the API version.  Each of
 * the forty endpoints then makes exactly one HTTP call whose verb and path are
 * fixed by the endpoint and its routing parameters; `Send` returns that call
 * as an `HttpRequest` descriptor instead of performing it.
 */
module UnderdogClient {
  import opened Wrappers

  // ---------------------------------------------------------------------------
  // Configuration
  // ---------------------------------------------------------------------------

  datatype Network = Mainnet | Devnet

  /**
   * Stand-ins for MAINNET_API_URL and DEVNET_API_URL of the types package.
   * Nothing below depends on their text beyond their being non-empty,
   * different from each other and different from the proxy path.
   */
  const MainnetApiUrl: string := "https://api.underdogprotocol.com"
  const DevnetApiUrl: string := "https://devnet.underdogprotocol.com"

  /** The relay route a browser client talks to when it holds no API key. */
  const ProxyBaseUrl: string := "/api/underdog"

  const DefaultVersion: string := "v2"

  /** `UnderdogClientConfig`; `None` is a field the caller left undefined. */
  datatype Config = Config(
    network: Option<Network>,
    baseUrl: Option<string>,
    apiKey: Option<string>,
    bearer: Option<bool>,
    version: Option<string>)

  /** JavaScript truthiness of an optional string: undefined and "" are false. */
  predicate Truthy(s: Option<string>) {
    s.Some? && s.value != ""
  }

  /** Server mode: the configuration carries a usable API key. */
  predicate HasApiKey(cfg: Config) {
    Truthy(cfg.apiKey)
  }

  /** `bearer` defaults to true, so only an explicit `false` selects the raw key. */
  predicate BearerMode(cfg: Config) {
    cfg.bearer != Some(false)
  }

  /** `version` defaults to "v2". */
  function VersionOf(cfg: Config): string {
    cfg.version.GetOr(DefaultVersion)
  }

  /**
   * The base URL: `baseUrl || (apiKey ? (network === Mainnet ? MAINNET :
   * DEVNET) : "/api/underdog")`.
   */
  function ResolveBaseUrl(cfg: Config): (url: string)
    ensures url != ""
    ensures Truthy(cfg.baseUrl) ==> url == cfg.baseUrl.value
    ensures !Truthy(cfg.baseUrl) ==> (url == ProxyBaseUrl <==> !HasApiKey(cfg))
    ensures !Truthy(cfg.baseUrl) && HasApiKey(cfg) ==>
      && (url == MainnetApiUrl <==> cfg.network == Some(Mainnet))
      && (url == DevnetApiUrl <==> cfg.network != Some(Mainnet))
  {
    if Truthy(cfg.baseUrl) then cfg.baseUrl.value
    else if HasApiKey(cfg) then
      if cfg.network == Some(Mainnet) then MainnetApiUrl else DevnetApiUrl
    else ProxyBaseUrl
  }

  const BearerPrefix: string := "Bearer "

  /** The `Authorization` header, absent when there is no API key. */
  function AuthorizationHeader(cfg: Config): (header: Option<string>)
    ensures header.Some? <==> HasApiKey(cfg)
    ensures header.Some? ==> header.value != ""
  {
    if HasApiKey(cfg) then
      Some(if BearerMode(cfg) then BearerPrefix + cfg.apiKey.value else cfg.apiKey.value)
    else None
  }

  /**
   * The key a receiver reads back from an `Authorization` header, knowing
   * whether the sender used bearer mode.
   */
  function KeyFromHeader(header: string, bearer: bool): Option<string> {
    if !bearer then Some(header)
    else if |header| >= |BearerPrefix| && header[..|BearerPrefix|] == BearerPrefix then
      Some(header[|BearerPrefix|..])
    else None
  }

  /** The resolved, immutable state shared by every endpoint of one client. */
  datatype Client = Client(baseUrl: string, authorization: Option<string>, version: string)

  /** `createUnderdogClient`, without the axios instance it wraps. */
  function CreateClient(cfg: Config): (c: Client)
    ensures c.baseUrl != ""
    ensures c.authorization.Some? <==> HasApiKey(cfg)
    // Without an explicit base URL, exactly one of server mode (an auth
    // header) and proxy mode (the relative relay path) holds.
    ensures !Truthy(cfg.baseUrl) ==> (c.authorization.None? <==> c.baseUrl == ProxyBaseUrl)
    ensures c.version == cfg.version.GetOr(DefaultVersion)
  {
    Client(ResolveBaseUrl(cfg), AuthorizationHeader(cfg), VersionOf(cfg))
  }

  // ---------------------------------------------------------------------------
  // Path builders
  // ---------------------------------------------------------------------------

  datatype ProjectType = ProjectType(transferable: bool, compressed: bool)

  /** `ProjectParams`; ids are the text they are interpolated as. */
  datatype ProjectParams = ProjectParams(projectId: string, projectType: ProjectType)

  /** `NftParams`: a project and an NFT inside it. */
  datatype NftParams = NftParams(projectId: string, projectType: ProjectType, nftId: string)

  /** The project part of NFT parameters (`...projectParams` in `nftPath`). */
  function ProjectOf(p: NftParams): ProjectParams {
    ProjectParams(p.projectId, p.projectType)
  }

  const NonTransferable: ProjectType := ProjectType(false, false)

  function BaseProjectPath(version: string): string {
    "/" + version + "/projects"
  }

  /** The one-letter project kind: compressed, transferable or non-transferable. */
  function TypeToProjectCode(t: ProjectType): (code: string)
    ensures code in {"c", "t", "n"}
    ensures code == "c" <==> t.compressed
    ensures code == "t" <==> !t.compressed && t.transferable
    ensures code == "n" <==> !t.compressed && !t.transferable
  {
    if t.compressed then "c" else if t.transferable then "t" else "n"
  }

  function ProjectPath(version: string, p: ProjectParams): string {
    BaseProjectPath(version) + "/" + TypeToProjectCode(p.projectType) + "/" + p.projectId
  }

  function NftPath(version: string, p: NftParams): string {
    ProjectPath(version, ProjectOf(p)) + "/nfts/" + p.nftId
  }

  /** The NFT path with the project kind forced to non-transferable. */
  function NonTransferableNftPath(version: string, p: NftParams): string {
    ProjectPath(version, ProjectParams(p.projectId, NonTransferable)) + "/nfts/" + p.nftId
  }

  // ---------------------------------------------------------------------------
  // Endpoints
  // ---------------------------------------------------------------------------

  /** A query or body object; the client passes it on without looking inside. */
  datatype Payload = Payload(json: string)

  /** Each endpoint with the routing parameters (`params`) it reads. */
  datatype Endpoint =
    | BurnNft(nft: NftParams)
    | CreateNft(project: ProjectParams)
    | BatchNft(project: ProjectParams)
    | CreateSft(project: ProjectParams)
    | BatchSft(project: ProjectParams)
    | CreateProject
    | GetAllProjects
    | GetCollection(mintAddress: string)
    | GetNftClaimLink(nft: NftParams)
    | GetNft(nft: NftParams)
    | GetNftByMintAddress(mintAddress: string)
    | GetNfts(project: ProjectParams)
    | GetProject(project: ProjectParams)
    | GetProjectStats(project: ProjectParams)
    | GetProjects(projectType: ProjectType)
    | PartialUpdateNft(nft: NftParams)
    | PartialUpdateProject(project: ProjectParams)
    | RevokeNft(nft: NftParams)
    | SearchNfts(project: ProjectParams)
    | UpdateNft(nft: NftParams)
    | UpdateProjectName(project: ProjectParams)
    | UpdateProject(project: ProjectParams)
    | UpdateProjectSymbol(project: ProjectParams)
    | GetTransactions
    | GetTransaction(transactionId: string)
    | GetRequest(requestId: string)
    | GetRequests
    | GetOrgs
    | GetOrg(orgId: string)
    | UpdateOrg(orgId: string)
    | GetMembers(orgId: string)
    | CreateMember(orgId: string)
    | CreateWebhook
    | GetWebhooks
    | GetWebhook(webhookId: string)
    | DeleteWebhook(webhookId: string)
    | CreateKey(orgId: string)
    | GetKeys(orgId: string)
    | UpdateKey(orgId: string, prefix: string)
    | DeleteKey(orgId: string, prefix: string)

  /** One client call: the endpoint with its `params`, and the request's `query` and `body`. */
  datatype Call = Call(endpoint: Endpoint, query: Option<Payload>, body: Option<Payload>)

  datatype Method = GET | POST | PUT | PATCH | DELETE

  /**
   * The HTTP exchange one endpoint performs: where it goes, with which
   * header, query parameters and payload, and whether the endpoint hands the
   * response body back to its caller.
   */
  datatype HttpRequest = HttpRequest(
    verb: Method,
    baseUrl: string,
    authorization: Option<string>,
    path: string,
    query: Option<Payload>,
    body: Option<Payload>,
    returnsBody: bool)

  // The calls on the shared axios instance.

  function Get(c: Client, path: string, query: Option<Payload>): HttpRequest {
    HttpRequest(GET, c.baseUrl, c.authorization, path, query, None, true)
  }

  function Post(c: Client, path: string, body: Option<Payload>): HttpRequest {
    HttpRequest(POST, c.baseUrl, c.authorization, path, None, body, true)
  }

  function Put(c: Client, path: string, body: Option<Payload>): HttpRequest {
    HttpRequest(PUT, c.baseUrl, c.authorization, path, None, body, true)
  }

  function Patch(c: Client, path: string, body: Option<Payload>): HttpRequest {
    HttpRequest(PATCH, c.baseUrl, c.authorization, path, None, body, true)
  }

  function Delete(c: Client, path: string): HttpRequest {
    HttpRequest(DELETE, c.baseUrl, c.authorization, path, None, None, true)
  }

  /** An endpoint that awaits the call but returns nothing. */
  function Discard(r: HttpRequest): HttpRequest {
    r.(returnsBody := false)
  }

  /** The endpoint functions of the client object. */
  function Send(c: Client, call: Call): (r: HttpRequest)
    // Every call goes through the one instance built at construction.
    ensures r.baseUrl == c.baseUrl && r.authorization == c.authorization
    // Query parameters go only with reads, payloads only with writes, and
    // both are passed on unmodified.
    ensures r.query.Some? ==> r.verb == GET && r.query == call.query
    ensures r.body.Some? ==> r.verb in {POST, PUT, PATCH} && r.body == call.body
    // Only the removals hand nothing back.
    ensures !r.returnsBody <==> r.verb == DELETE
  {
    var v := c.version;
    var q := call.query;
    var b := call.body;
    match call.endpoint
    case BurnNft(p) => Post(c, NonTransferableNftPath(v, p) + "/burn", None)
    case CreateNft(p) => Post(c, ProjectPath(v, p) + "/nfts", b)
    case BatchNft(p) => Post(c, ProjectPath(v, p) + "/nfts/batch", b)
    case CreateSft(p) => Post(c, ProjectPath(v, p) + "/sfts", b)
    case BatchSft(p) => Post(c, ProjectPath(v, p) + "/sfts/batch", b)
    case CreateProject => Post(c, BaseProjectPath(v), b)
    case GetAllProjects => Get(c, BaseProjectPath(v), q)
    case GetCollection(mint) => Get(c, "/" + v + "/collections/" + mint, None)
    case GetNftClaimLink(p) => Get(c, NonTransferableNftPath(v, p) + "/claim", None)
    case GetNft(p) => Get(c, NftPath(v, p), None)
    case GetNftByMintAddress(mint) => Get(c, "/" + v + "/nfts/" + mint, None)
    case GetNfts(p) => Get(c, ProjectPath(v, p) + "/nfts", q)
    case GetProject(p) => Get(c, ProjectPath(v, p), q)
    case GetProjectStats(p) => Get(c, ProjectPath(v, p) + "/stats", None)
    case GetProjects(t) => Get(c, BaseProjectPath(v) + "/" + TypeToProjectCode(t), q)
    case PartialUpdateNft(p) => Patch(c, NftPath(v, p), b)
    case PartialUpdateProject(p) => Patch(c, ProjectPath(v, p), b)
    case RevokeNft(p) => Post(c, NonTransferableNftPath(v, p) + "/revoke", None)
    case SearchNfts(p) => Get(c, ProjectPath(v, p) + "/nfts/search", q)
    case UpdateNft(p) => Put(c, NftPath(v, p), b)
    case UpdateProjectName(p) => Put(c, ProjectPath(v, p) + "/name", b)
    case UpdateProject(p) => Put(c, ProjectPath(v, p), b)
    case UpdateProjectSymbol(p) => Put(c, ProjectPath(v, p) + "/symbol", b)
    case GetTransactions => Get(c, "/" + v + "/transactions", q)
    case GetTransaction(id) => Get(c, "/" + v + "/transactions/" + id, None)
    case GetRequest(id) => Get(c, "/" + v + "/requests/" + id, None)
    case GetRequests => Get(c, "/" + v + "/requests", q)
    case GetOrgs => Get(c, "/" + v + "/orgs", q)
    case GetOrg(org) => Get(c, "/" + v + "/orgs/" + org, None)
    case UpdateOrg(org) => Put(c, "/" + v + "/orgs/" + org, b)
    case GetMembers(org) => Get(c, "/" + v + "/orgs/" + org + "/members", q)
    case CreateMember(org) => Post(c, "/" + v + "/orgs/" + org + "/members", b)
    case CreateWebhook => Post(c, "/" + v + "/webhooks", b)
    case GetWebhooks => Get(c, "/" + v + "/webhooks", q)
    case GetWebhook(id) => Get(c, "/" + v + "/webhooks/" + id, None)
    case DeleteWebhook(id) => Discard(Delete(c, "/" + v + "/webhooks/" + id))
    case CreateKey(org) => Post(c, "/" + v + "/orgs/" + org + "/keys", None)
    case GetKeys(org) => Get(c, "/" + v + "/orgs/" + org + "/keys", q)
    case UpdateKey(org, prefix) => Put(c, "/" + v + "/orgs/" + org + "/keys/" + prefix, b)
    case DeleteKey(org, prefix) => Discard(Delete(c, "/" + v + "/orgs/" + org + "/keys/" + prefix))
  }
}
