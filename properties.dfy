/**
 * What the client factory promises: the REST grammar every endpoint's path
 * follows, the verb convention, the paths that ignore the project kind, and
 * the way configuration turns into a base URL and an `Authorization` header.
 */
module ClientProperties {
  import opened Wrappers
  import opened Paths
  import opened UnderdogClient

  // ---------------------------------------------------------------------------
  // Reference definitions
  // ---------------------------------------------------------------------------

  /** What an endpoint does, as its name says. */
  datatype Operation = Read | Create | Replace | Modify | Remove | Action

  /**
   * The naming convention of the endpoints: get and search read, create and
   * batch create, update replaces, partialUpdate modifies, delete removes, and
   * burn and revoke are actions on an NFT.
   */
  function OperationOf(e: Endpoint): Operation {
    match e
    case GetAllProjects | GetCollection(_) | GetNftClaimLink(_) | GetNft(_)
      | GetNftByMintAddress(_) | GetNfts(_) | GetProject(_) | GetProjectStats(_)
      | GetProjects(_) | SearchNfts(_) | GetTransactions | GetTransaction(_)
      | GetRequest(_) | GetRequests | GetOrgs | GetOrg(_) | GetMembers(_)
      | GetWebhooks | GetWebhook(_) | GetKeys(_) => Read
    case CreateNft(_) | BatchNft(_) | CreateSft(_) | BatchSft(_) | CreateProject
      | CreateMember(_) | CreateWebhook | CreateKey(_) => Create
    case UpdateNft(_) | UpdateProjectName(_) | UpdateProject(_)
      | UpdateProjectSymbol(_) | UpdateOrg(_) | UpdateKey(_, _) => Replace
    case PartialUpdateNft(_) | PartialUpdateProject(_) => Modify
    case DeleteWebhook(_) | DeleteKey(_, _) => Remove
    case BurnNft(_) | RevokeNft(_) => Action
  }

  /** The verb each kind of operation uses on a REST API. */
  function VerbOf(op: Operation): Method {
    match op
    case Read => GET
    case Create => POST
    case Replace => PUT
    case Modify => PATCH
    case Remove => DELETE
    case Action => POST
  }

  /** The segments of a project: `{version}/projects/{code}/{projectId}`. */
  function ProjectRoute(v: string, p: ProjectParams): seq<string> {
    [v, "projects", TypeToProjectCode(p.projectType), p.projectId]
  }

  /** The segments of an NFT: `{project}/nfts/{nftId}`. */
  function NftRoute(v: string, p: NftParams): seq<string> {
    ProjectRoute(v, ProjectOf(p)) + ["nfts", p.nftId]
  }

  /** The segments of the NFT in the non-transferable project with the same id. */
  function NonTransferableRoute(v: string, p: NftParams): seq<string> {
    [v, "projects", "n", p.projectId, "nfts", p.nftId]
  }

  /** The resource grammar: the segments, after the leading '/', of each endpoint's path. */
  function Route(v: string, e: Endpoint): (segs: seq<string>)
    ensures |segs| >= 2 && segs[0] == v
  {
    match e
    case BurnNft(p) => NonTransferableRoute(v, p) + ["burn"]
    case CreateNft(p) => ProjectRoute(v, p) + ["nfts"]
    case BatchNft(p) => ProjectRoute(v, p) + ["nfts", "batch"]
    case CreateSft(p) => ProjectRoute(v, p) + ["sfts"]
    case BatchSft(p) => ProjectRoute(v, p) + ["sfts", "batch"]
    case CreateProject => [v, "projects"]
    case GetAllProjects => [v, "projects"]
    case GetCollection(mint) => [v, "collections", mint]
    case GetNftClaimLink(p) => NonTransferableRoute(v, p) + ["claim"]
    case GetNft(p) => NftRoute(v, p)
    case GetNftByMintAddress(mint) => [v, "nfts", mint]
    case GetNfts(p) => ProjectRoute(v, p) + ["nfts"]
    case GetProject(p) => ProjectRoute(v, p)
    case GetProjectStats(p) => ProjectRoute(v, p) + ["stats"]
    case GetProjects(t) => [v, "projects", TypeToProjectCode(t)]
    case PartialUpdateNft(p) => NftRoute(v, p)
    case PartialUpdateProject(p) => ProjectRoute(v, p)
    case RevokeNft(p) => NonTransferableRoute(v, p) + ["revoke"]
    case SearchNfts(p) => ProjectRoute(v, p) + ["nfts", "search"]
    case UpdateNft(p) => NftRoute(v, p)
    case UpdateProjectName(p) => ProjectRoute(v, p) + ["name"]
    case UpdateProject(p) => ProjectRoute(v, p)
    case UpdateProjectSymbol(p) => ProjectRoute(v, p) + ["symbol"]
    case GetTransactions => [v, "transactions"]
    case GetTransaction(id) => [v, "transactions", id]
    case GetRequest(id) => [v, "requests", id]
    case GetRequests => [v, "requests"]
    case GetOrgs => [v, "orgs"]
    case GetOrg(org) => [v, "orgs", org]
    case UpdateOrg(org) => [v, "orgs", org]
    case GetMembers(org) => [v, "orgs", org, "members"]
    case CreateMember(org) => [v, "orgs", org, "members"]
    case CreateWebhook => [v, "webhooks"]
    case GetWebhooks => [v, "webhooks"]
    case GetWebhook(id) => [v, "webhooks", id]
    case DeleteWebhook(id) => [v, "webhooks", id]
    case CreateKey(org) => [v, "orgs", org, "keys"]
    case GetKeys(org) => [v, "orgs", org, "keys"]
    case UpdateKey(org, prefix) => [v, "orgs", org, "keys", prefix]
    case DeleteKey(org, prefix) => [v, "orgs", org, "keys", prefix]
  }

  /**
   * The endpoints that pass the caller's `query` on as query parameters: the
   * listings and searches.  Every other read takes only its `params`.
   */
  predicate TakesQuery(e: Endpoint) {
    e.GetAllProjects? || e.GetNfts? || e.GetProject? || e.GetProjects?
    || e.SearchNfts? || e.GetTransactions? || e.GetRequests? || e.GetOrgs?
    || e.GetMembers? || e.GetWebhooks? || e.GetKeys?
  }

  /**
   * The endpoints that send the caller's `body` as the payload: every write
   * except burning, revoking and creating a key, which post nothing.
   */
  predicate TakesBody(e: Endpoint) {
    VerbOf(OperationOf(e)) in {POST, PUT, PATCH} && !e.BurnNft? && !e.RevokeNft? && !e.CreateKey?
  }

  /** `s` begins with `prefix`. */
  predicate StartsWith(s: string, prefix: string) {
    |prefix| <= |s| && s[..|prefix|] == prefix
  }

  // ---------------------------------------------------------------------------
  // Configuration
  // ---------------------------------------------------------------------------

  /** An explicit base URL decides the base URL alone, whatever the key and network. */
  lemma ExplicitBaseUrlWins(cfg: Config, other: Config)
    requires Truthy(cfg.baseUrl) && other.baseUrl == cfg.baseUrl
    ensures CreateClient(cfg).baseUrl == CreateClient(other).baseUrl == cfg.baseUrl.value
  {
  }

  /**
   * The header reads back as the configured key in the configured mode, and
   * in bearer mode it carries the "Bearer " scheme.
   */
  lemma AuthorizationRoundTrip(cfg: Config)
    requires HasApiKey(cfg)
    ensures AuthorizationHeader(cfg).Some?
    ensures KeyFromHeader(AuthorizationHeader(cfg).value, BearerMode(cfg)) == Some(cfg.apiKey.value)
    ensures BearerMode(cfg) ==> StartsWith(AuthorizationHeader(cfg).value, "Bearer ")
    ensures !BearerMode(cfg) ==> AuthorizationHeader(cfg).value == cfg.apiKey.value
  {
  }

  /** Two keys in the same mode give the same header only if they are the same key. */
  lemma AuthorizationInjective(cfg: Config, other: Config)
    requires HasApiKey(cfg) && HasApiKey(other) && BearerMode(cfg) == BearerMode(other)
    ensures AuthorizationHeader(cfg) == AuthorizationHeader(other) <==> cfg.apiKey == other.apiKey
  {
    AuthorizationRoundTrip(cfg);
    AuthorizationRoundTrip(other);
  }

  /**
   * Proxy mode: with neither a base URL nor a key, every request goes to the
   * relay route without an `Authorization` header.
   */
  lemma ProxyModeRequests(cfg: Config, call: Call)
    requires !Truthy(cfg.baseUrl) && !HasApiKey(cfg)
    ensures Send(CreateClient(cfg), call).baseUrl == ProxyBaseUrl
    ensures Send(CreateClient(cfg), call).authorization.None?
  {
  }

  // ---------------------------------------------------------------------------
  // Paths
  // ---------------------------------------------------------------------------

  /** `projectPath` builds the absolute path of a project's segments. */
  lemma ProjectPathIsRoute(v: string, p: ProjectParams)
    ensures ProjectPath(v, p) == Absolute(ProjectRoute(v, p))
  {
    var code := TypeToProjectCode(p.projectType);
    AbsoluteSingle(v);
    AbsoluteSnoc([v], "projects");
    assert [v] + ["projects"] == [v, "projects"];
    AbsoluteSnoc([v, "projects"], code);
    assert [v, "projects"] + [code] == [v, "projects", code];
    AbsoluteSnoc([v, "projects", code], p.projectId);
    assert [v, "projects", code] + [p.projectId] == ProjectRoute(v, p);
  }

  /** `nftPath` builds the absolute path of an NFT's segments. */
  lemma NftPathIsRoute(v: string, p: NftParams)
    ensures NftPath(v, p) == Absolute(NftRoute(v, p))
  {
    var pr := ProjectRoute(v, ProjectOf(p));
    ProjectPathIsRoute(v, ProjectOf(p));
    AbsoluteSnoc(pr, "nfts");
    AbsoluteSnoc(pr + ["nfts"], p.nftId);
    assert pr + ["nfts"] + [p.nftId] == NftRoute(v, p);
  }

  /** `nonTransferableNftPath` builds the NFT's segments under the "n" project kind. */
  lemma NonTransferableNftPathIsRoute(v: string, p: NftParams)
    ensures NonTransferableNftPath(v, p) == Absolute(NonTransferableRoute(v, p))
  {
    var q := NftParams(p.projectId, NonTransferable, p.nftId);
    NftPathIsRoute(v, q);
    assert NonTransferableNftPath(v, p) == NftPath(v, q);
    assert NftRoute(v, q) == NonTransferableRoute(v, p);
  }

  // One lemma per endpoint, so that each proof stays small: the endpoint's
  // template string is the absolute path of its route.

  lemma CreateNftPathIsRoute(c: Client, call: Call)
    requires call.endpoint.CreateNft?
    ensures Send(c, call).path == Absolute(Route(c.version, call.endpoint))
  {
    var v := c.version;
    match call.endpoint {
      case CreateNft(p) =>
        ProjectPathIsRoute(v, p); AbsoluteSnoc(ProjectRoute(v, p), "nfts");
    }
  }

  lemma BatchNftPathIsRoute(c: Client, call: Call)
    requires call.endpoint.BatchNft?
    ensures Send(c, call).path == Absolute(Route(c.version, call.endpoint))
  {
    var v := c.version;
    match call.endpoint {
      case BatchNft(p) =>
        ProjectPathIsRoute(v, p); AbsoluteSnoc2(ProjectRoute(v, p), "nfts", "batch");
    }
  }

  lemma CreateSftPathIsRoute(c: Client, call: Call)
    requires call.endpoint.CreateSft?
    ensures Send(c, call).path == Absolute(Route(c.version, call.endpoint))
  {
    var v := c.version;
    match call.endpoint {
      case CreateSft(p) =>
        ProjectPathIsRoute(v, p); AbsoluteSnoc(ProjectRoute(v, p), "sfts");
    }
  }

  lemma BatchSftPathIsRoute(c: Client, call: Call)
    requires call.endpoint.BatchSft?
    ensures Send(c, call).path == Absolute(Route(c.version, call.endpoint))
  {
    var v := c.version;
    match call.endpoint {
      case BatchSft(p) =>
        ProjectPathIsRoute(v, p); AbsoluteSnoc2(ProjectRoute(v, p), "sfts", "batch");
    }
  }

  lemma GetNftsPathIsRoute(c: Client, call: Call)
    requires call.endpoint.GetNfts?
    ensures Send(c, call).path == Absolute(Route(c.version, call.endpoint))
  {
    var v := c.version;
    match call.endpoint {
      case GetNfts(p) =>
        ProjectPathIsRoute(v, p); AbsoluteSnoc(ProjectRoute(v, p), "nfts");
    }
  }

  lemma GetProjectPathIsRoute(c: Client, call: Call)
    requires call.endpoint.GetProject?
    ensures Send(c, call).path == Absolute(Route(c.version, call.endpoint))
  {
    var v := c.version;
    match call.endpoint {
      case GetProject(p) =>
        ProjectPathIsRoute(v, p);
    }
  }

  lemma GetProjectStatsPathIsRoute(c: Client, call: Call)
    requires call.endpoint.GetProjectStats?
    ensures Send(c, call).path == Absolute(Route(c.version, call.endpoint))
  {
    var v := c.version;
    match call.endpoint {
      case GetProjectStats(p) =>
        ProjectPathIsRoute(v, p); AbsoluteSnoc(ProjectRoute(v, p), "stats");
    }
  }

  lemma PartialUpdateProjectPathIsRoute(c: Client, call: Call)
    requires call.endpoint.PartialUpdateProject?
    ensures Send(c, call).path == Absolute(Route(c.version, call.endpoint))
  {
    var v := c.version;
    match call.endpoint {
      case PartialUpdateProject(p) =>
        ProjectPathIsRoute(v, p);
    }
  }

  lemma SearchNftsPathIsRoute(c: Client, call: Call)
    requires call.endpoint.SearchNfts?
    ensures Send(c, call).path == Absolute(Route(c.version, call.endpoint))
  {
    var v := c.version;
    match call.endpoint {
      case SearchNfts(p) =>
        ProjectPathIsRoute(v, p); AbsoluteSnoc2(ProjectRoute(v, p), "nfts", "search");
    }
  }

  lemma UpdateProjectNamePathIsRoute(c: Client, call: Call)
    requires call.endpoint.UpdateProjectName?
    ensures Send(c, call).path == Absolute(Route(c.version, call.endpoint))
  {
    var v := c.version;
    match call.endpoint {
      case UpdateProjectName(p) =>
        ProjectPathIsRoute(v, p); AbsoluteSnoc(ProjectRoute(v, p), "name");
    }
  }

  lemma UpdateProjectPathIsRoute(c: Client, call: Call)
    requires call.endpoint.UpdateProject?
    ensures Send(c, call).path == Absolute(Route(c.version, call.endpoint))
  {
    var v := c.version;
    match call.endpoint {
      case UpdateProject(p) =>
        ProjectPathIsRoute(v, p);
    }
  }

  lemma UpdateProjectSymbolPathIsRoute(c: Client, call: Call)
    requires call.endpoint.UpdateProjectSymbol?
    ensures Send(c, call).path == Absolute(Route(c.version, call.endpoint))
  {
    var v := c.version;
    match call.endpoint {
      case UpdateProjectSymbol(p) =>
        ProjectPathIsRoute(v, p); AbsoluteSnoc(ProjectRoute(v, p), "symbol");
    }
  }

  lemma BurnNftPathIsRoute(c: Client, call: Call)
    requires call.endpoint.BurnNft?
    ensures Send(c, call).path == Absolute(Route(c.version, call.endpoint))
  {
    var v := c.version;
    match call.endpoint {
      case BurnNft(p) =>
        NonTransferableNftPathIsRoute(v, p); AbsoluteSnoc(NonTransferableRoute(v, p), "burn");
    }
  }

  lemma GetNftClaimLinkPathIsRoute(c: Client, call: Call)
    requires call.endpoint.GetNftClaimLink?
    ensures Send(c, call).path == Absolute(Route(c.version, call.endpoint))
  {
    var v := c.version;
    match call.endpoint {
      case GetNftClaimLink(p) =>
        NonTransferableNftPathIsRoute(v, p); AbsoluteSnoc(NonTransferableRoute(v, p), "claim");
    }
  }

  lemma GetNftPathIsRoute(c: Client, call: Call)
    requires call.endpoint.GetNft?
    ensures Send(c, call).path == Absolute(Route(c.version, call.endpoint))
  {
    var v := c.version;
    match call.endpoint {
      case GetNft(p) =>
        NftPathIsRoute(v, p);
    }
  }

  lemma PartialUpdateNftPathIsRoute(c: Client, call: Call)
    requires call.endpoint.PartialUpdateNft?
    ensures Send(c, call).path == Absolute(Route(c.version, call.endpoint))
  {
    var v := c.version;
    match call.endpoint {
      case PartialUpdateNft(p) =>
        NftPathIsRoute(v, p);
    }
  }

  lemma RevokeNftPathIsRoute(c: Client, call: Call)
    requires call.endpoint.RevokeNft?
    ensures Send(c, call).path == Absolute(Route(c.version, call.endpoint))
  {
    var v := c.version;
    match call.endpoint {
      case RevokeNft(p) =>
        NonTransferableNftPathIsRoute(v, p); AbsoluteSnoc(NonTransferableRoute(v, p), "revoke");
    }
  }

  lemma UpdateNftPathIsRoute(c: Client, call: Call)
    requires call.endpoint.UpdateNft?
    ensures Send(c, call).path == Absolute(Route(c.version, call.endpoint))
  {
    var v := c.version;
    match call.endpoint {
      case UpdateNft(p) =>
        NftPathIsRoute(v, p);
    }
  }

  lemma CreateProjectPathIsRoute(c: Client, call: Call)
    requires call.endpoint.CreateProject?
    ensures Send(c, call).path == Absolute(Route(c.version, call.endpoint))
  {
    var v := c.version;
    match call.endpoint {
      case CreateProject =>
        AbsolutePair(v, "projects");
    }
  }

  lemma GetAllProjectsPathIsRoute(c: Client, call: Call)
    requires call.endpoint.GetAllProjects?
    ensures Send(c, call).path == Absolute(Route(c.version, call.endpoint))
  {
    var v := c.version;
    match call.endpoint {
      case GetAllProjects =>
        AbsolutePair(v, "projects");
    }
  }

  lemma GetCollectionPathIsRoute(c: Client, call: Call)
    requires call.endpoint.GetCollection?
    ensures Send(c, call).path == Absolute(Route(c.version, call.endpoint))
  {
    var v := c.version;
    match call.endpoint {
      case GetCollection(mint) =>
        IdPath(v, "collections", mint);
        assert "/" + v + "/collections/" + mint == "/" + v + "/" + "collections" + "/" + mint;
    }
  }

  lemma GetNftByMintAddressPathIsRoute(c: Client, call: Call)
    requires call.endpoint.GetNftByMintAddress?
    ensures Send(c, call).path == Absolute(Route(c.version, call.endpoint))
  {
    var v := c.version;
    match call.endpoint {
      case GetNftByMintAddress(mint) =>
        IdPath(v, "nfts", mint);
        assert "/" + v + "/nfts/" + mint == "/" + v + "/" + "nfts" + "/" + mint;
    }
  }

  lemma GetProjectsPathIsRoute(c: Client, call: Call)
    requires call.endpoint.GetProjects?
    ensures Send(c, call).path == Absolute(Route(c.version, call.endpoint))
  {
    var v := c.version;
    match call.endpoint {
      case GetProjects(t) =>
        IdPath(v, "projects", TypeToProjectCode(t));
    }
  }

  lemma GetTransactionsPathIsRoute(c: Client, call: Call)
    requires call.endpoint.GetTransactions?
    ensures Send(c, call).path == Absolute(Route(c.version, call.endpoint))
  {
    var v := c.version;
    match call.endpoint {
      case GetTransactions =>
        AbsolutePair(v, "transactions");
    }
  }

  lemma GetTransactionPathIsRoute(c: Client, call: Call)
    requires call.endpoint.GetTransaction?
    ensures Send(c, call).path == Absolute(Route(c.version, call.endpoint))
  {
    var v := c.version;
    match call.endpoint {
      case GetTransaction(id) =>
        IdPath(v, "transactions", id);
        assert "/" + v + "/transactions/" + id == "/" + v + "/" + "transactions" + "/" + id;
    }
  }

  lemma GetRequestPathIsRoute(c: Client, call: Call)
    requires call.endpoint.GetRequest?
    ensures Send(c, call).path == Absolute(Route(c.version, call.endpoint))
  {
    var v := c.version;
    match call.endpoint {
      case GetRequest(id) =>
        IdPath(v, "requests", id);
        assert "/" + v + "/requests/" + id == "/" + v + "/" + "requests" + "/" + id;
    }
  }

  lemma GetRequestsPathIsRoute(c: Client, call: Call)
    requires call.endpoint.GetRequests?
    ensures Send(c, call).path == Absolute(Route(c.version, call.endpoint))
  {
    var v := c.version;
    match call.endpoint {
      case GetRequests =>
        AbsolutePair(v, "requests");
    }
  }

  lemma CreateWebhookPathIsRoute(c: Client, call: Call)
    requires call.endpoint.CreateWebhook?
    ensures Send(c, call).path == Absolute(Route(c.version, call.endpoint))
  {
    var v := c.version;
    match call.endpoint {
      case CreateWebhook =>
        AbsolutePair(v, "webhooks");
    }
  }

  lemma GetWebhooksPathIsRoute(c: Client, call: Call)
    requires call.endpoint.GetWebhooks?
    ensures Send(c, call).path == Absolute(Route(c.version, call.endpoint))
  {
    var v := c.version;
    match call.endpoint {
      case GetWebhooks =>
        AbsolutePair(v, "webhooks");
    }
  }

  lemma GetWebhookPathIsRoute(c: Client, call: Call)
    requires call.endpoint.GetWebhook?
    ensures Send(c, call).path == Absolute(Route(c.version, call.endpoint))
  {
    var v := c.version;
    match call.endpoint {
      case GetWebhook(id) =>
        IdPath(v, "webhooks", id);
        assert "/" + v + "/webhooks/" + id == "/" + v + "/" + "webhooks" + "/" + id;
    }
  }

  lemma DeleteWebhookPathIsRoute(c: Client, call: Call)
    requires call.endpoint.DeleteWebhook?
    ensures Send(c, call).path == Absolute(Route(c.version, call.endpoint))
  {
    var v := c.version;
    match call.endpoint {
      case DeleteWebhook(id) =>
        IdPath(v, "webhooks", id);
        assert "/" + v + "/webhooks/" + id == "/" + v + "/" + "webhooks" + "/" + id;
    }
  }

  lemma GetOrgsPathIsRoute(c: Client, call: Call)
    requires call.endpoint.GetOrgs?
    ensures Send(c, call).path == Absolute(Route(c.version, call.endpoint))
  {
    var v := c.version;
    match call.endpoint {
      case GetOrgs =>
        AbsolutePair(v, "orgs");
    }
  }

  lemma GetOrgPathIsRoute(c: Client, call: Call)
    requires call.endpoint.GetOrg?
    ensures Send(c, call).path == Absolute(Route(c.version, call.endpoint))
  {
    var v := c.version;
    match call.endpoint {
      case GetOrg(org) =>
        IdPath(v, "orgs", org);
        assert "/" + v + "/orgs/" + org == "/" + v + "/" + "orgs" + "/" + org;
    }
  }

  lemma UpdateOrgPathIsRoute(c: Client, call: Call)
    requires call.endpoint.UpdateOrg?
    ensures Send(c, call).path == Absolute(Route(c.version, call.endpoint))
  {
    var v := c.version;
    match call.endpoint {
      case UpdateOrg(org) =>
        IdPath(v, "orgs", org);
        assert "/" + v + "/orgs/" + org == "/" + v + "/" + "orgs" + "/" + org;
    }
  }

  lemma GetMembersPathIsRoute(c: Client, call: Call)
    requires call.endpoint.GetMembers?
    ensures Send(c, call).path == Absolute(Route(c.version, call.endpoint))
  {
    var v := c.version;
    match call.endpoint {
      case GetMembers(org) =>
        IdSubPath(v, "orgs", org, "members");
        assert "/" + v + "/orgs/" + org + "/members" == "/" + v + "/" + "orgs" + "/" + org + "/" + "members";
    }
  }

  lemma CreateMemberPathIsRoute(c: Client, call: Call)
    requires call.endpoint.CreateMember?
    ensures Send(c, call).path == Absolute(Route(c.version, call.endpoint))
  {
    var v := c.version;
    match call.endpoint {
      case CreateMember(org) =>
        IdSubPath(v, "orgs", org, "members");
        assert "/" + v + "/orgs/" + org + "/members" == "/" + v + "/" + "orgs" + "/" + org + "/" + "members";
    }
  }

  lemma CreateKeyPathIsRoute(c: Client, call: Call)
    requires call.endpoint.CreateKey?
    ensures Send(c, call).path == Absolute(Route(c.version, call.endpoint))
  {
    var v := c.version;
    match call.endpoint {
      case CreateKey(org) =>
        IdSubPath(v, "orgs", org, "keys");
        assert "/" + v + "/orgs/" + org + "/keys" == "/" + v + "/" + "orgs" + "/" + org + "/" + "keys";
    }
  }

  lemma GetKeysPathIsRoute(c: Client, call: Call)
    requires call.endpoint.GetKeys?
    ensures Send(c, call).path == Absolute(Route(c.version, call.endpoint))
  {
    var v := c.version;
    match call.endpoint {
      case GetKeys(org) =>
        IdSubPath(v, "orgs", org, "keys");
        assert "/" + v + "/orgs/" + org + "/keys" == "/" + v + "/" + "orgs" + "/" + org + "/" + "keys";
    }
  }

  lemma UpdateKeyPathIsRoute(c: Client, call: Call)
    requires call.endpoint.UpdateKey?
    ensures Send(c, call).path == Absolute(Route(c.version, call.endpoint))
  {
    var v := c.version;
    match call.endpoint {
      case UpdateKey(org, prefix) =>
        IdSubIdPath(v, "orgs", org, "keys", prefix);
        assert "/" + v + "/orgs/" + org + "/keys/" + prefix == "/" + v + "/" + "orgs" + "/" + org + "/" + "keys" + "/" + prefix;
    }
  }

  lemma DeleteKeyPathIsRoute(c: Client, call: Call)
    requires call.endpoint.DeleteKey?
    ensures Send(c, call).path == Absolute(Route(c.version, call.endpoint))
  {
    var v := c.version;
    match call.endpoint {
      case DeleteKey(org, prefix) =>
        IdSubIdPath(v, "orgs", org, "keys", prefix);
        assert "/" + v + "/orgs/" + org + "/keys/" + prefix == "/" + v + "/" + "orgs" + "/" + org + "/" + "keys" + "/" + prefix;
    }
  }

  /** Every endpoint's path is the absolute path of its route. */
  lemma SendPathIsRoute(c: Client, call: Call)
    ensures Send(c, call).path == Absolute(Route(c.version, call.endpoint))
  {
    match call.endpoint {
      case CreateNft(_) => CreateNftPathIsRoute(c, call);
      case BatchNft(_) => BatchNftPathIsRoute(c, call);
      case CreateSft(_) => CreateSftPathIsRoute(c, call);
      case BatchSft(_) => BatchSftPathIsRoute(c, call);
      case GetNfts(_) => GetNftsPathIsRoute(c, call);
      case GetProject(_) => GetProjectPathIsRoute(c, call);
      case GetProjectStats(_) => GetProjectStatsPathIsRoute(c, call);
      case PartialUpdateProject(_) => PartialUpdateProjectPathIsRoute(c, call);
      case SearchNfts(_) => SearchNftsPathIsRoute(c, call);
      case UpdateProjectName(_) => UpdateProjectNamePathIsRoute(c, call);
      case UpdateProject(_) => UpdateProjectPathIsRoute(c, call);
      case UpdateProjectSymbol(_) => UpdateProjectSymbolPathIsRoute(c, call);
      case BurnNft(_) => BurnNftPathIsRoute(c, call);
      case GetNftClaimLink(_) => GetNftClaimLinkPathIsRoute(c, call);
      case GetNft(_) => GetNftPathIsRoute(c, call);
      case PartialUpdateNft(_) => PartialUpdateNftPathIsRoute(c, call);
      case RevokeNft(_) => RevokeNftPathIsRoute(c, call);
      case UpdateNft(_) => UpdateNftPathIsRoute(c, call);
      case CreateProject => CreateProjectPathIsRoute(c, call);
      case GetAllProjects => GetAllProjectsPathIsRoute(c, call);
      case GetCollection(_) => GetCollectionPathIsRoute(c, call);
      case GetNftByMintAddress(_) => GetNftByMintAddressPathIsRoute(c, call);
      case GetProjects(_) => GetProjectsPathIsRoute(c, call);
      case GetTransactions => GetTransactionsPathIsRoute(c, call);
      case GetTransaction(_) => GetTransactionPathIsRoute(c, call);
      case GetRequest(_) => GetRequestPathIsRoute(c, call);
      case GetRequests => GetRequestsPathIsRoute(c, call);
      case CreateWebhook => CreateWebhookPathIsRoute(c, call);
      case GetWebhooks => GetWebhooksPathIsRoute(c, call);
      case GetWebhook(_) => GetWebhookPathIsRoute(c, call);
      case DeleteWebhook(_) => DeleteWebhookPathIsRoute(c, call);
      case GetOrgs => GetOrgsPathIsRoute(c, call);
      case GetOrg(_) => GetOrgPathIsRoute(c, call);
      case UpdateOrg(_) => UpdateOrgPathIsRoute(c, call);
      case GetMembers(_) => GetMembersPathIsRoute(c, call);
      case CreateMember(_) => CreateMemberPathIsRoute(c, call);
      case CreateKey(_) => CreateKeyPathIsRoute(c, call);
      case GetKeys(_) => GetKeysPathIsRoute(c, call);
      case UpdateKey(_, _) => UpdateKeyPathIsRoute(c, call);
      case DeleteKey(_, _) => DeleteKeyPathIsRoute(c, call);
    }
  }

  // ---------------------------------------------------------------------------
  // The grammar and what follows from it
  // ---------------------------------------------------------------------------

  /** The ids of an NFT are single path segments. */
  predicate NftIdsAreSegments(p: NftParams) {
    NoSlash(p.projectId) && NoSlash(p.nftId)
  }

  /**
   * Every endpoint's path, cut at its slashes, is exactly its route: the
   * segments come in the documented order and none is lost or merged, as long
   * as the version and ids contain no '/'.
   */
  lemma SendFollowsGrammar(c: Client, call: Call)
    requires AllSegments(Route(c.version, call.endpoint))
    ensures Split(Send(c, call).path) == [""] + Route(c.version, call.endpoint)
  {
    SendPathIsRoute(c, call);
    AbsoluteSplit(Route(c.version, call.endpoint));
  }

  /** The path of an absolute route begins with its first segment between slashes. */
  lemma AbsoluteStartsWith(segs: seq<string>)
    requires |segs| >= 2
    ensures StartsWith(Absolute(segs), "/" + segs[0] + "/")
  {
    var parts := [""] + segs;
    assert parts[1..] == segs;
    assert segs[1..] == parts[1..][1..];
    assert Join(parts) == "" + "/" + (segs[0] + "/" + Join(segs[1..]));
    var prefix := "/" + segs[0] + "/";
    assert Absolute(segs) == prefix + Join(segs[1..]);
  }

  /** Every path the client builds starts with "/{version}/". */
  lemma SendPathUnderVersion(c: Client, call: Call)
    ensures StartsWith(Send(c, call).path, "/" + c.version + "/")
  {
    SendPathIsRoute(c, call);
    AbsoluteStartsWith(Route(c.version, call.endpoint));
  }

  /** Each endpoint's verb is the one its name calls for. */
  lemma SendVerbFollowsName(c: Client, call: Call)
    ensures Send(c, call).verb == VerbOf(OperationOf(call.endpoint))
  {
  }

  /**
   * Which endpoints forward the caller's query and body: exactly those of
   * `TakesQuery` and `TakesBody`, unmodified; every other call drops them.
   */
  lemma SendForwardsPayload(c: Client, call: Call)
    ensures Send(c, call).query == (if TakesQuery(call.endpoint) then call.query else None)
    ensures Send(c, call).body == (if TakesBody(call.endpoint) then call.body else None)
  {
  }

  /** The endpoints that return nothing are exactly the two deletions. */
  lemma OnlyDeletionsReturnNothing(c: Client, call: Call)
    ensures !Send(c, call).returnsBody <==> call.endpoint.DeleteWebhook? || call.endpoint.DeleteKey?
  {
  }

  /** The three NFT operations defined only for non-transferable projects. */
  datatype NftAction = Burn | Revoke | Claim

  /** The endpoint of an action: `burnNft`, `revokeNft` or `getNftClaimLink`. */
  function ActionEndpoint(k: NftAction, p: NftParams): Endpoint {
    match k
    case Burn => BurnNft(p)
    case Revoke => RevokeNft(p)
    case Claim => GetNftClaimLink(p)
  }

  /** The last segment of an action's path. */
  function ActionSegment(k: NftAction): string {
    match k
    case Burn => "burn"
    case Revoke => "revoke"
    case Claim => "claim"
  }

  /** The segments of an action's path: the NFT in the "n" project kind, then the action. */
  lemma ActionPathSegments(c: Client, k: NftAction, a: Call, x: NftParams)
    requires a.endpoint == ActionEndpoint(k, x)
    requires NoSlash(c.version) && NftIdsAreSegments(x)
    ensures Split(Send(c, a).path) ==
      ["", c.version, "projects", "n", x.projectId, "nfts", x.nftId, ActionSegment(k)]
  {
    SendFollowsGrammar(c, a);
    match k {
      case Burn =>
      case Revoke =>
      case Claim =>
    }
  }

  /**
   * Burning, revoking and claim links ignore the project type the caller
   * gives: the same project and NFT ids give the same path, for any ids.
   */
  lemma ActionPathIgnoresType(c: Client, k: NftAction, a: Call, b: Call, x: NftParams, y: NftParams)
    requires a.endpoint == ActionEndpoint(k, x) && b.endpoint == ActionEndpoint(k, y)
    requires x.projectId == y.projectId && x.nftId == y.nftId
    ensures Send(c, a).path == Send(c, b).path
  {
  }

  /**
   * Burning, revoking and claim links always address the non-transferable
   * project kind: two calls of the same action go to the same path exactly
   * when they name the same project and NFT, whatever project type each
   * caller gave.
   */
  lemma NonTransferablePathsIgnoreType(c: Client, k: NftAction, a: Call, b: Call, x: NftParams, y: NftParams)
    requires a.endpoint == ActionEndpoint(k, x) && b.endpoint == ActionEndpoint(k, y)
    requires NoSlash(c.version) && NftIdsAreSegments(x) && NftIdsAreSegments(y)
    ensures Send(c, a).path == Send(c, b).path <==> x.projectId == y.projectId && x.nftId == y.nftId
    ensures Split(Send(c, a).path) ==
      ["", c.version, "projects", "n", x.projectId, "nfts", x.nftId, ActionSegment(k)]
  {
    var pa, pb := Send(c, a).path, Send(c, b).path;
    ActionPathSegments(c, k, a, x);
    ActionPathSegments(c, k, b, y);
    SplitInjective(pa, pb);
    assert Split(pa) == Split(pb) ==> Split(pa)[4] == Split(pb)[4] && Split(pa)[6] == Split(pb)[6];
  }

  /**
   * `getNft`, `updateNft` and `partialUpdateNft` read, replace and modify the
   * same resource: the NFT's path, which is its project's path followed by
   * "nfts" and the NFT id.
   */
  lemma NftVariantsShareResource(c: Client, p: NftParams, query: Option<Payload>, body: Option<Payload>)
    requires NoSlash(c.version) && NftIdsAreSegments(p)
    ensures var get := Send(c, Call(GetNft(p), query, body));
            var put := Send(c, Call(UpdateNft(p), query, body));
            var patch := Send(c, Call(PartialUpdateNft(p), query, body));
            && get.verb == GET && put.verb == PUT && patch.verb == PATCH
            && get.path == put.path == patch.path
            && get.body.None? && put.body == body && patch.body == body
            && Split(get.path) == Split(ProjectPath(c.version, ProjectOf(p))) + ["nfts", p.nftId]
  {
    var v := c.version;
    SendFollowsGrammar(c, Call(GetNft(p), query, body));
    ProjectPathIsRoute(v, ProjectOf(p));
    AbsoluteSplit(ProjectRoute(v, ProjectOf(p)));
  }

  /**
   * `getProject`, `updateProject` and `partialUpdateProject` read, replace and
   * modify the same resource: "/{version}/projects/{code}/{projectId}".
   */
  lemma ProjectVariantsShareResource(c: Client, p: ProjectParams, query: Option<Payload>, body: Option<Payload>)
    requires NoSlash(c.version) && NoSlash(p.projectId)
    ensures var get := Send(c, Call(GetProject(p), query, body));
            var put := Send(c, Call(UpdateProject(p), query, body));
            var patch := Send(c, Call(PartialUpdateProject(p), query, body));
            && get.verb == GET && put.verb == PUT && patch.verb == PATCH
            && get.path == put.path == patch.path
            && get.query == query && get.body.None?
            && put.body == body && patch.body == body && put.query.None? && patch.query.None?
            && Split(get.path) == ["", c.version, "projects", TypeToProjectCode(p.projectType), p.projectId]
  {
    SendFollowsGrammar(c, Call(GetProject(p), query, body));
  }

  /**
   * The project collections: `getProjects` lists one kind at
   * "/{version}/projects/{code}" with no project id, and `createProject` and
   * `getAllProjects` use the bare "/{version}/projects".  Every project's own
   * path extends the listing of its kind by its id.
   */
  lemma ProjectCollectionPaths(c: Client, p: ProjectParams, query: Option<Payload>, body: Option<Payload>)
    requires NoSlash(c.version) && NoSlash(p.projectId)
    ensures var list := Send(c, Call(GetProjects(p.projectType), query, body));
            var create := Send(c, Call(CreateProject, query, body));
            var all := Send(c, Call(GetAllProjects, query, body));
            && list.verb == GET && all.verb == GET && create.verb == POST
            && Split(list.path) == ["", c.version, "projects", TypeToProjectCode(p.projectType)]
            && Split(create.path) == Split(all.path) == ["", c.version, "projects"]
            && Split(ProjectPath(c.version, p)) == Split(list.path) + [p.projectId]
  {
    var v := c.version;
    SendFollowsGrammar(c, Call(GetProjects(p.projectType), query, body));
    SendFollowsGrammar(c, Call(CreateProject, query, body));
    SendFollowsGrammar(c, Call(GetAllProjects, query, body));
    ProjectPathIsRoute(v, p);
    AbsoluteSplit(ProjectRoute(v, p));
  }

  /**
   * `deleteWebhook` and `deleteKey` issue DELETE to "/{version}/webhooks/{id}"
   * and "/{version}/orgs/{orgId}/keys/{prefix}", send neither query nor body
   * whatever the call carries, and return nothing.
   */
  lemma DeletionRequests(c: Client, call: Call)
    requires call.endpoint.DeleteWebhook? || call.endpoint.DeleteKey?
    requires AllSegments(Route(c.version, call.endpoint))
    ensures var r := Send(c, call);
            && r.verb == DELETE && r.query.None? && r.body.None? && !r.returnsBody
            && Split(r.path) == (if call.endpoint.DeleteWebhook?
                                 then ["", c.version, "webhooks", call.endpoint.webhookId]
                                 else ["", c.version, "orgs", call.endpoint.orgId, "keys", call.endpoint.prefix])
  {
    SendFollowsGrammar(c, call);
  }

  /** An NFT's path is its project's path followed by "nfts" and the NFT id. */
  lemma NftPathExtendsProjectPath(v: string, p: NftParams)
    requires NoSlash(v) && NftIdsAreSegments(p)
    ensures Split(NftPath(v, p)) == Split(ProjectPath(v, ProjectOf(p))) + ["nfts", p.nftId]
  {
    NftPathIsRoute(v, p);
    AbsoluteSplit(NftRoute(v, p));
    ProjectPathIsRoute(v, ProjectOf(p));
    AbsoluteSplit(ProjectRoute(v, ProjectOf(p)));
  }

  // ---------------------------------------------------------------------------
  // Worked examples
  // ---------------------------------------------------------------------------

  /** A server-side devnet client reading NFT 5 of non-transferable project p1. */
  lemma ExampleGetNft()
    ensures var c := CreateClient(Config(Some(Devnet), None, Some("KEY"), None, None));
            Send(c, Call(GetNft(NftParams("p1", ProjectType(false, false), "5")), None, None))
              == HttpRequest(GET, DevnetApiUrl, Some("Bearer KEY"), "/v2/projects/n/p1/nfts/5", None, None, true)
  {
    var p := NftParams("p1", ProjectType(false, false), "5");
    assert BaseProjectPath("v2") == "/v2/projects";
    assert ProjectPath("v2", ProjectOf(p)) == "/v2/projects/n/p1";
    assert NftPath("v2", p) == "/v2/projects/n/p1/nfts/5";
    var cfg := Config(Some(Devnet), None, Some("KEY"), None, None);
    assert HasApiKey(cfg) && BearerMode(cfg);
    assert BearerPrefix + "KEY" == "Bearer KEY";
    assert CreateClient(cfg) == Client(DevnetApiUrl, Some("Bearer KEY"), "v2");
  }

  /** A browser client creating a project through the relay route. */
  lemma ExampleCreateProject(body: Payload)
    ensures var c := CreateClient(Config(None, None, None, None, None));
            Send(c, Call(CreateProject, None, Some(body)))
              == HttpRequest(POST, ProxyBaseUrl, None, "/v2/projects", None, Some(body), true)
  {
  }

  /** A raw key on mainnet: the header is the key itself. */
  lemma ExampleRawKey()
    ensures CreateClient(Config(Some(Mainnet), None, Some("X"), Some(false), None))
              == Client(MainnetApiUrl, Some("X"), "v2")
  {
  }
}
