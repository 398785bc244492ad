# Underdog Protocol client: request construction

A model of `createUnderdogClient`, the factory of the Underdog Protocol
JavaScript SDK. The factory takes a configuration (network, base URL, API
key, bearer flag, API version) and resolves it once into a base URL, an
optional `Authorization` header and a version. It then exposes forty
endpoint functions. Each one makes exactly one HTTP call, and the verb and
path of that call are fixed by the endpoint and its routing parameters.

The model is pure, like the source:

- `wrappers.dfy`: `Option`, which stands for JavaScript's `undefined`.
- `paths.dfy` (module `Paths`): URL paths as segments. `Split` and `Join` are
  proved inverse to each other, so a path can be read back segment by segment.
- `client.dfy` (module `UnderdogClient`): the configuration and its
  resolution (`ResolveBaseUrl`, `AuthorizationHeader`, `CreateClient`), the
  path builders (`TypeToProjectCode`, `ProjectPath`, `NftPath`,
  `NonTransferableNftPath`) and `Send`. `Send` maps a `Call` (an endpoint
  with its `params`, plus the request's `query` and `body`) to the
  `HttpRequest` the endpoint would issue: verb, base URL, header, path,
  query, body, and whether the endpoint returns the response body.
- `properties.dfy` (module `ClientProperties`): reference definitions and the
  lemmas. `Route` gives each endpoint's path as a list of segments (the REST
  grammar). `OperationOf` and `VerbOf` give the verb convention (get is GET,
  create and batch are POST, update is PUT, partialUpdate is PATCH, delete is
  DELETE, burn and revoke are POST). The lemmas prove that every endpoint
  follows both.

JavaScript truthiness is modelled explicitly. An empty `baseUrl` or
`apiKey` counts as absent, exactly like `undefined`: an empty key yields
proxy mode and no header. `bearer` and `version` take their defaults
(`true`, `"v2"`) only when undefined.

## Model

| member | source | states |
|---|---|---|
| UnderdogClient.ResolveBaseUrl | src/lib/client.ts:61-63 | the base URL is never empty; a non-empty explicit `baseUrl` is the result; otherwise the relay path `/api/underdog` is chosen exactly when there is no key, and with a key the mainnet URL is chosen exactly when the network is Mainnet and the devnet URL for any other or no network |
| UnderdogClient.AuthorizationHeader | src/lib/client.ts:67-69 | a header is set exactly when a non-empty key is configured, and it is never empty |
| UnderdogClient.CreateClient | src/lib/client.ts:60-70 | the resolved client has a non-empty base URL and a header exactly when it has a key; without an explicit base URL it is in exactly one of server mode (header) and proxy mode (relay path); the version is the configured one, or "v2" when none is given |
| UnderdogClient.TypeToProjectCode | src/lib/client.ts:73 | the code is one of "c", "t", "n"; "c" exactly when compressed (whatever `transferable` is), "t" exactly when not compressed and transferable, "n" exactly when neither |
| UnderdogClient.Send | src/lib/client.ts:78-274 | every request uses the client's one base URL and header; a query is sent only with GET, a body only with POST, PUT or PATCH, and both are the caller's, unmodified; a request returns nothing exactly when it is a DELETE |
| ClientProperties.ExplicitBaseUrlWins | src/lib/client.ts:61-63 | two configurations with the same non-empty `baseUrl` resolve to that base URL, whatever their key, network, bearer flag or version |
| ClientProperties.AuthorizationRoundTrip | src/lib/client.ts:67-69 | the key read back from the header in the configured mode is the configured key; in bearer mode the header starts with "Bearer ", in raw mode it is the key itself |
| ClientProperties.AuthorizationInjective | src/lib/client.ts:67-69 | in one mode, two configurations give the same header exactly when they have the same key |
| ClientProperties.ProxyModeRequests | src/lib/client.ts:61-70 | with neither base URL nor key, every request goes to `/api/underdog` with no `Authorization` header |
| ClientProperties.Route | src/lib/client.ts:72-274 | the reference grammar: each endpoint's segments, which start with the version and have at least two entries |
| ClientProperties.ProjectPathIsRoute | src/lib/client.ts:72-74 | `projectPath` is the absolute path of `{version}/projects/{code}/{projectId}` |
| ClientProperties.NftPathIsRoute | src/lib/client.ts:75 | `nftPath` is the absolute path of the project's segments followed by `nfts/{nftId}` |
| ClientProperties.NonTransferableNftPathIsRoute | src/lib/client.ts:76 | `nonTransferableNftPath` is the absolute path of `{version}/projects/n/{projectId}/nfts/{nftId}`, whatever the project type |
| ClientProperties.BurnNftPathIsRoute | src/lib/client.ts:78-81 | `burnNft` goes to the absolute path `/{version}/projects/n/{projectId}/nfts/{nftId}/burn` of its route |
| ClientProperties.CreateNftPathIsRoute | src/lib/client.ts:83-86 | `createNft` goes to the absolute path `/{version}/projects/{code}/{projectId}/nfts` of its route |
| ClientProperties.BatchNftPathIsRoute | src/lib/client.ts:88-91 | `batchNft` goes to the absolute path `/{version}/projects/{code}/{projectId}/nfts/batch` of its route |
| ClientProperties.CreateSftPathIsRoute | src/lib/client.ts:93-96 | `createSft` goes to the absolute path `/{version}/projects/{code}/{projectId}/sfts` of its route |
| ClientProperties.BatchSftPathIsRoute | src/lib/client.ts:98-101 | `batchSft` goes to the absolute path `/{version}/projects/{code}/{projectId}/sfts/batch` of its route |
| ClientProperties.CreateProjectPathIsRoute | src/lib/client.ts:103-106 | `createProject` goes to the absolute path `/{version}/projects` of its route |
| ClientProperties.GetAllProjectsPathIsRoute | src/lib/client.ts:108-111 | `getAllProjects` goes to the absolute path `/{version}/projects` of its route |
| ClientProperties.GetCollectionPathIsRoute | src/lib/client.ts:113-116 | `getCollection` goes to the absolute path `/{version}/collections/{mintAddress}` of its route |
| ClientProperties.GetNftClaimLinkPathIsRoute | src/lib/client.ts:118-121 | `getNftClaimLink` goes to the absolute path `/{version}/projects/n/{projectId}/nfts/{nftId}/claim` of its route |
| ClientProperties.GetNftPathIsRoute | src/lib/client.ts:123-126 | `getNft` goes to the absolute path `/{version}/projects/{code}/{projectId}/nfts/{nftId}` of its route |
| ClientProperties.GetNftByMintAddressPathIsRoute | src/lib/client.ts:128-131 | `getNftByMintAddress` goes to the absolute path `/{version}/nfts/{mintAddress}` of its route |
| ClientProperties.GetNftsPathIsRoute | src/lib/client.ts:133-136 | `getNfts` goes to the absolute path `/{version}/projects/{code}/{projectId}/nfts` of its route |
| ClientProperties.GetProjectPathIsRoute | src/lib/client.ts:138-141 | `getProject` goes to the absolute path `/{version}/projects/{code}/{projectId}` of its route |
| ClientProperties.GetProjectStatsPathIsRoute | src/lib/client.ts:143-146 | `getProjectStats` goes to the absolute path `/{version}/projects/{code}/{projectId}/stats` of its route |
| ClientProperties.GetProjectsPathIsRoute | src/lib/client.ts:148-151 | `getProjects` goes to the absolute path `/{version}/projects/{code}` of its route |
| ClientProperties.PartialUpdateNftPathIsRoute | src/lib/client.ts:153-156 | `partialUpdateNft` goes to the absolute path `/{version}/projects/{code}/{projectId}/nfts/{nftId}` of its route |
| ClientProperties.PartialUpdateProjectPathIsRoute | src/lib/client.ts:158-161 | `partialUpdateProject` goes to the absolute path `/{version}/projects/{code}/{projectId}` of its route |
| ClientProperties.RevokeNftPathIsRoute | src/lib/client.ts:163-166 | `revokeNft` goes to the absolute path `/{version}/projects/n/{projectId}/nfts/{nftId}/revoke` of its route |
| ClientProperties.SearchNftsPathIsRoute | src/lib/client.ts:168-171 | `searchNfts` goes to the absolute path `/{version}/projects/{code}/{projectId}/nfts/search` of its route |
| ClientProperties.UpdateNftPathIsRoute | src/lib/client.ts:173-176 | `updateNft` goes to the absolute path `/{version}/projects/{code}/{projectId}/nfts/{nftId}` of its route |
| ClientProperties.UpdateProjectNamePathIsRoute | src/lib/client.ts:178-181 | `updateProjectName` goes to the absolute path `/{version}/projects/{code}/{projectId}/name` of its route |
| ClientProperties.UpdateProjectPathIsRoute | src/lib/client.ts:183-186 | `updateProject` goes to the absolute path `/{version}/projects/{code}/{projectId}` of its route |
| ClientProperties.UpdateProjectSymbolPathIsRoute | src/lib/client.ts:188-191 | `updateProjectSymbol` goes to the absolute path `/{version}/projects/{code}/{projectId}/symbol` of its route |
| ClientProperties.GetTransactionsPathIsRoute | src/lib/client.ts:193-196 | `getTransactions` goes to the absolute path `/{version}/transactions` of its route |
| ClientProperties.GetTransactionPathIsRoute | src/lib/client.ts:198-201 | `getTransaction` goes to the absolute path `/{version}/transactions/{transactionId}` of its route |
| ClientProperties.GetRequestPathIsRoute | src/lib/client.ts:203-206 | `getRequest` goes to the absolute path `/{version}/requests/{requestId}` of its route |
| ClientProperties.GetRequestsPathIsRoute | src/lib/client.ts:208-211 | `getRequests` goes to the absolute path `/{version}/requests` of its route |
| ClientProperties.GetOrgsPathIsRoute | src/lib/client.ts:213-216 | `getOrgs` goes to the absolute path `/{version}/orgs` of its route |
| ClientProperties.GetOrgPathIsRoute | src/lib/client.ts:218-221 | `getOrg` goes to the absolute path `/{version}/orgs/{orgId}` of its route |
| ClientProperties.UpdateOrgPathIsRoute | src/lib/client.ts:223-226 | `updateOrg` goes to the absolute path `/{version}/orgs/{orgId}` of its route |
| ClientProperties.GetMembersPathIsRoute | src/lib/client.ts:228-231 | `getMembers` goes to the absolute path `/{version}/orgs/{orgId}/members` of its route |
| ClientProperties.CreateMemberPathIsRoute | src/lib/client.ts:233-236 | `createMember` goes to the absolute path `/{version}/orgs/{orgId}/members` of its route |
| ClientProperties.CreateWebhookPathIsRoute | src/lib/client.ts:238-241 | `createWebhook` goes to the absolute path `/{version}/webhooks` of its route |
| ClientProperties.GetWebhooksPathIsRoute | src/lib/client.ts:243-246 | `getWebhooks` goes to the absolute path `/{version}/webhooks` of its route |
| ClientProperties.GetWebhookPathIsRoute | src/lib/client.ts:248-251 | `getWebhook` goes to the absolute path `/{version}/webhooks/{webhookId}` of its route |
| ClientProperties.DeleteWebhookPathIsRoute | src/lib/client.ts:253-255 | `deleteWebhook` goes to the absolute path `/{version}/webhooks/{webhookId}` of its route |
| ClientProperties.CreateKeyPathIsRoute | src/lib/client.ts:257-260 | `createKey` goes to the absolute path `/{version}/orgs/{orgId}/keys` of its route |
| ClientProperties.GetKeysPathIsRoute | src/lib/client.ts:262-265 | `getKeys` goes to the absolute path `/{version}/orgs/{orgId}/keys` of its route |
| ClientProperties.UpdateKeyPathIsRoute | src/lib/client.ts:267-270 | `updateKey` goes to the absolute path `/{version}/orgs/{orgId}/keys/{prefix}` of its route |
| ClientProperties.DeleteKeyPathIsRoute | src/lib/client.ts:272-274 | `deleteKey` goes to the absolute path `/{version}/orgs/{orgId}/keys/{prefix}` of its route |
| ClientProperties.SendPathIsRoute | src/lib/client.ts:78-274 | every endpoint's path is the absolute path of its route |
| ClientProperties.SendFollowsGrammar | src/lib/client.ts:72-274 | when the version and ids contain no '/', cutting any endpoint's path at its slashes gives exactly "" followed by the endpoint's route |
| ClientProperties.SendPathUnderVersion | src/lib/client.ts:72 | every path the client builds starts with "/" + version + "/" |
| ClientProperties.SendVerbFollowsName | src/lib/client.ts:78-274 | every endpoint uses the verb its name calls for |
| ClientProperties.SendForwardsPayload | src/lib/client.ts:78-274 | the caller's query goes out, unmodified, exactly for the listings and searches (`getAllProjects`, `getNfts`, `getProject`, `getProjects`, `searchNfts`, `getTransactions`, `getRequests`, `getOrgs`, `getMembers`, `getWebhooks`, `getKeys`); the caller's body goes out exactly for the POST, PUT and PATCH endpoints other than `burnNft`, `revokeNft` and `createKey`; every other call sends neither |
| ClientProperties.OnlyDeletionsReturnNothing | src/lib/client.ts:253-274 | an endpoint returns nothing exactly when it is `deleteWebhook` or `deleteKey` |
| ClientProperties.ActionPathSegments | src/lib/client.ts:76-166 | the burn, revoke and claim-link paths are the NFT's segments under project kind "n", followed by "burn", "revoke" or "claim" |
| ClientProperties.ActionPathIgnoresType | src/lib/client.ts:76-166 | for any ids, two calls of the same one of burn, revoke and claim link with the same project and NFT ids go to the same path, whatever project type each gave |
| ClientProperties.NonTransferablePathsIgnoreType | src/lib/client.ts:76-166 | two calls of the same one of burn, revoke and claim link go to the same path exactly when they name the same project and NFT, whatever project type each gave |
| ClientProperties.NftVariantsShareResource | src/lib/client.ts:123-176 | `getNft`, `updateNft` and `partialUpdateNft` use GET, PUT and PATCH on one path, the NFT path; the two writes send the body; the path's segments are the project path's followed by "nfts" and the NFT id |
| ClientProperties.ProjectVariantsShareResource | src/lib/client.ts:138-186 | `getProject`, `updateProject` and `partialUpdateProject` use GET, PUT and PATCH on one path with segments "", version, "projects", code, projectId; the read sends the query, the writes the body |
| ClientProperties.ProjectCollectionPaths | src/lib/client.ts:103-151 | `getProjects` lists `/{version}/projects/{code}` with no project id; `createProject` (POST) and `getAllProjects` (GET) use the bare `/{version}/projects`; a project's path is its kind's listing path plus its id |
| ClientProperties.DeletionRequests | src/lib/client.ts:253-274 | `deleteWebhook` and `deleteKey` issue DELETE with neither query nor body, whatever the call carries, return nothing, and go to `/{version}/webhooks/{webhookId}` and `/{version}/orgs/{orgId}/keys/{prefix}` |
| ClientProperties.NftPathExtendsProjectPath | src/lib/client.ts:74-75 | an NFT path's segments are its project path's followed by "nfts" and the NFT id |
| ClientProperties.ExampleGetNft | src/lib/client.ts:123-126 | a devnet client with key "KEY" sends `getNft` for NFT 5 of non-transferable project p1 as GET `/v2/projects/n/p1/nfts/5` to the devnet URL with header "Bearer KEY" |
| ClientProperties.ExampleCreateProject | src/lib/client.ts:103-106 | a keyless client sends `createProject` as POST `/v2/projects` with the caller's body to `/api/underdog` with no header |
| ClientProperties.ExampleRawKey | src/lib/client.ts:60-70 | a mainnet client with raw key "X" resolves to the mainnet URL, header "X" and version "v2" |

## Left out

- The React Query hooks (`src/react/hooks/index.ts`): caching, refetching and interval polling belong to the query library and a timer. The hooks have no logic of their own beyond calling the client.
- The Next.js relay (`src/react/next/index.ts`): it joins the URL with Node's `path.join` and `URLSearchParams`, then relays an axios call. That is foreign library behaviour and network I/O.
- The React context provider (`src/react/contexts/underdog.tsx`): it only wraps the query client provider.
- The axios instance and the HTTP exchange itself: how axios joins the base URL with the path, query-string encoding, response bodies, errors and `async` behaviour. A request is a descriptor, and `returnsBody` says whether the endpoint hands the response body to its caller.
- The values of `MAINNET_API_URL` and `DEVNET_API_URL` come from the types package, which is not part of this model. Stand-in strings are used. The proofs rely only on these being non-empty, different from each other and different from `/api/underdog`.
- Ids are modelled as the text they are interpolated as. A numeric id appears in a path as its decimal digits, and that rendering is not modelled.
- A missing `params.type` makes `typeToProjectCode` (src/lib/client.ts:73) throw a `TypeError` when it reads `type.compressed`. The model gives every project a type, so this error path is not modelled.
- `version` is typed as the literal `"v2"` in the source. The model accepts any string; the grammar lemmas need only that it contains no '/'.
- `batchNft` and `batchSft` are declared to return `Promise<void>`, but they return the response body like every other non-delete endpoint. The model follows the code (`returnsBody` is true).
- Later revisions of the client drop the project-kind segment, so that `getNft` goes to `/v2/projects/p1/nfts/5`. This code puts the one-letter kind after `projects` (`/v2/projects/n/p1/nfts/5`), and the model follows this code.
- An earlier revision's base URL expression lacks the parentheses around the key test. This code parenthesises it, and the model follows this code.
- The grammar lemmas (`SendFollowsGrammar`, `ActionPathSegments` and the converse half of `NonTransferablePathsIgnoreType`) need the version and ids to contain no '/'. `ActionPathIgnoresType` holds for any ids. An id with a slash adds path segments, and then two endpoints can share a path.
