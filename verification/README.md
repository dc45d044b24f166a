# oidcx: from an identity token to a scoped access token

oidcx accepts a GitHub Actions identity token and a request, decides with a Cedar policy whether the
workflow run may have what it asks for, and then mints a GitHub App token or an Oxide silo token. This
project models that path and proves what it promises, in three layers.

**Sequential parts, proved against specifications.** Parsing a GitHub request, building the provider
map, validating a token, searching for an installation, building the silo clients and authorizing a
request are methods with the program's own loops. Each is proved to compute a function (`Parse`,
`ProviderMap`, `Validate`, `ClientMap`, `Ensured`), and lemmas then say what that function means.

**The endpoint as a step system** (`Exchange.dfy`). Any number of calls run concurrently over one
visibility cache behind one mutex. A step lets one call take one atomic action: acquiring the mutex, a
locked region together with its clock reading, one request to GitHub or to a silo with whatever answer
comes back, or the straight-line code between two awaits. A run is any sequence of steps, under any
schedule, any clock and any answers, and leaves a trace of events.

**Theorems about all runs.** `RunKeeps` carries one invariant through every run: every event is
justified by the events before it, every call has left exactly the log that its program point
implies, the cache is the replay of the inserts, and only a call in its locked region holds the mutex.
Every event is traced back to the action that added it, with that action's clock and answers
(`Records`). Identity (`Identity`), safety (`ExchangeSafety`), service of every call whose requests the
environment answers (`Serving`), freshness (`Freshness`), refinement of
the cached by the uncached decision (`Refinement`), agreement of the step system with the sequential
loops (`Simulation`), completion (`Progress`) and the device flow (`DeviceFlows`) follow.

One property one might expect is false of the code: a cache hit need not return what GitHub reported
last, nor a report at most an hour old, because the hour counts from the insert and a call that inserts
late replaces what was inserted meanwhile. `StaleHits` gives a run for every age; `Staleness` says
exactly when a hit is the newest report, which schedules ensure it, and what bounds its age.

The repository's README describes policies in Polar (README.md, lines 97 to 177); the code evaluates
Cedar policies against `policy.cedarschema`, and the model follows the code. The schema's entity types
and its table of actions are concrete; what the deployment's policy set decides is an arbitrary
function of principal, action and resource, so every theorem holds for every policy set, including one
that permits everything.

Three more things are parameters. The signature check and validity period of an identity token are an
arbitrary predicate of token, key and time; `Oidc.Decode` states the contract of the decoder around it
(algorithm, required claims of section 4.1 of RFC 7519, audience, issuer). The normalization of URLs is
an arbitrary partial function, applied alike to the manifest and to requests. Clock values are integers
that count nanoseconds; they may run backwards except where a theorem asks for a steady clock.

Files: `Text`, `GitHubRequest`, `GitHubRequestLaws`, `GitHubTokens` (`src/token/github.rs`); `Oidc`
(`src/oidc.rs`); `Context` (`src/context.rs`); `Cedar`, `Policy` (`policy.cedarschema`,
`src/policy.rs`); `TokenRequests`, `OxideTokens` (`src/token/oxide.rs`); `Exchange` (`src/endpoints.rs`
and every await of the files above); then `ExchangeInvariant`, `ExchangeActions`, `ExchangeSteps`,
`Records`, `Identity`, `ExchangeSafety`, `Serving`, `FetchProtocol`, `Freshness`, `Staleness`, `StaleHits`,
`Refinement`, `Simulation`, `Progress`, `DeviceFlows` for the proofs.

## Model

| member | source | states |
|---|---|---|
| Text.SplitOnceCuts | src/token/github.rs:52-53 | Splitting once fails exactly when the character is absent, and otherwise cuts at its first occurrence. |
| Text.SplitOnceUndoesJoin | src/token/github.rs:52-53 | That cut is the only one: splitting undoes joining. |
| GitHubRequest.RepositoryFormat | src/token/github.rs:52-62 | A repository string has a given namespace and name exactly when it is those two joined by its only slash. |
| GitHubRequest.PermissionFormat | src/token/github.rs:73-83 | A permission string has a given name and level exactly when it is those two joined by its first colon and the name has no slash; the level may hold anything. |
| GitHubRequest.ParseRepositories | src/token/github.rs:49-67 | The loop over the repositories finds the shared namespace and the bare names in order, or the error of the least failing index. |
| GitHubRequest.ParsePermissions | src/token/github.rs:71-84 | The loop over the permissions, testing for a repeated key after inserting, gives the level of each name or the error of the least failing index. |
| GitHubRequest.ParseRequest | src/token/github.rs:45-91 | The whole parser equals the reference definition `Parse`, with every repository error before any permission error. |
| GitHubRequestLaws.ParseAcceptsExactly | src/token/github.rs:45-91 | A request parses if and only if the repositories are non-empty, well formed and of one namespace and the permissions are well formed with pairwise distinct names. |
| GitHubRequestLaws.NoRepositoriesExactly | src/token/github.rs:65-67 | The error for a missing namespace means exactly that no repository was listed. |
| GitHubRequestLaws.RepositoryErrorsComeFirst | src/token/github.rs:51-64 | The least failing repository alone decides the error, whatever the permissions are. |
| GitHubRequestLaws.PermissionErrorsComeLast | src/token/github.rs:72-84 | When the repositories pass, the least failing permission decides the error: malformed, or the name it repeats. |
| GitHubRequestLaws.ParsedScopeIsRawScope | src/token/github.rs:26-34 | The parsed scope cannot drift from the raw one: rejoined, the repositories are the listed ones in order and the permissions the listed set, none added, dropped or merged. |
| GitHubRequestLaws.ParseUndoesPrint | src/token/github.rs:45-91 | Every well-formed parsed request, printed with its permissions in any order, parses back to itself. |
| GitHubRequestLaws.OrderIsIrrelevant | src/token/github.rs:51-84 | Permuting either list of an accepted request keeps the namespace and the permission map and permutes the names alike. |
| GitHubRequestLaws.RepeatedNameIsRejected | src/token/github.rs:69-80 | A permission name that occurs twice, at any levels, makes every request fail. |
| GitHubTokens.FindInstallation | src/token/github.rs:171-190 | For any list of account kinds: answers with status 404 never end the search; the first transport failure or other status ends it with exactly that failure; otherwise the last kind that answered wins; the App is reported missing if and only if every answer is a 404. |
| Oidc.Claims.GetStr | src/oidc.rs:142-147 | A claim is read as text exactly when it is present as a string; numbers are not converted. |
| Oidc.FindKey | src/oidc.rs:105-109 | The key found is one of the provider's with the token's key id, and none is missed. |
| Oidc.Validation.SetAudience | src/oidc.rs:117 | Setting the audience changes the audience rule and no other. |
| Oidc.Validation.SetIssuer | src/oidc.rs:118 | Setting the issuer changes the issuer rule and no other. |
| Oidc.Validation.SetRequiredSpecClaims | src/oidc.rs:123 | Setting the required claims replaces them and changes no other rule. |
| Oidc.ValidateToken | src/oidc.rs:103-133 | Validation with its mutable rule object: the first key with the header's key id decides; each error is given if and only if its check is the first to fail; a token is accepted if and only if that key is usable, declares the header's algorithm and makes the token genuine, and the payload has an expiry, exactly this audience and issuer, and only texts and integers; its claims are then the payload's, one by one. |
| Oidc.ValidatesExactly | src/oidc.rs:103-191 | The same for the reference definition, for every provider, audience and token. |
| Oidc.AcceptedTokensAreBound | src/oidc.rs:112-133 | An accepted token is genuine under a key of this provider, was signed with the very algorithm that key declares, and carries this audience, this issuer and an expiry. |
| Context.BuildProviders | src/context.rs:68-84 | The loop over the configured providers gives the map keyed by issuer, or the first error of a provider. |
| Context.ProvidersAreKeyedByIssuer | src/context.rs:76-83 | Every key is the issuer of its provider, which is the last one listed with that issuer, and every listed issuer is a key. |
| Policy.BuildWorkflowRun | src/policy.rs:44-84 | A principal is built if and only if there is a textual `jti`, which identifies it; each of the six required attributes holds the text claim of the same name, or is empty; `environment` is an attribute if and only if it is a text claim, and holds it; there are no others. |
| Policy.PrincipalsAreDescribed | src/policy.rs:44-84 | The same for the reference definition, on every claims map. |
| Policy.PrincipalsConform | src/policy.rs:44-84 | Every principal conforms to the schema, whatever the claims are. |
| Policy.ResourcesConform | src/policy.rs:177-196 | Every repository and silo entity conforms to the schema; a repository is identified by its string and carries it and its visibility, a silo is identified by its URL's text and carries it. |
| Policy.RepositoryAllows | src/policy.rs:136-175 | An action is allowed on a repository if and only if the principal is a conforming workflow run, the schema declares the action, and the policy allows it on the entity with exactly that name and visibility. |
| Policy.SiloAllows | src/policy.rs:136-175 | The same for silos, `deploy` and the entity with exactly that URL. |
| Policy.RepositoryDecision | src/policy.rs:136-175 | For a principal built from claims, an action on a repository is decided by the schema's table first and then by the policy alone, on the entity with exactly that name and visibility; the entity error cannot occur. |
| Policy.SiloDecision | src/policy.rs:136-175 | The same for silos, where only `deploy` is declared. |
| Policy.RepositoryActionsAre | policy.cedarschema:33-94 | The declared repository actions are exactly the readable names at level `read` and the writable names at level `write`. |
| Policy.DeclaredActionsParse | policy.cedarschema:33-100 | Every action declared for repositories is a permission string that parses, and none is also declared for silos. |
| Policy.AcceptsExactly | src/policy.rs:115-132 | A GitHub request is accepted if and only if neither list is empty and every pair of a listed repository and a listed permission is allowed. |
| Policy.AcceptanceDependsOnSets | src/policy.rs:115-132 | Order and repetition in either list do not change whether a request is accepted. |
| Policy.AcceptedPermissionsAreDeclared | src/policy.rs:148-155 | Under any policy set, an accepted GitHub request holds only declared repository actions, never `deploy`, and all its permissions parse. |
| Policy.Authorizer.GithubVisibility | src/policy.rs:198-223 | The check, fetch and insert protocol: what it returns and the whole cache it leaves, with other calls' inserts before the check and during the fetch. |
| Policy.Authorizer.JudgeAll | src/policy.rs:127-129 | The inner loop stops at the first denied permission and returns its error. |
| Policy.Authorizer.EnsureAllowed | src/policy.rs:105-134 | The nested loops with their early returns equal the recursive decision `Ensured`, result and cache. |
| Policy.EnsuredAgrees | src/policy.rs:105-134 | Against a fixed source of visibilities the decision, errors included, is the one taken without a cache, and the cache still holds only what the source reports. |
| Policy.EnsuredFromAccepts | src/policy.rs:123-130 | Against any source, acceptance means every permission was allowed on every entry under the one visibility obtained for it, and no entry leaves the cache. |
| OxideTokens.ValidateDuration | src/token/oxide.rs:218-236 | A duration passes if and only if the lifetime it stands for may be granted: unlimited when the instance allows that, else between one second and the maximum, so the conversion to a non-zero integer cannot fail. |
| OxideTokens.BuildClients | src/token/oxide.rs:92-114 | The rekeying loop succeeds if and only if every entry of the manifest has a credential that resolves, a key that is a URL, in any spelling, and a client for the two; otherwise the first entry visited that misses one of these gives the error of what it misses first. |
| OxideTokens.ClientsMatchManifest | src/token/oxide.rs:92-114 | The keys are exactly the canonical forms of the manifest's keys, and each client carries the credential of the last entry visited with that form. |
| OxideTokens.OrderIsIrrelevant | src/token/oxide.rs:93-114 | When spellings of one URL agree on the credential, every iteration order builds the same clients. |
| OxideTokens.OrderMattersExactly | src/token/oxide.rs:93-114 | The iteration order of the manifest matters if and only if two spellings of one URL carry different credentials. |
| ExchangeActions.ArriveLeads | src/endpoints.rs:49-88 | From arrival: a rejected identity or an empty request ends the call with no authorization logged, all others enter authorization. |
| ExchangeActions.CheckLeads | src/policy.rs:198-207 | The locked check leads to judging under the cached visibility or to a fetch, keeping the call's log. |
| ExchangeActions.StoreLeads | src/policy.rs:215-222 | The locked insert leads to judging under the visibility just fetched. |
| ExchangeActions.JudgeLeads | src/policy.rs:123-130 | One judgement leads to the next permission, the next entry, minting, or a refusal that names exactly where it happened. |
| ExchangeActions.ReadLeads | src/token/github.rs:225-232 | Reading a visibility ends in a value GitHub reported for this repository or in a refusal naming it. |
| ExchangeActions.BeginLeads | src/token/github.rs:142-166 | The start of `get`, for a probe or for the caller, leads to the search with the parsed request or to one of its errors. |
| ExchangeActions.SearchingLeads | src/token/github.rs:171-190 | Each round of the search leads on with the installation GitHub named for this namespace, or fails. |
| ExchangeActions.RequestingLeads | src/token/github.rs:192-209 | The token request ends a mint with the token GitHub returned, or a probe with the token it reads with. |
| ExchangeActions.DeployLeads | src/policy.rs:111-114 | The silo decision leads to the device flow or to a refusal. |
| ExchangeActions.DeviceLeads | src/token/oxide.rs:125-208 | Each of the three requests leads to the next with the codes it received, or to an error after authorization. |
| ExchangeSteps.ActFollows | src/endpoints.rs:82-107 | Every event an action adds is justified by the events before it. |
| ExchangeSteps.StepKeeps | src/endpoints.rs:40-108 | Every step of any call, under any clock and answer, keeps the invariant for all calls. |
| ExchangeSteps.RunKeeps | src/endpoints.rs:40-108 | The invariant holds after every run. |
| ExchangeSafety.EveryTokenRequestIsAuthorized | src/endpoints.rs:82-107 | In every run, each access token ever requested is requested for a caller authenticated before, and is a probe for the metadata of exactly one of the call's repositories, after every permission was allowed on all entries before it, or a mint whose scope is exactly the call's request and whose every pair was allowed to that call before. |
| ExchangeSafety.InstallationMatchesNamespace | src/token/github.rs:168-203 | Every token is requested from an installation GitHub named, to this call and for this purpose, for the request's namespace: the last account kind that answered. |
| ExchangeSafety.ReturnedTokensWereMinted | src/endpoints.rs:99-106 | A GitHub token returned to a caller is the answer to its own mint with its own scope, never a probe's token. |
| ExchangeSafety.OnlyConflictsRemainAfterAuthorization | src/policy.rs:209-213 | After authorization `get` cannot fail for credentials, a missing list or a malformed string. It reports different owners if and only if two repositories have different namespaces, and a repeated permission if and only if they do not and some name is listed twice; every other error is that signing failed, that both kinds of account answered 404, or the failure GitHub gave to one of the mint's requests. |
| Serving.RunMints | src/token/github.rs:142-209 | In every reachable state each call has done exactly so much of its mint as its program point says: nothing before authorization has ended; then one signature, one look-up for each account kind and one token request. |
| Serving.AuthorizedRequestsAreServed | src/endpoints.rs:99-106 | An authorized request without conflicts that has returned returns a token if and only if signing succeeded, no look-up failed other than by a 404, at least one account kind knew the App, and the token request was granted; the token is the one GitHub posted for that mint. |
| Serving.OneMintPerCall | src/endpoints.rs:99-106 | A call requests at most one token for its caller. |
| Serving.MintsFollowAuthorization | src/endpoints.rs:82-107 | Nothing of a mint happens before the call's authorization has ended, and nothing at all for a call that was turned away, was refused or asked for a silo. |
| ExchangeSafety.SiloErrorsAreExact | src/token/oxide.rs:125-206 | Once a silo is allowed, each configuration error occurs if and only if its check is the first to fail; a request that passes them all fails only with the error of a request that the silo failed. |
| Serving.AllowedSilosAreServed | src/token/oxide.rs:125-208 | An allowed request that passes the checks and has returned returns a token if and only if the silo failed none of its requests; the token is one the silo granted to it. |
| ExchangeSafety.AuthorizationLog | src/policy.rs:120-131 | A call past authorization judged all n times m pairs, n and m positive, entry by entry under one visibility each; a refused call judged exactly the pairs before the refusing one and asked for no later visibility. |
| Records.EventComesFromAction | src/endpoints.rs:40-108 | Every event of a run was added by one action of its own call, standing where that action happens, and carries the clock that action read and the answer it was given, failed visibility reads included. |
| Records.IdentityIsDecidedFirst | src/endpoints.rs:49-80 | What a call's identity comes to is decided by its very first action, at the clock of that action. |
| Identity.AuthenticationComesFirst | src/endpoints.rs:66-88 | Whatever a call does, other than being turned away, it does after its token authenticated at the clock of its own first action; whatever is allowed is allowed to that principal. |
| Identity.IdentityIsRouted | src/endpoints.rs:49-80 | The issuer read before verification, the verified issuer, the issuer of the provider used (the last listed with it) and the principal's `iss` attribute are one string, the audience is this server's, and the signature was good at the clock of the check. |
| Identity.AuthenticatesExactly | src/endpoints.rs:49-80 | A token authenticates at a clock if and only if the first key with its key id, of the last provider listed with its issuer, is usable and makes it acceptable, and it has a textual `jti`; the principal is the one its payload describes; otherwise the error names the first check that failed. |
| Identity.PrincipalsDescribeTokens | src/endpoints.rs:66-88 | In every run, whatever is allowed to a call is allowed to the principal that the call's own token describes, attribute by attribute. |
| Identity.IdentityErrorsAreExact | src/endpoints.rs:49-80 | A call turned away for its identity names the first check that failed at the clock of its first action: no readable issuer, no provider listed with it, no key of that provider that makes the token acceptable then, or no textual `jti`; each if and only if. |
| Identity.AllowedPrincipalsAreRouted | src/endpoints.rs:66-88 | In every run, whatever is allowed is allowed to a principal routed like that from the call's own token, valid at the clock of the call's first action. |
| ExchangeSafety.MutexIsNeverHeldAcrossRequests | src/policy.rs:199-221 | In every reachable state, a call holds the mutex exactly when it is inside one of the two locked regions. |
| Freshness.RunInOrder | src/policy.rs:201-221 | Under a steady clock, the clock readings in the trace never decrease. |
| Freshness.CacheHoldsLastStores | src/policy.rs:215-221 | The cache holds exactly the repositories ever stored, each with the visibility and expiry of its last store. |
| Freshness.HitsAreFresh | src/policy.rs:200-207 | Under a steady clock, every hit returns the visibility last stored for this very string, at most 3600 seconds earlier, after GitHub reported it to the call that stored it. |
| Freshness.MissesAreNecessary | src/policy.rs:202-213 | Under a steady clock, a call fetches only when every store for the string is more than 3600 seconds old. |
| Freshness.CacheOnlyImproves | src/policy.rs:215-221 | Under a steady clock, entries are never removed and no entry's expiry ever decreases, whatever the interleaving. |
| FetchProtocol.RunFetches | src/policy.rs:198-222 | In every reachable state each call's latest step of the check, fetch and insert protocol is the one its program point says: a miss, or GitHub's report. |
| Staleness.FetchesAreOrdered | src/policy.rs:198-222 | Every report answers a miss of the same call for the same repository, and every insert stores the inserting call's latest report. |
| Staleness.ReportAgeIsBounded | src/policy.rs:198-222 | Under a steady clock, the report a hit returns is older than an hour by at most the time between that report and its insert. |
| Staleness.HitsAreNewestExactly | src/policy.rs:209-221 | Under a steady clock, a hit returns the newest report for its repository if and only if no other call was told of that repository between that report and the hit. |
| Staleness.SerialHitsAreNewest | src/policy.rs:209-221 | When, up to a hit, no call began to fetch its repository while another one was fetching it, the hit returns the newest report. |
| StaleHits.HitsCanBeArbitrarilyStale | src/policy.rs:209-221 | Freshness does not count from the report: for every age some run of a server that rejects expired tokens, under a steady clock, hits a report older than that although another call was told otherwise since and had inserted it. |
| Refinement.PrincipalIsUnique | src/endpoints.rs:67-80 | A token determines its principal, whenever it is presented. |
| Refinement.CachedDecisionsAreUncached | src/policy.rs:105-134 | When GitHub's answers come from a fixed source, errors included, every judged call of every run gets exactly the decision of a server without a cache. |
| Simulation.RunRecounts | src/policy.rs:198-222 | In every reachable state, the queries of each call stand in the trace in list order, each answered by a hit or by the insert after its miss. |
| Simulation.LoopsSimulateCalls | src/policy.rs:105-134 | Every judged GitHub call of every run gets the decision that the sequential loops compute for its principal, in the rounds its own queries met: the shared cache, the clock and GitHub's answer at each. |
| Progress.ActsGetCloser | src/endpoints.rs:40-108 | Every action of a call that has not returned strictly lowers the measure of repositories, permissions and program points left. |
| Progress.NeverStuck | src/policy.rs:199-221 | In every reachable state with an unfinished call some call can act. |
| Progress.RunsAreBounded | src/endpoints.rs:40-108 | No run, under any schedule, takes more actions than the measure of its calls at the start. |
| Progress.EveryRunCompletes | src/endpoints.rs:40-108 | Every run can be continued until all calls have returned, within the measure, whatever clock and answers the environment gives. |
| DeviceFlows.OneIssuePerCall | src/token/oxide.rs:144-175 | No call is ever issued codes twice, and none before it asks. |
| DeviceFlows.GrantsEndFlows | src/token/oxide.rs:144-207 | Whatever codes silos issue, every token granted ends one call's own flow: the policy allowed the silo, codes were issued there for exactly the requested lifetime, the paired user code was confirmed, the device code redeemed, in that order and with one client, that of the silo asked for. |
| DeviceFlows.RequestsUseOwnClient | src/token/oxide.rs:136-200 | Every request to a silo, answered or failed, goes out with the client of the silo that the call asked for. |
| DeviceFlows.CodesAreNotShared | src/token/oxide.rs:136-200 | Given a silo that issues fresh codes, concurrent calls sharing a client never receive or redeem the same device code. |
| DeviceFlows.ReturnedTokensWereConfirmed | src/token/oxide.rs:125-208 | Whatever codes silos issue, every silo token returned to a caller ends such a flow of that very call, at a configured silo and with a lifetime the instance may grant; given fresh codes, the code was no other call's. |
| DeviceFlows.GrantingSilosAreConfigured | src/token/oxide.rs:93-142 | Every request to a silo goes to the canonical form of a manifest entry and carries that entry's credential. |

## Left out

- GitHubRequest.ParseRequest: the source's one function with two loops is two methods called in order, one for each loop.
- Policy.Authorizer.GithubVisibility: other calls' inserts are given as maps added before the check and during the fetch; the true interleaving of locked regions is in `Exchange`.
- Policy.Authorizer.EnsureAllowed: takes those inserts, the clock and GitHub's answers as a parameter, for the same reason.
- OxideTokens.BuildClients: the iteration order of the hash map is a parameter, and whether a client can be made from a host and token is an arbitrary predicate.
- DeviceFlows.CodesAreNotShared: assumes that a silo never issues a device code or user code twice, which the service cannot check; the flows themselves do not depend on it.
- Freshness.HitsAreFresh: assumes a clock that does not run backwards, since the service reads the wall clock.
- Oidc.ValidateToken: signatures, key decoding and validity periods are an arbitrary predicate; a key that cannot be decoded is a flag on the key.
- HTTP clients, JSON and byte streams: a request is modelled by its outcome, which is a value, a transport failure or a status.
- The assertion that authenticates the App to GitHub (src/token/github.rs:149-166): only whether signing succeeds.
- Cedar's parser and evaluator, policy diagnostics and their logging: evaluation is an arbitrary function behind the schema.
- URL parsing and normalization: an uninterpreted partial function; a request's URL is its canonical text.
- Mutex poisoning, panics and cancelled calls: the lock is never poisoned and a call is never dropped half-way.
- The read lock on each provider: providers do not change after start-up, so reading one is part of arrival.
- Overflow of the expiry date: dates are unbounded integers.
- Settings, parameter resolution, server start-up, logging, JSON schemas and which errors are shown to callers (`safe_to_expose`): no property beyond reading one match.
