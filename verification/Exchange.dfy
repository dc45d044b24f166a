/**
 * The exchange endpoint (`src/endpoints.rs`) as a step system.
 *
 * Any number of calls run concurrently over one visibility cache behind one mutex. A step lets one
 * call take its next atomic action: a locked region, a request whose answer the environment picks,
 * or a piece of straight-line code between two awaits. A run is any sequence of such choices, each
 * with any clock value and any answers, and leaves a trace of what happened.
 */
module Exchange {

  import opened Wrappers
  import opened Cedar
  import opened Context
  import opened GitHubRequest
  import opened GitHubTokens
  import opened Oidc
  import opened Policy
  import opened TokenRequests
  import OxideTokens

  /***** The server and its callers *****/

  /** What is fixed once the server is up. Policy and endpoint share one set of App credentials. */
  datatype Server = Server(
    audience: string,
    providers: seq<ResolvedOidcConfig>,
    genuine: int -> Genuine,
    evaluate: Evaluation,
    credentials: bool,
    oxide: Option<OxideTokens.State>)

  /** The body of one request to the endpoint. */
  datatype Call = Call(token: Jwt, request: TokenRequest)

  datatype ExchangeError =
    | BadToken
    | UnsupportedIssuer
    | Unverified
    | BadPrincipal(principalError: PolicyError)
    | Refused(policyError: PolicyError)
    | OxideFailure(oxideError: OxideTokens.OxideError)
    | GitHubFailure(githubError: GitHubTokenError)

  /** The part of the endpoint before authorization: who is calling? */
  function Authenticate(server: Server, token: Jwt, now: int): Result<Entity, ExchangeError> {
    match InsecureIssuer(token)
    case None => Failure(BadToken)
    case Some(issuer) =>
      if issuer !in ProviderMap(server.providers) then Failure(UnsupportedIssuer)
      else
        match Validate(ProviderMap(server.providers)[issuer], server.audience, token, server.genuine(now))
        case Failure(_) => Failure(Unverified)
        case Success(claims) =>
          match WorkflowRunEntity(claims)
          case Failure(e) => Failure(BadPrincipal(e))
          case Success(who) => Success(who)
  }

  /***** Program points *****/

  /** Why an access token is requested: to read the visibility of repository `i`, or for the caller. */
  datatype Purpose = Probe(i: nat) | Mint

  datatype Phase =
    | Begin
    | Searching(parsed: ParsedGitHubRequest, kind: nat, found: Option<nat>)
    | Requesting(parsed: ParsedGitHubRequest, installation: nat)

  datatype Pc =
    | Arrived
    | AwaitCheck(who: Entity, i: nat)
    | HoldCheck(who: Entity, i: nat)
    | Getting(who: Entity, purpose: Purpose, phase: Phase)
    | Reading(who: Entity, i: nat, token: string)
    | AwaitStore(who: Entity, i: nat, visibility: string)
    | HoldStore(who: Entity, i: nat, visibility: string)
    | Judging(who: Entity, i: nat, visibility: string, j: nat)
    | Deploying(who: Entity)
    | Preparing(who: Entity)
    | Authorizing(who: Entity, client: OxideTokens.Client)
    | Confirming(who: Entity, client: OxideTokens.Client, deviceCode: string, userCode: string)
    | Redeeming(who: Entity, client: OxideTokens.Client, deviceCode: string, userCode: string)
    | Returned(outcome: Result<string, ExchangeError>)

  /** A call in progress. `seen` records the visibility obtained for each repository entry so far. */
  datatype Task = Task(call: Call, seen: seq<string>, pc: Pc)

  const KINDS := ["orgs", "users"]

  predicate PhaseOk(phase: Phase) {
    phase.Searching? ==> phase.kind < |KINDS|
  }

  /** The request is for GitHub, passed the check for empty lists and has a repository `i`. */
  predicate AtRepository(request: TokenRequest, i: nat) {
    request.GitHub? && i < |request.github.repositories| && request.github.permissions != []
  }

  predicate PcOk(request: TokenRequest, pc: Pc) {
    match pc
    case Arrived => true
    case Returned(_) => true
    case AwaitCheck(_, i) => AtRepository(request, i)
    case HoldCheck(_, i) => AtRepository(request, i)
    case Getting(_, Probe(i), phase) => AtRepository(request, i) && PhaseOk(phase)
    case Getting(_, Mint, phase) => AtRepository(request, 0) && PhaseOk(phase)
    case Reading(_, i, _) => AtRepository(request, i)
    case AwaitStore(_, i, _) => AtRepository(request, i)
    case HoldStore(_, i, _) => AtRepository(request, i)
    case Judging(_, i, _, j) => AtRepository(request, i) && j < |request.github.permissions|
    case _ => request.Oxide?
  }

  /***** What happens *****/

  datatype Event =
    | Authenticated(call: nat, who: Entity, at: int)
    | TurnedAway(call: nat, error: ExchangeError, at: int)
    | Hit(call: nat, repository: string, visibility: string, at: int)
    | Miss(call: nat, repository: string, at: int)
    | Probed(call: nat, repository: string, answer: Result<string, GitHubTokenError>, at: int)
    | Stored(call: nat, repository: string, visibility: string, at: int)
    | Allowed(call: nat, who: Entity, repository: string, visibility: string, permission: string)
    | Signed(call: nat, purpose: Purpose, succeeded: bool)
    | Looked(call: nat, purpose: Purpose, kind: string, namespace: string, installations: Result<nat, HttpFailure>)
    | Posted(call: nat, purpose: Purpose, namespace: string, installation: nat,
             names: seq<string>, permissions: map<string, string>, reply: Result<string, HttpFailure>)
    | DeployAllowed(call: nat, who: Entity, silo: Url)
    | SiloFailed(call: nat, client: OxideTokens.Client, request: OxideTokens.SiloRequest,
                 failure: OxideTokens.ServiceFailure)
    | Issued(call: nat, client: OxideTokens.Client, ttl: Option<OxideTokens.NonZeroU32>,
             deviceCode: string, userCode: string)
    | Confirmed(call: nat, client: OxideTokens.Client, userCode: string)
    | Granted(call: nat, client: OxideTokens.Client, deviceCode: string, token: string)

  /** What the environment would answer to whichever request the chosen call makes. */
  datatype Answer = Answer(
    signed: bool,
    installation: Result<nat, HttpFailure>,
    accessToken: Result<string, HttpFailure>,
    visibility: Result<string, HttpFailure>,
    device: Result<(string, string), OxideTokens.ServiceFailure>,
    confirmation: Result<(), OxideTokens.ServiceFailure>,
    grant: Result<string, OxideTokens.ServiceFailure>)

  /** The effect of one action: the new program point, history, cache and the events it adds. */
  datatype Effect = Effect(pc: Pc, seen: seq<string>, cache: Cache, events: seq<Event>)

  /***** The actions *****/

  const PROBE_PERMISSION := "metadata:read"

  predicate PurposeOk(github: GitHubTokenRequest, purpose: Purpose) {
    purpose.Probe? ==> purpose.i < |github.repositories|
  }

  /** The request handed to `get`: the caller's own, or the one made to read a visibility. */
  function RequestFor(github: GitHubTokenRequest, purpose: Purpose): GitHubTokenRequest
    requires PurposeOk(github, purpose)
  {
    match purpose
    case Probe(i) => GitHubTokenRequest([github.repositories[i]], [PROBE_PERMISSION])
    case Mint => github
  }

  /** Where an authenticated call goes first. */
  function Enter(request: TokenRequest, who: Entity): (pc: Pc)
    ensures PcOk(request, pc)
  {
    match request
    case Oxide(_) => Deploying(who)
    case GitHub(github) =>
      if github.repositories == [] || github.permissions == [] then Returned(Failure(Refused(EmptyRequest)))
      else AwaitCheck(who, 0)
  }

  function Arrive(server: Server, id: nat, task: Task, cache: Cache, now: int): (effect: Effect)
    ensures PcOk(task.call.request, effect.pc)
  {
    match Authenticate(server, task.call.token, now)
    case Failure(e) => Effect(Returned(Failure(e)), task.seen, cache, [TurnedAway(id, e, now)])
    case Success(who) => Effect(Enter(task.call.request, who), task.seen, cache, [Authenticated(id, who, now)])
  }

  function Check(id: nat, task: Task, cache: Cache, now: int): (effect: Effect)
    requires PcOk(task.call.request, task.pc) && task.pc.HoldCheck?
    ensures PcOk(task.call.request, effect.pc)
  {
    var repository := task.call.request.github.repositories[task.pc.i];
    match Lookup(cache, repository, now)
    case Some(visibility) =>
      Effect(Judging(task.pc.who, task.pc.i, visibility, 0), task.seen + [visibility], cache,
             [Hit(id, repository, visibility, now)])
    case None =>
      Effect(Getting(task.pc.who, Probe(task.pc.i), Begin), task.seen, cache, [Miss(id, repository, now)])
  }

  /** `get` failed: a failed probe refuses the request, a failed mint is reported as such. */
  function GetFails(id: nat, task: Task, cache: Cache, now: int, e: GitHubTokenError, events: seq<Event>)
    : (effect: Effect)
    requires PcOk(task.call.request, task.pc) && task.pc.Getting?
    ensures PcOk(task.call.request, effect.pc)
  {
    match task.pc.purpose
    case Probe(i) =>
      var repository := task.call.request.github.repositories[i];
      Effect(Returned(Failure(Refused(GetVisibility(repository, e)))), task.seen, cache,
             events + [Probed(id, repository, Failure(e), now)])
    case Mint => Effect(Returned(Failure(GitHubFailure(e))), task.seen, cache, events)
  }

  /** Credentials, parsing and the signed assertion that authenticates the App. */
  function GetBegin(server: Server, id: nat, task: Task, cache: Cache, now: int, answer: Answer): (effect: Effect)
    requires PcOk(task.call.request, task.pc) && task.pc.Getting?
    ensures PcOk(task.call.request, effect.pc)
  {
    if !server.credentials then GetFails(id, task, cache, now, NoCredentials, [])
    else
      match Parse(RequestFor(task.call.request.github, task.pc.purpose))
      case Failure(e) => GetFails(id, task, cache, now, e, [])
      case Success(parsed) =>
        var signed := [Signed(id, task.pc.purpose, answer.signed)];
        if !answer.signed then GetFails(id, task, cache, now, EncodeJwt, signed)
        else Effect(Getting(task.pc.who, task.pc.purpose, Searching(parsed, 0, None)), task.seen, cache, signed)
  }

  /** One account kind is asked for the installation. */
  function GetSearching(id: nat, task: Task, cache: Cache, now: int, answer: Answer): (effect: Effect)
    requires PcOk(task.call.request, task.pc) && task.pc.Getting? && task.pc.phase.Searching?
    ensures PcOk(task.call.request, effect.pc)
  {
    var Searching(parsed, kind, found) := task.pc.phase;
    var looked := [Looked(id, task.pc.purpose, KINDS[kind], parsed.namespace, answer.installation)];
    match SearchStep(found, answer.installation)
    case Failure(e) => GetFails(id, task, cache, now, e, looked)
    case Success(found') =>
      if kind + 1 < |KINDS| then
        Effect(Getting(task.pc.who, task.pc.purpose, Searching(parsed, kind + 1, found')), task.seen, cache, looked)
      else if found'.None? then GetFails(id, task, cache, now, AppNotInstalled(parsed.namespace), looked)
      else
        Effect(Getting(task.pc.who, task.pc.purpose, Requesting(parsed, found'.value)), task.seen, cache, looked)
  }

  /** The request for the access token itself. */
  function GetRequesting(id: nat, task: Task, cache: Cache, now: int, answer: Answer): (effect: Effect)
    requires PcOk(task.call.request, task.pc) && task.pc.Getting? && task.pc.phase.Requesting?
    ensures PcOk(task.call.request, effect.pc)
  {
    var Requesting(parsed, installation) := task.pc.phase;
    var posted := [Posted(id, task.pc.purpose, parsed.namespace, installation,
                          parsed.repositoryNames, parsed.permissions, answer.accessToken)];
    match answer.accessToken
    case Failure(e) => GetFails(id, task, cache, now, HttpError(e), posted)
    case Success(token) =>
      match task.pc.purpose
      case Probe(i) => Effect(Reading(task.pc.who, i, token), task.seen, cache, posted)
      case Mint => Effect(Returned(Success(token)), task.seen, cache, posted)
  }

  function Get(server: Server, id: nat, task: Task, cache: Cache, now: int, answer: Answer): (effect: Effect)
    requires PcOk(task.call.request, task.pc) && task.pc.Getting?
    ensures PcOk(task.call.request, effect.pc)
  {
    match task.pc.phase
    case Begin => GetBegin(server, id, task, cache, now, answer)
    case Searching(_, _, _) => GetSearching(id, task, cache, now, answer)
    case Requesting(_, _) => GetRequesting(id, task, cache, now, answer)
  }

  function Read(id: nat, task: Task, cache: Cache, now: int, answer: Answer): (effect: Effect)
    requires PcOk(task.call.request, task.pc) && task.pc.Reading?
    ensures PcOk(task.call.request, effect.pc)
  {
    var repository := task.call.request.github.repositories[task.pc.i];
    match answer.visibility
    case Success(visibility) =>
      Effect(AwaitStore(task.pc.who, task.pc.i, visibility), task.seen, cache,
             [Probed(id, repository, Success(visibility), now)])
    case Failure(failure) =>
      Effect(Returned(Failure(Refused(GetVisibility(repository, HttpError(failure))))), task.seen, cache,
             [Probed(id, repository, Failure(HttpError(failure)), now)])
  }

  function StoreFetched(id: nat, task: Task, cache: Cache, now: int): (effect: Effect)
    requires PcOk(task.call.request, task.pc) && task.pc.HoldStore?
    ensures PcOk(task.call.request, effect.pc)
  {
    var repository, visibility := task.call.request.github.repositories[task.pc.i], task.pc.visibility;
    Effect(Judging(task.pc.who, task.pc.i, visibility, 0), task.seen + [visibility],
           Store(cache, repository, visibility, now), [Stored(id, repository, visibility, now)])
  }

  /** Where the nested loops continue after one permission was allowed. */
  function NextPermission(task: Task): (pc: Pc)
    requires PcOk(task.call.request, task.pc) && task.pc.Judging?
    ensures PcOk(task.call.request, pc)
  {
    var github := task.call.request.github;
    var Judging(who, i, visibility, j) := task.pc;
    if j + 1 < |github.permissions| then Judging(who, i, visibility, j + 1)
    else if i + 1 < |github.repositories| then AwaitCheck(who, i + 1)
    else Getting(who, Mint, Begin)
  }

  function Judge(server: Server, id: nat, task: Task, cache: Cache): (effect: Effect)
    requires PcOk(task.call.request, task.pc) && task.pc.Judging?
    ensures PcOk(task.call.request, effect.pc)
  {
    var github := task.call.request.github;
    var Judging(who, i, visibility, j) := task.pc;
    var repository, permission := github.repositories[i], github.permissions[j];
    match Authorize(server.evaluate, who, permission, RepositoryEntity(repository, visibility))
    case Failure(e) => Effect(Returned(Failure(Refused(e))), task.seen, cache, [])
    case Success(_) =>
      Effect(NextPermission(task), task.seen, cache, [Allowed(id, who, repository, visibility, permission)])
  }

  function Deploy(server: Server, id: nat, task: Task, cache: Cache): (effect: Effect)
    requires PcOk(task.call.request, task.pc) && task.pc.Deploying?
    ensures PcOk(task.call.request, effect.pc)
  {
    var silo := task.call.request.oxide.silo;
    match Authorize(server.evaluate, task.pc.who, "deploy", SiloEntity(silo))
    case Failure(e) => Effect(Returned(Failure(Refused(e))), task.seen, cache, [])
    case Success(_) => Effect(Preparing(task.pc.who), task.seen, cache, [DeployAllowed(id, task.pc.who, silo)])
  }

  /** The checks of the Oxide `get` before its first request. */
  function Prepare(server: Server, oxide: OxideTokenRequest): Result<OxideTokens.Client, OxideTokens.OxideError> {
    match server.oxide
    case None => Failure(OxideTokens.NotConfigured)
    case Some(state) =>
      match OxideTokens.ValidateDuration(oxide.duration, state.allowTokensWithoutExpiry, state.maxDuration)
      case Failure(e) => Failure(e)
      case Success(_) =>
        if oxide.silo.text !in state.clients then Failure(OxideTokens.SiloNotConfigured(oxide.silo.text))
        else Success(state.clients[oxide.silo.text])
  }

  /** The three requests of the device flow (sections 3.1 to 3.5 of RFC 8628). */
  function DeviceFlow(server: Server, id: nat, task: Task, cache: Cache, answer: Answer): (effect: Effect)
    requires PcOk(task.call.request, task.pc)
    requires task.pc.Preparing? || task.pc.Authorizing? || task.pc.Confirming? || task.pc.Redeeming?
    ensures PcOk(task.call.request, effect.pc)
  {
    var oxide := task.call.request.oxide;
    var failed := (client: OxideTokens.Client, request: OxideTokens.SiloRequest, e: OxideTokens.ServiceFailure) =>
      Effect(Returned(Failure(OxideFailure(OxideTokens.RequestError(request, e)))), task.seen, cache,
             [SiloFailed(id, client, request, e)]);
    match task.pc
    case Preparing(who) =>
      (match Prepare(server, oxide)
       case Failure(e) => Effect(Returned(Failure(OxideFailure(e))), task.seen, cache, [])
       case Success(client) => Effect(Authorizing(who, client), task.seen, cache, []))
    case Authorizing(who, client) =>
      (match answer.device
       case Failure(e) => failed(client, OxideTokens.DeviceAuthorization, e)
       case Success((deviceCode, userCode)) =>
         Effect(Confirming(who, client, deviceCode, userCode), task.seen, cache,
                [Issued(id, client, OxideTokens.Ttl(oxide.duration), deviceCode, userCode)]))
    case Confirming(who, client, deviceCode, userCode) =>
      (match answer.confirmation
       case Failure(e) => failed(client, OxideTokens.Confirmation, e)
       case Success(_) =>
         Effect(Redeeming(who, client, deviceCode, userCode), task.seen, cache,
                [Confirmed(id, client, userCode)]))
    case Redeeming(who, client, deviceCode, userCode) =>
      (match answer.grant
       case Failure(e) => failed(client, OxideTokens.TokenGrant, e)
       case Success(token) =>
         Effect(Returned(Success(token)), task.seen, cache,
                [Granted(id, client, deviceCode, token)]))
  }

  function Act(server: Server, id: nat, task: Task, cache: Cache, now: int, answer: Answer): (effect: Effect)
    requires PcOk(task.call.request, task.pc)
    ensures PcOk(task.call.request, effect.pc)
  {
    match task.pc
    case Arrived => Arrive(server, id, task, cache, now)
    case AwaitCheck(who, i) => Effect(HoldCheck(who, i), task.seen, cache, [])
    case HoldCheck(_, _) => Check(id, task, cache, now)
    case Getting(_, _, _) => Get(server, id, task, cache, now, answer)
    case Reading(_, _, _) => Read(id, task, cache, now, answer)
    case AwaitStore(who, i, visibility) => Effect(HoldStore(who, i, visibility), task.seen, cache, [])
    case HoldStore(_, _, _) => StoreFetched(id, task, cache, now)
    case Judging(_, _, _, _) => Judge(server, id, task, cache)
    case Deploying(_) => Deploy(server, id, task, cache)
    case Returned(_) => Effect(task.pc, task.seen, cache, [])
    case _ => DeviceFlow(server, id, task, cache, answer)
  }

  /***** Runs *****/

  datatype World = World(cache: Cache, lock: Option<nat>, tasks: seq<Task>, trace: seq<Event>)

  /** Call `id` acts, reading the clock as `now` and getting `answer` to any request it makes. */
  datatype Choice = Choice(id: nat, now: int, answer: Answer)

  predicate Holds(pc: Pc) { pc.HoldCheck? || pc.HoldStore? }

  predicate Awaits(pc: Pc) { pc.AwaitCheck? || pc.AwaitStore? }

  /** The call has not returned and is not blocked on the mutex. */
  predicate Enabled(w: World, id: nat) {
    && id < |w.tasks|
    && !w.tasks[id].pc.Returned?
    && (Awaits(w.tasks[id].pc) ==> w.lock.None?)
  }

  predicate WorldOk(w: World) {
    forall k | 0 <= k < |w.tasks| :: PcOk(w.tasks[k].call.request, w.tasks[k].pc)
  }

  function Step(server: Server, w: World, choice: Choice): (w': World)
    requires WorldOk(w)
    ensures WorldOk(w')
    ensures |w'.tasks| == |w.tasks| && forall k | 0 <= k < |w.tasks| :: w'.tasks[k].call == w.tasks[k].call
  {
    if !Enabled(w, choice.id) then w
    else
      var task := w.tasks[choice.id];
      var effect := Act(server, choice.id, task, w.cache, choice.now, choice.answer);
      var lock :=
        if Awaits(task.pc) then Some(choice.id)
        else if Holds(task.pc) then None
        else w.lock;
      World(effect.cache, lock, w.tasks[choice.id := Task(task.call, effect.seen, effect.pc)], w.trace + effect.events)
  }

  function Start(calls: seq<Call>): World {
    World(map[], None, seq(|calls|, k requires 0 <= k < |calls| => Task(calls[k], [], Arrived)), [])
  }

  function Run(server: Server, calls: seq<Call>, choices: seq<Choice>): (w: World)
    ensures WorldOk(w)
    ensures |w.tasks| == |calls| && forall k | 0 <= k < |calls| :: w.tasks[k].call == calls[k]
  {
    if choices == [] then Start(calls)
    else
      var last := |choices| - 1;
      var w := Run(server, calls, choices[..last]);
      Step(server, w, choices[last])
  }
}
