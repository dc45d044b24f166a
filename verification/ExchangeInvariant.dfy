/**
 * What every step of the exchange keeps: each event is justified by the events before it, each call
 * has left exactly the log its program point implies, the cache is the replay of the stores, and the
 * mutex is held by the call in its locked region and by no other.
 */
module ExchangeInvariant {

  import opened Wrappers
  import opened Cedar
  import opened Exchange
  import opened GitHubRequest
  import opened GitHubRequestLaws
  import opened GitHubTokens
  import opened Oidc
  import opened Policy
  import opened TokenRequests
  import OxideTokens

  /***** Reading the trace *****/

  /** The cache that the stores of a trace leave behind. */
  function CacheOf(trace: seq<Event>): Cache {
    if trace == [] then map[]
    else
      var init := CacheOf(trace[..|trace| - 1]);
      match trace[|trace| - 1]
      case Stored(_, repository, visibility, at) => Store(init, repository, visibility, at)
      case _ => init
  }

  /** What authorization did for one call: whose visibility it asked for, which pairs it allowed. */
  datatype LogEntry =
    | Asked(repository: string)
    | Judged(repository: string, visibility: string, permission: string)

  function EntryOf(event: Event, id: nat): seq<LogEntry> {
    if event.call != id then []
    else
      match event
      case Hit(_, repository, _, _) => [Asked(repository)]
      case Miss(_, repository, _) => [Asked(repository)]
      case Allowed(_, _, repository, visibility, permission) => [Judged(repository, visibility, permission)]
      case _ => []
  }

  function LogOf(trace: seq<Event>, id: nat): seq<LogEntry> {
    if trace == [] then []
    else LogOf(trace[..|trace| - 1], id) + EntryOf(trace[|trace| - 1], id)
  }

  lemma Append(trace: seq<Event>, event: Event, id: nat)
    ensures LogOf(trace + [event], id) == LogOf(trace, id) + EntryOf(event, id)
    ensures CacheOf(trace + [event]) ==
            if event.Stored? then Store(CacheOf(trace), event.repository, event.visibility, event.at)
            else CacheOf(trace)
  {
    assert (trace + [event])[..|trace|] == trace;
  }

  lemma {:induction false} LogConcat(trace: seq<Event>, events: seq<Event>, id: nat)
    ensures LogOf(trace + events, id) == LogOf(trace, id) + LogOf(events, id)
  {
    if events == [] {
      assert trace + events == trace;
    } else {
      var init, last := events[..|events| - 1], events[|events| - 1];
      assert events == init + [last] && trace + events == (trace + init) + [last];
      LogConcat(trace, init, id);
      Append(init, last, id);
      Append(trace + init, last, id);
    }
  }

  lemma {:induction false} AppendOthers(trace: seq<Event>, events: seq<Event>, id: nat)
    requires forall e | e in events :: e.call != id
    ensures LogOf(trace + events, id) == LogOf(trace, id)
  {
    if events == [] {
      assert trace + events == trace;
    } else {
      var init := events[..|events| - 1];
      assert trace + events == (trace + init) + [events[|events| - 1]];
      AppendOthers(trace, init, id);
      Append(trace + init, events[|events| - 1], id);
    }
  }

  /** The log of the first `j` permissions allowed on one repository. */
  function Judgements(repository: string, visibility: string, permissions: seq<string>, j: nat): seq<LogEntry>
    requires j <= |permissions|
  {
    if j == 0 then []
    else Judgements(repository, visibility, permissions, j - 1) + [Judged(repository, visibility, permissions[j - 1])]
  }

  /** The log of one repository entry: one query, then permissions judged under one visibility. */
  function EntryLog(github: GitHubTokenRequest, i: nat, visibility: string, j: nat): seq<LogEntry>
    requires i < |github.repositories| && j <= |github.permissions|
  {
    [Asked(github.repositories[i])] + Judgements(github.repositories[i], visibility, github.permissions, j)
  }

  /** The log of the first `|seen|` repository entries, every permission allowed on each. */
  function FullLog(github: GitHubTokenRequest, seen: seq<string>): seq<LogEntry>
    requires |seen| <= |github.repositories|
  {
    if seen == [] then []
    else
      var last := |seen| - 1;
      FullLog(github, seen[..last]) + EntryLog(github, last, seen[last], |github.permissions|)
  }

  lemma {:induction false} JudgementsHold(
      repository: string, visibility: string, permissions: seq<string>, j: nat, k: nat)
    requires k < j <= |permissions|
    ensures Judged(repository, visibility, permissions[k]) in Judgements(repository, visibility, permissions, j)
  {
    if k < j - 1 {
      JudgementsHold(repository, visibility, permissions, j - 1, k);
    }
  }

  /** A full log holds every pair of an entry and a permission. */
  lemma {:induction false} FullLogHolds(github: GitHubTokenRequest, seen: seq<string>, i: nat, k: nat)
    requires i < |seen| <= |github.repositories| && k < |github.permissions|
    ensures Judged(github.repositories[i], seen[i], github.permissions[k]) in FullLog(github, seen)
  {
    var last := |seen| - 1;
    if i < last {
      FullLogHolds(github, seen[..last], i, k);
    } else {
      JudgementsHold(github.repositories[last], seen[last], github.permissions, |github.permissions|, k);
    }
  }

  /** Judged pairs in a call's log are `Allowed` events of that call. */
  lemma {:induction false} LogComesFromEvents(
      trace: seq<Event>, id: nat, repository: string, visibility: string, permission: string)
    requires Judged(repository, visibility, permission) in LogOf(trace, id)
    ensures exists who :: Allowed(id, who, repository, visibility, permission) in trace
  {
    var last := |trace| - 1;
    var init := trace[..last];
    if Judged(repository, visibility, permission) in LogOf(init, id) {
      LogComesFromEvents(init, id, repository, visibility, permission);
      var who :| Allowed(id, who, repository, visibility, permission) in init;
      assert Allowed(id, who, repository, visibility, permission) in trace;
    } else {
      assert Judged(repository, visibility, permission) in EntryOf(trace[last], id);
      assert trace[last] == Allowed(id, trace[last].who, repository, visibility, permission);
    }
  }

  /***** What justifies an event *****/

  /** The call's token authenticated as this principal, at the clock the call read on arrival. */
  ghost predicate Verified(server: Server, token: Jwt, trace: seq<Event>, id: nat, who: Entity) {
    exists at: int :: Authenticated(id, who, at) in trace && Authenticate(server, token, at) == Success(who)
  }

  /** The call's token did not authenticate, for this reason, at the clock read on arrival. */
  ghost predicate Rejected(server: Server, token: Jwt, trace: seq<Event>, id: nat, e: ExchangeError) {
    exists at: int :: TurnedAway(id, e, at) in trace && Authenticate(server, token, at) == Failure(e)
  }

  /** GitHub's two answers to the search for an installation leave this one. */
  predicate FoundBy(orgs: Result<nat, HttpFailure>, users: Result<nat, HttpFailure>, installation: nat) {
    && (orgs.Success? || (orgs.error.Status? && orgs.error.status == 404))
    && (users.Success? || (users.error.Status? && users.error.status == 404))
    && if users.Success? then installation == users.value
       else orgs.Success? && installation == orgs.value
  }

  ghost predicate Located(trace: seq<Event>, id: nat, purpose: Purpose, namespace: string, installation: nat) {
    exists orgs, users ::
      && Looked(id, purpose, "orgs", namespace, orgs) in trace
      && Looked(id, purpose, "users", namespace, users) in trace
      && FoundBy(orgs, users, installation)
  }

  /** The call obtained this visibility for this repository: from the cache or by its own fetch. */
  ghost predicate Viewed(trace: seq<Event>, id: nat, repository: string, visibility: string) {
    exists at :: Hit(id, repository, visibility, at) in trace || Stored(id, repository, visibility, at) in trace
  }

  ghost predicate FetchedBefore(trace: seq<Event>, id: nat, repository: string, visibility: string) {
    exists at :: Probed(id, repository, Success(visibility), at) in trace
  }

  ghost predicate AllowedBefore(trace: seq<Event>, id: nat, repository: string, permission: string) {
    exists who, visibility :: Allowed(id, who, repository, visibility, permission) in trace
  }

  /** The scope of a probe: exactly one repository, and only its metadata. */
  predicate ProbeScope(
      github: GitHubTokenRequest, i: nat, namespace: string, names: seq<string>, permissions: map<string, string>)
  {
    && i < |github.repositories|
    && |names| == 1 && JoinRepository(namespace, names[0]) == github.repositories[i]
    && permissions == map["metadata" := "read"]
  }

  /** The scope of a mint: the request's own repositories in order and its own permissions. */
  predicate MintScope(
      github: GitHubTokenRequest, namespace: string, names: seq<string>, permissions: map<string, string>)
  {
    && Rejoin(namespace, names) == github.repositories
    && PermissionStrings(permissions) == Elements(github.permissions)
    && |permissions| == |github.permissions|
  }

  /** Every pair in the scope was allowed to this call before. */
  ghost predicate ScopeAllowed(
      trace: seq<Event>, id: nat, namespace: string, names: seq<string>, permissions: map<string, string>)
  {
    && names != [] && permissions != map[]
    && forall name, key | name in names && key in permissions ::
         AllowedBefore(trace, id, JoinRepository(namespace, name), JoinPermission(key, permissions[key]))
  }

  ghost predicate IssuedBefore(
      trace: seq<Event>, id: nat, client: OxideTokens.Client, ttl: Option<OxideTokens.NonZeroU32>,
      deviceCode: string, userCode: string)
  {
    Issued(id, client, ttl, deviceCode, userCode) in trace
  }

  /** The server has a client for this host and may grant this lifetime. */
  predicate SiloReady(server: Server, oxide: OxideTokenRequest) {
    && server.oxide.Some?
    && oxide.silo.text in server.oxide.value.clients
    && OxideTokens.Bounded(OxideTokens.Ttl(oxide.duration),
                           server.oxide.value.allowTokensWithoutExpiry, server.oxide.value.maxDuration)
  }

  /** The call's requests go out with this client: the one of the silo it asked for. */
  predicate UsesClient(server: Server, oxide: OxideTokenRequest, client: OxideTokens.Client) {
    SiloReady(server, oxide) && client == server.oxide.value.clients[oxide.silo.text]
  }

  ghost predicate ProbeJustified(server: Server, call: Call, before: seq<Event>, id: nat, repository: string) {
    && server.credentials && ParseRepository(repository).Some?
    && exists i: nat ::
         && call.request.GitHub? && i < |call.request.github.repositories|
         && call.request.github.repositories[i] == repository
         && ProbeToken(before, id, i)
  }

  /** How `get` fails once its request has parsed: signing failed, both kinds of account answered that
      the App is not installed, or GitHub's answer to one of its requests was this very failure. */
  ghost predicate RequestFailed(
      trace: seq<Event>, id: nat, purpose: Purpose, parsed: ParsedGitHubRequest, e: GitHubTokenError)
  {
    match e
    case EncodeJwt => Signed(id, purpose, false) in trace
    case AppNotInstalled(namespace) =>
      && namespace == parsed.namespace
      && exists message, message' ::
           && Looked(id, purpose, "orgs", namespace, Failure(Status(404, message))) in trace
           && Looked(id, purpose, "users", namespace, Failure(Status(404, message'))) in trace
    case Http =>
      LookFailed(trace, id, purpose, parsed, Transport) || PostFailed(trace, id, purpose, parsed, Transport)
    case GitHubError(status, message) =>
      || (status != 404 && LookFailed(trace, id, purpose, parsed, Status(status, message)))
      || PostFailed(trace, id, purpose, parsed, Status(status, message))
    case _ => false
  }

  ghost predicate LookFailed(
      trace: seq<Event>, id: nat, purpose: Purpose, parsed: ParsedGitHubRequest, failure: HttpFailure)
  {
    exists kind :: Looked(id, purpose, kind, parsed.namespace, Failure(failure)) in trace
  }

  ghost predicate PostFailed(
      trace: seq<Event>, id: nat, purpose: Purpose, parsed: ParsedGitHubRequest, failure: HttpFailure)
  {
    exists installation ::
      Posted(id, purpose, parsed.namespace, installation, parsed.repositoryNames, parsed.permissions,
             Failure(failure)) in trace
  }

  /** Why `get` fails: its checks in order, then its requests. */
  ghost predicate GetFailed(
      server: Server, github: GitHubTokenRequest, trace: seq<Event>, id: nat, purpose: Purpose, e: GitHubTokenError)
    requires PurposeOk(github, purpose)
  {
    if !server.credentials then e == NoCredentials
    else
      match Parse(RequestFor(github, purpose))
      case Failure(parseError) => e == parseError
      case Success(parsed) => RequestFailed(trace, id, purpose, parsed, e)
  }

  /** A visibility could not be read: no token for it, or a token with which reading failed. */
  ghost predicate ProbeFailed(
      server: Server, call: Call, before: seq<Event>, id: nat, repository: string, e: GitHubTokenError)
  {
    && call.request.GitHub?
    && exists i: nat ::
         && i < |call.request.github.repositories| && call.request.github.repositories[i] == repository
         && (|| GetFailed(server, call.request.github, before, id, Probe(i), e)
             || (ProbeToken(before, id, i) && (e.Http? || e.GitHubError?)))
  }

  /** The call has got the token to read the visibility of entry `i` with. */
  ghost predicate ProbeToken(trace: seq<Event>, id: nat, i: nat) {
    exists namespace, installation, names, permissions, token ::
      Posted(id, Probe(i), namespace, installation, names, permissions, Success(token)) in trace
  }

  ghost predicate AllowJustified(
      server: Server, call: Call, before: seq<Event>, id: nat, who: Entity,
      repository: string, visibility: string, permission: string)
  {
    && call.request.GitHub?
    && repository in call.request.github.repositories && permission in call.request.github.permissions
    && Verified(server, call.token, before, id, who)
    && Viewed(before, id, repository, visibility)
    && Authorize(server.evaluate, who, permission, RepositoryEntity(repository, visibility)).Success?
  }

  /** Every permission was allowed on every entry before entry `i`. */
  ghost predicate EarlierAllowed(trace: seq<Event>, id: nat, github: GitHubTokenRequest, i: nat) {
    forall k: nat, j: nat | k < i && k < |github.repositories| && j < |github.permissions| ::
      AllowedBefore(trace, id, github.repositories[k], github.permissions[j])
  }

  ghost predicate PostJustified(
      server: Server, call: Call, before: seq<Event>, id: nat, purpose: Purpose, namespace: string, installation: nat,
      names: seq<string>, permissions: map<string, string>)
  {
    && call.request.GitHub?
    && (exists who :: Verified(server, call.token, before, id, who))
    && Located(before, id, purpose, namespace, installation)
    && match purpose
       case Probe(i) =>
         && ProbeScope(call.request.github, i, namespace, names, permissions)
         && EarlierAllowed(before, id, call.request.github, i)
       case Mint =>
         && MintScope(call.request.github, namespace, names, permissions)
         && ScopeAllowed(before, id, namespace, names, permissions)
  }

  ghost predicate DeployJustified(
      server: Server, call: Call, before: seq<Event>, id: nat, who: Entity, silo: Url)
  {
    && call.request.Oxide? && call.request.oxide.silo == silo
    && Verified(server, call.token, before, id, who)
    && server.evaluate(who, "deploy", Entity(EntityUid(Silo, silo.text), map["url" := silo.text]))
  }

  /** Zero seconds ask for a token without expiry, any other number for exactly that many seconds. */
  predicate Lifetime(ttl: Option<OxideTokens.NonZeroU32>, duration: u32) {
    if duration == 0 then ttl.None? else ttl.Some? && ttl.value == duration
  }

  ghost predicate IssueJustified(
      server: Server, call: Call, before: seq<Event>, id: nat, client: OxideTokens.Client,
      ttl: Option<OxideTokens.NonZeroU32>)
  {
    && call.request.Oxide? && UsesClient(server, call.request.oxide, client)
    && Lifetime(ttl, call.request.oxide.duration)
    && exists who :: DeployAllowed(id, who, call.request.oxide.silo) in before
  }

  ghost predicate Justified(server: Server, calls: seq<Call>, before: seq<Event>, event: Event) {
    && event.call < |calls|
    && var call := calls[event.call];
       match event
       case Authenticated(_, who, at) => Authenticate(server, call.token, at) == Success(who)
       case TurnedAway(_, e, at) => Authenticate(server, call.token, at) == Failure(e)
       case Hit(_, repository, visibility, at) => Lookup(CacheOf(before), repository, at) == Some(visibility)
       case Miss(_, repository, at) => Lookup(CacheOf(before), repository, at) == None
       case Probed(id, repository, answer, _) =>
         if answer.Success? then ProbeJustified(server, call, before, id, repository)
         else ProbeFailed(server, call, before, id, repository, answer.error)
       case Stored(id, repository, visibility, _) => FetchedBefore(before, id, repository, visibility)
       case Allowed(id, who, repository, visibility, permission) =>
         AllowJustified(server, call, before, id, who, repository, visibility, permission)
       case Signed(_, _, _) => true
       case Looked(_, _, _, _, _) => true
       case Posted(id, purpose, namespace, installation, names, permissions, _) =>
         PostJustified(server, call, before, id, purpose, namespace, installation, names, permissions)
       case DeployAllowed(id, who, silo) => DeployJustified(server, call, before, id, who, silo)
       case SiloFailed(_, client, _, _) =>
         call.request.Oxide? && UsesClient(server, call.request.oxide, client)
       case Issued(id, client, ttl, _, _) => IssueJustified(server, call, before, id, client, ttl)
       case Confirmed(id, client, userCode) =>
         exists ttl, deviceCode :: IssuedBefore(before, id, client, ttl, deviceCode, userCode)
       case Granted(id, client, deviceCode, _) =>
         exists ttl, userCode ::
           IssuedBefore(before, id, client, ttl, deviceCode, userCode) && Confirmed(id, client, userCode) in before
  }

  ghost predicate AllJustified(server: Server, calls: seq<Call>, trace: seq<Event>) {
    trace != [] ==>
      && AllJustified(server, calls, trace[..|trace| - 1])
      && Justified(server, calls, trace[..|trace| - 1], trace[|trace| - 1])
  }

  /** Each event of a justified trace is justified by the events before it. */
  lemma {:induction false} JustifiedAt(server: Server, calls: seq<Call>, trace: seq<Event>, n: nat)
    requires AllJustified(server, calls, trace) && n < |trace|
    ensures Justified(server, calls, trace[..n], trace[n])
  {
    var init := trace[..|trace| - 1];
    if n < |init| {
      JustifiedAt(server, calls, init, n);
      assert init[..n] == trace[..n] && init[n] == trace[n];
    } else {
      assert init == trace[..n];
    }
  }

  /** Events appended one after the other, each justified by all before it. */
  ghost predicate Follow(server: Server, calls: seq<Call>, trace: seq<Event>, events: seq<Event>)
    decreases |events|
  {
    events != [] ==>
      && Justified(server, calls, trace, events[0])
      && Follow(server, calls, trace + [events[0]], events[1..])
  }

  lemma JustifiedOne(server: Server, calls: seq<Call>, trace: seq<Event>, event: Event)
    requires AllJustified(server, calls, trace) && Justified(server, calls, trace, event)
    ensures AllJustified(server, calls, trace + [event])
  {
    var longer := trace + [event];
    assert longer[..|longer| - 1] == trace && longer[|longer| - 1] == event;
  }

  lemma {:induction false} JustifiedAppend(server: Server, calls: seq<Call>, trace: seq<Event>, events: seq<Event>)
    requires AllJustified(server, calls, trace) && Follow(server, calls, trace, events)
    ensures AllJustified(server, calls, trace + events)
    decreases |events|
  {
    if events == [] {
      assert trace + events == trace;
    } else {
      var longer := trace + [events[0]];
      JustifiedOne(server, calls, trace, events[0]);
      assert longer + events[1..] == trace + events;
      JustifiedAppend(server, calls, longer, events[1..]);
    }
  }

  /***** What holds at a program point *****/

  /** Every entry passed so far parses, and passing one took App credentials. */
  predicate SeenParse(server: Server, github: GitHubTokenRequest, seen: seq<string>) {
    && |seen| <= |github.repositories|
    && (seen != [] ==> server.credentials)
    && forall k | 0 <= k < |seen| :: ParseRepository(github.repositories[k]).Some?
  }

  ghost predicate PhaseInv(
      server: Server, id: nat, github: GitHubTokenRequest, purpose: Purpose, phase: Phase, trace: seq<Event>)
    requires PurposeOk(github, purpose)
  {
    phase.Begin? ||
    (&& server.credentials
     && Parse(RequestFor(github, purpose)) == Success(phase.parsed)
     && (phase.Searching? ==>
           && (phase.kind == 0 ==> phase.found == None)
           && (phase.kind == 1 ==> exists orgs ::
                 && Looked(id, purpose, KINDS[0], phase.parsed.namespace, orgs) in trace
                 && SearchStep(None, orgs) == Success(phase.found)))
     && (phase.Requesting? ==> Located(trace, id, purpose, phase.parsed.namespace, phase.installation)))
  }

  /** Authorization is over: all entries were passed, each with every permission. */
  ghost predicate Accepted(server: Server, id: nat, task: Task, trace: seq<Event>, who: Entity) {
    && AtRepository(task.call.request, 0)
    && Verified(server, task.call.token, trace, id, who)
    && |task.seen| == |task.call.request.github.repositories|
    && SeenParse(server, task.call.request.github, task.seen)
    && LogOf(trace, id) == FullLog(task.call.request.github, task.seen)
  }

  /** Authorization is at entry `i`, its visibility asked for or not yet. */
  ghost predicate AtEntry(server: Server, id: nat, task: Task, trace: seq<Event>, who: Entity, i: nat, asked: bool) {
    && AtRepository(task.call.request, i)
    && Verified(server, task.call.token, trace, id, who)
    && |task.seen| == i
    && SeenParse(server, task.call.request.github, task.seen)
    && LogOf(trace, id) ==
       FullLog(task.call.request.github, task.seen)
       + if asked then [Asked(task.call.request.github.repositories[i])] else []
  }

  /** Entry `i` has its visibility and its first `j` permissions are allowed. */
  ghost predicate AtPermission(server: Server, id: nat, task: Task, trace: seq<Event>, who: Entity, i: nat, j: nat) {
    && AtRepository(task.call.request, i)
    && Verified(server, task.call.token, trace, id, who)
    && |task.seen| == i + 1
    && SeenParse(server, task.call.request.github, task.seen)
    && j < |task.call.request.github.permissions|
    && LogOf(trace, id) ==
       FullLog(task.call.request.github, task.seen[..i])
       + EntryLog(task.call.request.github, i, task.seen[i], j)
  }

  /** The request errors a call can still meet once it is authorized. */
  ghost predicate MintError(github: GitHubTokenRequest, trace: seq<Event>, id: nat, e: GitHubTokenError) {
    match Parse(github)
    case Failure(parseError) => e == parseError && (e.DifferentOrgs? || e.DuplicatePermission?)
    case Success(parsed) => RequestFailed(trace, id, Mint, parsed, e)
  }

  /** The call could not read the visibility of its next entry, for this reason. */
  ghost predicate Unread(server: Server, id: nat, task: Task, trace: seq<Event>, who: Entity, e: PolicyError)
    requires task.call.request.GitHub?
  {
    && AtEntry(server, id, task, trace, who, |task.seen|, true)
    && e.GetVisibility? && e.repository == task.call.request.github.repositories[|task.seen|]
    && exists at :: Probed(id, e.repository, Failure(e.cause), at) in trace
  }

  /** The policy denied permission `j` on the call's last entry. */
  ghost predicate Denied(server: Server, id: nat, task: Task, trace: seq<Event>, who: Entity, j: nat, e: PolicyError)
    requires task.call.request.GitHub?
  {
    && task.seen != [] && AtPermission(server, id, task, trace, who, |task.seen| - 1, j)
    && Authorize(server.evaluate, who, task.call.request.github.permissions[j],
                 RepositoryEntity(task.call.request.github.repositories[|task.seen| - 1], task.seen[|task.seen| - 1]))
       == Failure(e)
  }

  /** How authorization can refuse a GitHub request, and how far it had come. */
  ghost predicate RefusedBecause(server: Server, id: nat, task: Task, trace: seq<Event>, who: Entity, e: PolicyError)
    requires task.call.request.GitHub?
  {
    var github := task.call.request.github;
    && Verified(server, task.call.token, trace, id, who)
    && (|| (e == EmptyRequest && (github.repositories == [] || github.permissions == []) && LogOf(trace, id) == [])
        || Unread(server, id, task, trace, who, e)
        || exists j: nat :: Denied(server, id, task, trace, who, j, e))
  }

  ghost predicate GitHubReturned(
      server: Server, id: nat, task: Task, trace: seq<Event>, outcome: Result<string, ExchangeError>)
    requires task.call.request.GitHub?
  {
    var github := task.call.request.github;
    match outcome
    case Success(token) =>
      exists who, installation ::
        && Accepted(server, id, task, trace, who)
        && Parse(github).Success?
        && Posted(id, Mint, Parse(github).value.namespace, installation, Parse(github).value.repositoryNames,
                  Parse(github).value.permissions, Success(token)) in trace
    case Failure(GitHubFailure(e)) =>
      (exists who :: Accepted(server, id, task, trace, who)) && MintError(github, trace, id, e)
    case Failure(Refused(e)) => exists who :: RefusedBecause(server, id, task, trace, who, e)
    case Failure(OxideFailure(_)) => false
    case Failure(e) => Rejected(server, task.call.token, trace, id, e) && LogOf(trace, id) == []
  }

  ghost predicate Deployable(server: Server, id: nat, task: Task, trace: seq<Event>, who: Entity)
    requires task.call.request.Oxide?
  {
    && Verified(server, task.call.token, trace, id, who)
    && DeployAllowed(id, who, task.call.request.oxide.silo) in trace
    && Authorize(server.evaluate, who, "deploy", SiloEntity(task.call.request.oxide.silo)).Success?
  }

  /** How a silo request can fail once it is allowed: by the first check that fails, or, past all
      checks, in one of the three requests. */
  ghost predicate SiloError(
      server: Server, oxide: OxideTokenRequest, trace: seq<Event>, id: nat, e: OxideTokens.OxideError)
  {
    match Prepare(server, oxide)
    case Failure(checked) => e == checked
    case Success(_) => RequestToSiloFailed(trace, id, e)
  }

  /** The silo failed one of the call's requests, and this is the error of that. */
  ghost predicate RequestToSiloFailed(trace: seq<Event>, id: nat, e: OxideTokens.OxideError) {
    exists client, request, failure ::
      SiloFailed(id, client, request, failure) in trace && FailsWith(request, failure, e)
  }

  /** Only the rejection of the first request is read as such; only the answers to the first and the
      last one are parsed; everything else is an error of the remote service. */
  predicate FailsWith(
      request: OxideTokens.SiloRequest, failure: OxideTokens.ServiceFailure, e: OxideTokens.OxideError)
  {
    match (request, failure)
    case (DeviceAuthorization, Unreadable) => e == OxideTokens.ByteStream
    case (DeviceAuthorization, Rejected) => e == OxideTokens.DeviceAuthRequest
    case (TokenGrant, Unreadable) => e == OxideTokens.ByteStream
    case _ => e == OxideTokens.Remote
  }

  ghost predicate OxideReturned(
      server: Server, id: nat, task: Task, trace: seq<Event>, outcome: Result<string, ExchangeError>)
    requires task.call.request.Oxide?
  {
    var oxide := task.call.request.oxide;
    match outcome
    case Success(token) =>
      exists who, client, deviceCode ::
        && Deployable(server, id, task, trace, who)
        && UsesClient(server, oxide, client)
        && Granted(id, client, deviceCode, token) in trace
    case Failure(OxideFailure(e)) =>
      (exists who :: Deployable(server, id, task, trace, who)) && SiloError(server, oxide, trace, id, e)
    case Failure(Refused(e)) =>
      exists who ::
        && Verified(server, task.call.token, trace, id, who)
        && Authorize(server.evaluate, who, "deploy", SiloEntity(oxide.silo)) == Failure(e)
    case Failure(GitHubFailure(_)) => false
    case Failure(e) => Rejected(server, task.call.token, trace, id, e)
  }

  ghost predicate GettingInv(server: Server, id: nat, task: Task, trace: seq<Event>)
    requires PcOk(task.call.request, task.pc) && task.pc.Getting?
  {
    && (match task.pc.purpose
        case Probe(i) => AtEntry(server, id, task, trace, task.pc.who, i, true)
        case Mint => Accepted(server, id, task, trace, task.pc.who))
    && PhaseInv(server, id, task.call.request.github, task.pc.purpose, task.pc.phase, trace)
  }

  ghost predicate FetchInv(server: Server, id: nat, task: Task, trace: seq<Event>)
    requires PcOk(task.call.request, task.pc) && (task.pc.Reading? || task.pc.AwaitStore? || task.pc.HoldStore?)
  {
    var repository := task.call.request.github.repositories[task.pc.i];
    && AtEntry(server, id, task, trace, task.pc.who, task.pc.i, true)
    && server.credentials && ParseRepository(repository).Some?
    && match task.pc
       case Reading(_, i, _) => ProbeToken(trace, id, i)
       case AwaitStore(_, _, visibility) => FetchedBefore(trace, id, repository, visibility)
       case HoldStore(_, _, visibility) => FetchedBefore(trace, id, repository, visibility)
  }

  ghost predicate JudgingInv(server: Server, id: nat, task: Task, trace: seq<Event>)
    requires PcOk(task.call.request, task.pc) && task.pc.Judging?
  {
    && AtPermission(server, id, task, trace, task.pc.who, task.pc.i, task.pc.j)
    && task.seen[task.pc.i] == task.pc.visibility
    && Viewed(trace, id, task.call.request.github.repositories[task.pc.i], task.pc.visibility)
  }

  ghost predicate DeviceInv(server: Server, id: nat, task: Task, trace: seq<Event>)
    requires PcOk(task.call.request, task.pc)
    requires task.pc.Deploying? || task.pc.Preparing? || task.pc.Authorizing? || task.pc.Confirming?
             || task.pc.Redeeming?
  {
    var oxide := task.call.request.oxide;
    match task.pc
    case Deploying(who) => Verified(server, task.call.token, trace, id, who)
    case Preparing(who) => Deployable(server, id, task, trace, who)
    case Authorizing(who, client) => Deployable(server, id, task, trace, who) && UsesClient(server, oxide, client)
    case Confirming(who, client, deviceCode, userCode) =>
      && Deployable(server, id, task, trace, who) && UsesClient(server, oxide, client)
      && IssuedBefore(trace, id, client, OxideTokens.Ttl(oxide.duration), deviceCode, userCode)
    case Redeeming(who, client, deviceCode, userCode) =>
      && Deployable(server, id, task, trace, who) && UsesClient(server, oxide, client)
      && IssuedBefore(trace, id, client, OxideTokens.Ttl(oxide.duration), deviceCode, userCode)
      && Confirmed(id, client, userCode) in trace
  }

  ghost predicate TaskInv(server: Server, id: nat, task: Task, trace: seq<Event>)
    requires PcOk(task.call.request, task.pc)
  {
    var request := task.call.request;
    match task.pc
    case Arrived => task.seen == [] && LogOf(trace, id) == []
    case AwaitCheck(who, i) => AtEntry(server, id, task, trace, who, i, false)
    case HoldCheck(who, i) => AtEntry(server, id, task, trace, who, i, false)
    case Getting(_, _, _) => GettingInv(server, id, task, trace)
    case Reading(_, _, _) => FetchInv(server, id, task, trace)
    case AwaitStore(_, _, _) => FetchInv(server, id, task, trace)
    case HoldStore(_, _, _) => FetchInv(server, id, task, trace)
    case Judging(_, _, _, _) => JudgingInv(server, id, task, trace)
    case Returned(outcome) =>
      if request.GitHub? then GitHubReturned(server, id, task, trace, outcome)
      else OxideReturned(server, id, task, trace, outcome)
    case _ => DeviceInv(server, id, task, trace)
  }

  /** Cached repositories once parsed, which took App credentials. */
  predicate CacheParses(server: Server, cache: Cache) {
    forall repository | repository in cache :: server.credentials && ParseRepository(repository).Some?
  }

  predicate LockInv(w: World) {
    && (w.lock.Some? ==> w.lock.value < |w.tasks|)
    && forall k | 0 <= k < |w.tasks| :: Holds(w.tasks[k].pc) <==> w.lock == Some(k)
  }

  ghost predicate Inv(server: Server, calls: seq<Call>, w: World) {
    && WorldOk(w)
    && |w.tasks| == |calls| && (forall k | 0 <= k < |calls| :: w.tasks[k].call == calls[k])
    && LockInv(w)
    && w.cache == CacheOf(w.trace)
    && CacheParses(server, w.cache)
    && AllJustified(server, calls, w.trace)
    && forall k | 0 <= k < |w.tasks| :: TaskInv(server, k, w.tasks[k], w.trace)
  }

  /***** Other calls' events change nothing for a call *****/

  lemma PhaseFrame(
      server: Server, id: nat, github: GitHubTokenRequest, purpose: Purpose, phase: Phase,
      trace: seq<Event>, longer: seq<Event>)
    requires PurposeOk(github, purpose) && PhaseInv(server, id, github, purpose, phase, trace)
    requires forall event | event in trace :: event in longer
    ensures PhaseInv(server, id, github, purpose, phase, longer)
  {
  }

  lemma RefusedFrame(
      server: Server, id: nat, task: Task, trace: seq<Event>, longer: seq<Event>, who: Entity, e: PolicyError)
    requires task.call.request.GitHub? && RefusedBecause(server, id, task, trace, who, e)
    requires LogOf(longer, id) == LogOf(trace, id) && forall event | event in trace :: event in longer
    ensures RefusedBecause(server, id, task, longer, who, e)
  {
    if Unread(server, id, task, trace, who, e) {
      assert AtEntry(server, id, task, longer, who, |task.seen|, true);
      assert Unread(server, id, task, longer, who, e);
    } else if !(e == EmptyRequest && LogOf(trace, id) == []) {
      var j: nat :| Denied(server, id, task, trace, who, j, e);
      assert Denied(server, id, task, longer, who, j, e);
    }
  }

  lemma MintErrorFrame(
      github: GitHubTokenRequest, id: nat, trace: seq<Event>, longer: seq<Event>, e: GitHubTokenError)
    requires MintError(github, trace, id, e) && forall event | event in trace :: event in longer
    ensures MintError(github, longer, id, e)
  {
    if Parse(github).Success? {
      RequestFailedFrame(id, Mint, Parse(github).value, trace, longer, e);
    }
  }

  lemma RequestFailedFrame(
      id: nat, purpose: Purpose, parsed: ParsedGitHubRequest, trace: seq<Event>, longer: seq<Event>,
      e: GitHubTokenError)
    requires RequestFailed(trace, id, purpose, parsed, e) && forall event | event in trace :: event in longer
    ensures RequestFailed(longer, id, purpose, parsed, e)
  {
    if e.Http? || e.GitHubError? {
      var failure := if e.Http? then Transport else Status(e.status, e.message);
      assert LookFailed(trace, id, purpose, parsed, failure) ==> LookFailed(longer, id, purpose, parsed, failure);
      assert PostFailed(trace, id, purpose, parsed, failure) ==> PostFailed(longer, id, purpose, parsed, failure);
    }
  }

  lemma ServedFrame(server: Server, id: nat, task: Task, trace: seq<Event>, longer: seq<Event>, token: string)
    requires task.call.request.GitHub? && GitHubReturned(server, id, task, trace, Success(token))
    requires LogOf(longer, id) == LogOf(trace, id) && forall event | event in trace :: event in longer
    ensures GitHubReturned(server, id, task, longer, Success(token))
  {
    var github := task.call.request.github;
    var who, installation :|
      && Accepted(server, id, task, trace, who)
      && Posted(id, Mint, Parse(github).value.namespace, installation, Parse(github).value.repositoryNames,
                Parse(github).value.permissions, Success(token)) in trace;
    assert Accepted(server, id, task, longer, who);
  }

  lemma GitHubReturnedFrame(
      server: Server, id: nat, task: Task, trace: seq<Event>, longer: seq<Event>,
      outcome: Result<string, ExchangeError>)
    requires task.call.request.GitHub? && GitHubReturned(server, id, task, trace, outcome)
    requires LogOf(longer, id) == LogOf(trace, id) && forall event | event in trace :: event in longer
    ensures GitHubReturned(server, id, task, longer, outcome)
  {
    var github := task.call.request.github;
    match outcome {
      case Success(token) =>
        ServedFrame(server, id, task, trace, longer, token);
      case Failure(GitHubFailure(e)) =>
        var who :| Accepted(server, id, task, trace, who);
        assert Accepted(server, id, task, longer, who);
        MintErrorFrame(github, id, trace, longer, e);
      case Failure(Refused(e)) =>
        var who :| RefusedBecause(server, id, task, trace, who, e);
        RefusedFrame(server, id, task, trace, longer, who, e);
      case _ =>
    }
  }

  lemma OxideReturnedFrame(
      server: Server, id: nat, task: Task, trace: seq<Event>, longer: seq<Event>,
      outcome: Result<string, ExchangeError>)
    requires task.call.request.Oxide? && OxideReturned(server, id, task, trace, outcome)
    requires forall event | event in trace :: event in longer
    ensures OxideReturned(server, id, task, longer, outcome)
  {
    match outcome {
      case Success(token) =>
        var who, client, deviceCode :|
          && Deployable(server, id, task, trace, who)
          && UsesClient(server, task.call.request.oxide, client)
          && Granted(id, client, deviceCode, token) in trace;
        assert Deployable(server, id, task, longer, who);
      case Failure(OxideFailure(e)) =>
        var who :| Deployable(server, id, task, trace, who);
        assert Deployable(server, id, task, longer, who);
        assert SiloError(server, task.call.request.oxide, longer, id, e);
      case _ =>
    }
  }

  lemma ActiveFrame(server: Server, id: nat, task: Task, trace: seq<Event>, longer: seq<Event>)
    requires PcOk(task.call.request, task.pc) && !task.pc.Returned? && !task.pc.Getting?
    requires TaskInv(server, id, task, trace)
    requires LogOf(longer, id) == LogOf(trace, id) && forall event | event in trace :: event in longer
    ensures TaskInv(server, id, task, longer)
  {
    match task.pc {
      case Reading(_, i, _) => assert ProbeToken(longer, id, i);
      case _ =>
    }
  }

  lemma GettingFrame(server: Server, id: nat, task: Task, trace: seq<Event>, longer: seq<Event>)
    requires PcOk(task.call.request, task.pc) && task.pc.Getting?
    requires TaskInv(server, id, task, trace)
    requires LogOf(longer, id) == LogOf(trace, id) && forall event | event in trace :: event in longer
    ensures TaskInv(server, id, task, longer)
  {
    PhaseFrame(server, id, task.call.request.github, task.pc.purpose, task.pc.phase, trace, longer);
    match task.pc.purpose {
      case Probe(i) => assert AtEntry(server, id, task, longer, task.pc.who, i, true);
      case Mint => assert Accepted(server, id, task, longer, task.pc.who);
    }
  }

  lemma ReturnedFrame(server: Server, id: nat, task: Task, trace: seq<Event>, longer: seq<Event>)
    requires task.pc.Returned?
    requires TaskInv(server, id, task, trace)
    requires LogOf(longer, id) == LogOf(trace, id) && forall event | event in trace :: event in longer
    ensures TaskInv(server, id, task, longer)
  {
    if task.call.request.GitHub? {
      GitHubReturnedFrame(server, id, task, trace, longer, task.pc.outcome);
    } else {
      OxideReturnedFrame(server, id, task, trace, longer, task.pc.outcome);
    }
  }

  lemma TaskFrame(server: Server, id: nat, task: Task, trace: seq<Event>, events: seq<Event>)
    requires PcOk(task.call.request, task.pc)
    requires TaskInv(server, id, task, trace)
    requires forall e | e in events :: e.call != id
    ensures TaskInv(server, id, task, trace + events)
  {
    AppendOthers(trace, events, id);
    var longer := trace + events;
    if task.pc.Getting? {
      GettingFrame(server, id, task, trace, longer);
    } else if task.pc.Returned? {
      ReturnedFrame(server, id, task, trace, longer);
    } else {
      ActiveFrame(server, id, task, trace, longer);
    }
  }
}
