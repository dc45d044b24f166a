/**
 * Safety over all runs: which access tokens are ever requested, which are returned, for whom, what a
 * refusal leaves behind, and which errors remain after authorization.
 */
module ExchangeSafety {

  import opened Wrappers
  import opened Cedar
  import opened Exchange
  import opened ExchangeInvariant
  import opened ExchangeSteps
  import opened GitHubRequest
  import opened GitHubRequestLaws
  import opened Policy
  import opened TokenRequests
  import OxideTokens

  lemma EventIsJustified(server: Server, calls: seq<Call>, choices: seq<Choice>, n: nat)
    requires n < |Run(server, calls, choices).trace|
    ensures var trace := Run(server, calls, choices).trace; Justified(server, calls, trace[..n], trace[n])
  {
    RunKeeps(server, calls, choices);
    JustifiedAt(server, calls, Run(server, calls, choices).trace, n);
  }

  lemma TaskIsSound(server: Server, calls: seq<Call>, choices: seq<Choice>, id: nat)
    requires id < |calls|
    ensures var w := Run(server, calls, choices); TaskInv(server, id, w.tasks[id], w.trace)
  {
    RunKeeps(server, calls, choices);
  }

  /** The principal a call acts for, between its arrival and its return. */
  function WhoOf(pc: Pc): Option<Entity> {
    if pc.Arrived? || pc.Returned? then None else Some(pc.who)
  }

  lemma PrincipalIsVerified(server: Server, id: nat, task: Task, trace: seq<Event>)
    requires PcOk(task.call.request, task.pc) && TaskInv(server, id, task, trace)
    ensures WhoOf(task.pc).Some? ==> Verified(server, task.call.token, trace, id, task.pc.who)
  {
  }

  /***** Minting *****/

  /** This pair was allowed to the call before event `n`, by the policy and for a principal that the
      call's own token authenticates. */
  ghost predicate PairAllowedBefore(
      server: Server, calls: seq<Call>, trace: seq<Event>, n: nat, id: nat, repository: string, permission: string)
  {
    exists m: nat, who, visibility ::
      && m < n <= |trace| && id < |calls|
      && trace[m] == Allowed(id, who, repository, visibility, permission)
      && Verified(server, calls[id].token, trace[..m], id, who)
      && permission in REPOSITORY_ACTIONS
      && server.evaluate(who, permission,
                         Entity(EntityUid(Repository, repository),
                                map["name" := repository, "visibility" := visibility]))
  }

  lemma AllowedEarlier(
      server: Server, calls: seq<Call>, choices: seq<Choice>, n: nat, id: nat, repository: string, permission: string)
    requires n <= |Run(server, calls, choices).trace|
    requires AllowedBefore(Run(server, calls, choices).trace[..n], id, repository, permission)
    ensures PairAllowedBefore(server, calls, Run(server, calls, choices).trace, n, id, repository, permission)
    ensures permission in REPOSITORY_ACTIONS
  {
    var trace := Run(server, calls, choices).trace;
    var who, visibility :| Allowed(id, who, repository, visibility, permission) in trace[..n];
    var m: nat :| m < n && trace[m] == Allowed(id, who, repository, visibility, permission);
    EventIsJustified(server, calls, choices, m);
    RepositoryAllows(server.evaluate, who, permission, repository, visibility);
  }

  /** The scope is exactly the call's own request, in order, and not empty, and every pair of a
      repository and a permission in it was allowed to the call before event `n`. */
  ghost predicate MintAuthorized(
      server: Server, calls: seq<Call>, trace: seq<Event>, n: nat, id: nat,
      namespace: string, names: seq<string>, permissions: map<string, string>)
  {
    && id < |calls| && calls[id].request.GitHub?
    && MintScope(calls[id].request.github, namespace, names, permissions)
    && names != [] && permissions != map[]
    && forall name, key | name in names && key in permissions ::
         && PairAllowedBefore(server, calls, trace, n, id, JoinRepository(namespace, name),
                              JoinPermission(key, permissions[key]))
         && JoinPermission(key, permissions[key]) in REPOSITORY_ACTIONS
  }

  /** Before event `n`, the caller was authenticated and every permission was allowed on every entry
      before entry `i`; the token is for the metadata of exactly entry `i`. */
  ghost predicate ProbeAuthorized(
      server: Server, calls: seq<Call>, trace: seq<Event>, n: nat, id: nat, i: nat,
      namespace: string, names: seq<string>, permissions: map<string, string>)
  {
    && id < |calls| && calls[id].request.GitHub? && n <= |trace|
    && ProbeScope(calls[id].request.github, i, namespace, names, permissions)
    && (exists who :: Verified(server, calls[id].token, trace[..n], id, who))
    && forall k, j | 0 <= k < i && 0 <= j < |calls[id].request.github.permissions| ::
         PairAllowedBefore(server, calls, trace, n, id, calls[id].request.github.repositories[k],
                           calls[id].request.github.permissions[j])
  }

  /** A token request for the caller has exactly the authorized scope; any other one is a probe for
      the metadata of exactly one of the call's repositories. */
  ghost predicate TokenRequestAuthorized(server: Server, calls: seq<Call>, trace: seq<Event>, n: nat, event: Event)
    requires event.Posted?
  {
    var Posted(id, purpose, namespace, _, names, permissions, _) := event;
    match purpose
    case Probe(i) => ProbeAuthorized(server, calls, trace, n, id, i, namespace, names, permissions)
    case Mint => MintAuthorized(server, calls, trace, n, id, namespace, names, permissions)
  }

  lemma ProbesAreAuthorized(server: Server, calls: seq<Call>, choices: seq<Choice>, n: nat)
    requires var trace := Run(server, calls, choices).trace; n < |trace| && trace[n].Posted? && trace[n].purpose.Probe?
    ensures var trace := Run(server, calls, choices).trace; TokenRequestAuthorized(server, calls, trace, n, trace[n])
  {
    var trace := Run(server, calls, choices).trace;
    EventIsJustified(server, calls, choices, n);
    var id, i := trace[n].call, trace[n].purpose.i;
    var github := calls[id].request.github;
    forall k, j | 0 <= k < i && 0 <= j < |github.permissions|
      ensures PairAllowedBefore(server, calls, trace, n, id, github.repositories[k], github.permissions[j])
    {
      assert AllowedBefore(trace[..n], id, github.repositories[k], github.permissions[j]);
      AllowedEarlier(server, calls, choices, n, id, github.repositories[k], github.permissions[j]);
    }
  }

  lemma MintsAreAuthorized(server: Server, calls: seq<Call>, choices: seq<Choice>, n: nat)
    requires var trace := Run(server, calls, choices).trace; n < |trace| && trace[n].Posted? && trace[n].purpose.Mint?
    ensures var trace := Run(server, calls, choices).trace; TokenRequestAuthorized(server, calls, trace, n, trace[n])
  {
    var trace := Run(server, calls, choices).trace;
    EventIsJustified(server, calls, choices, n);
    var Posted(id, _, namespace, _, names, permissions, _) := trace[n];
    forall name, key | name in names && key in permissions
      ensures PairAllowedBefore(server, calls, trace, n, id, JoinRepository(namespace, name),
                                JoinPermission(key, permissions[key]))
      ensures JoinPermission(key, permissions[key]) in REPOSITORY_ACTIONS
    {
      AllowedEarlier(server, calls, choices, n, id, JoinRepository(namespace, name),
                     JoinPermission(key, permissions[key]));
    }
  }

  /** Every access token ever requested is requested for an authenticated caller, and is either an
      internal probe for the metadata of exactly one of the call's repositories, made after all earlier
      entries were allowed, or a mint whose scope is exactly the call's own request, in order, and whose
      every pair of a repository and a permission was allowed to that call before. */
  lemma EveryTokenRequestIsAuthorized(server: Server, calls: seq<Call>, choices: seq<Choice>, n: nat)
    requires n < |Run(server, calls, choices).trace| && Run(server, calls, choices).trace[n].Posted?
    ensures var trace := Run(server, calls, choices).trace;
            TokenRequestAuthorized(server, calls, trace, n, trace[n])
  {
    if Run(server, calls, choices).trace[n].purpose.Probe? {
      ProbesAreAuthorized(server, calls, choices, n);
    } else {
      MintsAreAuthorized(server, calls, choices, n);
    }
  }

  /** The installation a token is requested from belongs to the request's own namespace: GitHub named
      it for that namespace, for the last account kind that answered. */
  lemma InstallationMatchesNamespace(server: Server, calls: seq<Call>, choices: seq<Choice>, n: nat)
    requires var trace := Run(server, calls, choices).trace; n < |trace| && trace[n].Posted?
    ensures var trace := Run(server, calls, choices).trace;
            var Posted(id, purpose, namespace, installation, _, _, _) := trace[n];
            exists a: nat, b: nat, orgs, users ::
              && a < n && b < n
              && trace[a] == Looked(id, purpose, "orgs", namespace, orgs)
              && trace[b] == Looked(id, purpose, "users", namespace, users)
              && FoundBy(orgs, users, installation)
  {
    var trace := Run(server, calls, choices).trace;
    EventIsJustified(server, calls, choices, n);
    var Posted(id, purpose, namespace, installation, _, _, _) := trace[n];
    var orgs, users :|
      && Looked(id, purpose, "orgs", namespace, orgs) in trace[..n]
      && Looked(id, purpose, "users", namespace, users) in trace[..n]
      && FoundBy(orgs, users, installation);
    var a: nat :| a < n && trace[a] == Looked(id, purpose, "orgs", namespace, orgs);
    var b: nat :| b < n && trace[b] == Looked(id, purpose, "users", namespace, users);
  }

  /** A call for GitHub that returns a token returns the answer to its own mint, never a probe's. */
  lemma ReturnedTokensWereMinted(
      server: Server, calls: seq<Call>, choices: seq<Choice>, id: nat, token: string)
    requires id < |calls| && calls[id].request.GitHub?
    requires Run(server, calls, choices).tasks[id].pc == Returned(Success(token))
    ensures var trace := Run(server, calls, choices).trace;
            exists n: nat, namespace, installation, names, permissions ::
              && n < |trace|
              && trace[n] == Posted(id, Mint, namespace, installation, names, permissions, Success(token))
              && MintScope(calls[id].request.github, namespace, names, permissions)
  {
    var w := Run(server, calls, choices);
    TaskIsSound(server, calls, choices, id);
    var who, installation :|
      && Accepted(server, id, w.tasks[id], w.trace, who)
      && Posted(id, Mint, Parse(calls[id].request.github).value.namespace, installation,
                Parse(calls[id].request.github).value.repositoryNames,
                Parse(calls[id].request.github).value.permissions, Success(token)) in w.trace;
    ParsedScopeIsRawScope(calls[id].request.github);
  }

  /***** After authorization *****/

  /** Once authorized, a GitHub request can fail for two reasons of its own only: its repositories do
      not share a namespace, or, if they do, it names a permission twice. Otherwise it fails exactly
      because signing failed, because both kinds of account answered that the App is not installed, or
      because one of its requests to GitHub came back with the error it fails with. */
  lemma OnlyConflictsRemainAfterAuthorization(
      server: Server, calls: seq<Call>, choices: seq<Choice>, id: nat, e: GitHubTokenError)
    requires id < |calls|
    requires Run(server, calls, choices).tasks[id].pc == Returned(Failure(GitHubFailure(e)))
    ensures calls[id].request.GitHub?
    ensures MintErrorOk(calls[id].request.github, Run(server, calls, choices).trace, id, e)
  {
    MintErrorOfRun(server, calls, choices, id, e);
    MintErrorsAreConflicts(calls[id].request.github, Run(server, calls, choices).trace, id, e);
  }

  /** What an error of an authorized request means. */
  ghost predicate MintErrorOk(github: GitHubTokenRequest, trace: seq<Event>, id: nat, e: GitHubTokenError) {
    var repositories, permissions := github.repositories, github.permissions;
    && !e.NoCredentials? && !e.NoRepositories? && !e.NotAGitHubRepository? && !e.NotAPermission?
    && (e.DifferentOrgs? <==> NamespacesDiffer(repositories))
    && (e.DuplicatePermission? <==> !NamespacesDiffer(repositories) && exists name :: NamedTwice(permissions, name))
    && (e.DuplicatePermission? ==> NamedTwice(permissions, e.name))
    && (!e.DifferentOrgs? && !e.DuplicatePermission? ==>
          Parse(github).Success? && RequestFailed(trace, id, Mint, Parse(github).value, e))
  }

  lemma MintErrorOfRun(server: Server, calls: seq<Call>, choices: seq<Choice>, id: nat, e: GitHubTokenError)
    requires id < |calls|
    requires Run(server, calls, choices).tasks[id].pc == Returned(Failure(GitHubFailure(e)))
    ensures calls[id].request.GitHub? && MintError(calls[id].request.github, Run(server, calls, choices).trace, id, e)
  {
    TaskIsSound(server, calls, choices, id);
  }

  lemma MintErrorsAreConflicts(github: GitHubTokenRequest, trace: seq<Event>, id: nat, e: GitHubTokenError)
    requires MintError(github, trace, id, e)
    ensures MintErrorOk(github, trace, id, e)
  {
    match Parse(github) {
      case Success(_) => NoConflicts(github);
      case Failure(_) =>
        if e.DifferentOrgs? {
          ConflictingNamespaces(github);
        } else {
          OneNamespaceOnly(github);
          ConflictingPermissions(github, e.name);
        }
    }
  }

  lemma OneNamespaceOnly(github: GitHubTokenRequest)
    requires ScopeOf(github.repositories).Success?
    ensures !NamespacesDiffer(github.repositories)
  {
    ScopeAcceptsExactly(github.repositories);
  }

  lemma NoConflicts(github: GitHubTokenRequest)
    requires Parse(github).Success?
    ensures !NamespacesDiffer(github.repositories)
    ensures forall name :: !NamedTwice(github.permissions, name)
  {
    OneNamespaceOnly(github);
    LevelsAcceptExactly(github.permissions);
  }

  predicate NamespacesDiffer(repositories: seq<string>) {
    exists i, k | 0 <= i < |repositories| && 0 <= k < |repositories| ::
      NamespaceOf(repositories[i]) != NamespaceOf(repositories[k])
  }

  predicate NamedTwice(permissions: seq<string>, name: string) {
    exists j, k | 0 <= j < k < |permissions| ::
      NameOf(permissions[j]) == Some(name) == NameOf(permissions[k])
  }

  lemma ConflictingNamespaces(github: GitHubTokenRequest)
    requires Parse(github).Failure? && Parse(github).error.DifferentOrgs?
    ensures NamespacesDiffer(github.repositories)
  {
    FirstFailingRepositoryIsLeast(github.repositories, 0);
    var i := FirstFailingRepository(github.repositories, 0);
    assert NamespaceOf(github.repositories[0]) != NamespaceOf(github.repositories[i]);
  }

  lemma ConflictingPermissions(github: GitHubTokenRequest, name: string)
    requires Parse(github).Failure? && Parse(github).error == DuplicatePermission(name)
    ensures NamedTwice(github.permissions, name)
  {
    FirstFailingPermissionIsLeast(github.permissions, 0);
    var j := FirstFailingPermission(github.permissions, 0);
    var k: nat :| k < j && NameOf(github.permissions[k]) == Some(name);
    assert NameOf(github.permissions[j]) == Some(name);
  }

  function NamespaceOf(repository: string): Option<string> {
    match ParseRepository(repository)
    case Some((ns, _)) => Some(ns)
    case None => None
  }

  /** Once a silo is allowed, the error tells exactly which check failed, in the order of the checks; a
      request that passes them all fails only with the error of a request that the silo failed. */
  lemma SiloErrorsAreExact(
      server: Server, calls: seq<Call>, choices: seq<Choice>, id: nat, e: OxideTokens.OxideError)
    requires id < |calls|
    requires Run(server, calls, choices).tasks[id].pc == Returned(Failure(OxideFailure(e)))
    ensures calls[id].request.Oxide?
    ensures SiloErrorOk(server, calls[id].request.oxide, Run(server, calls, choices).trace, id, e)
  {
    SiloErrorOfRun(server, calls, choices, id, e);
    SiloErrorsMean(server, calls[id].request.oxide, Run(server, calls, choices).trace, id, e);
  }

  ghost predicate SiloErrorOk(
      server: Server, oxide: OxideTokenRequest, trace: seq<Event>, id: nat, e: OxideTokens.OxideError)
  {
    match server.oxide
    case None => e == OxideTokens.NotConfigured
    case Some(state) =>
      && (e == OxideTokens.NoExpirationDisallowed <==> oxide.duration == 0 && !state.allowTokensWithoutExpiry)
      && (e == OxideTokens.TooLongExpiration(state.maxDuration) <==> oxide.duration > state.maxDuration)
      && (e == OxideTokens.SiloNotConfigured(oxide.silo.text) <==>
            && OxideTokens.Bounded(OxideTokens.Ttl(oxide.duration), state.allowTokensWithoutExpiry, state.maxDuration)
            && oxide.silo.text !in state.clients)
      && (e.ByteStream? || e.DeviceAuthRequest? || e.Remote? <==> SiloReady(server, oxide))
      && (SiloReady(server, oxide) ==> RequestToSiloFailed(trace, id, e))
  }

  lemma SiloErrorOfRun(
      server: Server, calls: seq<Call>, choices: seq<Choice>, id: nat, e: OxideTokens.OxideError)
    requires id < |calls|
    requires Run(server, calls, choices).tasks[id].pc == Returned(Failure(OxideFailure(e)))
    ensures calls[id].request.Oxide?
    ensures SiloError(server, calls[id].request.oxide, Run(server, calls, choices).trace, id, e)
  {
    TaskIsSound(server, calls, choices, id);
  }

  lemma SiloErrorsMean(
      server: Server, oxide: OxideTokenRequest, trace: seq<Event>, id: nat, e: OxideTokens.OxideError)
    requires SiloError(server, oxide, trace, id, e)
    ensures SiloErrorOk(server, oxide, trace, id, e)
  {
  }

  /***** What authorization leaves behind *****/

  /** The call is minting its token, or has returned with a token or a minting error. */
  predicate Authorized(pc: Pc) {
    || (pc.Getting? && pc.purpose.Mint?)
    || (pc.Returned? && (pc.outcome.Success? || pc.outcome.error.GitHubFailure?))
  }

  /** A call past authorization has judged every pair once, entry by entry in list order, all the
      permissions of an entry under one visibility; a refused call has judged exactly the pairs before
      the one that refused it, and asked for no visibility after it. */
  lemma AuthorizationLog(server: Server, calls: seq<Call>, choices: seq<Choice>, id: nat)
    requires id < |calls| && calls[id].request.GitHub?
    ensures var w := Run(server, calls, choices);
            var github, seen, pc, log :=
              calls[id].request.github, w.tasks[id].seen, w.tasks[id].pc, LogOf(w.trace, id);
            && (Authorized(pc) ==>
                  && github.repositories != [] && github.permissions != []
                  && |seen| == |github.repositories|
                  && log == FullLog(github, seen)
                  && |log| == |github.repositories| * (1 + |github.permissions|))
            && (pc.Returned? && pc.outcome.Failure? && pc.outcome.error.Refused? ==>
                  exists who :: RefusedBecause(server, id, w.tasks[id], w.trace, who, pc.outcome.error.policyError))
  {
    var w := Run(server, calls, choices);
    TaskIsSound(server, calls, choices, id);
    if Authorized(w.tasks[id].pc) {
      AuthorizedIsAccepted(server, id, w.tasks[id], w.trace);
      FullLogLength(calls[id].request.github, w.tasks[id].seen);
    } else if w.tasks[id].pc.Returned? && w.tasks[id].pc.outcome.error.Refused? {
      RefusalIsExplained(server, id, w.tasks[id], w.trace);
    }
  }

  lemma AuthorizedIsAccepted(server: Server, id: nat, task: Task, trace: seq<Event>)
    requires PcOk(task.call.request, task.pc) && TaskInv(server, id, task, trace)
    requires task.call.request.GitHub? && Authorized(task.pc)
    ensures exists who :: Accepted(server, id, task, trace, who)
  {
    if task.pc.Getting? {
      assert Accepted(server, id, task, trace, task.pc.who);
    }
  }

  lemma RefusalIsExplained(server: Server, id: nat, task: Task, trace: seq<Event>)
    requires PcOk(task.call.request, task.pc) && TaskInv(server, id, task, trace)
    requires task.call.request.GitHub?
    requires task.pc.Returned? && task.pc.outcome.Failure? && task.pc.outcome.error.Refused?
    ensures exists who :: RefusedBecause(server, id, task, trace, who, task.pc.outcome.error.policyError)
  {
  }

  lemma {:induction false} FullLogLength(github: GitHubTokenRequest, seen: seq<string>)
    requires |seen| <= |github.repositories|
    ensures |FullLog(github, seen)| == |seen| * (1 + |github.permissions|)
  {
    if seen != [] {
      var last := |seen| - 1;
      FullLogLength(github, seen[..last]);
      JudgementsLength(github.repositories[last], seen[last], github.permissions, |github.permissions|);
      assert |seen| * (1 + |github.permissions|) == last * (1 + |github.permissions|) + (1 + |github.permissions|);
    }
  }

  lemma {:induction false} JudgementsLength(repository: string, visibility: string, permissions: seq<string>, j: nat)
    requires j <= |permissions|
    ensures |Judgements(repository, visibility, permissions, j)| == j
  {
    if j > 0 {
      JudgementsLength(repository, visibility, permissions, j - 1);
    }
  }

  /***** The mutex *****/

  /** Whoever holds the mutex is in a locked region: no call waits for the network, or returns, with it. */
  lemma MutexIsNeverHeldAcrossRequests(server: Server, calls: seq<Call>, choices: seq<Choice>, id: nat)
    requires id < |calls|
    ensures var w := Run(server, calls, choices);
            w.lock == Some(id) <==> w.tasks[id].pc.HoldCheck? || w.tasks[id].pc.HoldStore?
  {
    RunKeeps(server, calls, choices);
  }
}
