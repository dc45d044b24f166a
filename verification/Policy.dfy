/**
 * Authorization (`src/policy.rs`): the entities, the schema gate, the visibility cache and the
 * nested loop over repositories and permissions.
 */
module Policy {

  import opened Wrappers
  import opened Cedar
  import opened GitHubRequest
  import opened Oidc
  import opened Text
  import opened TokenRequests

  datatype PolicyError =
    | Entities
    | InvalidRequest
    | NotMatching(action: string)
    | EmptyRequest
    | NoPrincipal
    | GetVisibility(repository: string, cause: GitHubTokenError)

  /***** Entities *****/

  function OrEmpty(claim: Option<string>): string {
    match claim
    case Some(text) => text
    case None => ""
  }

  function WorkflowRunAttributes(claims: Claims): map<string, string> {
    var attrs := map[
      "repository" := OrEmpty(claims.GetStr("repository")),
      "repository_owner" := OrEmpty(claims.GetStr("repository_owner")),
      "repository_visibility" := OrEmpty(claims.GetStr("repository_visibility")),
      "event_name" := OrEmpty(claims.GetStr("event_name")),
      "ref" := OrEmpty(claims.GetStr("ref")),
      "iss" := OrEmpty(claims.GetStr("iss"))
    ];
    match claims.GetStr("environment")
    case Some(environment) => attrs["environment" := environment]
    case None => attrs
  }

  function WorkflowRunEntity(claims: Claims): Result<Entity, PolicyError> {
    match claims.GetStr("jti")
    case None => Failure(NoPrincipal)
    case Some(jti) => Success(Entity(EntityUid(WorkflowRun, jti), WorkflowRunAttributes(claims)))
  }

  function RepositoryEntity(name: string, visibility: string): Entity {
    Entity(EntityUid(Repository, name), map["name" := name, "visibility" := visibility])
  }

  function SiloEntity(url: Url): Entity {
    Entity(EntityUid(Silo, url.text), map["url" := url.text])
  }

  /** The text is the claim's, or empty when there is no such claim or it is a number. */
  predicate HoldsText(text: string, claims: map<string, ClaimValue>, name: string) {
    if name in claims && claims[name].String? then claims[name] == String(text) else text == ""
  }

  /** The principal is the workflow run that the claims describe: identified by its `jti`, each required
      attribute holding the text claim of the same name, and an environment only if it is claimed. */
  predicate Describes(who: Entity, claims: map<string, ClaimValue>) {
    && who.uid.entityType == WorkflowRun
    && "jti" in claims && claims["jti"] == String(who.uid.id)
    && "repository" in who.attrs && HoldsText(who.attrs["repository"], claims, "repository")
    && "repository_owner" in who.attrs && HoldsText(who.attrs["repository_owner"], claims, "repository_owner")
    && "repository_visibility" in who.attrs
    && HoldsText(who.attrs["repository_visibility"], claims, "repository_visibility")
    && "event_name" in who.attrs && HoldsText(who.attrs["event_name"], claims, "event_name")
    && "ref" in who.attrs && HoldsText(who.attrs["ref"], claims, "ref")
    && "iss" in who.attrs && HoldsText(who.attrs["iss"], claims, "iss")
    && ("environment" in who.attrs <==> "environment" in claims && claims["environment"].String?)
    && ("environment" in who.attrs ==> claims["environment"] == String(who.attrs["environment"]))
    && who.attrs.Keys <= {"repository", "repository_owner", "repository_visibility", "event_name", "ref", "iss",
                          "environment"}
  }

  /** Claims give a principal exactly when they carry a textual `jti`, and then the one they describe. */
  lemma PrincipalsAreDescribed(claims: Claims)
    ensures var r := WorkflowRunEntity(claims);
            && (r.Success? <==> "jti" in claims.claims && claims.claims["jti"].String?)
            && (r.Failure? ==> r.error == NoPrincipal)
            && (r.Success? ==> Describes(r.value, claims.claims))
  {
    PrincipalsConform(claims);
  }

  /** The builder as the program runs it: a local map, extended when there is an environment. */
  method BuildWorkflowRun(claims: Claims) returns (r: Result<Entity, PolicyError>)
    ensures r == WorkflowRunEntity(claims)
    ensures r.Success? <==> "jti" in claims.claims && claims.claims["jti"].String?
    ensures r.Failure? ==> r.error == NoPrincipal
    ensures r.Success? ==> Describes(r.value, claims.claims) && Conforms(r.value)
  {
    PrincipalsAreDescribed(claims);
    var jti := claims.GetStr("jti");
    if jti.None? {
      return Failure(NoPrincipal);
    }
    var attrs := map[
      "repository" := OrEmpty(claims.GetStr("repository")),
      "repository_owner" := OrEmpty(claims.GetStr("repository_owner")),
      "repository_visibility" := OrEmpty(claims.GetStr("repository_visibility")),
      "event_name" := OrEmpty(claims.GetStr("event_name")),
      "ref" := OrEmpty(claims.GetStr("ref")),
      "iss" := OrEmpty(claims.GetStr("iss"))
    ];
    var environment := claims.GetStr("environment");
    if environment.Some? {
      attrs := attrs["environment" := environment.value];
    }
    PrincipalsConform(claims);
    return Success(Entity(EntityUid(WorkflowRun, jti.value), attrs));
  }

  /** Whatever the claims are, a principal built from them conforms to the schema. */
  lemma PrincipalsConform(claims: Claims)
    ensures var r := WorkflowRunEntity(claims);
            r.Success? ==> r.value.uid.entityType == WorkflowRun && Conforms(r.value)
  {
    var keys := WorkflowRunAttributes(claims).Keys;
    var required := RequiredAttributes(WorkflowRun);
    assert keys == required || keys == required + {"environment"};
  }

  /** Resources conform to the schema: a repository is identified by its string and carries it and its
      visibility; a silo is identified by its URL's text and carries it. */
  lemma ResourcesConform(name: string, visibility: string, url: Url)
    ensures Conforms(RepositoryEntity(name, visibility)) && Conforms(SiloEntity(url))
    ensures RepositoryEntity(name, visibility) ==
            Entity(EntityUid(Repository, name), map["name" := name, "visibility" := visibility])
    ensures SiloEntity(url) == Entity(EntityUid(Silo, url.text), map["url" := url.text])
  {
    assert RepositoryEntity(name, visibility).attrs.Keys == {"name", "visibility"};
    assert SiloEntity(url).attrs.Keys == {"url"};
  }

  /***** One authorization decision *****/

  function Authorize(evaluate: Evaluation, principal: Entity, action: string, resource: Entity)
    : Result<(), PolicyError>
  {
    if !Conforms(principal) || !Conforms(resource) then Failure(Entities)
    else if !AppliesTo(action, principal.uid.entityType, resource.uid.entityType) then Failure(InvalidRequest)
    else if evaluate(principal, action, resource) then Success(())
    else Failure(NotMatching(action))
  }

  /** For principals built from claims, the schema gate and the policy set decide alone: an action
      is allowed on a repository exactly when the schema declares it there and the policy allows it. */
  lemma RepositoryDecision(evaluate: Evaluation, claims: Claims, action: string, name: string, visibility: string)
    requires WorkflowRunEntity(claims).Success?
    ensures var principal := WorkflowRunEntity(claims).value;
            var resource := Entity(EntityUid(Repository, name), map["name" := name, "visibility" := visibility]);
            Authorize(evaluate, principal, action, RepositoryEntity(name, visibility)) ==
            if action !in REPOSITORY_ACTIONS then Failure(InvalidRequest)
            else if evaluate(principal, action, resource) then Success(())
            else Failure(NotMatching(action))
  {
    PrincipalsConform(claims);
    ResourcesConform(name, visibility, Url(""));
  }

  lemma SiloDecision(evaluate: Evaluation, claims: Claims, action: string, url: Url)
    requires WorkflowRunEntity(claims).Success?
    ensures var principal := WorkflowRunEntity(claims).value;
            var resource := Entity(EntityUid(Silo, url.text), map["url" := url.text]);
            Authorize(evaluate, principal, action, SiloEntity(url)) ==
            if action != "deploy" then Failure(InvalidRequest)
            else if evaluate(principal, action, resource) then Success(())
            else Failure(NotMatching(action))
  {
    PrincipalsConform(claims);
    ResourcesConform("", "", url);
  }

  /** The actions that the schema declares for repositories, by level. */
  lemma RepositoryActionsAre()
    ensures REPOSITORY_ACTIONS == Leveled(READABLE, "read") + Leveled(WRITABLE, "write")
  {
    assert JoinPermission("contents", "read") == "contents:read";
    assert JoinPermission("pull_requests", "read") == "pull_requests:read";
    assert JoinPermission("actions", "read") == "actions:read";
    assert JoinPermission("checks", "read") == "checks:read";
    assert JoinPermission("administration", "read") == "administration:read";
    assert JoinPermission("environments", "read") == "environments:read";
    assert JoinPermission("members", "read") == "members:read";
    assert JoinPermission("contents", "write") == "contents:write";
    assert JoinPermission("pull_requests", "write") == "pull_requests:write";
    assert JoinPermission("administration", "write") == "administration:write";
    assert JoinPermission("environments", "write") == "environments:write";
    forall action
      ensures action in Leveled(READABLE, "read") + Leveled(WRITABLE, "write") ==> action in REPOSITORY_ACTIONS
    {
    }
    assert REPOSITORY_ACTIONS <= Leveled(READABLE, "read") + Leveled(WRITABLE, "write");
  }

  const READABLE :=
    {"contents", "pull_requests", "actions", "checks", "administration", "environments", "members"}

  const WRITABLE := {"contents", "pull_requests", "administration", "environments"}

  function Leveled(names: set<string>, level: string): set<string> {
    set name | name in names :: JoinPermission(name, level)
  }

  /** No action is declared for both kinds of resource, and each one a repository offers is a
      permission string that parses. */
  lemma DeclaredActionsParse(action: string)
    requires action in REPOSITORY_ACTIONS
    ensures ParsePermission(action).Some? && action !in SILO_ACTIONS
  {
    ActionCharacters(action);
    SplitOnceCuts(action, ':');
  }

  lemma ActionCharacters(action: string)
    requires action in REPOSITORY_ACTIONS
    ensures ':' in action && '/' !in action && action !in SILO_ACTIONS
  {
    assert action[|action| - 5] == ':' || action[|action| - 6] == ':';
  }

  /***** The visibility cache *****/

  /** Clock values count nanoseconds. */
  const HOUR := 3_600_000_000_000

  datatype CachedVisibility = CachedVisibility(visibility: string, expiresAt: int)

  type Cache = map<string, CachedVisibility>

  /** The first locked region: a stored visibility that has not expired. */
  function Lookup(cache: Cache, repository: string, now: int): Option<string> {
    if repository in cache && cache[repository].expiresAt >= now then Some(cache[repository].visibility)
    else None
  }

  /** The second locked region: storing a fetched visibility for an hour. */
  function Store(cache: Cache, repository: string, visibility: string, now: int): Cache {
    cache[repository := CachedVisibility(visibility, now + HOUR)]
  }

  /***** Authorization without a cache *****/

  /** Where visibilities come from: one fixed answer, error or not, for each repository string. */
  type Source = string -> Result<string, GitHubTokenError>

  /** Permissions `j` and later against one resource, up to the first denial. */
  function JudgeFrom(evaluate: Evaluation, principal: Entity, resource: Entity, permissions: seq<string>, j: nat)
    : Result<(), PolicyError>
    requires j <= |permissions|
    decreases |permissions| - j
  {
    if j == |permissions| then Success(())
    else
      match Authorize(evaluate, principal, permissions[j], resource)
      case Failure(e) => Failure(e)
      case Success(_) => JudgeFrom(evaluate, principal, resource, permissions, j + 1)
  }

  /** Repositories `i` and later, each with the visibility the source reports. */
  function UncachedFrom(evaluate: Evaluation, principal: Entity, request: GitHubTokenRequest, source: Source, i: nat)
    : Result<(), PolicyError>
    requires i <= |request.repositories|
    decreases |request.repositories| - i
  {
    if i == |request.repositories| then Success(())
    else
      var repository := request.repositories[i];
      match source(repository)
      case Failure(e) => Failure(GetVisibility(repository, e))
      case Success(visibility) =>
        match JudgeFrom(evaluate, principal, RepositoryEntity(repository, visibility), request.permissions, 0)
        case Failure(e) => Failure(e)
        case Success(_) => UncachedFrom(evaluate, principal, request, source, i + 1)
  }

  /** The decision on a whole request when every visibility is asked of the source itself. */
  function Uncached(evaluate: Evaluation, principal: Entity, request: TokenRequest, source: Source)
    : Result<(), PolicyError>
  {
    match request
    case Oxide(oxide) => Authorize(evaluate, principal, "deploy", SiloEntity(oxide.silo))
    case GitHub(github) =>
      if github.repositories == [] || github.permissions == [] then Failure(EmptyRequest)
      else UncachedFrom(evaluate, principal, github, source, 0)
  }

  /** One pair of repository and permission is allowed, with the visibility the source reports. */
  predicate PairAllowed(
      evaluate: Evaluation, principal: Entity, source: Source, repository: string, permission: string)
  {
    && source(repository).Success?
    && principal.uid.entityType == WorkflowRun && Conforms(principal)
    && permission in REPOSITORY_ACTIONS
    && evaluate(principal, permission,
                Entity(EntityUid(Repository, repository),
                       map["name" := repository, "visibility" := source(repository).value]))
  }

  /** An action is allowed on a repository exactly when the schema declares it and the policy allows it
      on this very entity. */
  lemma RepositoryAllows(evaluate: Evaluation, principal: Entity, permission: string, name: string, visibility: string)
    ensures Authorize(evaluate, principal, permission, RepositoryEntity(name, visibility)).Success? <==>
            && principal.uid.entityType == WorkflowRun && Conforms(principal)
            && permission in REPOSITORY_ACTIONS
            && evaluate(principal, permission,
                        Entity(EntityUid(Repository, name), map["name" := name, "visibility" := visibility]))
  {
    ResourcesConform(name, visibility, Url(""));
  }

  lemma SiloAllows(evaluate: Evaluation, principal: Entity, action: string, url: Url)
    ensures Authorize(evaluate, principal, action, SiloEntity(url)).Success? <==>
            && principal.uid.entityType == WorkflowRun && Conforms(principal)
            && action == "deploy"
            && evaluate(principal, action, Entity(EntityUid(Silo, url.text), map["url" := url.text]))
  {
    ResourcesConform("", "", url);
  }

  lemma {:induction false} JudgeAccepts(
      evaluate: Evaluation, principal: Entity, resource: Entity, permissions: seq<string>, j: nat)
    requires j <= |permissions|
    ensures JudgeFrom(evaluate, principal, resource, permissions, j).Success? <==>
            forall p | p in permissions[j..] :: Authorize(evaluate, principal, p, resource).Success?
    decreases |permissions| - j
  {
    if j < |permissions| {
      assert permissions[j..] == [permissions[j]] + permissions[j + 1..];
      JudgeAccepts(evaluate, principal, resource, permissions, j + 1);
    }
  }

  lemma RepositoryAccepts(
      evaluate: Evaluation, principal: Entity, request: GitHubTokenRequest, source: Source, repository: string)
    requires request.permissions != []
    ensures (forall p | p in request.permissions :: PairAllowed(evaluate, principal, source, repository, p)) <==>
            && source(repository).Success?
            && JudgeFrom(evaluate, principal, RepositoryEntity(repository, source(repository).value),
                         request.permissions, 0).Success?
  {
    if source(repository).Success? {
      JudgeAccepts(evaluate, principal, RepositoryEntity(repository, source(repository).value), request.permissions, 0);
      assert request.permissions[0..] == request.permissions;
    } else {
      assert !PairAllowed(evaluate, principal, source, repository, request.permissions[0]);
    }
  }

  lemma {:induction false} UncachedFromAccepts(
      evaluate: Evaluation, principal: Entity, request: GitHubTokenRequest, source: Source, i: nat)
    requires i <= |request.repositories| && request.permissions != []
    ensures UncachedFrom(evaluate, principal, request, source, i).Success? <==>
            forall r, p | r in request.repositories[i..] && p in request.permissions ::
              PairAllowed(evaluate, principal, source, r, p)
    decreases |request.repositories| - i
  {
    if i < |request.repositories| {
      assert request.repositories[i..] == [request.repositories[i]] + request.repositories[i + 1..];
      RepositoryAccepts(evaluate, principal, request, source, request.repositories[i]);
      UncachedFromAccepts(evaluate, principal, request, source, i + 1);
    }
  }

  /** A GitHub request is accepted exactly when neither list is empty and every pair of a listed
      repository and a listed permission is allowed. */
  lemma AcceptsExactly(evaluate: Evaluation, principal: Entity, request: GitHubTokenRequest, source: Source)
    ensures Uncached(evaluate, principal, GitHub(request), source).Success? <==>
            && request.repositories != [] && request.permissions != []
            && forall r, p | r in request.repositories && p in request.permissions ::
                 PairAllowed(evaluate, principal, source, r, p)
  {
    if request.repositories != [] && request.permissions != [] {
      UncachedFromAccepts(evaluate, principal, request, source, 0);
      assert request.repositories[0..] == request.repositories;
    }
  }

  /** Order and repetition of either list do not change whether a request is accepted. */
  lemma AcceptanceDependsOnSets(
      evaluate: Evaluation, principal: Entity, source: Source,
      request: GitHubTokenRequest, other: GitHubTokenRequest)
    requires forall r :: r in request.repositories <==> r in other.repositories
    requires forall p :: p in request.permissions <==> p in other.permissions
    ensures Uncached(evaluate, principal, GitHub(request), source).Success? <==>
            Uncached(evaluate, principal, GitHub(other), source).Success?
  {
    AcceptsExactly(evaluate, principal, request, source);
    AcceptsExactly(evaluate, principal, other, source);
    assert request.repositories != [] ==> request.repositories[0] in other.repositories;
    assert other.repositories != [] ==> other.repositories[0] in request.repositories;
    assert request.permissions != [] ==> request.permissions[0] in other.permissions;
    assert other.permissions != [] ==> other.permissions[0] in request.permissions;
  }

  /** The schema gates every accepted request, whatever the policy set allows: only actions declared
      for repositories pass, so never `deploy`, and all of them parse as permissions. */
  lemma AcceptedPermissionsAreDeclared(
      evaluate: Evaluation, principal: Entity, request: GitHubTokenRequest, source: Source, permission: string)
    requires Uncached(evaluate, principal, GitHub(request), source).Success?
    requires permission in request.permissions
    ensures permission in REPOSITORY_ACTIONS && permission != "deploy" && ParsePermission(permission).Some?
  {
    AcceptsExactly(evaluate, principal, request, source);
    assert PairAllowed(evaluate, principal, source, request.repositories[0], permission);
    DeclaredActionsParse(permission);
  }

  /***** The program's loops over the shared cache *****/

  predicate CacheAgrees(cache: Cache, source: Source) {
    forall r | r in cache :: source(r) == Success(cache[r].visibility)
  }

  /** What happens around one visibility query: the entries other calls stored before its check and
      while it waited for GitHub, the clock in its two locked regions, and GitHub's answer. */
  datatype Round = Round(
    before: Cache,
    checkedAt: int,
    answer: Result<string, GitHubTokenError>,
    during: Cache,
    storedAt: int)

  predicate RoundAgrees(round: Round, repository: string, source: Source) {
    && CacheAgrees(round.before, source)
    && CacheAgrees(round.during, source)
    && round.answer == source(repository)
  }

  ghost predicate RoundsAgree(rounds: nat -> Round, request: TokenRequest, source: Source) {
    request.GitHub? ==>
      forall i: nat | i < |request.github.repositories| ::
        RoundAgrees(rounds(i), request.github.repositories[i], source)
  }

  /** The first `n` entries of the list were judged under `views` and every permission was allowed. */
  predicate AllowedUnder(
      evaluate: Evaluation, principal: Entity, request: GitHubTokenRequest, views: seq<string>, n: nat)
  {
    && |views| == n <= |request.repositories|
    && forall i | 0 <= i < n ::
         JudgeFrom(evaluate, principal, RepositoryEntity(request.repositories[i], views[i]), request.permissions, 0)
           .Success?
  }

  /** What a query and the round around it come to: the answer and the cache left behind. */
  function Queried(cache: Cache, repository: string, round: Round): (Result<string, PolicyError>, Cache) {
    var seen := cache + round.before;
    match Lookup(seen, repository, round.checkedAt)
    case Some(visibility) => (Success(visibility), seen)
    case None =>
      match round.answer
      case Failure(e) => (Failure(GetVisibility(repository, e)), seen + round.during)
      case Success(visibility) =>
        (Success(visibility), Store(seen + round.during, repository, visibility, round.storedAt))
  }

  lemma QueryAgrees(cache: Cache, repository: string, round: Round, source: Source)
    requires CacheAgrees(cache, source) && RoundAgrees(round, repository, source)
    ensures var (r, cache') := Queried(cache, repository, round);
            && CacheAgrees(cache', source)
            && match source(repository)
               case Success(visibility) => r == Success(visibility)
               case Failure(e) => r == Failure(GetVisibility(repository, e))
  {
  }

  /** The decision from repository entry `i` on, `rounds(k)` surrounding the query for entry `k`. */
  function EnsuredFrom(
      evaluate: Evaluation, principal: Entity, request: GitHubTokenRequest, rounds: nat -> Round, cache: Cache, i: nat)
    : (Result<(), PolicyError>, Cache)
    requires i <= |request.repositories|
    decreases |request.repositories| - i
  {
    if i == |request.repositories| then (Success(()), cache)
    else
      var repository := request.repositories[i];
      var (answer, cache') := Queried(cache, repository, rounds(i));
      match answer
      case Failure(e) => (Failure(e), cache')
      case Success(visibility) =>
        match JudgeFrom(evaluate, principal, RepositoryEntity(repository, visibility), request.permissions, 0)
        case Failure(e) => (Failure(e), cache')
        case Success(_) => EnsuredFrom(evaluate, principal, request, rounds, cache', i + 1)
  }

  function Ensured(
      evaluate: Evaluation, principal: Entity, request: TokenRequest, rounds: nat -> Round, cache: Cache)
    : (Result<(), PolicyError>, Cache)
  {
    match request
    case Oxide(oxide) => (Authorize(evaluate, principal, "deploy", SiloEntity(oxide.silo)), cache)
    case GitHub(github) =>
      if github.repositories == [] || github.permissions == [] then (Failure(EmptyRequest), cache)
      else EnsuredFrom(evaluate, principal, github, rounds, cache, 0)
  }

  lemma {:induction false} EnsuredFromAgrees(
      evaluate: Evaluation, principal: Entity, request: GitHubTokenRequest, rounds: nat -> Round, cache: Cache,
      source: Source, i: nat)
    requires i <= |request.repositories|
    requires CacheAgrees(cache, source) && RoundsAgree(rounds, GitHub(request), source)
    ensures var (r, cache') := EnsuredFrom(evaluate, principal, request, rounds, cache, i);
            r == UncachedFrom(evaluate, principal, request, source, i) && CacheAgrees(cache', source)
    decreases |request.repositories| - i
  {
    if i < |request.repositories| {
      var repository := request.repositories[i];
      QueryAgrees(cache, repository, rounds(i), source);
      if source(repository).Success? {
        EnsuredFromAgrees(evaluate, principal, request, rounds, Queried(cache, repository, rounds(i)).1, source, i + 1);
      }
    }
  }

  /** Against a fixed source the cache is invisible: the decision is the one taken without it, errors
      included, and the cache still holds only what the source reports. */
  lemma EnsuredAgrees(
      evaluate: Evaluation, principal: Entity, request: TokenRequest, rounds: nat -> Round, cache: Cache,
      source: Source)
    requires CacheAgrees(cache, source) && RoundsAgree(rounds, request, source)
    ensures var (r, cache') := Ensured(evaluate, principal, request, rounds, cache);
            r == Uncached(evaluate, principal, request, source) && CacheAgrees(cache', source)
  {
    if request.GitHub? {
      EnsuredFromAgrees(evaluate, principal, request.github, rounds, cache, source, 0);
    }
  }

  /** Against any source, acceptance means that every permission was allowed on every entry, under the
      one visibility obtained for it; no entry ever leaves the cache. */
  lemma {:induction false} EnsuredFromAccepts(
      evaluate: Evaluation, principal: Entity, request: GitHubTokenRequest, rounds: nat -> Round, cache: Cache,
      views: seq<string>)
    returns (all: seq<string>)
    requires AllowedUnder(evaluate, principal, request, views, |views|)
    ensures var (r, cache') := EnsuredFrom(evaluate, principal, request, rounds, cache, |views|);
            && (r.Success? ==> AllowedUnder(evaluate, principal, request, all, |request.repositories|))
            && cache.Keys <= cache'.Keys
    decreases |request.repositories| - |views|
  {
    all := views;
    if |views| < |request.repositories| {
      var repository := request.repositories[|views|];
      var (answer, cache') := Queried(cache, repository, rounds(|views|));
      if answer.Success? && JudgeFrom(evaluate, principal, RepositoryEntity(repository, answer.value),
                                      request.permissions, 0).Success? {
        all := EnsuredFromAccepts(evaluate, principal, request, rounds, cache', views + [answer.value]);
      }
    }
  }

  class Authorizer {
    const evaluate: Evaluation
    var cache: Cache

    constructor (evaluate: Evaluation)
      ensures this.evaluate == evaluate && cache == map[]
    {
      this.evaluate := evaluate;
      cache := map[];
    }

    method GithubVisibility(repository: string, round: Round) returns (r: Result<string, PolicyError>)
      modifies this
      ensures (r, cache) == Queried(old(cache), repository, round)
    {
      cache := cache + round.before;
      if repository in cache && cache[repository].expiresAt >= round.checkedAt {
        return Success(cache[repository].visibility);
      }
      cache := cache + round.during;
      if round.answer.Failure? {
        return Failure(GetVisibility(repository, round.answer.error));
      }
      cache := cache[repository := CachedVisibility(round.answer.value, round.storedAt + HOUR)];
      return Success(round.answer.value);
    }

    method JudgeAll(principal: Entity, resource: Entity, permissions: seq<string>)
      returns (r: Result<(), PolicyError>)
      ensures r == JudgeFrom(evaluate, principal, resource, permissions, 0)
    {
      for j := 0 to |permissions|
        invariant JudgeFrom(evaluate, principal, resource, permissions, 0)
                  == JudgeFrom(evaluate, principal, resource, permissions, j)
      {
        var decision := Authorize(evaluate, principal, permissions[j], resource);
        if decision.Failure? {
          return Failure(decision.error);
        }
      }
      return Success(());
    }

    /** The whole decision, with `rounds(i)` surrounding the query for repository `i`. */
    method EnsureAllowed(principal: Entity, request: TokenRequest, rounds: nat -> Round)
      returns (r: Result<(), PolicyError>)
      modifies this
      ensures (r, cache) == Ensured(evaluate, principal, request, rounds, old(cache))
    {
      match request {
        case Oxide(oxide) =>
          return Authorize(evaluate, principal, "deploy", SiloEntity(oxide.silo));
        case GitHub(github) =>
          if github.repositories == [] || github.permissions == [] {
            return Failure(EmptyRequest);
          }
          for i := 0 to |github.repositories|
            invariant EnsuredFrom(evaluate, principal, github, rounds, cache, i)
                      == EnsuredFrom(evaluate, principal, github, rounds, old(cache), 0)
          {
            var repository := github.repositories[i];
            var visibility := GithubVisibility(repository, rounds(i));
            if visibility.Failure? {
              return Failure(visibility.error);
            }
            var decision := JudgeAll(principal, RepositoryEntity(repository, visibility.value), github.permissions);
            if decision.Failure? {
              return Failure(decision.error);
            }
          }
          return Success(());
      }
    }
  }
}
