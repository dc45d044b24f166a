/**
 * Parsing GitHub token requests (`src/token/github.rs`).
 *
 * `Parse` is the reference definition: it looks for the least failing index of either list.
 * `ParseRequest` is the program's own pair of loops, proved to compute exactly `Parse`.
 */
module GitHubRequest {

  import opened Wrappers
  import opened Text

  datatype GitHubTokenRequest = GitHubTokenRequest(repositories: seq<string>, permissions: seq<string>)

  datatype ParsedGitHubRequest = ParsedGitHubRequest(
    namespace: string,
    repositoryNames: seq<string>,
    permissions: map<string, string>)

  datatype GitHubTokenError =
    | NoCredentials
    | EncodeJwt
    | NotAGitHubRepository(repository: string)
    | DifferentOrgs
    | NoRepositories
    | Http
    | GitHubError(status: nat, message: string)
    | DuplicatePermission(name: string)
    | NotAPermission(permission: string)
    | AppNotInstalled(namespace: string)

  /** One repository string as its namespace and bare name. */
  function ParseRepository(repository: string): Option<(string, string)> {
    match SplitOnce(repository, '/')
    case Some((ns, name)) => if '/' !in name then Some((ns, name)) else None
    case None => None
  }

  /** One permission string as its name and level. */
  function ParsePermission(permission: string): Option<(string, string)> {
    match SplitOnce(permission, ':')
    case Some((name, level)) => if '/' !in name then Some((name, level)) else None
    case None => None
  }

  function JoinRepository(ns: string, name: string): string { ns + ['/'] + name }

  function JoinPermission(name: string, level: string): string { name + [':'] + level }

  /** A repository string parses exactly when it holds one slash, and joining is undone. */
  lemma RepositoryFormat(repository: string, ns: string, name: string)
    ensures ParseRepository(repository) == Some((ns, name)) <==>
            repository == JoinRepository(ns, name) && '/' !in ns && '/' !in name
  {
    SplitOnceCuts(repository, '/');
    if '/' !in ns {
      SplitOnceUndoesJoin(ns, '/', name);
    }
  }

  /** A permission string parses exactly when it has a colon and no slash before the first one. */
  lemma PermissionFormat(permission: string, name: string, level: string)
    ensures ParsePermission(permission) == Some((name, level)) <==>
            permission == JoinPermission(name, level) && ':' !in name && '/' !in name
  {
    SplitOnceCuts(permission, ':');
    if ':' !in name {
      SplitOnceUndoesJoin(name, ':', level);
    }
  }

  lemma RepositoryParts(repository: string)
    requires ParseRepository(repository).Some?
    ensures var (ns, name) := ParseRepository(repository).value;
            repository == JoinRepository(ns, name) && '/' !in ns && '/' !in name
  {
    var (ns, name) := ParseRepository(repository).value;
    RepositoryFormat(repository, ns, name);
  }

  lemma PermissionParts(permission: string)
    requires ParsePermission(permission).Some?
    ensures var (name, level) := ParsePermission(permission).value;
            permission == JoinPermission(name, level) && ':' !in name && '/' !in name
  {
    var (name, level) := ParsePermission(permission).value;
    PermissionFormat(permission, name, level);
  }

  /***** The reference definition *****/

  /** Repository `i` is rejected: malformed, or in another namespace than the first one. */
  predicate RepositoryFails(repositories: seq<string>, i: nat)
    requires i < |repositories|
  {
    var parsed := ParseRepository(repositories[i]);
    var first := ParseRepository(repositories[0]);
    parsed.None? || (first.Some? && parsed.value.0 != first.value.0)
  }

  /** Permission `j` is rejected: malformed, or repeating the name of an earlier one. */
  predicate PermissionFails(permissions: seq<string>, j: nat)
    requires j < |permissions|
  {
    var parsed := ParsePermission(permissions[j]);
    parsed.None? || exists k: nat | k < j :: NameOf(permissions[k]) == Some(parsed.value.0)
  }

  function NameOf(permission: string): Option<string> {
    match ParsePermission(permission)
    case Some((name, _)) => Some(name)
    case None => None
  }

  /** The least failing repository at or after `from`, or the length of the list. */
  function FirstFailingRepository(repositories: seq<string>, from: nat): (i: nat)
    requires from <= |repositories|
    ensures from <= i <= |repositories|
    decreases |repositories| - from
  {
    if from == |repositories| || RepositoryFails(repositories, from) then from
    else FirstFailingRepository(repositories, from + 1)
  }

  /** The least failing permission at or after `from`, or the length of the list. */
  function FirstFailingPermission(permissions: seq<string>, from: nat): (j: nat)
    requires from <= |permissions|
    ensures from <= j <= |permissions|
    decreases |permissions| - from
  {
    if from == |permissions| || PermissionFails(permissions, from) then from
    else FirstFailingPermission(permissions, from + 1)
  }

  function RepositoryError(repository: string): GitHubTokenError {
    if ParseRepository(repository).None? then NotAGitHubRepository(repository) else DifferentOrgs
  }

  function PermissionError(permission: string): GitHubTokenError {
    match ParsePermission(permission)
    case None => NotAPermission(permission)
    case Some((name, _)) => DuplicatePermission(name)
  }

  predicate RepositoriesParse(repositories: seq<string>) {
    forall k | 0 <= k < |repositories| :: ParseRepository(repositories[k]).Some?
  }

  predicate PermissionsParse(permissions: seq<string>) {
    forall k | 0 <= k < |permissions| :: ParsePermission(permissions[k]).Some?
  }

  /** The bare names, in list order. */
  function Names(repositories: seq<string>): (names: seq<string>)
    requires RepositoriesParse(repositories)
    ensures |names| == |repositories|
    ensures forall k | 0 <= k < |names| :: names[k] == ParseRepository(repositories[k]).value.1
  {
    seq(|repositories|, k requires 0 <= k < |repositories| => ParseRepository(repositories[k]).value.1)
  }

  /** The permissions as a map from name to level. */
  function PermissionMap(permissions: seq<string>): map<string, string>
    requires PermissionsParse(permissions)
  {
    if permissions == [] then map[]
    else
      var last := |permissions| - 1;
      var parsed := ParsePermission(permissions[last]).value;
      PermissionMap(permissions[..last])[parsed.0 := parsed.1]
  }

  lemma PassingRepositoriesParse(repositories: seq<string>, n: nat)
    requires n <= |repositories| && forall k | 0 <= k < n :: !RepositoryFails(repositories, k)
    ensures RepositoriesParse(repositories[..n])
  {
    forall k | 0 <= k < n ensures ParseRepository(repositories[k]).Some? {
      assert !RepositoryFails(repositories, k);
    }
  }

  lemma PassingPermissionsParse(permissions: seq<string>, n: nat)
    requires n <= |permissions| && forall k | 0 <= k < n :: !PermissionFails(permissions, k)
    ensures PermissionsParse(permissions[..n])
  {
    forall k | 0 <= k < n ensures ParsePermission(permissions[k]).Some? {
      assert !PermissionFails(permissions, k);
    }
  }

  /** What the repository list alone decides: the shared namespace and the bare names, or an error. */
  function ScopeOf(repositories: seq<string>): Result<(string, seq<string>), GitHubTokenError> {
    var i := FirstFailingRepository(repositories, 0);
    if i < |repositories| then Failure(RepositoryError(repositories[i]))
    else if repositories == [] then Failure(NoRepositories)
    else
      assert RepositoriesParse(repositories) by {
        FirstFailingRepositoryIsLeast(repositories, 0);
        PassingRepositoriesParse(repositories, |repositories|);
        assert repositories[..|repositories|] == repositories;
      }
      Success((ParseRepository(repositories[0]).value.0, Names(repositories)))
  }

  /** What the permission list alone decides: the level of each name, or an error. */
  function LevelsOf(permissions: seq<string>): Result<map<string, string>, GitHubTokenError> {
    var j := FirstFailingPermission(permissions, 0);
    if j < |permissions| then Failure(PermissionError(permissions[j]))
    else
      assert PermissionsParse(permissions) by {
        FirstFailingPermissionIsLeast(permissions, 0);
        PassingPermissionsParse(permissions, |permissions|);
        assert permissions[..|permissions|] == permissions;
      }
      Success(PermissionMap(permissions))
  }

  /** A whole request: every repository error comes before any permission error. */
  function Parse(request: GitHubTokenRequest): Result<ParsedGitHubRequest, GitHubTokenError> {
    match ScopeOf(request.repositories)
    case Failure(e) => Failure(e)
    case Success((ns, names)) =>
      match LevelsOf(request.permissions)
      case Failure(e) => Failure(e)
      case Success(levels) => Success(ParsedGitHubRequest(ns, names, levels))
  }

  /***** The program's loops *****/

  lemma {:induction false} FirstFailingRepositoryIsLeast(repositories: seq<string>, from: nat)
    requires from <= |repositories|
    ensures var i := FirstFailingRepository(repositories, from);
            && (forall k | from <= k < i :: !RepositoryFails(repositories, k))
            && (i < |repositories| ==> RepositoryFails(repositories, i))
    decreases |repositories| - from
  {
    if from < |repositories| && !RepositoryFails(repositories, from) {
      FirstFailingRepositoryIsLeast(repositories, from + 1);
    }
  }

  lemma FirstFailingRepositoryIs(repositories: seq<string>, i: nat)
    requires i <= |repositories|
    requires forall k | 0 <= k < i :: !RepositoryFails(repositories, k)
    requires i < |repositories| ==> RepositoryFails(repositories, i)
    ensures FirstFailingRepository(repositories, 0) == i
  {
    var least := FirstFailingRepository(repositories, 0);
    FirstFailingRepositoryIsLeast(repositories, 0);
    assert !(least < i);
    assert !(i < least);
  }

  lemma {:induction false} FirstFailingPermissionIsLeast(permissions: seq<string>, from: nat)
    requires from <= |permissions|
    ensures var j := FirstFailingPermission(permissions, from);
            && (forall k | from <= k < j :: !PermissionFails(permissions, k))
            && (j < |permissions| ==> PermissionFails(permissions, j))
    decreases |permissions| - from
  {
    if from < |permissions| && !PermissionFails(permissions, from) {
      FirstFailingPermissionIsLeast(permissions, from + 1);
    }
  }

  lemma FirstFailingPermissionIs(permissions: seq<string>, j: nat)
    requires j <= |permissions|
    requires forall k | 0 <= k < j :: !PermissionFails(permissions, k)
    requires j < |permissions| ==> PermissionFails(permissions, j)
    ensures FirstFailingPermission(permissions, 0) == j
  {
    var least := FirstFailingPermission(permissions, 0);
    FirstFailingPermissionIsLeast(permissions, 0);
    assert !(least < j);
    assert !(j < least);
  }

  /** The keys of the map are the names met so far. */
  lemma {:induction false} PermissionMapKeys(permissions: seq<string>, name: string)
    requires PermissionsParse(permissions)
    ensures name in PermissionMap(permissions) <==>
            exists k | 0 <= k < |permissions| :: NameOf(permissions[k]) == Some(name)
  {
    if permissions != [] {
      var init := permissions[..|permissions| - 1];
      PermissionMapKeys(init, name);
      assert forall k | 0 <= k < |init| :: init[k] == permissions[k];
      if name in PermissionMap(permissions) && name !in PermissionMap(init) {
        assert NameOf(permissions[|permissions| - 1]) == Some(name);
      }
    }
  }

  /** The loop's test for a repeated name agrees with the reference definition. */
  lemma FailsWhenRepeated(permissions: seq<string>, j: nat)
    requires j < |permissions| && PermissionsParse(permissions[..j])
    ensures PermissionFails(permissions, j) <==>
            ParsePermission(permissions[j]).None?
            || ParsePermission(permissions[j]).value.0 in PermissionMap(permissions[..j])
  {
    if ParsePermission(permissions[j]).Some? {
      PermissionMapKeys(permissions[..j], ParsePermission(permissions[j]).value.0);
    }
  }

  lemma PermissionMapStep(permissions: seq<string>, j: nat)
    requires j < |permissions| && PermissionsParse(permissions[..j]) && ParsePermission(permissions[j]).Some?
    ensures PermissionsParse(permissions[..j + 1])
    ensures var (name, level) := ParsePermission(permissions[j]).value;
            PermissionMap(permissions[..j + 1]) == PermissionMap(permissions[..j])[name := level]
  {
    assert permissions[..j + 1][..j] == permissions[..j];
  }

  method ParseRepositories(repositories: seq<string>)
    returns (r: Result<(string, seq<string>), GitHubTokenError>)
    ensures r == ScopeOf(repositories)
  {
    var namespace: Option<string> := None;
    var repositoryNames: seq<string> := [];
    for i := 0 to |repositories|
      invariant forall k | 0 <= k < i :: !RepositoryFails(repositories, k)
      invariant RepositoriesParse(repositories[..i])
      invariant repositoryNames == Names(repositories[..i])
      invariant namespace == if i == 0 then None else Some(ParseRepository(repositories[..i][0]).value.0)
    {
      match SplitOnce(repositories[i], '/') {
        case Some((ns, name)) =>
          if '/' in name {
            FirstFailingRepositoryIs(repositories, i);
            return Failure(NotAGitHubRepository(repositories[i]));
          }
          if namespace.Some? && namespace.value != ns {
            FirstFailingRepositoryIs(repositories, i);
            return Failure(DifferentOrgs);
          }
          namespace := Some(ns);
          repositoryNames := repositoryNames + [name];
        case None =>
          FirstFailingRepositoryIs(repositories, i);
          return Failure(NotAGitHubRepository(repositories[i]));
      }
    }
    FirstFailingRepositoryIs(repositories, |repositories|);
    assert repositories[..|repositories|] == repositories;
    if namespace.None? {
      return Failure(NoRepositories);
    }
    return Success((namespace.value, repositoryNames));
  }

  method ParsePermissions(permissions: seq<string>) returns (r: Result<map<string, string>, GitHubTokenError>)
    ensures r == LevelsOf(permissions)
  {
    var levels: map<string, string> := map[];
    for j := 0 to |permissions|
      invariant forall k | 0 <= k < j :: !PermissionFails(permissions, k)
      invariant PermissionsParse(permissions[..j])
      invariant levels == PermissionMap(permissions[..j])
    {
      FailsWhenRepeated(permissions, j);
      match SplitOnce(permissions[j], ':') {
        case Some((name, level)) =>
          if '/' in name {
            FirstFailingPermissionIs(permissions, j);
            return Failure(NotAPermission(permissions[j]));
          }
          PermissionMapStep(permissions, j);
          var repeated := name in levels;
          levels := levels[name := level];
          if repeated {
            FirstFailingPermissionIs(permissions, j);
            return Failure(DuplicatePermission(name));
          }
        case None =>
          FirstFailingPermissionIs(permissions, j);
          return Failure(NotAPermission(permissions[j]));
      }
    }
    FirstFailingPermissionIs(permissions, |permissions|);
    assert permissions[..|permissions|] == permissions;
    return Success(levels);
  }

  method ParseRequest(request: GitHubTokenRequest) returns (r: Result<ParsedGitHubRequest, GitHubTokenError>)
    ensures r == Parse(request)
  {
    var scope := ParseRepositories(request.repositories);
    if scope.Failure? {
      return Failure(scope.error);
    }
    var levels := ParsePermissions(request.permissions);
    if levels.Failure? {
      return Failure(levels.error);
    }
    return Success(ParsedGitHubRequest(scope.value.0, scope.value.1, levels.value));
  }
}
