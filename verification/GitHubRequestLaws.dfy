/**
 * What parsing a GitHub request promises: exactly which requests are accepted, which error the
 * others get, that the parsed scope is the raw scope and nothing else, and that order is irrelevant.
 */
module GitHubRequestLaws {

  import opened Wrappers
  import opened GitHubRequest

  /***** Accepted requests and errors *****/

  predicate OneNamespace(repositories: seq<string>)
    requires RepositoriesParse(repositories)
  {
    forall i, k | 0 <= i < |repositories| && 0 <= k < |repositories| ::
      ParseRepository(repositories[i]).value.0 == ParseRepository(repositories[k]).value.0
  }

  predicate DistinctNames(permissions: seq<string>)
    requires PermissionsParse(permissions)
  {
    forall j, k | 0 <= j < k < |permissions| ::
      ParsePermission(permissions[j]).value.0 != ParsePermission(permissions[k]).value.0
  }

  lemma ScopeAcceptsExactly(repositories: seq<string>)
    ensures ScopeOf(repositories).Success? <==>
            repositories != [] && RepositoriesParse(repositories) && OneNamespace(repositories)
  {
    FirstFailingRepositoryIsLeast(repositories, 0);
    if ScopeOf(repositories).Success? {
      PassingRepositoriesParse(repositories, |repositories|);
      assert repositories[..|repositories|] == repositories;
      forall i | 0 <= i < |repositories|
        ensures ParseRepository(repositories[i]).value.0 == ParseRepository(repositories[0]).value.0
      {
        assert !RepositoryFails(repositories, i);
      }
    }
  }

  lemma LevelsAcceptExactly(permissions: seq<string>)
    ensures LevelsOf(permissions).Success? <==> PermissionsParse(permissions) && DistinctNames(permissions)
  {
    FirstFailingPermissionIsLeast(permissions, 0);
    if LevelsOf(permissions).Success? {
      PassingPermissionsParse(permissions, |permissions|);
      assert permissions[..|permissions|] == permissions;
      forall j, k | 0 <= j < k < |permissions|
        ensures ParsePermission(permissions[j]).value.0 != ParsePermission(permissions[k]).value.0
      {
        assert !PermissionFails(permissions, k);
        assert NameOf(permissions[j]) == Some(ParsePermission(permissions[j]).value.0);
      }
    }
  }

  /** A request parses exactly when its list of repositories is non-empty, every string is well
      formed, the repositories share a namespace and no permission name occurs twice. */
  lemma ParseAcceptsExactly(request: GitHubTokenRequest)
    ensures Parse(request).Success? <==>
            && request.repositories != []
            && RepositoriesParse(request.repositories) && OneNamespace(request.repositories)
            && PermissionsParse(request.permissions) && DistinctNames(request.permissions)
  {
    ScopeAcceptsExactly(request.repositories);
    LevelsAcceptExactly(request.permissions);
  }

  /** An empty list of repositories has an error of its own. */
  lemma NoRepositoriesExactly(request: GitHubTokenRequest)
    ensures Parse(request) == Failure(NoRepositories) <==> request.repositories == []
  {
  }

  /** The least failing repository decides the error, whatever the permissions are. */
  lemma RepositoryErrorsComeFirst(request: GitHubTokenRequest, i: nat)
    requires i < |request.repositories|
    requires RepositoryFails(request.repositories, i)
    requires forall k | 0 <= k < i :: !RepositoryFails(request.repositories, k)
    ensures ParseRepository(request.repositories[i]).None? ==>
              Parse(request) == Failure(NotAGitHubRepository(request.repositories[i]))
    ensures ParseRepository(request.repositories[i]).Some? ==> Parse(request) == Failure(DifferentOrgs)
  {
    FirstFailingRepositoryIs(request.repositories, i);
  }

  /** Without repository errors, the least failing permission decides the error. */
  lemma PermissionErrorsComeLast(request: GitHubTokenRequest, j: nat)
    requires ScopeOf(request.repositories).Success?
    requires j < |request.permissions|
    requires PermissionFails(request.permissions, j)
    requires forall k | 0 <= k < j :: !PermissionFails(request.permissions, k)
    ensures ParsePermission(request.permissions[j]).None? ==>
              Parse(request) == Failure(NotAPermission(request.permissions[j]))
    ensures ParsePermission(request.permissions[j]).Some? ==>
              Parse(request) == Failure(DuplicatePermission(ParsePermission(request.permissions[j]).value.0))
  {
    FirstFailingPermissionIs(request.permissions, j);
  }

  /***** The parsed scope is the raw scope *****/

  /** The repositories a namespace and bare names stand for. */
  function Rejoin(ns: string, names: seq<string>): (repositories: seq<string>)
    ensures |repositories| == |names|
    ensures forall k | 0 <= k < |names| :: repositories[k] == JoinRepository(ns, names[k])
  {
    seq(|names|, k requires 0 <= k < |names| => JoinRepository(ns, names[k]))
  }

  /** The permission strings a map of levels stands for. */
  function PermissionStrings(levels: map<string, string>): set<string> {
    set name | name in levels :: JoinPermission(name, levels[name])
  }

  function Elements<T(==)>(s: seq<T>): set<T> { set x | x in s }

  /** With distinct names, the map holds the level of every listed permission. */
  lemma {:induction false} PermissionMapHolds(permissions: seq<string>, k: nat)
    requires PermissionsParse(permissions) && DistinctNames(permissions) && k < |permissions|
    ensures var (name, level) := ParsePermission(permissions[k]).value;
            name in PermissionMap(permissions) && PermissionMap(permissions)[name] == level
  {
    var last := |permissions| - 1;
    if k < last {
      var init := permissions[..last];
      assert forall m | 0 <= m < |init| :: init[m] == permissions[m];
      PermissionMapHolds(init, k);
    }
  }

  lemma PermissionMapStrings(permissions: seq<string>)
    requires PermissionsParse(permissions) && DistinctNames(permissions)
    ensures PermissionStrings(PermissionMap(permissions)) == Elements(permissions)
  {
    var levels := PermissionMap(permissions);
    forall p | p in permissions
      ensures p in PermissionStrings(levels)
    {
      var k :| 0 <= k < |permissions| && permissions[k] == p;
      PermissionMapHolds(permissions, k);
      PermissionParts(p);
      assert ParsePermission(p).value.0 in levels;
    }
    forall p | p in PermissionStrings(levels)
      ensures p in permissions
    {
      var name :| name in levels && p == JoinPermission(name, levels[name]);
      PermissionMapKeys(permissions, name);
      var k :| 0 <= k < |permissions| && NameOf(permissions[k]) == Some(name);
      PermissionMapHolds(permissions, k);
      PermissionParts(permissions[k]);
    }
  }

  lemma {:induction false} PermissionMapSize(permissions: seq<string>)
    requires PermissionsParse(permissions) && DistinctNames(permissions)
    ensures |PermissionMap(permissions)| == |permissions|
  {
    if permissions != [] {
      var last := |permissions| - 1;
      var init := permissions[..last];
      assert forall m | 0 <= m < |init| :: init[m] == permissions[m];
      PermissionMapSize(init);
      PermissionMapKeys(init, ParsePermission(permissions[last]).value.0);
    }
  }

  /** Every request that parses is recovered from its parsed form: the repositories exactly and in
      order, the permissions as a set, with none dropped, added or merged. */
  lemma ParsedScopeIsRawScope(request: GitHubTokenRequest)
    requires Parse(request).Success?
    ensures var parsed := Parse(request).value;
            && Rejoin(parsed.namespace, parsed.repositoryNames) == request.repositories
            && PermissionStrings(parsed.permissions) == Elements(request.permissions)
            && |parsed.permissions| == |request.permissions|
            && WellFormed(parsed)
  {
    var repositories, permissions := request.repositories, request.permissions;
    ParseAcceptsExactly(request);
    PermissionMapStrings(permissions);
    PermissionMapSize(permissions);
    forall k | 0 <= k < |repositories|
      ensures repositories[k] ==
              JoinRepository(ParseRepository(repositories[0]).value.0, ParseRepository(repositories[k]).value.1)
    {
      RepositoryParts(repositories[k]);
      assert ParseRepository(repositories[k]).value.0 == ParseRepository(repositories[0]).value.0;
    }
    forall name | name in Names(repositories)
      ensures '/' !in name
    {
      var k :| 0 <= k < |repositories| && Names(repositories)[k] == name;
      RepositoryParts(repositories[k]);
    }
    RepositoryParts(repositories[0]);
    forall name | name in PermissionMap(permissions)
      ensures ':' !in name && '/' !in name
    {
      PermissionMapKeys(permissions, name);
      var k :| 0 <= k < |permissions| && NameOf(permissions[k]) == Some(name);
      PermissionParts(permissions[k]);
    }
  }

  /***** Printing and parsing *****/

  predicate WellFormed(parsed: ParsedGitHubRequest) {
    && '/' !in parsed.namespace
    && parsed.repositoryNames != []
    && (forall name | name in parsed.repositoryNames :: '/' !in name)
    && (forall name | name in parsed.permissions :: ':' !in name && '/' !in name)
  }

  /** `order` lists every permission name once. */
  predicate Lists(order: seq<string>, levels: map<string, string>) {
    && Elements(order) == levels.Keys
    && (forall j, k | 0 <= j < k < |order| :: order[j] != order[k])
  }

  function PrintPermissions(levels: map<string, string>, order: seq<string>): (permissions: seq<string>)
    requires forall name | name in order :: name in levels
    ensures |permissions| == |order|
    ensures forall k | 0 <= k < |order| :: permissions[k] == JoinPermission(order[k], levels[order[k]])
  {
    seq(|order|, k requires 0 <= k < |order| => JoinPermission(order[k], levels[order[k]]))
  }

  function Print(parsed: ParsedGitHubRequest, order: seq<string>): GitHubTokenRequest
    requires forall name | name in order :: name in parsed.permissions
  {
    GitHubTokenRequest(
      Rejoin(parsed.namespace, parsed.repositoryNames),
      PrintPermissions(parsed.permissions, order))
  }

  lemma PrintedRepositoriesParse(parsed: ParsedGitHubRequest)
    requires WellFormed(parsed)
    ensures ScopeOf(Rejoin(parsed.namespace, parsed.repositoryNames)) ==
            Success((parsed.namespace, parsed.repositoryNames))
  {
    var repositories := Rejoin(parsed.namespace, parsed.repositoryNames);
    forall k | 0 <= k < |repositories|
      ensures ParseRepository(repositories[k]) == Some((parsed.namespace, parsed.repositoryNames[k]))
    {
      RepositoryFormat(repositories[k], parsed.namespace, parsed.repositoryNames[k]);
    }
    ScopeAcceptsExactly(repositories);
    assert Names(repositories) == parsed.repositoryNames;
  }

  lemma PrintedPermissionParses(parsed: ParsedGitHubRequest, order: seq<string>, k: nat)
    requires WellFormed(parsed) && Lists(order, parsed.permissions) && k < |order|
    ensures ParsePermission(PrintPermissions(parsed.permissions, order)[k])
            == Some((order[k], parsed.permissions[order[k]]))
  {
    PermissionFormat(PrintPermissions(parsed.permissions, order)[k], order[k], parsed.permissions[order[k]]);
  }

  lemma PrintedPermissionsParse(parsed: ParsedGitHubRequest, order: seq<string>)
    requires WellFormed(parsed) && Lists(order, parsed.permissions)
    ensures LevelsOf(PrintPermissions(parsed.permissions, order)) == Success(parsed.permissions)
  {
    var permissions := PrintPermissions(parsed.permissions, order);
    forall k: nat | k < |permissions|
      ensures ParsePermission(permissions[k]) == Some((order[k], parsed.permissions[order[k]]))
    {
      PrintedPermissionParses(parsed, order, k);
    }
    LevelsAcceptExactly(permissions);
    forall name
      ensures name in PermissionMap(permissions) <==> name in parsed.permissions
      ensures name in PermissionMap(permissions) ==> PermissionMap(permissions)[name] == parsed.permissions[name]
    {
      PrintedLevel(permissions, parsed.permissions, order, name);
    }
    assert PermissionMap(permissions) == parsed.permissions;
  }

  /** A list that holds each name of `levels` once, with its level, is mapped to `levels`. */
  lemma PrintedLevel(permissions: seq<string>, levels: map<string, string>, order: seq<string>, name: string)
    requires Lists(order, levels) && |permissions| == |order|
    requires PermissionsParse(permissions) && DistinctNames(permissions)
    requires forall k | 0 <= k < |order| :: ParsePermission(permissions[k]) == Some((order[k], levels[order[k]]))
    ensures name in PermissionMap(permissions) <==> name in levels
    ensures name in PermissionMap(permissions) ==> PermissionMap(permissions)[name] == levels[name]
  {
    PermissionMapKeys(permissions, name);
    if name in levels {
      var k :| 0 <= k < |order| && order[k] == name;
      assert NameOf(permissions[k]) == Some(name);
      PermissionMapHolds(permissions, k);
    }
  }

  /** Parsing undoes printing, whatever order the permissions are printed in. */
  lemma ParseUndoesPrint(parsed: ParsedGitHubRequest, order: seq<string>)
    requires WellFormed(parsed) && Lists(order, parsed.permissions)
    ensures Parse(Print(parsed, order)) == Success(parsed)
  {
    PrintedRepositoriesParse(parsed);
    PrintedPermissionsParse(parsed, order);
  }

  /***** Order *****/

  /** `order` is a rearrangement of the indices below `n`. */
  predicate Permutation(order: seq<nat>, n: nat) {
    && |order| == n
    && (forall k | 0 <= k < n :: order[k] < n)
    && (forall j, k | 0 <= j < k < n :: order[j] != order[k])
    && (forall i: nat | i < n :: i in order)
  }

  function Rearrange<T>(s: seq<T>, order: seq<nat>): (r: seq<T>)
    requires forall k | 0 <= k < |order| :: order[k] < |s|
    ensures |r| == |order| && forall k | 0 <= k < |order| :: r[k] == s[order[k]]
  {
    seq(|order|, k requires 0 <= k < |order| => s[order[k]])
  }

  lemma RearrangedRepositories(repositories: seq<string>, order: seq<nat>)
    requires ScopeOf(repositories).Success? && Permutation(order, |repositories|)
    ensures var (ns, names) := ScopeOf(repositories).value;
            && |names| == |repositories|
            && ScopeOf(Rearrange(repositories, order)) == Success((ns, Rearrange(names, order)))
  {
    var moved := Rearrange(repositories, order);
    ScopeAcceptsExactly(repositories);
    assert RepositoriesParse(moved);
    assert OneNamespace(moved);
    ScopeAcceptsExactly(moved);
    assert Names(moved) == Rearrange(Names(repositories), order);
  }

  lemma RearrangedPermissions(permissions: seq<string>, order: seq<nat>)
    requires LevelsOf(permissions).Success? && Permutation(order, |permissions|)
    ensures LevelsOf(Rearrange(permissions, order)) == LevelsOf(permissions)
  {
    var moved := Rearrange(permissions, order);
    LevelsAcceptExactly(permissions);
    assert PermissionsParse(moved);
    forall j, k | 0 <= j < k < |moved|
      ensures ParsePermission(moved[j]).value.0 != ParsePermission(moved[k]).value.0
    {
      assert order[j] != order[k];
    }
    LevelsAcceptExactly(moved);
    forall p ensures p in moved <==> p in permissions {
      if p in permissions {
        var i :| 0 <= i < |permissions| && permissions[i] == p;
        assert i in order;
      }
    }
    SameLevels(permissions, moved);
  }

  /** A listed permission keeps its level in the map of any list that contains it. */
  lemma IncludedLevel(permissions: seq<string>, others: seq<string>, name: string)
    requires PermissionsParse(permissions) && DistinctNames(permissions)
    requires PermissionsParse(others) && DistinctNames(others)
    requires forall p | p in permissions :: p in others
    requires name in PermissionMap(permissions)
    ensures name in PermissionMap(others) && PermissionMap(others)[name] == PermissionMap(permissions)[name]
  {
    PermissionMapKeys(permissions, name);
    var i :| 0 <= i < |permissions| && NameOf(permissions[i]) == Some(name);
    PermissionMapHolds(permissions, i);
    assert permissions[i] in others;
    var k :| 0 <= k < |others| && others[k] == permissions[i];
    PermissionMapHolds(others, k);
  }

  lemma SameLevels(permissions: seq<string>, others: seq<string>)
    requires PermissionsParse(permissions) && DistinctNames(permissions)
    requires PermissionsParse(others) && DistinctNames(others)
    requires forall p :: p in permissions <==> p in others
    ensures PermissionMap(permissions) == PermissionMap(others)
  {
    forall name | name in PermissionMap(permissions) { IncludedLevel(permissions, others, name); }
    forall name | name in PermissionMap(others) { IncludedLevel(others, permissions, name); }
  }

  /** Rearranging both lists of an accepted request keeps its namespace and its permission map and
      rearranges the bare names alike. */
  lemma OrderIsIrrelevant(request: GitHubTokenRequest, repositoryOrder: seq<nat>, permissionOrder: seq<nat>)
    requires Parse(request).Success?
    requires Permutation(repositoryOrder, |request.repositories|)
    requires Permutation(permissionOrder, |request.permissions|)
    ensures var parsed := Parse(request).value;
            var moved := GitHubTokenRequest(
                           Rearrange(request.repositories, repositoryOrder),
                           Rearrange(request.permissions, permissionOrder));
            && |parsed.repositoryNames| == |request.repositories|
            && Parse(moved) ==
               Success(parsed.(repositoryNames := Rearrange(parsed.repositoryNames, repositoryOrder)))
  {
    RearrangedRepositories(request.repositories, repositoryOrder);
    RearrangedPermissions(request.permissions, permissionOrder);
  }

  /** A permission name that occurs twice makes every request fail. */
  lemma RepeatedNameIsRejected(request: GitHubTokenRequest, j: nat, k: nat)
    requires j < k < |request.permissions|
    requires NameOf(request.permissions[j]).Some?
    requires NameOf(request.permissions[j]) == NameOf(request.permissions[k])
    ensures Parse(request).Failure?
  {
    ParseAcceptsExactly(request);
  }
}
