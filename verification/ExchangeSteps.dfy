/** Every action adds only justified events; hence the invariant holds after every run. */
module ExchangeSteps {

  import opened Wrappers
  import opened Cedar
  import opened Exchange
  import opened ExchangeActions
  import opened ExchangeInvariant
  import opened GitHubRequest
  import opened GitHubRequestLaws
  import opened GitHubTokens
  import opened Policy
  import OxideTokens

  /** Every event of a justified trace has a place, with its justification before it. */
  lemma JustificationOf(server: Server, calls: seq<Call>, trace: seq<Event>, event: Event) returns (n: nat)
    requires AllJustified(server, calls, trace) && event in trace
    ensures n < |trace| && trace[n] == event && Justified(server, calls, trace[..n], event)
  {
    n :| n < |trace| && trace[n] == event;
    JustifiedAt(server, calls, trace, n);
  }

  /***** What acceptance implies *****/

  /** An accepted call's pairs were all allowed to it, hence declared by the schema. */
  lemma AcceptedPair(
      server: Server, calls: seq<Call>, id: nat, task: Task, trace: seq<Event>, who: Entity, i: nat, k: nat)
    requires AllJustified(server, calls, trace) && Accepted(server, id, task, trace, who)
    requires i < |task.call.request.github.repositories| && k < |task.call.request.github.permissions|
    ensures var github := task.call.request.github;
            && AllowedBefore(trace, id, github.repositories[i], github.permissions[k])
            && github.permissions[k] in REPOSITORY_ACTIONS
  {
    var github := task.call.request.github;
    var repository, visibility, permission := github.repositories[i], task.seen[i], github.permissions[k];
    FullLogHolds(github, task.seen, i, k);
    LogComesFromEvents(trace, id, repository, visibility, permission);
    var whom :| Allowed(id, whom, repository, visibility, permission) in trace;
    var _ := JustificationOf(server, calls, trace, Allowed(id, whom, repository, visibility, permission));
  }

  /** An accepted request can only fail to parse for a mixed namespace or a repeated permission. */
  lemma AcceptedParses(server: Server, calls: seq<Call>, id: nat, task: Task, trace: seq<Event>, who: Entity)
    requires AllJustified(server, calls, trace) && Accepted(server, id, task, trace, who)
    ensures server.credentials
    ensures var parsed := Parse(task.call.request.github);
            parsed.Failure? ==> parsed.error.DifferentOrgs? || parsed.error.DuplicatePermission?
  {
    var github := task.call.request.github;
    assert RepositoriesParse(github.repositories);
    forall k | 0 <= k < |github.permissions|
      ensures ParsePermission(github.permissions[k]).Some?
    {
      AcceptedPair(server, calls, id, task, trace, who, 0, k);
      DeclaredActionsParse(github.permissions[k]);
    }
    OnlyConflictsRemain(github);
  }

  lemma OnlyConflictsRemain(github: GitHubTokenRequest)
    requires github.repositories != []
    requires RepositoriesParse(github.repositories) && PermissionsParse(github.permissions)
    ensures Parse(github).Failure? ==> Parse(github).error.DifferentOrgs? || Parse(github).error.DuplicatePermission?
  {
    FirstFailingRepositoryIsLeast(github.repositories, 0);
    FirstFailingPermissionIsLeast(github.permissions, 0);
  }

  lemma AcceptedScope(server: Server, calls: seq<Call>, id: nat, task: Task, trace: seq<Event>, who: Entity)
    requires AllJustified(server, calls, trace) && Accepted(server, id, task, trace, who)
    requires Parse(task.call.request.github).Success?
    ensures var parsed := Parse(task.call.request.github).value;
            && MintScope(task.call.request.github, parsed.namespace, parsed.repositoryNames, parsed.permissions)
            && ScopeAllowed(trace, id, parsed.namespace, parsed.repositoryNames, parsed.permissions)
  {
    var github := task.call.request.github;
    var parsed := Parse(github).value;
    ParsedScopeIsRawScope(github);
    forall name, key | name in parsed.repositoryNames && key in parsed.permissions
      ensures AllowedBefore(trace, id, JoinRepository(parsed.namespace, name),
                            JoinPermission(key, parsed.permissions[key]))
    {
      AcceptedScopePair(server, calls, id, task, trace, who, parsed, name, key);
    }
    assert |parsed.permissions| != 0;
  }

  lemma AcceptedScopePair(
      server: Server, calls: seq<Call>, id: nat, task: Task, trace: seq<Event>, who: Entity,
      parsed: ParsedGitHubRequest, name: string, key: string)
    requires AllJustified(server, calls, trace) && Accepted(server, id, task, trace, who)
    requires MintScope(task.call.request.github, parsed.namespace, parsed.repositoryNames, parsed.permissions)
    requires name in parsed.repositoryNames && key in parsed.permissions
    ensures AllowedBefore(trace, id, JoinRepository(parsed.namespace, name),
                          JoinPermission(key, parsed.permissions[key]))
  {
    var github := task.call.request.github;
    var permission := JoinPermission(key, parsed.permissions[key]);
    var i :| 0 <= i < |parsed.repositoryNames| && parsed.repositoryNames[i] == name;
    assert permission in PermissionStrings(parsed.permissions);
    assert permission in Elements(github.permissions);
    var k :| 0 <= k < |github.permissions| && github.permissions[k] == permission;
    AcceptedPair(server, calls, id, task, trace, who, i, k);
  }

  /** A probe asks for its one repository and for nothing but metadata. */
  lemma ProbeParses(github: GitHubTokenRequest, i: nat)
    requires i < |github.repositories| && Parse(RequestFor(github, Probe(i))).Success?
    ensures var parsed := Parse(RequestFor(github, Probe(i))).value;
            ProbeScope(github, i, parsed.namespace, parsed.repositoryNames, parsed.permissions)
    ensures ParseRepository(github.repositories[i]).Some?
  {
    SingleRequest(github.repositories[i], PROBE_PERMISSION, "metadata", "read");
  }

  lemma SingleRequest(repository: string, permission: string, name: string, level: string)
    requires permission == JoinPermission(name, level) && ':' !in name && '/' !in name
    requires Parse(GitHubTokenRequest([repository], [permission])).Success?
    ensures var parsed := Parse(GitHubTokenRequest([repository], [permission])).value;
            && |parsed.repositoryNames| == 1
            && JoinRepository(parsed.namespace, parsed.repositoryNames[0]) == repository
            && parsed.permissions == map[name := level]
    ensures ParseRepository(repository).Some?
  {
    var request := GitHubTokenRequest([repository], [permission]);
    ParsedScopeIsRawScope(request);
    ParseAcceptsExactly(request);
    assert Rejoin(Parse(request).value.namespace, Parse(request).value.repositoryNames)[0] == repository;
    assert request.repositories[0] == repository;
    PermissionFormat(permission, name, level);
    assert [permission][..0] == [];
    assert PermissionMap([permission]) == map[][name := level];
  }

  /***** The events of each action are justified *****/

  lemma FollowOne(server: Server, calls: seq<Call>, trace: seq<Event>, event: Event)
    requires Justified(server, calls, trace, event)
    ensures Follow(server, calls, trace, [event])
  {
    assert [event][1..] == [];
  }

  lemma FollowTwo(server: Server, calls: seq<Call>, trace: seq<Event>, event: Event, next: Event)
    requires Justified(server, calls, trace, event) && Justified(server, calls, trace + [event], next)
    ensures Follow(server, calls, trace, [event, next])
  {
    assert [event, next][1..] == [next];
    FollowOne(server, calls, trace + [event], next);
  }

  lemma CheckFollows(server: Server, calls: seq<Call>, id: nat, task: Task, trace: seq<Event>, now: int)
    requires PcOk(task.call.request, task.pc) && task.pc.HoldCheck? && id < |calls|
    ensures Follow(server, calls, trace, Check(id, task, CacheOf(trace), now).events)
  {
    FollowOne(server, calls, trace, Check(id, task, CacheOf(trace), now).events[0]);
  }

  lemma ReadFollows(
      server: Server, calls: seq<Call>, id: nat, task: Task, cache: Cache, trace: seq<Event>, now: int, answer: Answer)
    requires PcOk(task.call.request, task.pc) && task.pc.Reading? && id < |calls| && calls[id] == task.call
    requires FetchInv(server, id, task, trace)
    ensures Follow(server, calls, trace, Read(id, task, cache, now, answer).events)
  {
    var repository := task.call.request.github.repositories[task.pc.i];
    if answer.visibility.Success? {
      assert ProbeJustified(server, task.call, trace, id, repository);
    } else {
      assert ProbeFailed(server, task.call, trace, id, repository, HttpError(answer.visibility.error));
    }
    FollowOne(server, calls, trace, Read(id, task, cache, now, answer).events[0]);
  }

  lemma StoreFollows(
      server: Server, calls: seq<Call>, id: nat, task: Task, cache: Cache, trace: seq<Event>, now: int)
    requires PcOk(task.call.request, task.pc) && task.pc.HoldStore? && id < |calls|
    requires FetchInv(server, id, task, trace)
    ensures Follow(server, calls, trace, StoreFetched(id, task, cache, now).events)
  {
    FollowOne(server, calls, trace, StoreFetched(id, task, cache, now).events[0]);
  }

  lemma JudgeFollows(server: Server, calls: seq<Call>, id: nat, task: Task, cache: Cache, trace: seq<Event>)
    requires PcOk(task.call.request, task.pc) && task.pc.Judging? && id < |calls| && calls[id] == task.call
    requires JudgingInv(server, id, task, trace)
    ensures Follow(server, calls, trace, Judge(server, id, task, cache).events)
  {
    var github := task.call.request.github;
    var Judging(who, i, visibility, j) := task.pc;
    var resource := RepositoryEntity(github.repositories[i], visibility);
    if Authorize(server.evaluate, who, github.permissions[j], resource).Success? {
      assert AllowJustified(
          server, task.call, trace, id, who, github.repositories[i], visibility, github.permissions[j]);
      FollowOne(server, calls, trace,
                Allowed(id, who, github.repositories[i], visibility, github.permissions[j]));
    }
  }

  lemma DeployFollows(server: Server, calls: seq<Call>, id: nat, task: Task, cache: Cache, trace: seq<Event>)
    requires PcOk(task.call.request, task.pc) && task.pc.Deploying? && id < |calls| && calls[id] == task.call
    requires DeviceInv(server, id, task, trace)
    ensures Follow(server, calls, trace, Deploy(server, id, task, cache).events)
  {
    var silo := task.call.request.oxide.silo;
    if Authorize(server.evaluate, task.pc.who, "deploy", SiloEntity(silo)).Success? {
      SiloAllows(server.evaluate, task.pc.who, "deploy", silo);
      assert DeployJustified(server, task.call, trace, id, task.pc.who, silo);
      FollowOne(server, calls, trace, DeployAllowed(id, task.pc.who, silo));
    }
  }

  lemma DeviceFollows(
      server: Server, calls: seq<Call>, id: nat, task: Task, cache: Cache, trace: seq<Event>, answer: Answer)
    requires PcOk(task.call.request, task.pc) && id < |calls| && calls[id] == task.call
    requires task.pc.Preparing? || task.pc.Authorizing? || task.pc.Confirming? || task.pc.Redeeming?
    requires DeviceInv(server, id, task, trace)
    ensures Follow(server, calls, trace, DeviceFlow(server, id, task, cache, answer).events)
  {
    var oxide := task.call.request.oxide;
    var ttl := OxideTokens.Ttl(oxide.duration);
    var events := DeviceFlow(server, id, task, cache, answer).events;
    if events != [] {
      if task.pc.Authorizing? {
        assert DeployAllowed(id, task.pc.who, oxide.silo) in trace;
        assert IssueJustified(server, task.call, trace, id, task.pc.client, ttl);
      } else if !task.pc.Preparing? {
        assert IssuedBefore(trace, id, task.pc.client, ttl, task.pc.deviceCode, task.pc.userCode);
      }
      FollowOne(server, calls, trace, events[0]);
    }
  }

  /** A probe's failure is justified by why its `get` failed. */
  lemma ProbeFailureFollows(
      server: Server, calls: seq<Call>, id: nat, before: seq<Event>, i: nat, e: GitHubTokenError, now: int)
    requires id < |calls| && AtRepository(calls[id].request, i)
    requires GetFailed(server, calls[id].request.github, before, id, Probe(i), e)
    ensures Justified(server, calls, before, Probed(id, calls[id].request.github.repositories[i], Failure(e), now))
  {
    assert ProbeFailed(server, calls[id], before, id, calls[id].request.github.repositories[i], e);
  }

  lemma GetFailsFollows(
      server: Server, calls: seq<Call>, id: nat, task: Task, cache: Cache, trace: seq<Event>, now: int,
      e: GitHubTokenError, events: seq<Event>)
    requires PcOk(task.call.request, task.pc) && task.pc.Getting? && id < |calls| && |events| <= 1
    requires calls[id] == task.call
    requires GetFailed(server, task.call.request.github, trace + events, id, task.pc.purpose, e)
    requires events != [] ==> Justified(server, calls, trace, events[0])
    ensures Follow(server, calls, trace, GetFails(id, task, cache, now, e, events).events)
  {
    match task.pc.purpose {
      case Mint =>
        if events != [] {
          assert events == [events[0]];
          FollowOne(server, calls, trace, events[0]);
        }
      case Probe(i) =>
        var probed := Probed(id, task.call.request.github.repositories[i], Failure(e), now);
        ProbeFailureFollows(server, calls, id, trace + events, i, e, now);
        if events == [] {
          assert trace + events == trace && events + [probed] == [probed];
          FollowOne(server, calls, trace, probed);
        } else {
          assert events == [events[0]] && events + [probed] == [events[0], probed];
          FollowTwo(server, calls, trace, events[0], probed);
        }
    }
  }

  lemma BeginFollows(
      server: Server, calls: seq<Call>, id: nat, task: Task, cache: Cache, trace: seq<Event>, now: int, answer: Answer)
    requires PcOk(task.call.request, task.pc) && task.pc.Getting? && task.pc.phase.Begin?
    requires id < |calls| && calls[id] == task.call
    ensures Follow(server, calls, trace, GetBegin(server, id, task, cache, now, answer).events)
  {
    var parsed := Parse(RequestFor(task.call.request.github, task.pc.purpose));
    if !server.credentials {
      GetFailsFollows(server, calls, id, task, cache, trace, now, NoCredentials, []);
    } else if parsed.Failure? {
      GetFailsFollows(server, calls, id, task, cache, trace, now, parsed.error, []);
    } else {
      var signed := Signed(id, task.pc.purpose, answer.signed);
      if answer.signed {
        FollowOne(server, calls, trace, signed);
      } else {
        assert (trace + [signed])[|trace|] == signed;
        GetFailsFollows(server, calls, id, task, cache, trace, now, EncodeJwt, [signed]);
      }
    }
  }

  lemma SearchingFollows(
      server: Server, calls: seq<Call>, id: nat, task: Task, cache: Cache, trace: seq<Event>, now: int, answer: Answer)
    requires PcOk(task.call.request, task.pc) && task.pc.Getting? && task.pc.phase.Searching?
    requires id < |calls| && calls[id] == task.call && GettingInv(server, id, task, trace)
    ensures Follow(server, calls, trace, GetSearching(id, task, cache, now, answer).events)
  {
    var Searching(parsed, kind, found) := task.pc.phase;
    var looked := Looked(id, task.pc.purpose, KINDS[kind], parsed.namespace, answer.installation);
    var step := SearchStep(found, answer.installation);
    assert (trace + [looked])[|trace|] == looked;
    SearchFails(server, id, task.call.request.github, task.pc.purpose, task.pc.phase, trace, trace + [looked], answer);
    if step.Failure? {
      GetFailsFollows(server, calls, id, task, cache, trace, now, step.error, [looked]);
    } else if kind + 1 == |KINDS| && step.value.None? {
      GetFailsFollows(server, calls, id, task, cache, trace, now, AppNotInstalled(parsed.namespace), [looked]);
    } else {
      FollowOne(server, calls, trace, looked);
    }
  }

  lemma EarlierEntriesAllowed(server: Server, id: nat, task: Task, trace: seq<Event>, who: Entity, i: nat)
    requires AtEntry(server, id, task, trace, who, i, true)
    ensures EarlierAllowed(trace, id, task.call.request.github, i)
  {
    var github := task.call.request.github;
    forall k: nat, j: nat | k < i && k < |github.repositories| && j < |github.permissions|
      ensures AllowedBefore(trace, id, github.repositories[k], github.permissions[j])
    {
      FullLogHolds(github, task.seen, k, j);
      LogComesFromEvents(trace, id, github.repositories[k], task.seen[k], github.permissions[j]);
    }
  }

  lemma PostIsJustified(server: Server, calls: seq<Call>, id: nat, task: Task, trace: seq<Event>)
    requires PcOk(task.call.request, task.pc) && task.pc.Getting? && task.pc.phase.Requesting?
    requires GettingInv(server, id, task, trace) && AllJustified(server, calls, trace)
    ensures var Requesting(parsed, installation) := task.pc.phase;
            PostJustified(server, task.call, trace, id, task.pc.purpose, parsed.namespace, installation,
                          parsed.repositoryNames, parsed.permissions)
    ensures task.pc.purpose.Probe? ==> ParseRepository(task.call.request.github.repositories[task.pc.purpose.i]).Some?
  {
    match task.pc.purpose {
      case Probe(i) =>
        ProbeParses(task.call.request.github, i);
        EarlierEntriesAllowed(server, id, task, trace, task.pc.who, i);
      case Mint => AcceptedScope(server, calls, id, task, trace, task.pc.who);
    }
  }

  lemma PostFailsFollows(
      server: Server, calls: seq<Call>, id: nat, task: Task, cache: Cache, trace: seq<Event>, now: int,
      failure: HttpFailure, posted: Event)
    requires PcOk(task.call.request, task.pc) && task.pc.Getting? && task.pc.phase.Requesting?
    requires id < |calls| && calls[id] == task.call && GettingInv(server, id, task, trace)
    requires var Requesting(parsed, installation) := task.pc.phase;
             posted == Posted(id, task.pc.purpose, parsed.namespace, installation,
                              parsed.repositoryNames, parsed.permissions, Failure(failure))
    requires Justified(server, calls, trace, posted)
    ensures Follow(server, calls, trace, GetFails(id, task, cache, now, HttpError(failure), [posted]).events)
  {
    assert (trace + [posted])[|trace|] == posted;
    assert PostFailed(trace + [posted], id, task.pc.purpose, task.pc.phase.parsed, failure);
    GetFailsFollows(server, calls, id, task, cache, trace, now, HttpError(failure), [posted]);
  }

  lemma RequestingFollows(
      server: Server, calls: seq<Call>, id: nat, task: Task, cache: Cache, trace: seq<Event>, now: int, answer: Answer)
    requires PcOk(task.call.request, task.pc) && task.pc.Getting? && task.pc.phase.Requesting?
    requires id < |calls| && calls[id] == task.call && GettingInv(server, id, task, trace)
    requires var Requesting(parsed, installation) := task.pc.phase;
             PostJustified(server, task.call, trace, id, task.pc.purpose, parsed.namespace, installation,
                           parsed.repositoryNames, parsed.permissions)
    ensures Follow(server, calls, trace, GetRequesting(id, task, cache, now, answer).events)
  {
    var Requesting(parsed, installation) := task.pc.phase;
    var posted := Posted(id, task.pc.purpose, parsed.namespace, installation,
                         parsed.repositoryNames, parsed.permissions, answer.accessToken);
    assert Justified(server, calls, trace, posted);
    match answer.accessToken {
      case Failure(failure) =>
        PostFailsFollows(server, calls, id, task, cache, trace, now, failure, posted);
      case Success(token) =>
        FollowOne(server, calls, trace, posted);
    }
  }

  /***** One action *****/

  /** What a call that acts can rely on. */
  ghost predicate Ready(server: Server, calls: seq<Call>, id: nat, task: Task, trace: seq<Event>) {
    && id < |calls| && calls[id] == task.call
    && PcOk(task.call.request, task.pc)
    && TaskInv(server, id, task, trace)
    && AllJustified(server, calls, trace)
  }

  lemma GetFollows(
      server: Server, calls: seq<Call>, id: nat, task: Task, cache: Cache, trace: seq<Event>, now: int, answer: Answer)
    requires Ready(server, calls, id, task, trace) && task.pc.Getting?
    ensures Follow(server, calls, trace, Get(server, id, task, cache, now, answer).events)
  {
    match task.pc.phase {
      case Begin => BeginFollows(server, calls, id, task, cache, trace, now, answer);
      case Searching(_, _, _) => SearchingFollows(server, calls, id, task, cache, trace, now, answer);
      case Requesting(_, _) =>
        PostIsJustified(server, calls, id, task, trace);
        RequestingFollows(server, calls, id, task, cache, trace, now, answer);
    }
  }

  lemma ActFollows(
      server: Server, calls: seq<Call>, id: nat, task: Task, trace: seq<Event>, now: int, answer: Answer)
    requires Ready(server, calls, id, task, trace)
    ensures Follow(server, calls, trace, Act(server, id, task, CacheOf(trace), now, answer).events)
  {
    var cache := CacheOf(trace);
    match task.pc {
      case HoldCheck(_, _) => CheckFollows(server, calls, id, task, trace, now);
      case Getting(_, _, _) => GetFollows(server, calls, id, task, cache, trace, now, answer);
      case Reading(_, _, _) => ReadFollows(server, calls, id, task, cache, trace, now, answer);
      case HoldStore(_, _, _) => StoreFollows(server, calls, id, task, cache, trace, now);
      case Judging(_, _, _, _) => JudgeFollows(server, calls, id, task, cache, trace);
      case Deploying(_) => DeployFollows(server, calls, id, task, cache, trace);
      case Arrived => FollowOne(server, calls, trace, Arrive(server, id, task, cache, now).events[0]);
      case AwaitCheck(_, _) =>
      case AwaitStore(_, _, _) =>
      case Returned(_) =>
      case _ => DeviceFollows(server, calls, id, task, cache, trace, answer);
    }
  }

  lemma GetLeads(
      server: Server, calls: seq<Call>, id: nat, task: Task, cache: Cache, trace: seq<Event>, longer: seq<Event>,
      now: int, answer: Answer)
    requires Ready(server, calls, id, task, trace) && task.pc.Getting?
    requires Grows(trace, longer, Get(server, id, task, cache, now, answer).events, id)
    ensures TaskInv(server, id, After(task, Get(server, id, task, cache, now, answer)), longer)
  {
    match task.pc.phase {
      case Begin =>
        if task.pc.purpose.Mint? {
          AcceptedParses(server, calls, id, task, trace, task.pc.who);
        }
        BeginLeads(server, id, task, cache, trace, longer, now, answer);
      case Searching(_, _, _) => SearchingLeads(server, id, task, cache, trace, longer, now, answer);
      case Requesting(_, _) =>
        PostIsJustified(server, calls, id, task, trace);
        RequestingLeads(server, id, task, cache, trace, longer, now, answer);
    }
  }

  /** Acquiring the mutex changes nothing else. */
  lemma AcquireLeads(
      server: Server, id: nat, task: Task, cache: Cache, trace: seq<Event>, longer: seq<Event>, now: int,
      answer: Answer)
    requires PcOk(task.call.request, task.pc) && Awaits(task.pc) && TaskInv(server, id, task, trace)
    requires Grows(trace, longer, [], id)
    ensures TaskInv(server, id, After(task, Act(server, id, task, cache, now, answer)), longer)
  {
  }

  lemma QueryLeads(
      server: Server, id: nat, task: Task, cache: Cache, trace: seq<Event>, longer: seq<Event>,
      now: int, answer: Answer, effect: Effect)
    requires PcOk(task.call.request, task.pc) && (task.pc.HoldCheck? || task.pc.Reading? || task.pc.HoldStore?)
    requires TaskInv(server, id, task, trace) && CacheParses(server, cache)
    requires effect == Act(server, id, task, cache, now, answer) && Grows(trace, longer, effect.events, id)
    ensures TaskInv(server, id, After(task, effect), longer)
  {
    match task.pc {
      case HoldCheck(_, _) => CheckLeads(server, id, task, cache, trace, longer, now);
      case Reading(_, _, _) => ReadLeads(server, id, task, cache, trace, longer, now, answer);
      case HoldStore(_, _, _) => StoreLeads(server, id, task, cache, trace, longer, now);
    }
  }

  lemma SiloLeads(
      server: Server, id: nat, task: Task, cache: Cache, trace: seq<Event>, longer: seq<Event>,
      now: int, answer: Answer, effect: Effect)
    requires PcOk(task.call.request, task.pc)
    requires task.pc.Deploying? || task.pc.Preparing? || task.pc.Authorizing? || task.pc.Confirming?
             || task.pc.Redeeming?
    requires DeviceInv(server, id, task, trace)
    requires effect == Act(server, id, task, cache, now, answer) && Grows(trace, longer, effect.events, id)
    ensures TaskInv(server, id, After(task, effect), longer)
  {
    if task.pc.Deploying? {
      DeployLeads(server, id, task, cache, trace, longer);
    } else {
      DeviceLeads(server, id, task, cache, trace, longer, answer);
    }
  }

  lemma EarlyLeads(
      server: Server, id: nat, task: Task, cache: Cache, trace: seq<Event>, longer: seq<Event>,
      now: int, answer: Answer, effect: Effect)
    requires PcOk(task.call.request, task.pc) && (task.pc.Arrived? || Awaits(task.pc))
    requires TaskInv(server, id, task, trace)
    requires effect == Act(server, id, task, cache, now, answer) && Grows(trace, longer, effect.events, id)
    ensures TaskInv(server, id, After(task, effect), longer)
  {
    if task.pc.Arrived? {
      ArriveLeads(server, id, task, cache, trace, longer, now);
    } else {
      AcquireLeads(server, id, task, cache, trace, longer, now, answer);
    }
  }

  lemma GetOrJudgeLeads(
      server: Server, calls: seq<Call>, id: nat, task: Task, cache: Cache, trace: seq<Event>, longer: seq<Event>,
      now: int, answer: Answer, effect: Effect)
    requires Ready(server, calls, id, task, trace) && (task.pc.Getting? || task.pc.Judging?)
    requires effect == Act(server, id, task, cache, now, answer) && Grows(trace, longer, effect.events, id)
    ensures TaskInv(server, id, After(task, effect), longer)
  {
    if task.pc.Getting? {
      GetLeads(server, calls, id, task, cache, trace, longer, now, answer);
    } else {
      JudgeLeads(server, id, task, cache, trace, longer);
    }
  }

  /** Every action leads to a program point whose invariant holds. */
  lemma ActLeads(
      server: Server, calls: seq<Call>, id: nat, task: Task, cache: Cache, trace: seq<Event>, longer: seq<Event>,
      now: int, answer: Answer, effect: Effect)
    requires Ready(server, calls, id, task, trace) && !task.pc.Returned? && CacheParses(server, cache)
    requires effect == Act(server, id, task, cache, now, answer) && Grows(trace, longer, effect.events, id)
    ensures TaskInv(server, id, After(task, effect), longer)
  {
    if task.pc.Arrived? || Awaits(task.pc) {
      EarlyLeads(server, id, task, cache, trace, longer, now, answer, effect);
    } else if task.pc.Getting? || task.pc.Judging? {
      GetOrJudgeLeads(server, calls, id, task, cache, trace, longer, now, answer, effect);
    } else if task.pc.HoldCheck? || task.pc.Reading? || task.pc.HoldStore? {
      QueryLeads(server, id, task, cache, trace, longer, now, answer, effect);
    } else {
      SiloLeads(server, id, task, cache, trace, longer, now, answer, effect);
    }
  }

  lemma GetEvents(server: Server, id: nat, task: Task, cache: Cache, now: int, answer: Answer)
    requires PcOk(task.call.request, task.pc) && task.pc.Getting?
    ensures var effect := Get(server, id, task, cache, now, answer);
            && effect.cache == cache
            && forall e | e in effect.events :: e.call == id && !e.Stored?
  {
  }

  lemma DeviceEvents(server: Server, id: nat, task: Task, cache: Cache, answer: Answer)
    requires PcOk(task.call.request, task.pc)
    requires task.pc.Preparing? || task.pc.Authorizing? || task.pc.Confirming? || task.pc.Redeeming?
    ensures var effect := DeviceFlow(server, id, task, cache, answer);
            && effect.cache == cache
            && forall e | e in effect.events :: e.call == id && !e.Stored?
  {
  }

  /** Events carry the call's own number, and only a store changes the cache. */
  lemma ActEvents(server: Server, id: nat, task: Task, cache: Cache, now: int, answer: Answer)
    requires PcOk(task.call.request, task.pc)
    ensures var effect := Act(server, id, task, cache, now, answer);
            && (forall e | e in effect.events :: e.call == id)
            && (!task.pc.HoldStore? ==> effect.cache == cache && forall e | e in effect.events :: !e.Stored?)
  {
    if task.pc.Getting? {
      GetEvents(server, id, task, cache, now, answer);
    } else if task.pc.Preparing? || task.pc.Authorizing? || task.pc.Confirming? || task.pc.Redeeming? {
      DeviceEvents(server, id, task, cache, answer);
    }
  }

  /** The cache after an action is the replay of the longer trace, and its keys parse. */
  lemma ActCaches(
      server: Server, id: nat, task: Task, trace: seq<Event>, now: int, answer: Answer)
    requires PcOk(task.call.request, task.pc) && CacheParses(server, CacheOf(trace))
    requires task.pc.HoldStore? ==> FetchInv(server, id, task, trace)
    ensures var effect := Act(server, id, task, CacheOf(trace), now, answer);
            && effect.cache == CacheOf(trace + effect.events)
            && CacheParses(server, effect.cache)
  {
    var effect := Act(server, id, task, CacheOf(trace), now, answer);
    ActEvents(server, id, task, CacheOf(trace), now, answer);
    if task.pc.HoldStore? {
      Append(trace, effect.events[0], id);
    } else {
      NoStores(trace, effect.events);
    }
  }

  lemma {:induction false} NoStores(trace: seq<Event>, events: seq<Event>)
    requires forall e | e in events :: !e.Stored?
    ensures CacheOf(trace + events) == CacheOf(trace)
  {
    if events == [] {
      assert trace + events == trace;
    } else {
      var init := events[..|events| - 1];
      assert trace + events == (trace + init) + [events[|events| - 1]];
      NoStores(trace, init);
      Append(trace + init, events[|events| - 1], 0);
    }
  }

  /***** Steps and runs *****/

  /** The mutex passes to the call that acquires it and is free after its locked region. */
  lemma LockKept(server: Server, w: World, choice: Choice)
    requires WorldOk(w) && LockInv(w) && Enabled(w, choice.id)
    ensures LockInv(Step(server, w, choice))
  {
    var task := w.tasks[choice.id];
    assert Holds(Act(server, choice.id, task, w.cache, choice.now, choice.answer).pc) <==> Awaits(task.pc);
  }

  lemma StepTasks(server: Server, calls: seq<Call>, w: World, choice: Choice, k: nat)
    requires Inv(server, calls, w) && Enabled(w, choice.id) && k < |w.tasks|
    ensures var w' := Step(server, w, choice); TaskInv(server, k, w'.tasks[k], w'.trace)
  {
    var id := choice.id;
    var effect := Act(server, id, w.tasks[id], w.cache, choice.now, choice.answer);
    ActEvents(server, id, w.tasks[id], w.cache, choice.now, choice.answer);
    if k == id {
      LogConcat(w.trace, effect.events, id);
      ActLeads(server, calls, id, w.tasks[id], w.cache, w.trace, w.trace + effect.events, choice.now, choice.answer,
               effect);
    } else {
      TaskFrame(server, k, w.tasks[k], w.trace, effect.events);
    }
  }

  lemma StepKeeps(server: Server, calls: seq<Call>, w: World, choice: Choice)
    requires Inv(server, calls, w)
    ensures Inv(server, calls, Step(server, w, choice))
  {
    if Enabled(w, choice.id) {
      var id := choice.id;
      var w' := Step(server, w, choice);
      var effect := Act(server, id, w.tasks[id], w.cache, choice.now, choice.answer);
      ActCaches(server, id, w.tasks[id], w.trace, choice.now, choice.answer);
      ActFollows(server, calls, id, w.tasks[id], w.trace, choice.now, choice.answer);
      JustifiedAppend(server, calls, w.trace, effect.events);
      LockKept(server, w, choice);
      forall k | 0 <= k < |w'.tasks|
        ensures TaskInv(server, k, w'.tasks[k], w'.trace)
      {
        StepTasks(server, calls, w, choice, k);
      }
    }
  }

  /** The invariant holds after every run, whatever the interleaving, the clock and the answers. */
  lemma {:induction false} RunKeeps(server: Server, calls: seq<Call>, choices: seq<Choice>)
    ensures Inv(server, calls, Run(server, calls, choices))
  {
    if choices != [] {
      var last := |choices| - 1;
      RunKeeps(server, calls, choices[..last]);
      StepKeeps(server, calls, Run(server, calls, choices[..last]), choices[last]);
    }
  }
}
