/** Each action of a call leads to a program point whose invariant holds in the longer trace. */
module ExchangeActions {

  import opened Wrappers
  import opened Cedar
  import opened Exchange
  import opened ExchangeInvariant
  import opened GitHubRequest
  import opened GitHubTokens
  import opened Policy
  import OxideTokens

  /** `longer` extends the trace by these events of call `id`, as far as the call can tell. */
  ghost predicate Grows(trace: seq<Event>, longer: seq<Event>, events: seq<Event>, id: nat) {
    && (forall e | e in trace :: e in longer)
    && (forall e | e in events :: e in longer)
    && LogOf(longer, id) == LogOf(trace, id) + LogOf(events, id)
  }

  function After(task: Task, effect: Effect): Task {
    Task(task.call, effect.seen, effect.pc)
  }

  lemma ArriveLeads(server: Server, id: nat, task: Task, cache: Cache, trace: seq<Event>, longer: seq<Event>, now: int)
    requires task.pc.Arrived? && TaskInv(server, id, task, trace)
    requires Grows(trace, longer, Arrive(server, id, task, cache, now).events, id)
    ensures TaskInv(server, id, After(task, Arrive(server, id, task, cache, now)), longer)
  {
    match Authenticate(server, task.call.token, now) {
      case Failure(e) =>
        LogOfOne(TurnedAway(id, e, now), id);
        assert TurnedAway(id, e, now) in [TurnedAway(id, e, now)];
        assert Rejected(server, task.call.token, longer, id, e);
      case Success(who) =>
        LogOfOne(Authenticated(id, who, now), id);
        assert Authenticated(id, who, now) in [Authenticated(id, who, now)];
        assert Verified(server, task.call.token, longer, id, who);
        EnterLeads(server, id, task, longer, who);
    }
  }

  lemma EnterLeads(server: Server, id: nat, task: Task, trace: seq<Event>, who: Entity)
    requires Verified(server, task.call.token, trace, id, who) && task.seen == [] && LogOf(trace, id) == []
    ensures TaskInv(server, id, Task(task.call, task.seen, Enter(task.call.request, who)), trace)
  {
    var task' := Task(task.call, task.seen, Enter(task.call.request, who));
    if task.call.request.GitHub? {
      if task'.pc.Returned? {
        assert RefusedBecause(server, id, task', trace, who, EmptyRequest);
      } else {
        assert AtEntry(server, id, task', trace, who, 0, false);
      }
    }
  }

  lemma FirstPermission(
      server: Server, id: nat, task: Task, trace: seq<Event>, who: Entity, i: nat, visibility: string, task': Task)
    requires AtEntry(server, id, task, trace, who, i, true)
    requires server.credentials && ParseRepository(task.call.request.github.repositories[i]).Some?
    requires task'.call == task.call && task'.seen == task.seen + [visibility]
    ensures AtPermission(server, id, task', trace, who, i, 0)
  {
    assert task'.seen[..i] == task.seen;
    assert EntryLog(task.call.request.github, i, visibility, 0) == [Asked(task.call.request.github.repositories[i])];
  }

  /** A call that has obtained a visibility starts judging under it. */
  lemma StartsJudging(
      server: Server, id: nat, task: Task, trace: seq<Event>, who: Entity, i: nat, visibility: string)
    requires AtEntry(server, id, task, trace, who, i, true)
    requires server.credentials && ParseRepository(task.call.request.github.repositories[i]).Some?
    requires Viewed(trace, id, task.call.request.github.repositories[i], visibility)
    ensures var pc := Judging(who, i, visibility, 0);
            && PcOk(task.call.request, pc)
            && TaskInv(server, id, Task(task.call, task.seen + [visibility], pc), trace)
  {
    var task' := Task(task.call, task.seen + [visibility], Judging(who, i, visibility, 0));
    FirstPermission(server, id, task, trace, who, i, visibility, task');
    assert JudgingInv(server, id, task', trace);
  }

  lemma MissLeads(server: Server, id: nat, task: Task, trace: seq<Event>, longer: seq<Event>, now: int)
    requires PcOk(task.call.request, task.pc) && task.pc.HoldCheck?
    requires AtEntry(server, id, task, trace, task.pc.who, task.pc.i, false)
    requires Grows(trace, longer, [Miss(id, task.call.request.github.repositories[task.pc.i], now)], id)
    ensures TaskInv(server, id, Task(task.call, task.seen, Getting(task.pc.who, Probe(task.pc.i), Begin)), longer)
  {
    var repository, i := task.call.request.github.repositories[task.pc.i], task.pc.i;
    assert LogOf([Miss(id, repository, now)], id) == [Asked(repository)];
    var task' := Task(task.call, task.seen, Getting(task.pc.who, Probe(i), Begin));
    assert AtEntry(server, id, task', longer, task.pc.who, i, true);
  }

  lemma HitLeads(
      server: Server, id: nat, task: Task, trace: seq<Event>, longer: seq<Event>, now: int, visibility: string)
    requires PcOk(task.call.request, task.pc) && task.pc.HoldCheck?
    requires AtEntry(server, id, task, trace, task.pc.who, task.pc.i, false)
    requires server.credentials && ParseRepository(task.call.request.github.repositories[task.pc.i]).Some?
    requires Grows(trace, longer, [Hit(id, task.call.request.github.repositories[task.pc.i], visibility, now)], id)
    ensures var pc := Judging(task.pc.who, task.pc.i, visibility, 0);
            PcOk(task.call.request, pc) && TaskInv(server, id, Task(task.call, task.seen + [visibility], pc), longer)
  {
    var hit := Hit(id, task.call.request.github.repositories[task.pc.i], visibility, now);
    LogOfOne(hit, id);
    assert hit in [hit];
    assert AtEntry(server, id, task, longer, task.pc.who, task.pc.i, true);
    StartsJudging(server, id, task, longer, task.pc.who, task.pc.i, visibility);
  }

  lemma CheckLeads(server: Server, id: nat, task: Task, cache: Cache, trace: seq<Event>, longer: seq<Event>, now: int)
    requires PcOk(task.call.request, task.pc) && task.pc.HoldCheck? && CacheParses(server, cache)
    requires AtEntry(server, id, task, trace, task.pc.who, task.pc.i, false)
    requires Grows(trace, longer, Check(id, task, cache, now).events, id)
    ensures TaskInv(server, id, After(task, Check(id, task, cache, now)), longer)
  {
    var repository := task.call.request.github.repositories[task.pc.i];
    match Lookup(cache, repository, now) {
      case Some(visibility) =>
        HitLeads(server, id, task, trace, longer, now, visibility);
      case None => MissLeads(server, id, task, trace, longer, now);
    }
  }

  lemma RefusedByProbe(
      server: Server, id: nat, task: Task, trace: seq<Event>, longer: seq<Event>, who: Entity, i: nat, pc: Pc,
      cause: GitHubTokenError, now: int)
    requires AtEntry(server, id, task, trace, who, i, true)
    requires LogOf(longer, id) == LogOf(trace, id) && forall event | event in trace :: event in longer
    requires pc == Returned(Failure(Refused(GetVisibility(task.call.request.github.repositories[i], cause))))
    requires Probed(id, task.call.request.github.repositories[i], Failure(cause), now) in longer
    ensures TaskInv(server, id, Task(task.call, task.seen, pc), longer)
  {
    var task' := Task(task.call, task.seen, pc);
    assert AtEntry(server, id, task', longer, who, |task'.seen|, true);
    assert Unread(server, id, task', longer, who, pc.outcome.error.policyError);
    assert RefusedBecause(server, id, task', longer, who, pc.outcome.error.policyError);
  }

  lemma ReadLeads(
      server: Server, id: nat, task: Task, cache: Cache, trace: seq<Event>, longer: seq<Event>, now: int,
      answer: Answer)
    requires PcOk(task.call.request, task.pc) && task.pc.Reading? && FetchInv(server, id, task, trace)
    requires Grows(trace, longer, Read(id, task, cache, now, answer).events, id)
    ensures TaskInv(server, id, After(task, Read(id, task, cache, now, answer)), longer)
  {
    var repository := task.call.request.github.repositories[task.pc.i];
    var effect := Read(id, task, cache, now, answer);
    assert LogOf(effect.events, id) == [];
    match answer.visibility {
      case Success(visibility) =>
        assert FetchedBefore(longer, id, repository, visibility);
      case Failure(failure) =>
        RefusedByProbe(server, id, task, trace, longer, task.pc.who, task.pc.i, effect.pc, HttpError(failure), now);
    }
  }

  lemma StoreLeads(server: Server, id: nat, task: Task, cache: Cache, trace: seq<Event>, longer: seq<Event>, now: int)
    requires PcOk(task.call.request, task.pc) && task.pc.HoldStore? && FetchInv(server, id, task, trace)
    requires Grows(trace, longer, StoreFetched(id, task, cache, now).events, id)
    ensures TaskInv(server, id, After(task, StoreFetched(id, task, cache, now)), longer)
  {
    var repository := task.call.request.github.repositories[task.pc.i];
    assert LogOf([Stored(id, repository, task.pc.visibility, now)], id) == [];
    assert Viewed(longer, id, repository, task.pc.visibility);
    assert AtEntry(server, id, task, longer, task.pc.who, task.pc.i, true);
    StartsJudging(server, id, task, longer, task.pc.who, task.pc.i, task.pc.visibility);
  }

  lemma LogOfOne(event: Event, id: nat)
    ensures LogOf([event], id) == EntryOf(event, id)
  {
    assert [event][..0] == [];
  }

  lemma JudgingLog(server: Server, id: nat, task: Task, trace: seq<Event>)
    requires PcOk(task.call.request, task.pc) && task.pc.Judging? && JudgingInv(server, id, task, trace)
    ensures |task.seen| == task.pc.i + 1
    ensures LogOf(trace, id) == FullLog(task.call.request.github, task.seen[..task.pc.i])
                                + EntryLog(task.call.request.github, task.pc.i, task.pc.visibility, task.pc.j)
  {
  }

  /** The log after one more permission was allowed. */
  lemma AllowedLog(
      github: GitHubTokenRequest, id: nat, who: Entity, before: seq<LogEntry>, i: nat, visibility: string, j: nat,
      trace: seq<Event>, longer: seq<Event>)
    requires i < |github.repositories| && j < |github.permissions|
    requires LogOf(trace, id) == before + EntryLog(github, i, visibility, j)
    requires LogOf(longer, id) ==
             LogOf(trace, id) + LogOf([Allowed(id, who, github.repositories[i], visibility, github.permissions[j])], id)
    ensures LogOf(longer, id) == before + EntryLog(github, i, visibility, j + 1)
  {
    LogOfOne(Allowed(id, who, github.repositories[i], visibility, github.permissions[j]), id);
    EntryLogGrows(github, i, visibility, j, before);
  }

  lemma EntryLogGrows(github: GitHubTokenRequest, i: nat, visibility: string, j: nat, before: seq<LogEntry>)
    requires i < |github.repositories| && j < |github.permissions|
    ensures before + EntryLog(github, i, visibility, j + 1)
            == before + EntryLog(github, i, visibility, j)
               + [Judged(github.repositories[i], visibility, github.permissions[j])]
  {
  }

  /** All permissions of an entry are allowed: on to the next entry, or to minting. */
  lemma EntryDone(server: Server, id: nat, task: Task, trace: seq<Event>, longer: seq<Event>, pc: Pc)
    requires PcOk(task.call.request, task.pc) && task.pc.Judging? && JudgingInv(server, id, task, trace)
    requires task.pc.j + 1 == |task.call.request.github.permissions| && pc == NextPermission(task)
    requires forall event | event in trace :: event in longer
    requires LogOf(longer, id) == FullLog(task.call.request.github, task.seen[..task.pc.i])
                                  + EntryLog(task.call.request.github, task.pc.i, task.pc.visibility, task.pc.j + 1)
    ensures PcOk(task.call.request, pc) && TaskInv(server, id, Task(task.call, task.seen, pc), longer)
  {
    var task' := Task(task.call, task.seen, pc);
    assert |task.seen| - 1 == task.pc.i;
    assert LogOf(longer, id) == FullLog(task.call.request.github, task.seen);
    if task.pc.i + 1 < |task.call.request.github.repositories| {
      assert AtEntry(server, id, task', longer, task.pc.who, task.pc.i + 1, false);
    } else {
      assert Accepted(server, id, task', longer, task.pc.who);
    }
  }

  /** More permissions of this entry are left. */
  lemma PermissionGoesOn(server: Server, id: nat, task: Task, trace: seq<Event>, longer: seq<Event>, task': Task)
    requires PcOk(task.call.request, task.pc) && task.pc.Judging? && JudgingInv(server, id, task, trace)
    requires task.pc.j + 1 < |task.call.request.github.permissions|
    requires task' == task.(pc := task.pc.(j := task.pc.j + 1))
    requires forall event | event in trace :: event in longer
    requires LogOf(longer, id) == FullLog(task.call.request.github, task.seen[..task.pc.i])
                                  + EntryLog(task.call.request.github, task.pc.i, task.pc.visibility, task.pc.j + 1)
    ensures PcOk(task'.call.request, task'.pc) && JudgingInv(server, id, task', longer)
  {
    assert Viewed(longer, id, task.call.request.github.repositories[task.pc.i], task.pc.visibility);
    assert AtPermission(server, id, task', longer, task.pc.who, task.pc.i, task.pc.j + 1);
  }

  lemma EntryGoesOn(server: Server, id: nat, task: Task, trace: seq<Event>, longer: seq<Event>, pc: Pc)
    requires PcOk(task.call.request, task.pc) && task.pc.Judging? && JudgingInv(server, id, task, trace)
    requires task.pc.j + 1 < |task.call.request.github.permissions| && pc == NextPermission(task)
    requires forall event | event in trace :: event in longer
    requires LogOf(longer, id) == FullLog(task.call.request.github, task.seen[..task.pc.i])
                                  + EntryLog(task.call.request.github, task.pc.i, task.pc.visibility, task.pc.j + 1)
    ensures PcOk(task.call.request, pc) && TaskInv(server, id, Task(task.call, task.seen, pc), longer)
  {
    PermissionGoesOn(server, id, task, trace, longer, Task(task.call, task.seen, pc));
  }

  lemma JudgeAllows(server: Server, id: nat, task: Task, trace: seq<Event>, longer: seq<Event>, pc: Pc)
    requires PcOk(task.call.request, task.pc) && task.pc.Judging? && JudgingInv(server, id, task, trace)
    requires pc == NextPermission(task)
    requires var github := task.call.request.github;
             Grows(trace, longer,
                   [Allowed(id, task.pc.who, github.repositories[task.pc.i], task.pc.visibility,
                            github.permissions[task.pc.j])], id)
    ensures PcOk(task.call.request, pc) && TaskInv(server, id, Task(task.call, task.seen, pc), longer)
  {
    JudgingLog(server, id, task, trace);
    AllowedLog(task.call.request.github, id, task.pc.who, FullLog(task.call.request.github, task.seen[..task.pc.i]),
               task.pc.i, task.pc.visibility, task.pc.j, trace, longer);
    if task.pc.j + 1 < |task.call.request.github.permissions| {
      EntryGoesOn(server, id, task, trace, longer, pc);
    } else {
      EntryDone(server, id, task, trace, longer, pc);
    }
  }

  lemma JudgeLeads(server: Server, id: nat, task: Task, cache: Cache, trace: seq<Event>, longer: seq<Event>)
    requires PcOk(task.call.request, task.pc) && task.pc.Judging? && JudgingInv(server, id, task, trace)
    requires Grows(trace, longer, Judge(server, id, task, cache).events, id)
    ensures TaskInv(server, id, After(task, Judge(server, id, task, cache)), longer)
  {
    var github := task.call.request.github;
    var Judging(who, i, visibility, j) := task.pc;
    var task' := After(task, Judge(server, id, task, cache));
    match Authorize(server.evaluate, who, github.permissions[j], RepositoryEntity(github.repositories[i], visibility)) {
      case Failure(e) =>
        assert AtPermission(server, id, task', longer, who, |task'.seen| - 1, j);
        assert Denied(server, id, task', longer, who, j, e);
        assert RefusedBecause(server, id, task', longer, who, e);
      case Success(_) =>
        JudgeAllows(server, id, task, trace, longer, task'.pc);
    }
  }

  /** A call fails after its silo was allowed. */
  lemma SiloFails(server: Server, id: nat, task: Task, longer: seq<Event>, who: Entity, e: OxideTokens.OxideError)
    requires task.call.request.Oxide? && Deployable(server, id, task, longer, who)
    requires SiloError(server, task.call.request.oxide, longer, id, e)
    ensures var pc := Returned(Failure(OxideFailure(e)));
            TaskInv(server, id, Task(task.call, task.seen, pc), longer)
  {
    assert Deployable(server, id, Task(task.call, task.seen, Returned(Failure(OxideFailure(e)))), longer, who);
  }

  /** One of the call's requests to its silo fails. */
  lemma RequestFails(
      server: Server, id: nat, task: Task, longer: seq<Event>, who: Entity, client: OxideTokens.Client,
      request: OxideTokens.SiloRequest, failure: OxideTokens.ServiceFailure)
    requires task.call.request.Oxide? && Deployable(server, id, task, longer, who)
    requires UsesClient(server, task.call.request.oxide, client)
    requires forall e | e in [SiloFailed(id, client, request, failure)] :: e in longer
    ensures var pc := Returned(Failure(OxideFailure(OxideTokens.RequestError(request, failure))));
            TaskInv(server, id, Task(task.call, task.seen, pc), longer)
  {
    assert SiloFailed(id, client, request, failure) in [SiloFailed(id, client, request, failure)];
    assert FailsWith(request, failure, OxideTokens.RequestError(request, failure));
    assert RequestToSiloFailed(longer, id, OxideTokens.RequestError(request, failure));
    SiloFails(server, id, task, longer, who, OxideTokens.RequestError(request, failure));
  }

  lemma PrepareLeads(server: Server, id: nat, task: Task, cache: Cache, trace: seq<Event>, answer: Answer)
    requires PcOk(task.call.request, task.pc) && task.pc.Preparing? && DeviceInv(server, id, task, trace)
    ensures TaskInv(server, id, After(task, DeviceFlow(server, id, task, cache, answer)), trace)
  {
    match Prepare(server, task.call.request.oxide) {
      case Failure(e) => SiloFails(server, id, task, trace, task.pc.who, e);
      case Success(_) =>
        assert Deployable(server, id, After(task, DeviceFlow(server, id, task, cache, answer)), trace, task.pc.who);
    }
  }

  lemma AuthorizeLeads(
      server: Server, id: nat, task: Task, cache: Cache, trace: seq<Event>, longer: seq<Event>, answer: Answer)
    requires PcOk(task.call.request, task.pc) && task.pc.Authorizing? && DeviceInv(server, id, task, trace)
    requires Grows(trace, longer, DeviceFlow(server, id, task, cache, answer).events, id)
    ensures TaskInv(server, id, After(task, DeviceFlow(server, id, task, cache, answer)), longer)
  {
    match answer.device {
      case Failure(e) =>
        RequestFails(server, id, task, longer, task.pc.who, task.pc.client, OxideTokens.DeviceAuthorization, e);
      case Success(_) =>
        assert Deployable(server, id, After(task, DeviceFlow(server, id, task, cache, answer)), longer, task.pc.who);
    }
  }

  lemma ConfirmLeads(
      server: Server, id: nat, task: Task, cache: Cache, trace: seq<Event>, longer: seq<Event>, answer: Answer)
    requires PcOk(task.call.request, task.pc) && task.pc.Confirming? && DeviceInv(server, id, task, trace)
    requires Grows(trace, longer, DeviceFlow(server, id, task, cache, answer).events, id)
    ensures TaskInv(server, id, After(task, DeviceFlow(server, id, task, cache, answer)), longer)
  {
    match answer.confirmation {
      case Failure(e) =>
        RequestFails(server, id, task, longer, task.pc.who, task.pc.client, OxideTokens.Confirmation, e);
      case Success(_) =>
        assert Deployable(server, id, After(task, DeviceFlow(server, id, task, cache, answer)), longer, task.pc.who);
    }
  }

  lemma RedeemLeads(
      server: Server, id: nat, task: Task, cache: Cache, trace: seq<Event>, longer: seq<Event>, answer: Answer)
    requires PcOk(task.call.request, task.pc) && task.pc.Redeeming? && DeviceInv(server, id, task, trace)
    requires Grows(trace, longer, DeviceFlow(server, id, task, cache, answer).events, id)
    ensures TaskInv(server, id, After(task, DeviceFlow(server, id, task, cache, answer)), longer)
  {
    match answer.grant {
      case Failure(e) =>
        RequestFails(server, id, task, longer, task.pc.who, task.pc.client, OxideTokens.TokenGrant, e);
      case Success(_) =>
        assert Deployable(server, id, After(task, DeviceFlow(server, id, task, cache, answer)), longer, task.pc.who);
    }
  }

  lemma DeviceLeads(
      server: Server, id: nat, task: Task, cache: Cache, trace: seq<Event>, longer: seq<Event>, answer: Answer)
    requires PcOk(task.call.request, task.pc)
    requires task.pc.Preparing? || task.pc.Authorizing? || task.pc.Confirming? || task.pc.Redeeming?
    requires DeviceInv(server, id, task, trace)
    requires Grows(trace, longer, DeviceFlow(server, id, task, cache, answer).events, id)
    ensures TaskInv(server, id, After(task, DeviceFlow(server, id, task, cache, answer)), longer)
  {
    match task.pc {
      case Preparing(_) =>
        assert DeviceInv(server, id, task, longer);
        PrepareLeads(server, id, task, cache, longer, answer);
      case Authorizing(_, _) => AuthorizeLeads(server, id, task, cache, trace, longer, answer);
      case Confirming(_, _, _, _) => ConfirmLeads(server, id, task, cache, trace, longer, answer);
      case Redeeming(_, _, _, _) => RedeemLeads(server, id, task, cache, trace, longer, answer);
    }
  }

  lemma DeployLeads(server: Server, id: nat, task: Task, cache: Cache, trace: seq<Event>, longer: seq<Event>)
    requires PcOk(task.call.request, task.pc) && task.pc.Deploying? && DeviceInv(server, id, task, trace)
    requires Grows(trace, longer, Deploy(server, id, task, cache).events, id)
    ensures TaskInv(server, id, After(task, Deploy(server, id, task, cache)), longer)
  {
  }

  /***** The phases of get *****/

  /** `get` goes on to its next phase. */
  lemma MovesOn(server: Server, id: nat, task: Task, trace: seq<Event>, longer: seq<Event>, phase: Phase)
    requires PcOk(task.call.request, task.pc) && task.pc.Getting? && PhaseOk(phase)
    requires GettingInv(server, id, task, trace)
    requires LogOf(longer, id) == LogOf(trace, id) && forall event | event in trace :: event in longer
    requires PhaseInv(server, id, task.call.request.github, task.pc.purpose, phase, longer)
    ensures var pc := Getting(task.pc.who, task.pc.purpose, phase);
            PcOk(task.call.request, pc) && TaskInv(server, id, Task(task.call, task.seen, pc), longer)
  {
    var task' := Task(task.call, task.seen, Getting(task.pc.who, task.pc.purpose, phase));
    match task.pc.purpose {
      case Probe(i) => assert AtEntry(server, id, task', longer, task.pc.who, i, true);
      case Mint => assert Accepted(server, id, task', longer, task.pc.who);
    }
  }

  /** `get` fails: a refusal for a probe, an error of the endpoint for a mint. */
  lemma GetFailsLeads(
      server: Server, id: nat, task: Task, cache: Cache, trace: seq<Event>, longer: seq<Event>, now: int,
      e: GitHubTokenError, events: seq<Event>)
    requires PcOk(task.call.request, task.pc) && task.pc.Getting? && GettingInv(server, id, task, trace)
    requires task.pc.purpose.Mint? ==> MintError(task.call.request.github, longer, id, e)
    requires LogOf(longer, id) == LogOf(trace, id) && forall event | event in trace :: event in longer
    requires forall event | event in GetFails(id, task, cache, now, e, events).events :: event in longer
    ensures TaskInv(server, id, After(task, GetFails(id, task, cache, now, e, events)), longer)
  {
    var effect := GetFails(id, task, cache, now, e, events);
    match task.pc.purpose {
      case Mint =>
        assert Accepted(server, id, After(task, effect), longer, task.pc.who);
      case Probe(i) =>
        var probed := Probed(id, task.call.request.github.repositories[i], Failure(e), now);
        assert probed in effect.events;
        RefusedByProbe(server, id, task, trace, longer, task.pc.who, i, effect.pc, e, now);
    }
  }

  /** No event of a failing `get` is part of the authorization log. */
  lemma FailureIsNotLogged(
      id: nat, task: Task, cache: Cache, now: int, e: GitHubTokenError, events: seq<Event>)
    requires PcOk(task.call.request, task.pc) && task.pc.Getting?
    requires forall event | event in events :: event.Signed? || event.Looked? || event.Posted?
    ensures LogOf(GetFails(id, task, cache, now, e, events).events, id) == []
  {
    NoLog(GetFails(id, task, cache, now, e, events).events, id);
  }

  lemma FailsAfter(
      server: Server, id: nat, task: Task, cache: Cache, trace: seq<Event>, longer: seq<Event>, now: int,
      e: GitHubTokenError, event: Event)
    requires PcOk(task.call.request, task.pc) && task.pc.Getting? && GettingInv(server, id, task, trace)
    requires task.pc.purpose.Mint? ==> MintError(task.call.request.github, longer, id, e)
    requires event.Signed? || event.Looked? || event.Posted?
    requires Grows(trace, longer, GetFails(id, task, cache, now, e, [event]).events, id)
    ensures TaskInv(server, id, After(task, GetFails(id, task, cache, now, e, [event])), longer)
  {
    FailureIsNotLogged(id, task, cache, now, e, [event]);
    assert LogOf(longer, id) == LogOf(trace, id);
    GetFailsLeads(server, id, task, cache, trace, longer, now, e, [event]);
  }

  /** Credentials are missing, or the request does not parse. */
  lemma ChecksFail(
      server: Server, id: nat, task: Task, cache: Cache, trace: seq<Event>, longer: seq<Event>, now: int,
      e: GitHubTokenError)
    requires PcOk(task.call.request, task.pc) && task.pc.Getting? && GettingInv(server, id, task, trace)
    requires task.pc.purpose.Mint? ==>
               Parse(task.call.request.github) == Failure(e) && (e.DifferentOrgs? || e.DuplicatePermission?)
    requires Grows(trace, longer, GetFails(id, task, cache, now, e, []).events, id)
    ensures TaskInv(server, id, After(task, GetFails(id, task, cache, now, e, [])), longer)
  {
    FailureIsNotLogged(id, task, cache, now, e, []);
    assert LogOf(longer, id) == LogOf(trace, id);
    GetFailsLeads(server, id, task, cache, trace, longer, now, e, []);
  }

  lemma SigningFails(
      server: Server, id: nat, task: Task, cache: Cache, trace: seq<Event>, longer: seq<Event>, now: int)
    requires PcOk(task.call.request, task.pc) && task.pc.Getting? && GettingInv(server, id, task, trace)
    requires task.pc.purpose.Mint? ==> Parse(task.call.request.github).Success?
    requires var signed := Signed(id, task.pc.purpose, false);
             Grows(trace, longer, GetFails(id, task, cache, now, EncodeJwt, [signed]).events, id)
    ensures var signed := Signed(id, task.pc.purpose, false);
            TaskInv(server, id, After(task, GetFails(id, task, cache, now, EncodeJwt, [signed])), longer)
  {
    var signed := Signed(id, task.pc.purpose, false);
    assert signed in [signed] && signed in GetFails(id, task, cache, now, EncodeJwt, [signed]).events;
    FailsAfter(server, id, task, cache, trace, longer, now, EncodeJwt, signed);
  }

  lemma BeginLeads(
      server: Server, id: nat, task: Task, cache: Cache, trace: seq<Event>, longer: seq<Event>, now: int,
      answer: Answer)
    requires PcOk(task.call.request, task.pc) && task.pc.Getting? && task.pc.phase.Begin?
    requires GettingInv(server, id, task, trace)
    requires task.pc.purpose.Mint? ==> server.credentials
    requires var parsed := Parse(task.call.request.github);
             task.pc.purpose.Mint? && parsed.Failure? ==>
               parsed.error.DifferentOrgs? || parsed.error.DuplicatePermission?
    requires Grows(trace, longer, GetBegin(server, id, task, cache, now, answer).events, id)
    ensures TaskInv(server, id, After(task, GetBegin(server, id, task, cache, now, answer)), longer)
  {
    var parsed := Parse(RequestFor(task.call.request.github, task.pc.purpose));
    if !server.credentials {
      ChecksFail(server, id, task, cache, trace, longer, now, NoCredentials);
    } else if parsed.Failure? {
      ChecksFail(server, id, task, cache, trace, longer, now, parsed.error);
    } else if !answer.signed {
      SigningFails(server, id, task, cache, trace, longer, now);
    } else {
      NoLog([Signed(id, task.pc.purpose, true)], id);
      MovesOn(server, id, task, trace, longer, Searching(parsed.value, 0, None));
    }
  }

  /** The last kind was asked and an installation is known. */
  lemma Locates(
      server: Server, id: nat, task: Task, trace: seq<Event>, longer: seq<Event>, answer: Answer, installation: nat)
    requires PcOk(task.call.request, task.pc) && task.pc.Getting? && task.pc.phase.Searching? && task.pc.phase.kind == 1
    requires GettingInv(server, id, task, trace)
    requires SearchStep(task.pc.phase.found, answer.installation) == Success(Some(installation))
    requires LogOf(longer, id) == LogOf(trace, id) && forall event | event in trace :: event in longer
    requires Looked(id, task.pc.purpose, "users", task.pc.phase.parsed.namespace, answer.installation) in longer
    ensures var pc := Getting(task.pc.who, task.pc.purpose, Requesting(task.pc.phase.parsed, installation));
            PcOk(task.call.request, pc) && TaskInv(server, id, Task(task.call, task.seen, pc), longer)
  {
    var purpose := task.pc.purpose;
    var Searching(parsed, _, found) := task.pc.phase;
    var orgs :| Looked(id, purpose, "orgs", parsed.namespace, orgs) in trace
                && SearchStep(None, orgs) == Success(found);
    assert Looked(id, purpose, "orgs", parsed.namespace, orgs) in longer;
    assert FoundBy(orgs, answer.installation, installation);
    assert Located(longer, id, purpose, parsed.namespace, installation);
    MovesOn(server, id, task, trace, longer, Requesting(parsed, installation));
  }

  /** A look-up that ends the search failed with that very answer, and not with a 404. */
  lemma LookFails(
      id: nat, purpose: Purpose, kind: string, parsed: ParsedGitHubRequest, trace: seq<Event>, found: Option<nat>,
      answer: Result<nat, HttpFailure>)
    requires SearchStep(found, answer).Failure?
    requires Looked(id, purpose, kind, parsed.namespace, answer) in trace
    ensures RequestFailed(trace, id, purpose, parsed, SearchStep(found, answer).error)
  {
    assert answer == Failure(answer.error);
    assert LookFailed(trace, id, purpose, parsed, answer.error);
    if answer.error.Status? {
      assert answer.error == Status(answer.error.status, answer.error.message);
    }
  }

  /** When the search ends without an installation, GitHub's answers say why. */
  lemma SearchFails(
      server: Server, id: nat, github: GitHubTokenRequest, purpose: Purpose, phase: Phase,
      trace: seq<Event>, longer: seq<Event>, answer: Answer)
    requires PurposeOk(github, purpose) && phase.Searching? && PhaseOk(phase)
    requires PhaseInv(server, id, github, purpose, phase, trace)
    requires forall event | event in trace :: event in longer
    requires Looked(id, purpose, KINDS[phase.kind], phase.parsed.namespace, answer.installation) in longer
    ensures var step := SearchStep(phase.found, answer.installation);
            && (step.Failure? ==> RequestFailed(longer, id, purpose, phase.parsed, step.error))
            && (step == Success(None) && phase.kind == 1 ==>
                  RequestFailed(longer, id, purpose, phase.parsed, AppNotInstalled(phase.parsed.namespace)))
  {
    var step := SearchStep(phase.found, answer.installation);
    if step.Failure? {
      LookFails(id, purpose, KINDS[phase.kind], phase.parsed, longer, phase.found, answer.installation);
    } else if step == Success(None) && phase.kind == 1 {
      var orgs :| Looked(id, purpose, "orgs", phase.parsed.namespace, orgs) in trace
                  && SearchStep(None, orgs) == Success(phase.found);
      assert orgs == Failure(Status(404, orgs.error.message));
      assert answer.installation == Failure(Status(404, answer.installation.error.message));
      assert Looked(id, purpose, "orgs", phase.parsed.namespace, orgs) in longer;
    }
  }

  /** The search fails, or ends without an installation. */
  lemma SearchEnds(
      server: Server, id: nat, task: Task, cache: Cache, trace: seq<Event>, longer: seq<Event>, now: int,
      answer: Answer,
      e: GitHubTokenError)
    requires PcOk(task.call.request, task.pc) && task.pc.Getting? && task.pc.phase.Searching?
    requires GettingInv(server, id, task, trace)
    requires var Searching(parsed, kind, found) := task.pc.phase;
             var step := SearchStep(found, answer.installation);
             step == Failure(e) || (step == Success(None) && kind == 1 && e == AppNotInstalled(parsed.namespace))
    requires var looked := Looked(id, task.pc.purpose, KINDS[task.pc.phase.kind], task.pc.phase.parsed.namespace,
                                  answer.installation);
             Grows(trace, longer, GetFails(id, task, cache, now, e, [looked]).events, id)
    ensures var looked := Looked(id, task.pc.purpose, KINDS[task.pc.phase.kind], task.pc.phase.parsed.namespace,
                                 answer.installation);
            TaskInv(server, id, After(task, GetFails(id, task, cache, now, e, [looked])), longer)
  {
    var looked := Looked(id, task.pc.purpose, KINDS[task.pc.phase.kind], task.pc.phase.parsed.namespace,
                         answer.installation);
    assert looked in [looked] && looked in GetFails(id, task, cache, now, e, [looked]).events;
    SearchFails(server, id, task.call.request.github, task.pc.purpose, task.pc.phase, trace, longer, answer);
    FailsAfter(server, id, task, cache, trace, longer, now, e, looked);
  }

  lemma SearchGoesOn(
      server: Server, id: nat, task: Task, trace: seq<Event>, longer: seq<Event>, answer: Answer, found: Option<nat>,
      pc: Pc)
    requires PcOk(task.call.request, task.pc) && task.pc.Getting? && task.pc.phase.Searching?
    requires GettingInv(server, id, task, trace)
    requires SearchStep(task.pc.phase.found, answer.installation) == Success(found)
    requires task.pc.phase.kind == 1 ==> found.Some?
    requires var looked := Looked(id, task.pc.purpose, KINDS[task.pc.phase.kind], task.pc.phase.parsed.namespace,
                                  answer.installation);
             Grows(trace, longer, [looked], id)
    requires pc == Getting(task.pc.who, task.pc.purpose,
                           if task.pc.phase.kind == 0 then Searching(task.pc.phase.parsed, 1, found)
                           else Requesting(task.pc.phase.parsed, found.value))
    ensures PcOk(task.call.request, pc) && TaskInv(server, id, Task(task.call, task.seen, pc), longer)
  {
    var looked := Looked(id, task.pc.purpose, KINDS[task.pc.phase.kind], task.pc.phase.parsed.namespace,
                         answer.installation);
    NoLog([looked], id);
    assert looked in [looked];
    if task.pc.phase.kind == 0 {
      MovesOn(server, id, task, trace, longer, Searching(task.pc.phase.parsed, 1, found));
    } else {
      Locates(server, id, task, trace, longer, answer, found.value);
    }
  }

  lemma SearchingLeads(
      server: Server, id: nat, task: Task, cache: Cache, trace: seq<Event>, longer: seq<Event>, now: int,
      answer: Answer)
    requires PcOk(task.call.request, task.pc) && task.pc.Getting? && task.pc.phase.Searching?
    requires GettingInv(server, id, task, trace)
    requires Grows(trace, longer, GetSearching(id, task, cache, now, answer).events, id)
    ensures TaskInv(server, id, After(task, GetSearching(id, task, cache, now, answer)), longer)
  {
    var Searching(parsed, kind, found) := task.pc.phase;
    var step := SearchStep(found, answer.installation);
    var looked := Looked(id, task.pc.purpose, KINDS[kind], parsed.namespace, answer.installation);
    var effect := GetSearching(id, task, cache, now, answer);
    if step.Failure? {
      assert effect == GetFails(id, task, cache, now, step.error, [looked]);
      SearchEnds(server, id, task, cache, trace, longer, now, answer, step.error);
    } else if kind == 1 && step.value.None? {
      assert effect == GetFails(id, task, cache, now, AppNotInstalled(parsed.namespace), [looked]);
      SearchEnds(server, id, task, cache, trace, longer, now, answer, AppNotInstalled(parsed.namespace));
    } else {
      assert effect.events == [looked] && effect.seen == task.seen;
      SearchGoesOn(server, id, task, trace, longer, answer, step.value, effect.pc);
    }
  }

  /** Requests to GitHub and their outcomes are not part of the authorization log. */
  lemma {:induction false} NoLog(events: seq<Event>, id: nat)
    requires forall e | e in events :: e.Signed? || e.Looked? || e.Posted? || e.Probed?
    ensures LogOf(events, id) == []
  {
    if events != [] {
      assert events[|events| - 1] in events;
      NoLog(events[..|events| - 1], id);
    }
  }

  /** GitHub granted an access token. */
  lemma TokenArrives(
      server: Server, id: nat, task: Task, trace: seq<Event>, longer: seq<Event>, token: string, pc: Pc)
    requires PcOk(task.call.request, task.pc) && task.pc.Getting? && task.pc.phase.Requesting?
    requires GettingInv(server, id, task, trace)
    requires task.pc.purpose.Probe? ==> ParseRepository(task.call.request.github.repositories[task.pc.purpose.i]).Some?
    requires LogOf(longer, id) == LogOf(trace, id) && forall event | event in trace :: event in longer
    requires var Requesting(parsed, installation) := task.pc.phase;
             Posted(id, task.pc.purpose, parsed.namespace, installation,
                    parsed.repositoryNames, parsed.permissions, Success(token)) in longer
    requires pc == match task.pc.purpose
                   case Probe(i) => Reading(task.pc.who, i, token)
                   case Mint => Returned(Success(token))
    ensures TaskInv(server, id, Task(task.call, task.seen, pc), longer)
  {
    var task' := Task(task.call, task.seen, pc);
    match task.pc.purpose {
      case Probe(i) => assert AtEntry(server, id, task', longer, task.pc.who, i, true);
      case Mint => assert Accepted(server, id, task', longer, task.pc.who);
    }
  }

  lemma PostFails(
      server: Server, id: nat, task: Task, cache: Cache, trace: seq<Event>, longer: seq<Event>, now: int,
      failure: HttpFailure, posted: Event)
    requires PcOk(task.call.request, task.pc) && task.pc.Getting? && task.pc.phase.Requesting?
    requires GettingInv(server, id, task, trace)
    requires var Requesting(parsed, installation) := task.pc.phase;
             posted == Posted(id, task.pc.purpose, parsed.namespace, installation,
                              parsed.repositoryNames, parsed.permissions, Failure(failure))
    requires Grows(trace, longer, GetFails(id, task, cache, now, HttpError(failure), [posted]).events, id)
    ensures TaskInv(server, id, After(task, GetFails(id, task, cache, now, HttpError(failure), [posted])), longer)
  {
    assert posted in [posted] && posted in GetFails(id, task, cache, now, HttpError(failure), [posted]).events;
    assert PostFailed(longer, id, task.pc.purpose, task.pc.phase.parsed, failure);
    FailsAfter(server, id, task, cache, trace, longer, now, HttpError(failure), posted);
  }

  lemma RequestingLeads(
      server: Server, id: nat, task: Task, cache: Cache, trace: seq<Event>, longer: seq<Event>, now: int,
      answer: Answer)
    requires PcOk(task.call.request, task.pc) && task.pc.Getting? && task.pc.phase.Requesting?
    requires GettingInv(server, id, task, trace)
    requires task.pc.purpose.Probe? ==> ParseRepository(task.call.request.github.repositories[task.pc.purpose.i]).Some?
    requires Grows(trace, longer, GetRequesting(id, task, cache, now, answer).events, id)
    ensures TaskInv(server, id, After(task, GetRequesting(id, task, cache, now, answer)), longer)
  {
    var Requesting(parsed, installation) := task.pc.phase;
    var posted := Posted(id, task.pc.purpose, parsed.namespace, installation,
                         parsed.repositoryNames, parsed.permissions, answer.accessToken);
    match answer.accessToken {
      case Failure(failure) =>
        PostFails(server, id, task, cache, trace, longer, now, failure, posted);
      case Success(token) =>
        NoLog([posted], id);
        assert posted in [posted];
        TokenArrives(server, id, task, trace, longer, token, GetRequesting(id, task, cache, now, answer).pc);
    }
  }
}
