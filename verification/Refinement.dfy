/**
 * The cache is invisible: when GitHub's answer for each repository is fixed, errors included, every
 * call gets the decision it would get without a cache, for any interleaving and any clock.
 */
module Refinement {

  import opened Wrappers
  import opened Cedar
  import opened Exchange
  import opened ExchangeActions
  import opened ExchangeInvariant
  import opened ExchangeSafety
  import opened ExchangeSteps
  import opened GitHubRequest
  import opened Policy
  import GitHubTokens
  import Oidc

  /** Every probe so far was answered as the source says. */
  ghost predicate Fixed(trace: seq<Event>, source: Source) {
    forall e | e in trace && e.Probed? :: e.answer == source(e.repository)
  }

  /** From here on, the uncached decision for this call is still to be taken as follows. */
  ghost predicate Remaining(server: Server, task: Task, who: Entity, source: Source, i: nat)
    requires AtRepository(task.call.request, i)
  {
    Uncached(server.evaluate, who, task.call.request, source)
    == UncachedFrom(server.evaluate, who, task.call.request.github, source, i)
  }

  ghost predicate RemainingAt(
      server: Server, task: Task, who: Entity, source: Source, i: nat, visibility: string, j: nat)
    requires AtRepository(task.call.request, i) && j <= |task.call.request.github.permissions|
  {
    var github := task.call.request.github;
    && source(github.repositories[i]) == Success(visibility)
    && Remaining(server, task, who, source, i)
    && JudgeFrom(server.evaluate, who, RepositoryEntity(github.repositories[i], visibility), github.permissions, 0)
       == JudgeFrom(server.evaluate, who, RepositoryEntity(github.repositories[i], visibility), github.permissions, j)
  }

  /** The principal that the token's own claims describe. */
  ghost predicate Identifies(token: Oidc.Jwt, who: Entity) {
    && token.payload.Some?
    && (forall k | k in token.payload.value :: !token.payload.value[k].Other?)
    && WorkflowRunEntity(Oidc.ClaimsOf(token.payload.value)) == Success(who)
  }

  lemma AuthenticatedIsIdentified(server: Server, token: Oidc.Jwt, now: int, who: Entity)
    requires Authenticate(server, token, now) == Success(who)
    ensures Identifies(token, who)
  {
  }

  lemma VerifiedIsIdentified(server: Server, token: Oidc.Jwt, trace: seq<Event>, id: nat, pc: Pc)
    requires WhoOf(pc).Some? ==> Verified(server, token, trace, id, pc.who)
    ensures WhoOf(pc).Some? ==> Identifies(token, pc.who)
  {
    if WhoOf(pc).Some? {
      TraceIdentifies(server, token, trace, id, pc.who);
    }
  }

  ghost predicate Decided(server: Server, task: Task, who: Entity, source: Source, decision: Result<(), PolicyError>) {
    Uncached(server.evaluate, who, task.call.request, source) == decision
  }

  /** A call stands where the uncached decision would stand. */
  ghost predicate Agrees(server: Server, task: Task, source: Source)
    requires PcOk(task.call.request, task.pc)
  {
    match task.pc
    case Arrived => true
    case AwaitCheck(who, i) => Remaining(server, task, who, source, i)
    case HoldCheck(who, i) => Remaining(server, task, who, source, i)
    case Getting(who, Probe(i), _) => Remaining(server, task, who, source, i)
    case Getting(who, Mint, _) => Decided(server, task, who, source, Success(()))
    case Reading(who, i, _) => Remaining(server, task, who, source, i)
    case AwaitStore(who, i, visibility) => RemainingAt(server, task, who, source, i, visibility, 0)
    case HoldStore(who, i, visibility) => RemainingAt(server, task, who, source, i, visibility, 0)
    case Judging(who, i, visibility, j) => RemainingAt(server, task, who, source, i, visibility, j)
    case Deploying(who) => true
    case Preparing(who) => Decided(server, task, who, source, Success(()))
    case Authorizing(who, _) => Decided(server, task, who, source, Success(()))
    case Confirming(who, _, _, _) => Decided(server, task, who, source, Success(()))
    case Redeeming(who, _, _, _) => Decided(server, task, who, source, Success(()))
    case Returned(outcome) =>
      Judged(outcome) ==> exists who ::
        Identifies(task.call.token, who) && Decided(server, task, who, source, DecisionOf(outcome))
  }

  /** The call got as far as a decision of the policy. */
  predicate Judged(outcome: Result<string, ExchangeError>) {
    outcome.Success? || outcome.error.Refused? || outcome.error.GitHubFailure? || outcome.error.OxideFailure?
  }

  /** The policy's decision as it shows in the outcome of a call. */
  function DecisionOf(outcome: Result<string, ExchangeError>): Result<(), PolicyError>
    requires Judged(outcome)
  {
    match outcome
    case Failure(Refused(e)) => Failure(e)
    case _ => Success(())
  }

  /***** Every action keeps the agreement *****/

  lemma ArriveAgrees(server: Server, id: nat, task: Task, cache: Cache, now: int, source: Source)
    requires task.pc.Arrived?
    ensures Agrees(server, After(task, Arrive(server, id, task, cache, now)), source)
  {
    match Authenticate(server, task.call.token, now) {
      case Failure(_) =>
      case Success(who) => AuthenticatedIsIdentified(server, task.call.token, now, who);
    }
  }

  lemma CheckAgrees(server: Server, id: nat, task: Task, cache: Cache, now: int, source: Source)
    requires PcOk(task.call.request, task.pc) && task.pc.HoldCheck?
    requires CacheAgrees(cache, source) && Agrees(server, task, source)
    ensures Agrees(server, After(task, Check(id, task, cache, now)), source)
  {
  }

  /** A failed probe refuses the call as the source's own failure would. */
  lemma ProbeFails(
      server: Server, task: Task, who: Entity, i: nat, cause: GitHubTokenError, pc: Pc, source: Source)
    requires AtRepository(task.call.request, i) && Remaining(server, task, who, source, i)
    requires Identifies(task.call.token, who)
    requires source(task.call.request.github.repositories[i]) == Failure(cause)
    requires pc == Returned(Failure(Refused(GetVisibility(task.call.request.github.repositories[i], cause))))
    ensures Agrees(server, Task(task.call, task.seen, pc), source)
  {
    var task' := Task(task.call, task.seen, pc);
    assert Decided(server, task', who, source, DecisionOf(pc.outcome));
  }

  lemma GetFailsAgrees(
      server: Server, id: nat, task: Task, cache: Cache, now: int, source: Source, e: GitHubTokenError,
      events: seq<Event>)
    requires PcOk(task.call.request, task.pc) && task.pc.Getting? && Agrees(server, task, source)
    requires Identifies(task.call.token, task.pc.who)
    requires Fixed(GetFails(id, task, cache, now, e, events).events, source)
    ensures Agrees(server, After(task, GetFails(id, task, cache, now, e, events)), source)
  {
    var effect := GetFails(id, task, cache, now, e, events);
    match task.pc.purpose {
      case Probe(i) =>
        var repository := task.call.request.github.repositories[i];
        assert Probed(id, repository, Failure(e), now) in effect.events;
        assert source(repository) == Failure(e);
        ProbeFails(server, task, task.pc.who, i, e, effect.pc, source);
      case Mint =>
        assert Decided(server, After(task, effect), task.pc.who, source, DecisionOf(effect.pc.outcome));
    }
  }

  lemma BeginAgrees(server: Server, id: nat, task: Task, cache: Cache, now: int, answer: Answer, source: Source)
    requires PcOk(task.call.request, task.pc) && task.pc.Getting? && Agrees(server, task, source)
    requires Identifies(task.call.token, task.pc.who)
    requires Fixed(GetBegin(server, id, task, cache, now, answer).events, source)
    ensures Agrees(server, After(task, GetBegin(server, id, task, cache, now, answer)), source)
  {
    var parsed := Parse(RequestFor(task.call.request.github, task.pc.purpose));
    if !server.credentials {
      GetFailsAgrees(server, id, task, cache, now, source, NoCredentials, []);
    } else if parsed.Failure? {
      GetFailsAgrees(server, id, task, cache, now, source, parsed.error, []);
    } else if !answer.signed {
      GetFailsAgrees(server, id, task, cache, now, source, EncodeJwt, [Signed(id, task.pc.purpose, false)]);
    }
  }

  lemma SearchingAgrees(server: Server, id: nat, task: Task, cache: Cache, now: int, answer: Answer, source: Source)
    requires PcOk(task.call.request, task.pc) && task.pc.Getting? && task.pc.phase.Searching?
    requires Agrees(server, task, source) && Identifies(task.call.token, task.pc.who)
    requires Fixed(GetSearching(id, task, cache, now, answer).events, source)
    ensures Agrees(server, After(task, GetSearching(id, task, cache, now, answer)), source)
  {
    var Searching(parsed, kind, found) := task.pc.phase;
    var looked := [Looked(id, task.pc.purpose, KINDS[kind], parsed.namespace, answer.installation)];
    var step := GitHubTokens.SearchStep(found, answer.installation);
    if step.Failure? {
      GetFailsAgrees(server, id, task, cache, now, source, step.error, looked);
    } else if kind == 1 && step.value.None? {
      GetFailsAgrees(server, id, task, cache, now, source, AppNotInstalled(parsed.namespace), looked);
    }
  }

  lemma RequestingAgrees(server: Server, id: nat, task: Task, cache: Cache, now: int, answer: Answer, source: Source)
    requires PcOk(task.call.request, task.pc) && task.pc.Getting? && task.pc.phase.Requesting?
    requires Agrees(server, task, source) && Identifies(task.call.token, task.pc.who)
    requires Fixed(GetRequesting(id, task, cache, now, answer).events, source)
    ensures Agrees(server, After(task, GetRequesting(id, task, cache, now, answer)), source)
  {
    var Requesting(parsed, installation) := task.pc.phase;
    var posted := [Posted(id, task.pc.purpose, parsed.namespace, installation,
                          parsed.repositoryNames, parsed.permissions, answer.accessToken)];
    match answer.accessToken {
      case Failure(failure) =>
        GetFailsAgrees(server, id, task, cache, now, source, GitHubTokens.HttpError(failure), posted);
      case Success(token) =>
        if task.pc.purpose.Mint? {
          var effect := GetRequesting(id, task, cache, now, answer);
          assert Decided(server, After(task, effect), task.pc.who, source, DecisionOf(effect.pc.outcome));
        }
    }
  }

  lemma ReadAgrees(server: Server, id: nat, task: Task, cache: Cache, now: int, answer: Answer, source: Source)
    requires PcOk(task.call.request, task.pc) && task.pc.Reading? && Agrees(server, task, source)
    requires Identifies(task.call.token, task.pc.who)
    requires Fixed(Read(id, task, cache, now, answer).events, source)
    ensures Agrees(server, After(task, Read(id, task, cache, now, answer)), source)
  {
    var repository := task.call.request.github.repositories[task.pc.i];
    var effect := Read(id, task, cache, now, answer);
    assert effect.events[0] in effect.events;
    if answer.visibility.Failure? {
      ProbeFails(server, task, task.pc.who, task.pc.i, GitHubTokens.HttpError(answer.visibility.error), effect.pc,
                 source);
    }
  }

  /** A denied permission decides as it would without a cache. */
  lemma DenialAgrees(
      server: Server, task: Task, who: Entity, source: Source, i: nat, visibility: string, j: nat, e: PolicyError)
    requires AtRepository(task.call.request, i) && j < |task.call.request.github.permissions|
    requires RemainingAt(server, task, who, source, i, visibility, j)
    requires var github := task.call.request.github;
             Authorize(server.evaluate, who, github.permissions[j],
                       RepositoryEntity(github.repositories[i], visibility))
             == Failure(e)
    ensures Uncached(server.evaluate, who, task.call.request, source) == Failure(e)
  {
  }

  lemma JudgeNext(evaluate: Evaluation, who: Entity, resource: Entity, permissions: seq<string>, j: nat)
    requires j < |permissions| && Authorize(evaluate, who, permissions[j], resource) == Success(())
    ensures JudgeFrom(evaluate, who, resource, permissions, j)
            == JudgeFrom(evaluate, who, resource, permissions, j + 1)
  {
  }

  lemma EntryPassed(
      evaluate: Evaluation, who: Entity, github: GitHubTokenRequest, source: Source, i: nat, visibility: string)
    requires i < |github.repositories| && source(github.repositories[i]) == Success(visibility)
    requires JudgeFrom(evaluate, who, RepositoryEntity(github.repositories[i], visibility), github.permissions, 0)
             == Success(())
    ensures UncachedFrom(evaluate, who, github, source, i) == UncachedFrom(evaluate, who, github, source, i + 1)
    ensures i + 1 == |github.repositories| ==> UncachedFrom(evaluate, who, github, source, i) == Success(())
  {
  }

  lemma LastPermissionAgrees(
      server: Server, task: Task, who: Entity, source: Source, i: nat, visibility: string)
    requires AtRepository(task.call.request, i)
    requires RemainingAt(server, task, who, source, i, visibility, |task.call.request.github.permissions|)
    ensures i + 1 < |task.call.request.github.repositories| ==> Remaining(server, task, who, source, i + 1)
    ensures i + 1 == |task.call.request.github.repositories| ==> Decided(server, task, who, source, Success(()))
  {
    EntryPassed(server.evaluate, who, task.call.request.github, source, i, visibility);
  }

  lemma SameEntryAgrees(server: Server, task: Task, source: Source)
    requires PcOk(task.call.request, task.pc) && task.pc.Judging?
    requires task.pc.j + 1 < |task.call.request.github.permissions|
    requires RemainingAt(server, task, task.pc.who, source, task.pc.i, task.pc.visibility, task.pc.j + 1)
    ensures Agrees(server, Task(task.call, task.seen, NextPermission(task)), source)
  {
    var task' := Task(task.call, task.seen, NextPermission(task));
    assert RemainingAt(server, task', task.pc.who, source, task.pc.i, task.pc.visibility, task.pc.j + 1);
  }

  lemma AwaitAgrees(server: Server, task: Task, source: Source)
    requires PcOk(task.call.request, task.pc) && task.pc.AwaitCheck?
    requires Remaining(server, task, task.pc.who, source, task.pc.i)
    ensures Agrees(server, task, source)
  {
  }

  lemma MintAgrees(server: Server, task: Task, source: Source)
    requires PcOk(task.call.request, task.pc) && task.pc.Getting? && task.pc.purpose.Mint?
    requires Decided(server, task, task.pc.who, source, Success(()))
    ensures Agrees(server, task, source)
  {
  }

  lemma NextEntryAgrees(server: Server, task: Task, source: Source)
    requires PcOk(task.call.request, task.pc) && task.pc.Judging?
    requires task.pc.j + 1 == |task.call.request.github.permissions|
    requires task.pc.i + 1 < |task.call.request.github.repositories| ==>
               Remaining(server, task, task.pc.who, source, task.pc.i + 1)
    requires task.pc.i + 1 == |task.call.request.github.repositories| ==>
               Decided(server, task, task.pc.who, source, Success(()))
    ensures Agrees(server, Task(task.call, task.seen, NextPermission(task)), source)
  {
    var task' := Task(task.call, task.seen, NextPermission(task));
    if task.pc.i + 1 < |task.call.request.github.repositories| {
      AwaitAgrees(server, task', source);
    } else {
      MintAgrees(server, task', source);
    }
  }

  /** A denied permission refuses the call as it would without a cache. */
  lemma DeniedAgrees(server: Server, task: Task, source: Source, e: PolicyError, task': Task)
    requires PcOk(task.call.request, task.pc) && task.pc.Judging? && Identifies(task.call.token, task.pc.who)
    requires RemainingAt(server, task, task.pc.who, source, task.pc.i, task.pc.visibility, task.pc.j)
    requires var github := task.call.request.github;
             Authorize(server.evaluate, task.pc.who, github.permissions[task.pc.j],
                       RepositoryEntity(github.repositories[task.pc.i], task.pc.visibility)) == Failure(e)
    requires task' == Task(task.call, task.seen, Returned(Failure(Refused(e))))
    ensures Agrees(server, task', source)
  {
    DenialAgrees(server, task, task.pc.who, source, task.pc.i, task.pc.visibility, task.pc.j, e);
    assert Decided(server, task', task.pc.who, source, DecisionOf(task'.pc.outcome));
  }

  /** One permission further, the rest of the decision is the same. */
  lemma PermissionPassed(server: Server, task: Task, source: Source)
    requires PcOk(task.call.request, task.pc) && task.pc.Judging?
    requires RemainingAt(server, task, task.pc.who, source, task.pc.i, task.pc.visibility, task.pc.j)
    requires var github := task.call.request.github;
             Authorize(server.evaluate, task.pc.who, github.permissions[task.pc.j],
                       RepositoryEntity(github.repositories[task.pc.i], task.pc.visibility)) == Success(())
    ensures RemainingAt(server, task, task.pc.who, source, task.pc.i, task.pc.visibility, task.pc.j + 1)
  {
    JudgeNext(server.evaluate, task.pc.who,
              RepositoryEntity(task.call.request.github.repositories[task.pc.i], task.pc.visibility),
              task.call.request.github.permissions, task.pc.j);
  }

  /** An allowed permission leads on as it would without a cache. */
  lemma PassedAgrees(server: Server, task: Task, source: Source)
    requires PcOk(task.call.request, task.pc) && task.pc.Judging?
    requires RemainingAt(server, task, task.pc.who, source, task.pc.i, task.pc.visibility, task.pc.j + 1)
    ensures Agrees(server, Task(task.call, task.seen, NextPermission(task)), source)
  {
    if task.pc.j + 1 < |task.call.request.github.permissions| {
      SameEntryAgrees(server, task, source);
    } else {
      LastPermissionAgrees(server, task, task.pc.who, source, task.pc.i, task.pc.visibility);
      NextEntryAgrees(server, task, source);
    }
  }

  lemma JudgeAgrees(server: Server, id: nat, task: Task, cache: Cache, source: Source)
    requires PcOk(task.call.request, task.pc) && task.pc.Judging? && Identifies(task.call.token, task.pc.who)
    requires RemainingAt(server, task, task.pc.who, source, task.pc.i, task.pc.visibility, task.pc.j)
    ensures Agrees(server, After(task, Judge(server, id, task, cache)), source)
  {
    var github := task.call.request.github;
    var Judging(who, i, visibility, j) := task.pc;
    match Authorize(server.evaluate, who, github.permissions[j], RepositoryEntity(github.repositories[i], visibility)) {
      case Failure(e) =>
        DeniedAgrees(server, task, source, e, After(task, Judge(server, id, task, cache)));
      case Success(_) =>
        PermissionPassed(server, task, source);
        PassedAgrees(server, task, source);
    }
  }

  lemma DeployAgrees(server: Server, id: nat, task: Task, cache: Cache, source: Source)
    requires PcOk(task.call.request, task.pc) && task.pc.Deploying? && Identifies(task.call.token, task.pc.who)
    ensures Agrees(server, After(task, Deploy(server, id, task, cache)), source)
  {
    var effect := Deploy(server, id, task, cache);
    if effect.pc.Returned? {
      assert Decided(server, After(task, effect), task.pc.who, source, DecisionOf(effect.pc.outcome));
    }
  }

  lemma DeviceAgrees(server: Server, id: nat, task: Task, cache: Cache, answer: Answer, source: Source)
    requires PcOk(task.call.request, task.pc)
    requires task.pc.Preparing? || task.pc.Authorizing? || task.pc.Confirming? || task.pc.Redeeming?
    requires Agrees(server, task, source) && Identifies(task.call.token, task.pc.who)
    ensures Agrees(server, After(task, DeviceFlow(server, id, task, cache, answer)), source)
  {
    var effect := DeviceFlow(server, id, task, cache, answer);
    if effect.pc.Returned? {
      assert Decided(server, After(task, effect), task.pc.who, source, DecisionOf(effect.pc.outcome));
    }
  }

  lemma GetAgrees(server: Server, id: nat, task: Task, cache: Cache, now: int, answer: Answer, source: Source)
    requires PcOk(task.call.request, task.pc) && task.pc.Getting?
    requires Agrees(server, task, source) && Identifies(task.call.token, task.pc.who)
    requires Fixed(Get(server, id, task, cache, now, answer).events, source)
    ensures Agrees(server, After(task, Get(server, id, task, cache, now, answer)), source)
  {
    match task.pc.phase {
      case Begin => BeginAgrees(server, id, task, cache, now, answer, source);
      case Searching(_, _, _) => SearchingAgrees(server, id, task, cache, now, answer, source);
      case Requesting(_, _) => RequestingAgrees(server, id, task, cache, now, answer, source);
    }
  }

  lemma ActAgrees(server: Server, id: nat, task: Task, cache: Cache, now: int, answer: Answer, source: Source)
    requires PcOk(task.call.request, task.pc) && !task.pc.Returned?
    requires Agrees(server, task, source) && CacheAgrees(cache, source)
    requires WhoOf(task.pc).Some? ==> Identifies(task.call.token, task.pc.who)
    requires Fixed(Act(server, id, task, cache, now, answer).events, source)
    ensures Agrees(server, After(task, Act(server, id, task, cache, now, answer)), source)
  {
    match task.pc {
      case Arrived => ArriveAgrees(server, id, task, cache, now, source);
      case AwaitCheck(_, _) =>
      case HoldCheck(_, _) => CheckAgrees(server, id, task, cache, now, source);
      case Getting(_, _, _) => GetAgrees(server, id, task, cache, now, answer, source);
      case Reading(_, _, _) => ReadAgrees(server, id, task, cache, now, answer, source);
      case AwaitStore(_, _, _) =>
      case HoldStore(_, _, _) =>
      case Judging(_, _, _, _) => JudgeAgrees(server, id, task, cache, source);
      case Deploying(_) => DeployAgrees(server, id, task, cache, source);
      case _ => DeviceAgrees(server, id, task, cache, answer, source);
    }
  }

  /***** Runs *****/

  /** Stored visibilities are the source's. */
  lemma {:induction false} CacheStaysFixed(server: Server, calls: seq<Call>, trace: seq<Event>, source: Source)
    requires AllJustified(server, calls, trace) && Fixed(trace, source)
    ensures CacheAgrees(CacheOf(trace), source)
  {
    if trace != [] {
      var last := |trace| - 1;
      assert forall e | e in trace[..last] :: e in trace;
      CacheStaysFixed(server, calls, trace[..last], source);
      if trace[last].Stored? {
        assert FetchedBefore(trace[..last], trace[last].call, trace[last].repository, trace[last].visibility);
      }
    }
  }

  lemma {:induction false} RunAgrees(server: Server, calls: seq<Call>, choices: seq<Choice>, source: Source, id: nat)
    requires Fixed(Run(server, calls, choices).trace, source) && id < |calls|
    ensures Agrees(server, Run(server, calls, choices).tasks[id], source)
  {
    if choices != [] {
      var last := |choices| - 1;
      var choice := choices[last];
      var w := Run(server, calls, choices[..last]);
      var w' := Run(server, calls, choices);
      assert w' == Step(server, w, choice);
      assert forall e | e in w.trace :: e in w'.trace;
      RunAgrees(server, calls, choices[..last], source, id);
      if Enabled(w, choice.id) && choice.id == id {
        RunKeeps(server, calls, choices[..last]);
        CacheStaysFixed(server, calls, w.trace, source);
        PrincipalIsVerified(server, id, w.tasks[id], w.trace);
        VerifiedIsIdentified(server, w.tasks[id].call.token, w.trace, id, w.tasks[id].pc);
        assert forall e | e in Act(server, id, w.tasks[id], w.cache, choice.now, choice.answer).events :: e in w'.trace;
        ActAgrees(server, id, w.tasks[id], w.cache, choice.now, choice.answer, source);
      }
    }
  }

  /** A token determines its principal, whenever it is presented. */
  lemma PrincipalIsUnique(server: Server, token: Oidc.Jwt, now: int, later: int, who: Entity, whom: Entity)
    requires Authenticate(server, token, now) == Success(who) && Authenticate(server, token, later) == Success(whom)
    ensures who == whom
  {
    AuthenticatedIsIdentified(server, token, now, who);
    AuthenticatedIsIdentified(server, token, later, whom);
  }

  /** Whatever the interleaving and the clock: when GitHub's answers come from a fixed source, a call
      that was judged got exactly the decision that a server without a cache takes for the principal of
      its token, including which error it is refused with. */
  lemma CachedDecisionsAreUncached(
      server: Server, calls: seq<Call>, choices: seq<Choice>, source: Source, id: nat)
    requires id < |calls| && Fixed(Run(server, calls, choices).trace, source)
    requires var pc := Run(server, calls, choices).tasks[id].pc; pc.Returned? && Judged(pc.outcome)
    ensures exists who :: Verified(server, calls[id].token, Run(server, calls, choices).trace, id, who)
    ensures var w := Run(server, calls, choices);
            forall who | Verified(server, calls[id].token, w.trace, id, who) ::
              DecisionOf(w.tasks[id].pc.outcome) == Uncached(server.evaluate, who, calls[id].request, source)
  {
    var w := Run(server, calls, choices);
    RunAgrees(server, calls, choices, source, id);
    var who :| Identifies(calls[id].token, who)
               && Decided(server, w.tasks[id], who, source, DecisionOf(w.tasks[id].pc.outcome));
    var _ := JudgedIsVerified(server, calls, choices, id);
    forall whom | Verified(server, calls[id].token, w.trace, id, whom)
      ensures whom == who
    {
      TraceIdentifies(server, calls[id].token, w.trace, id, whom);
    }
  }

  lemma TraceIdentifies(server: Server, token: Oidc.Jwt, trace: seq<Event>, id: nat, who: Entity)
    requires Verified(server, token, trace, id, who)
    ensures Identifies(token, who)
  {
    var at: int :| Authenticated(id, who, at) in trace && Authenticate(server, token, at) == Success(who);
    AuthenticatedIsIdentified(server, token, at, who);
  }

  lemma JudgedIsVerified(server: Server, calls: seq<Call>, choices: seq<Choice>, id: nat) returns (who: Entity)
    requires id < |calls|
    requires var pc := Run(server, calls, choices).tasks[id].pc; pc.Returned? && Judged(pc.outcome)
    ensures Verified(server, calls[id].token, Run(server, calls, choices).trace, id, who)
  {
    var w := Run(server, calls, choices);
    TaskIsSound(server, calls, choices, id);
    who := ReturnedIsVerified(server, id, w.tasks[id], w.trace);
  }

  lemma ReturnedIsVerified(server: Server, id: nat, task: Task, trace: seq<Event>) returns (who: Entity)
    requires task.pc.Returned? && TaskInv(server, id, task, trace) && Judged(task.pc.outcome)
    ensures Verified(server, task.call.token, trace, id, who)
  {
    if task.call.request.GitHub? {
      if task.pc.outcome.Failure? && task.pc.outcome.error.Refused? {
        who :| RefusedBecause(server, id, task, trace, who, task.pc.outcome.error.policyError);
      } else {
        who :| Accepted(server, id, task, trace, who);
      }
    } else if task.pc.outcome.Failure? && task.pc.outcome.error.Refused? {
      who :| Verified(server, task.call.token, trace, id, who);
    } else {
      who :| Deployable(server, id, task, trace, who);
    }
  }
}
