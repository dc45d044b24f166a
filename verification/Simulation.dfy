/**
 * The loops of `Authorizer` and the step system agree: whatever a run does, a GitHub call that was
 * judged got the decision its own nested loops compute, when each query meets the cache, the clock and
 * GitHub's answer that the call met in the run.
 */
module Simulation {

  import opened Wrappers
  import opened Cedar
  import opened Exchange
  import opened ExchangeActions
  import opened ExchangeInvariant
  import opened ExchangeSafety
  import opened GitHubRequest
  import opened Policy
  import opened Refinement

  /***** The queries of a call in the trace *****/

  /** A query, from its check to the event that answered it: a hit, or the insert after a miss. */
  datatype Span = Span(check: nat, end: nat)

  predicate Answered(trace: seq<Event>, id: nat, repository: string, visibility: string, span: Span) {
    && span.check <= span.end < |trace|
    && var check, end := trace[span.check], trace[span.end];
       || (&& check.Hit? && span.end == span.check
           && check.call == id && check.repository == repository && check.visibility == visibility)
       || (&& check.Miss? && check.call == id && check.repository == repository
           && end.Stored? && end.call == id && end.repository == repository && end.visibility == visibility)
  }

  /** A query of the call has missed and was not answered yet, or never will be. */
  predicate Pending(pc: Pc) {
    || (pc.Getting? && pc.purpose.Probe?) || pc.Reading? || pc.AwaitStore? || pc.HoldStore?
    || (pc.Returned? && pc.outcome.Failure? && pc.outcome.error.Refused? && pc.outcome.error.policyError.GetVisibility?)
  }

  /** Where the answers to the call's queries stand in the trace, in order, and the check of the query
      still pending. */
  predicate Spans(trace: seq<Event>, id: nat, task: Task, spans: seq<Span>, pending: nat)
    requires task.call.request.GitHub?
  {
    var repositories := task.call.request.github.repositories;
    && |spans| == |task.seen| <= |repositories|
    && (forall k | 0 <= k < |spans| :: Answered(trace, id, repositories[k], task.seen[k], spans[k]))
    && (forall k | 0 < k < |spans| :: spans[k - 1].end < spans[k].check)
    && (Pending(task.pc) ==>
          && |spans| < |repositories| && pending < |trace|
          && trace[pending].Miss? && trace[pending].call == id && trace[pending].repository == repositories[|spans|]
          && forall k | 0 <= k < |spans| :: spans[k].end < pending)
  }

  lemma SpansFrame(
      trace: seq<Event>, events: seq<Event>, id: nat, task: Task, pc: Pc, spans: seq<Span>, pending: nat)
    requires task.call.request.GitHub? && Spans(trace, id, task, spans, pending)
    requires Pending(pc) ==> Pending(task.pc)
    ensures Spans(trace + events, id, task.(pc := pc), spans, pending)
  {
    forall k | 0 <= k < |spans|
      ensures Answered(trace + events, id, task.call.request.github.repositories[k], task.seen[k], spans[k])
    {
      assert Answered(trace, id, task.call.request.github.repositories[k], task.seen[k], spans[k]);
    }
  }

  /** One more query is answered, by the event that comes next. */
  lemma SpansGrow(
      trace: seq<Event>, event: Event, id: nat, task: Task, task': Task, spans: seq<Span>, pending: nat, check: nat)
    requires task.call.request.GitHub? && Spans(trace, id, task, spans, pending)
    requires |task.seen| < |task.call.request.github.repositories|
    requires task'.call == task.call && |task'.seen| == |task.seen| + 1 && task'.seen[..|task.seen|] == task.seen
    requires !Pending(task'.pc) && check <= |trace| && forall k | 0 <= k < |spans| :: spans[k].end < check
    requires Answered(trace + [event], id, task.call.request.github.repositories[|task.seen|],
                      task'.seen[|task.seen|], Span(check, |trace|))
    ensures Spans(trace + [event], id, task', spans + [Span(check, |trace|)], pending)
  {
    var longer := spans + [Span(check, |trace|)];
    forall k | 0 <= k < |longer|
      ensures Answered(trace + [event], id, task.call.request.github.repositories[k], task'.seen[k], longer[k])
    {
      if k < |spans| {
        assert Answered(trace, id, task.call.request.github.repositories[k], task.seen[k], spans[k]);
        assert task'.seen[k] == task'.seen[..|task.seen|][k];
      }
    }
  }

  ghost predicate Recounted(trace: seq<Event>, id: nat, task: Task) {
    task.call.request.GitHub? ==> exists spans: seq<Span>, pending: nat :: Spans(trace, id, task, spans, pending)
  }

  lemma CheckRecounts(id: nat, task: Task, cache: Cache, now: int, trace: seq<Event>)
    requires PcOk(task.call.request, task.pc) && task.pc.HoldCheck? && |task.seen| == task.pc.i
    requires Recounted(trace, id, task)
    ensures var effect := Check(id, task, cache, now);
            Recounted(trace + effect.events, id, After(task, effect))
  {
    var spans: seq<Span>, pending: nat :| Spans(trace, id, task, spans, pending);
    var effect := Check(id, task, cache, now);
    var event := effect.events[0];
    forall k | 0 <= k < |spans| ensures spans[k].end < |trace| {
      assert Answered(trace, id, task.call.request.github.repositories[k], task.seen[k], spans[k]);
    }
    if event.Hit? {
      SpansGrow(trace, event, id, task, After(task, effect), spans, pending, |trace|);
    } else {
      SpansFrame(trace, [event], id, task, task.pc, spans, pending);
      assert Spans(trace + [event], id, After(task, effect), spans, |trace|);
    }
  }

  lemma StoreRecounts(id: nat, task: Task, cache: Cache, now: int, trace: seq<Event>)
    requires PcOk(task.call.request, task.pc) && task.pc.HoldStore? && |task.seen| == task.pc.i
    requires Recounted(trace, id, task)
    ensures var effect := StoreFetched(id, task, cache, now);
            Recounted(trace + effect.events, id, After(task, effect))
  {
    var spans: seq<Span>, pending: nat :| Spans(trace, id, task, spans, pending);
    var effect := StoreFetched(id, task, cache, now);
    SpansGrow(trace, effect.events[0], id, task, After(task, effect), spans, pending, pending);
  }

  /** The other actions neither begin nor answer a query. */
  lemma OthersRecount(server: Server, id: nat, task: Task, cache: Cache, now: int, answer: Answer, trace: seq<Event>)
    requires PcOk(task.call.request, task.pc) && !task.pc.HoldCheck? && !task.pc.HoldStore? && !task.pc.Returned?
    requires Recounted(trace, id, task)
    ensures var effect := Act(server, id, task, cache, now, answer);
            Recounted(trace + effect.events, id, After(task, effect))
  {
    if task.call.request.GitHub? {
      var spans: seq<Span>, pending: nat :| Spans(trace, id, task, spans, pending);
      var effect := Act(server, id, task, cache, now, answer);
      NoQuery(server, id, task, cache, now, answer);
      SpansFrame(trace, effect.events, id, task, effect.pc, spans, pending);
      assert After(task, effect) == task.(pc := effect.pc);
    }
  }

  lemma NoQuery(server: Server, id: nat, task: Task, cache: Cache, now: int, answer: Answer)
    requires PcOk(task.call.request, task.pc) && !task.pc.HoldCheck? && !task.pc.HoldStore? && !task.pc.Returned?
    ensures var effect := Act(server, id, task, cache, now, answer);
            effect.seen == task.seen && (Pending(effect.pc) ==> Pending(task.pc))
  {
    if task.pc.Getting? {
      assert var effect := Get(server, id, task, cache, now, answer);
             effect.seen == task.seen && (Pending(effect.pc) ==> Pending(task.pc));
    }
  }

  lemma SeenCount(server: Server, id: nat, task: Task, trace: seq<Event>)
    requires PcOk(task.call.request, task.pc) && TaskInv(server, id, task, trace)
    ensures task.pc.HoldCheck? || task.pc.HoldStore? ==> |task.seen| == task.pc.i
  {
  }

  lemma ActRecounts(server: Server, id: nat, task: Task, cache: Cache, now: int, answer: Answer, trace: seq<Event>)
    requires PcOk(task.call.request, task.pc) && !task.pc.Returned? && Recounted(trace, id, task)
    requires task.pc.HoldCheck? || task.pc.HoldStore? ==> |task.seen| == task.pc.i
    ensures var effect := Act(server, id, task, cache, now, answer);
            Recounted(trace + effect.events, id, After(task, effect))
  {
    if task.pc.HoldCheck? {
      CheckRecounts(id, task, cache, now, trace);
    } else if task.pc.HoldStore? {
      StoreRecounts(id, task, cache, now, trace);
    } else {
      OthersRecount(server, id, task, cache, now, answer, trace);
    }
  }

  lemma RecountFrame(trace: seq<Event>, events: seq<Event>, id: nat, task: Task)
    requires Recounted(trace, id, task)
    ensures Recounted(trace + events, id, task)
  {
    if task.call.request.GitHub? {
      var spans: seq<Span>, pending: nat :| Spans(trace, id, task, spans, pending);
      SpansFrame(trace, events, id, task, task.pc, spans, pending);
    }
  }

  /** In every reachable state, the queries of every call stand in the trace, in order. */
  lemma {:induction false} RunRecounts(server: Server, calls: seq<Call>, choices: seq<Choice>, id: nat)
    requires id < |calls|
    ensures var w := Run(server, calls, choices); Recounted(w.trace, id, w.tasks[id])
  {
    if choices == [] {
      if calls[id].request.GitHub? {
        assert Spans([], id, Start(calls).tasks[id], [], 0);
      }
    } else {
      var last := |choices| - 1;
      var choice := choices[last];
      var w := Run(server, calls, choices[..last]);
      RunRecounts(server, calls, choices[..last], id);
      if Enabled(w, choice.id) {
        var task := w.tasks[choice.id];
        if choice.id == id {
          TaskIsSound(server, calls, choices[..last], id);
          SeenCount(server, id, task, w.trace);
          ActRecounts(server, id, task, w.cache, choice.now, choice.answer, w.trace);
        } else {
          RecountFrame(w.trace, Act(server, choice.id, task, w.cache, choice.now, choice.answer).events,
                       id, w.tasks[id]);
        }
      }
    }
  }

  /***** Queries and the loops' own rounds *****/

  /** The round that the call's query met: the shared cache at its check and at its insert. */
  function RoundOf(trace: seq<Event>, id: nat, repository: string, visibility: string, span: Span): Round
    requires Answered(trace, id, repository, visibility, span)
  {
    Round(CacheOf(trace[..span.check]), trace[span.check].at, Success(visibility),
          CacheOf(trace[..span.end]), trace[span.end].at)
  }

  /** Every check in the trace found in the cache what it says. */
  predicate ChecksHold(trace: seq<Event>) {
    forall n | 0 <= n < |trace| ::
      && (trace[n].Hit? ==>
            Lookup(CacheOf(trace[..n]), trace[n].repository, trace[n].at) == Some(trace[n].visibility))
      && (trace[n].Miss? ==> Lookup(CacheOf(trace[..n]), trace[n].repository, trace[n].at) == None)
  }

  lemma RunChecksHold(server: Server, calls: seq<Call>, choices: seq<Choice>)
    ensures ChecksHold(Run(server, calls, choices).trace)
  {
    forall n: nat | n < |Run(server, calls, choices).trace|
      ensures Justified(server, calls, Run(server, calls, choices).trace[..n], Run(server, calls, choices).trace[n])
    {
      EventIsJustified(server, calls, choices, n);
    }
  }

  lemma {:induction false} KeysGrow(trace: seq<Event>, m: nat, n: nat)
    requires m <= n <= |trace|
    ensures CacheOf(trace[..m]).Keys <= CacheOf(trace[..n]).Keys
  {
    if m < n {
      KeysGrow(trace, m, n - 1);
      assert trace[..n][..n - 1] == trace[..n - 1];
    }
  }

  /** In the round it met, the loops' query gives the answer the call got and leaves the shared cache as
      the call left it. */
  lemma QueryIsRecounted(
      trace: seq<Event>, id: nat, repository: string, visibility: string, span: Span, cache: Cache)
    requires Answered(trace, id, repository, visibility, span) && ChecksHold(trace)
    requires cache.Keys <= CacheOf(trace[..span.check]).Keys
    ensures Queried(cache, repository, RoundOf(trace, id, repository, visibility, span))
            == (Success(visibility), CacheOf(trace[..span.end + 1]))
  {
    var before, during := CacheOf(trace[..span.check]), CacheOf(trace[..span.end]);
    assert cache + before == before;
    assert trace[..span.end + 1][..span.end] == trace[..span.end];
    if trace[span.check].Miss? {
      KeysGrow(trace, span.check, span.end);
      assert before + during == during;
    }
  }

  /** The shared cache when the call's query for entry `i` begins to matter: after its previous one. */
  function CacheAfter(trace: seq<Event>, spans: seq<Span>, i: nat): Cache
    requires i <= |spans| && forall k | 0 <= k < |spans| :: spans[k].end < |trace|
  {
    if i == 0 then map[] else CacheOf(trace[..spans[i - 1].end + 1])
  }

  /** The rounds are the ones the call's answered queries met. */
  ghost predicate Meets(
      trace: seq<Event>, id: nat, task: Task, spans: seq<Span>, pending: nat, rounds: nat -> Round)
    requires task.call.request.GitHub?
  {
    && Spans(trace, id, task, spans, pending)
    && forall k: nat | k < |spans| ::
         rounds(k) == RoundOf(trace, id, task.call.request.github.repositories[k], task.seen[k], spans[k])
  }

  lemma CacheBeforeEntry(
      trace: seq<Event>, id: nat, task: Task, spans: seq<Span>, pending: nat, i: nat)
    requires task.call.request.GitHub? && Spans(trace, id, task, spans, pending) && i < |spans|
    ensures Answered(trace, id, task.call.request.github.repositories[i], task.seen[i], spans[i])
    ensures CacheAfter(trace, spans, i).Keys <= CacheOf(trace[..spans[i].check]).Keys
    ensures CacheAfter(trace, spans, i + 1) == CacheOf(trace[..spans[i].end + 1])
  {
    if i > 0 {
      KeysGrow(trace, spans[i - 1].end + 1, spans[i].check);
    }
  }

  lemma EntryStep(
      evaluate: Evaluation, who: Entity, github: GitHubTokenRequest, rounds: nat -> Round, cache: Cache, i: nat,
      visibility: string, cache': Cache)
    requires i < |github.repositories|
    requires Queried(cache, github.repositories[i], rounds(i)) == (Success(visibility), cache')
    ensures EnsuredFrom(evaluate, who, github, rounds, cache, i) ==
            match JudgeFrom(evaluate, who, RepositoryEntity(github.repositories[i], visibility), github.permissions, 0)
            case Failure(e) => (Failure(e), cache')
            case Success(_) => EnsuredFrom(evaluate, who, github, rounds, cache', i + 1)
  {
  }

  /** The loops' query for entry `i` gives the answer the call got and leaves the cache as it left it. */
  lemma EntryIsQueried(
      trace: seq<Event>, id: nat, task: Task, spans: seq<Span>, pending: nat, rounds: nat -> Round, i: nat)
    requires task.call.request.GitHub? && Meets(trace, id, task, spans, pending, rounds) && ChecksHold(trace)
    requires i < |spans|
    ensures Queried(CacheAfter(trace, spans, i), task.call.request.github.repositories[i], rounds(i))
            == (Success(task.seen[i]), CacheAfter(trace, spans, i + 1))
  {
    var repository, cache := task.call.request.github.repositories[i], CacheAfter(trace, spans, i);
    CacheBeforeEntry(trace, id, task, spans, pending, i);
    assert rounds(i) == RoundOf(trace, id, repository, task.seen[i], spans[i]);
    QueryIsRecounted(trace, id, repository, task.seen[i], spans[i], cache);
  }

  /** Entry `i` passed, the loops go on with the cache as the call left it. */
  lemma EntryIsRecounted(
      evaluate: Evaluation, who: Entity, trace: seq<Event>, id: nat, task: Task, spans: seq<Span>, pending: nat,
      rounds: nat -> Round, i: nat)
    requires task.call.request.GitHub? && Meets(trace, id, task, spans, pending, rounds) && ChecksHold(trace)
    requires i < |spans|
    ensures var github := task.call.request.github;
            EnsuredFrom(evaluate, who, github, rounds, CacheAfter(trace, spans, i), i) ==
            match JudgeFrom(evaluate, who, RepositoryEntity(github.repositories[i], task.seen[i]),
                            github.permissions, 0)
            case Failure(e) => (Failure(e), CacheAfter(trace, spans, i + 1))
            case Success(_) => EnsuredFrom(evaluate, who, github, rounds, CacheAfter(trace, spans, i + 1), i + 1)
  {
    EntryIsQueried(trace, id, task, spans, pending, rounds, i);
    EntryStep(evaluate, who, task.call.request.github, rounds, CacheAfter(trace, spans, i), i, task.seen[i],
              CacheAfter(trace, spans, i + 1));
  }

  lemma {:induction false} EntriesAreRecounted(
      evaluate: Evaluation, who: Entity, trace: seq<Event>, id: nat, task: Task, spans: seq<Span>, pending: nat,
      rounds: nat -> Round, i: nat)
    requires task.call.request.GitHub? && Meets(trace, id, task, spans, pending, rounds) && ChecksHold(trace)
    requires i <= |spans|
    requires var github := task.call.request.github;
             forall k | 0 <= k < i ::
               JudgeFrom(evaluate, who, RepositoryEntity(github.repositories[k], task.seen[k]), github.permissions, 0)
                 .Success?
    ensures var github := task.call.request.github;
            EnsuredFrom(evaluate, who, github, rounds, map[], 0)
            == EnsuredFrom(evaluate, who, github, rounds, CacheAfter(trace, spans, i), i)
  {
    if i > 0 {
      EntriesAreRecounted(evaluate, who, trace, id, task, spans, pending, rounds, i - 1);
      EntryIsRecounted(evaluate, who, trace, id, task, spans, pending, rounds, i - 1);
    }
  }

  /***** What the call's log says of the judgements *****/

  /** A pair judged in the call's log was allowed to the call's own principal. */
  lemma JudgedIsAllowed(
      server: Server, calls: seq<Call>, choices: seq<Choice>, id: nat, who: Entity,
      repository: string, visibility: string, permission: string)
    requires id < |calls| && Identifies(calls[id].token, who)
    requires Judged(repository, visibility, permission) in LogOf(Run(server, calls, choices).trace, id)
    ensures Authorize(server.evaluate, who, permission, RepositoryEntity(repository, visibility)).Success?
  {
    var trace := Run(server, calls, choices).trace;
    LogComesFromEvents(trace, id, repository, visibility, permission);
    var whom :| Allowed(id, whom, repository, visibility, permission) in trace;
    var n: nat :| n < |trace| && trace[n] == Allowed(id, whom, repository, visibility, permission);
    EventIsJustified(server, calls, choices, n);
    TraceIdentifies(server, calls[id].token, trace[..n], id, whom);
  }

  lemma {:induction false} JudgeStops(
      evaluate: Evaluation, who: Entity, resource: Entity, permissions: seq<string>, j: nat, n: nat)
    requires j <= n < |permissions|
    requires forall k | j <= k < n :: Authorize(evaluate, who, permissions[k], resource).Success?
    ensures Authorize(evaluate, who, permissions[n], resource).Failure? ==>
              JudgeFrom(evaluate, who, resource, permissions, j) == Authorize(evaluate, who, permissions[n], resource)
    decreases n - j
  {
    if j < n {
      JudgeStops(evaluate, who, resource, permissions, j + 1, n);
    }
  }

  /** The first `n` entries, with all their permissions, are in the call's log. */
  ghost predicate LogHolds(trace: seq<Event>, id: nat, task: Task, n: nat)
    requires task.call.request.GitHub?
  {
    var github := task.call.request.github;
    && n <= |task.seen| <= |github.repositories|
    && forall k, j | 0 <= k < n && 0 <= j < |github.permissions| ::
         Judged(github.repositories[k], task.seen[k], github.permissions[j]) in LogOf(trace, id)
  }

  lemma FullLogIsHeld(trace: seq<Event>, id: nat, task: Task, seen: seq<string>, rest: seq<LogEntry>)
    requires task.call.request.GitHub? && seen <= task.seen && |task.seen| <= |task.call.request.github.repositories|
    requires LogOf(trace, id) == FullLog(task.call.request.github, seen) + rest
    ensures LogHolds(trace, id, task, |seen|)
  {
    var github := task.call.request.github;
    forall k, j | 0 <= k < |seen| && 0 <= j < |github.permissions|
      ensures Judged(github.repositories[k], task.seen[k], github.permissions[j]) in LogOf(trace, id)
    {
      FullLogHolds(github, seen, k, j);
    }
  }

  /** Entries whose permissions are all in the log pass the inner loop. */
  lemma LoggedEntriesPass(
      server: Server, calls: seq<Call>, choices: seq<Choice>, id: nat, who: Entity, task: Task, n: nat, k: nat)
    requires id < |calls| && Identifies(calls[id].token, who) && task.call == calls[id] && calls[id].request.GitHub?
    requires LogHolds(Run(server, calls, choices).trace, id, task, n) && k < n
    ensures var github := task.call.request.github;
            JudgeFrom(server.evaluate, who, RepositoryEntity(github.repositories[k], task.seen[k]),
                      github.permissions, 0)
              .Success?
  {
    var github := task.call.request.github;
    forall j | 0 <= j < |github.permissions|
      ensures Authorize(server.evaluate, who, github.permissions[j],
                        RepositoryEntity(github.repositories[k], task.seen[k])).Success?
    {
      JudgedIsAllowed(server, calls, choices, id, who, github.repositories[k], task.seen[k], github.permissions[j]);
    }
    JudgeAccepts(server.evaluate, who, RepositoryEntity(github.repositories[k], task.seen[k]), github.permissions, 0);
    assert github.permissions[0..] == github.permissions;
  }

  /***** Calls and their loops *****/

  /** Everything a recounted call that was judged has in common. */
  ghost predicate Retold(
      server: Server, calls: seq<Call>, choices: seq<Choice>, id: nat, who: Entity,
      spans: seq<Span>, pending: nat, rounds: nat -> Round)
  {
    var w := Run(server, calls, choices);
    && id < |calls| && calls[id].request.GitHub?
    && calls[id].request.github.repositories != [] && calls[id].request.github.permissions != []
    && Identifies(calls[id].token, who)
    && Meets(w.trace, id, w.tasks[id], spans, pending, rounds)
  }

  lemma FirstEntries(
      server: Server, calls: seq<Call>, choices: seq<Choice>, id: nat, who: Entity,
      spans: seq<Span>, pending: nat, rounds: nat -> Round, n: nat)
    requires Retold(server, calls, choices, id, who, spans, pending, rounds)
    requires LogHolds(Run(server, calls, choices).trace, id, Run(server, calls, choices).tasks[id], n)
    ensures n <= |spans|
    ensures Ensured(server.evaluate, who, calls[id].request, rounds, map[])
            == EnsuredFrom(server.evaluate, who, calls[id].request.github, rounds,
                           CacheAfter(Run(server, calls, choices).trace, spans, n), n)
  {
    var w := Run(server, calls, choices);
    RunChecksHold(server, calls, choices);
    forall k | 0 <= k < n
      ensures var github := w.tasks[id].call.request.github;
              JudgeFrom(server.evaluate, who, RepositoryEntity(github.repositories[k], w.tasks[id].seen[k]),
                        github.permissions, 0).Success?
    {
      LoggedEntriesPass(server, calls, choices, id, who, w.tasks[id], n, k);
    }
    EntriesAreRecounted(server.evaluate, who, w.trace, id, w.tasks[id], spans, pending, rounds, n);
  }

  /** The round of a query whose fetch failed. */
  function FailedRound(trace: seq<Event>, pending: nat, cause: GitHubTokenError): Round
    requires pending < |trace| && trace[pending].Miss?
  {
    Round(CacheOf(trace[..pending]), trace[pending].at, Failure(cause), map[], 0)
  }

  lemma AllEntriesPass(
      server: Server, calls: seq<Call>, choices: seq<Choice>, id: nat, who: Entity,
      spans: seq<Span>, pending: nat, rounds: nat -> Round)
    requires Retold(server, calls, choices, id, who, spans, pending, rounds)
    requires var w := Run(server, calls, choices); Accepted(server, id, w.tasks[id], w.trace, who)
    ensures Ensured(server.evaluate, who, calls[id].request, rounds, map[]).0 == Success(())
  {
    var w := Run(server, calls, choices);
    FullLogIsHeld(w.trace, id, w.tasks[id], w.tasks[id].seen, []);
    FirstEntries(server, calls, choices, id, who, spans, pending, rounds, |w.tasks[id].seen|);
  }

  /** The loops fail on an entry whose fetch failed as the call did. */
  lemma PendingEntryFails(
      evaluate: Evaluation, who: Entity, trace: seq<Event>, id: nat, task: Task, spans: seq<Span>, pending: nat,
      rounds: nat -> Round, cause: GitHubTokenError)
    requires task.call.request.GitHub? && Spans(trace, id, task, spans, pending) && Pending(task.pc)
    requires ChecksHold(trace) && rounds(|spans|) == FailedRound(trace, pending, cause)
    ensures var github, n := task.call.request.github, |spans|;
            EnsuredFrom(evaluate, who, github, rounds, CacheAfter(trace, spans, n), n).0
            == Failure(GetVisibility(github.repositories[n], cause))
  {
    var github, n := task.call.request.github, |spans|;
    QueryFails(trace, pending, github.repositories[n], cause, CacheAfter(trace, spans, n),
               if n == 0 then 0 else spans[n - 1].end + 1);
    EntryFails(evaluate, who, github, rounds, CacheAfter(trace, spans, n), n,
               GetVisibility(github.repositories[n], cause));
  }

  /** The log of a call that could not read its next entry holds all entries before. */
  lemma UnreadLog(server: Server, id: nat, task: Task, trace: seq<Event>, who: Entity, e: PolicyError)
    requires task.call.request.GitHub? && Unread(server, id, task, trace, who, e)
    ensures LogHolds(trace, id, task, |task.seen|)
  {
    FullLogIsHeld(trace, id, task, task.seen, [Asked(task.call.request.github.repositories[|task.seen|])]);
  }

  lemma NextEntryIsUnread(
      server: Server, calls: seq<Call>, choices: seq<Choice>, id: nat, who: Entity,
      spans: seq<Span>, pending: nat, rounds: nat -> Round, e: PolicyError)
    requires Retold(server, calls, choices, id, who, spans, pending, rounds)
    requires var w := Run(server, calls, choices);
             && Pending(w.tasks[id].pc) && Unread(server, id, w.tasks[id], w.trace, who, e)
             && rounds(|spans|) == FailedRound(w.trace, pending, e.cause)
    ensures Ensured(server.evaluate, who, calls[id].request, rounds, map[]).0 == Failure(e)
  {
    var w := Run(server, calls, choices);
    UnreadLog(server, id, w.tasks[id], w.trace, who, e);
    FirstEntries(server, calls, choices, id, who, spans, pending, rounds, |spans|);
    RunChecksHold(server, calls, choices);
    PendingEntryFails(server.evaluate, who, w.trace, id, w.tasks[id], spans, pending, rounds, e.cause);
  }

  lemma EntryFails(
      evaluate: Evaluation, who: Entity, github: GitHubTokenRequest, rounds: nat -> Round, cache: Cache, i: nat,
      e: PolicyError)
    requires i < |github.repositories| && Queried(cache, github.repositories[i], rounds(i)).0 == Failure(e)
    ensures EnsuredFrom(evaluate, who, github, rounds, cache, i).0 == Failure(e)
  {
  }

  lemma QueryFails(
      trace: seq<Event>, pending: nat, repository: string, cause: GitHubTokenError, cache: Cache, since: nat)
    requires since <= pending < |trace| && trace[pending].Miss? && trace[pending].repository == repository
    requires ChecksHold(trace) && (cache == map[] || cache == CacheOf(trace[..since]))
    ensures Queried(cache, repository, FailedRound(trace, pending, cause)).0
            == Failure(GetVisibility(repository, cause))
  {
    KeysGrow(trace, since, pending);
    var before := CacheOf(trace[..pending]);
    assert cache + before == before;
  }

  lemma LastEntryStops(
      server: Server, calls: seq<Call>, choices: seq<Choice>, id: nat, who: Entity, j: nat, e: PolicyError)
    requires id < |calls| && calls[id].request.GitHub? && Identifies(calls[id].token, who)
    requires var w := Run(server, calls, choices); Denied(server, id, w.tasks[id], w.trace, who, j, e)
    ensures var task := Run(server, calls, choices).tasks[id];
            var github, i := task.call.request.github, |task.seen| - 1;
            JudgeFrom(server.evaluate, who, RepositoryEntity(github.repositories[i], task.seen[i]),
                      github.permissions, 0)
            == Failure(e)
  {
    var w := Run(server, calls, choices);
    var task := w.tasks[id];
    var github, i := task.call.request.github, |task.seen| - 1;
    forall k | 0 <= k < j
      ensures Authorize(server.evaluate, who, github.permissions[k],
                        RepositoryEntity(github.repositories[i], task.seen[i])).Success?
    {
      JudgementsHold(github.repositories[i], task.seen[i], github.permissions, j, k);
      JudgedIsAllowed(server, calls, choices, id, who, github.repositories[i], task.seen[i], github.permissions[k]);
    }
    JudgeStops(server.evaluate, who, RepositoryEntity(github.repositories[i], task.seen[i]), github.permissions, 0, j);
  }

  lemma LastEntryIsDenied(
      server: Server, calls: seq<Call>, choices: seq<Choice>, id: nat, who: Entity,
      spans: seq<Span>, pending: nat, rounds: nat -> Round, j: nat, e: PolicyError)
    requires Retold(server, calls, choices, id, who, spans, pending, rounds)
    requires var w := Run(server, calls, choices); Denied(server, id, w.tasks[id], w.trace, who, j, e)
    ensures Ensured(server.evaluate, who, calls[id].request, rounds, map[]).0 == Failure(e)
  {
    var w := Run(server, calls, choices);
    var task, i := w.tasks[id], |w.tasks[id].seen| - 1;
    var github := task.call.request.github;
    FullLogIsHeld(w.trace, id, task, task.seen[..i], EntryLog(github, i, task.seen[i], j));
    FirstEntries(server, calls, choices, id, who, spans, pending, rounds, i);
    RunChecksHold(server, calls, choices);
    EntryIsRecounted(server.evaluate, who, w.trace, id, task, spans, pending, rounds, i);
    LastEntryStops(server, calls, choices, id, who, j, e);
  }

  /** The rounds that the call's queries met, the failed one included. */
  function RoundsOf(
      trace: seq<Event>, id: nat, task: Task, spans: seq<Span>, pending: nat, cause: GitHubTokenError): nat -> Round
    requires task.call.request.GitHub? && Spans(trace, id, task, spans, pending)
  {
    (k: nat) =>
      if k < |spans| then RoundOf(trace, id, task.call.request.github.repositories[k], task.seen[k], spans[k])
      else if pending < |trace| && trace[pending].Miss? then FailedRound(trace, pending, cause)
      else Round(map[], 0, Failure(cause), map[], 0)
  }

  lemma RoundsMet(
      trace: seq<Event>, id: nat, task: Task, spans: seq<Span>, pending: nat, cause: GitHubTokenError)
      returns (rounds: nat -> Round)
    requires task.call.request.GitHub? && Spans(trace, id, task, spans, pending)
    ensures Meets(trace, id, task, spans, pending, rounds)
    ensures pending < |trace| && trace[pending].Miss? ==> rounds(|spans|) == FailedRound(trace, pending, cause)
  {
    rounds := RoundsOf(trace, id, task, spans, pending, cause);
  }

  function CauseOf(e: PolicyError): GitHubTokenError {
    if e.GetVisibility? then e.cause else NoRepositories
  }

  lemma RefusalsAreSimulated(
      server: Server, calls: seq<Call>, choices: seq<Choice>, id: nat, who: Entity,
      spans: seq<Span>, pending: nat, rounds: nat -> Round, e: PolicyError)
    requires Retold(server, calls, choices, id, who, spans, pending, rounds)
    requires var w := Run(server, calls, choices);
             && w.tasks[id].pc == Returned(Failure(Refused(e)))
             && RefusedBecause(server, id, w.tasks[id], w.trace, who, e)
             && (Pending(w.tasks[id].pc) ==> rounds(|spans|) == FailedRound(w.trace, pending, e.cause))
    ensures Ensured(server.evaluate, who, calls[id].request, rounds, map[]).0 == Failure(e)
  {
    var w := Run(server, calls, choices);
    if Unread(server, id, w.tasks[id], w.trace, who, e) {
      NextEntryIsUnread(server, calls, choices, id, who, spans, pending, rounds, e);
    } else {
      var j: nat :| Denied(server, id, w.tasks[id], w.trace, who, j, e);
      LastEntryIsDenied(server, calls, choices, id, who, spans, pending, rounds, j, e);
    }
  }

  /** The spans and rounds recount this call's queries, and the loops in these rounds decide alike. */
  ghost predicate Simulates(
      server: Server, calls: seq<Call>, choices: seq<Choice>, id: nat, who: Entity,
      spans: seq<Span>, pending: nat, rounds: nat -> Round, decision: Result<(), PolicyError>)
  {
    var w := Run(server, calls, choices);
    && id < |calls| && calls[id].request.GitHub?
    && Verified(server, calls[id].token, w.trace, id, who)
    && Meets(w.trace, id, w.tasks[id], spans, pending, rounds)
    && (decision.Failure? && decision.error.GetVisibility? ==>
          && pending < |w.trace| && w.trace[pending].Miss?
          && rounds(|spans|) == FailedRound(w.trace, pending, decision.error.cause))
    && Ensured(server.evaluate, who, calls[id].request, rounds, map[]).0 == decision
  }

  lemma AcceptanceIsSimulated(
      server: Server, calls: seq<Call>, choices: seq<Choice>, id: nat, who: Entity, spans: seq<Span>, pending: nat)
      returns (rounds: nat -> Round)
    requires id < |calls| && calls[id].request.GitHub?
    requires var w := Run(server, calls, choices);
             Accepted(server, id, w.tasks[id], w.trace, who) && Spans(w.trace, id, w.tasks[id], spans, pending)
    ensures Simulates(server, calls, choices, id, who, spans, pending, rounds, Success(()))
  {
    var w := Run(server, calls, choices);
    TraceIdentifies(server, calls[id].token, w.trace, id, who);
    rounds := RoundsMet(w.trace, id, w.tasks[id], spans, pending, NoRepositories);
    AllEntriesPass(server, calls, choices, id, who, spans, pending, rounds);
  }

  lemma EmptyIsRefused(server: Server, id: nat, task: Task, trace: seq<Event>, who: Entity, e: PolicyError)
    requires task.call.request.GitHub? && RefusedBecause(server, id, task, trace, who, e)
    requires task.call.request.github.repositories == [] || task.call.request.github.permissions == []
    ensures e == EmptyRequest
  {
  }

  lemma RefusedRounds(
      trace: seq<Event>, id: nat, task: Task, spans: seq<Span>, pending: nat, e: PolicyError)
      returns (rounds: nat -> Round)
    requires task.call.request.GitHub? && Spans(trace, id, task, spans, pending)
    requires task.pc == Returned(Failure(Refused(e)))
    ensures Meets(trace, id, task, spans, pending, rounds)
    ensures e.GetVisibility? ==>
              && pending < |trace| && trace[pending].Miss?
              && rounds(|spans|) == FailedRound(trace, pending, e.cause)
  {
    rounds := RoundsMet(trace, id, task, spans, pending, CauseOf(e));
  }

  lemma RefusalIsSimulated(
      server: Server, calls: seq<Call>, choices: seq<Choice>, id: nat, who: Entity, spans: seq<Span>, pending: nat,
      e: PolicyError) returns (rounds: nat -> Round)
    requires id < |calls| && calls[id].request.GitHub?
    requires var w := Run(server, calls, choices);
             && w.tasks[id].pc == Returned(Failure(Refused(e)))
             && RefusedBecause(server, id, w.tasks[id], w.trace, who, e)
             && Spans(w.trace, id, w.tasks[id], spans, pending)
    ensures Simulates(server, calls, choices, id, who, spans, pending, rounds, Failure(e))
  {
    var w := Run(server, calls, choices);
    TraceIdentifies(server, calls[id].token, w.trace, id, who);
    rounds := RefusedRounds(w.trace, id, w.tasks[id], spans, pending, e);
    RefusalDecides(server, calls, choices, id, who, spans, pending, rounds, e);
  }

  lemma RefusalDecides(
      server: Server, calls: seq<Call>, choices: seq<Choice>, id: nat, who: Entity, spans: seq<Span>, pending: nat,
      rounds: nat -> Round, e: PolicyError)
    requires id < |calls| && calls[id].request.GitHub? && Identifies(calls[id].token, who)
    requires var w := Run(server, calls, choices);
             && w.tasks[id].pc == Returned(Failure(Refused(e)))
             && RefusedBecause(server, id, w.tasks[id], w.trace, who, e)
             && Meets(w.trace, id, w.tasks[id], spans, pending, rounds)
             && (Pending(w.tasks[id].pc) ==> rounds(|spans|) == FailedRound(w.trace, pending, e.cause))
    ensures Ensured(server.evaluate, who, calls[id].request, rounds, map[]).0 == Failure(e)
  {
    var w := Run(server, calls, choices);
    if calls[id].request.github.repositories != [] && calls[id].request.github.permissions != [] {
      RefusalsAreSimulated(server, calls, choices, id, who, spans, pending, rounds, e);
    } else {
      EmptyIsRefused(server, id, w.tasks[id], w.trace, who, e);
    }
  }

  /** Every GitHub call that was judged got the decision that the loops of `Authorizer` compute for its
      principal, starting from an empty cache, in the rounds that its own queries met in the run. */
  lemma LoopsSimulateCalls(server: Server, calls: seq<Call>, choices: seq<Choice>, id: nat)
    returns (who: Entity, spans: seq<Span>, pending: nat, rounds: nat -> Round)
    requires id < |calls| && calls[id].request.GitHub?
    requires var pc := Run(server, calls, choices).tasks[id].pc; pc.Returned? && Refinement.Judged(pc.outcome)
    ensures Simulates(server, calls, choices, id, who, spans, pending, rounds,
                      DecisionOf(Run(server, calls, choices).tasks[id].pc.outcome))
  {
    var w := Run(server, calls, choices);
    RunRecounts(server, calls, choices, id);
    spans, pending :| Spans(w.trace, id, w.tasks[id], spans, pending);
    TaskIsSound(server, calls, choices, id);
    if w.tasks[id].pc.outcome.Failure? && w.tasks[id].pc.outcome.error.Refused? {
      var e := w.tasks[id].pc.outcome.error.policyError;
      who :| RefusedBecause(server, id, w.tasks[id], w.trace, who, e);
      rounds := RefusalIsSimulated(server, calls, choices, id, who, spans, pending, e);
    } else {
      who :| Accepted(server, id, w.tasks[id], w.trace, who);
      rounds := AcceptanceIsSimulated(server, calls, choices, id, who, spans, pending);
    }
  }
}
