/**
 * Where events come from: every event of a run was added by one action of its own call, and carries
 * the clock that action read and the answer the environment gave it.
 */
module Records {

  import opened Wrappers
  import opened Exchange
  import opened GitHubRequest
  import opened Policy

  /** A call that stands here and makes this choice may add this event. */
  predicate Recorded(task: Task, event: Event, choice: Choice)
    requires PcOk(task.call.request, task.pc)
  {
    var request, pc := task.call.request, task.pc;
    && event.call == choice.id
    && (pc.Arrived? <==> event.Authenticated? || event.TurnedAway?)
    && !pc.Returned?
    && match event
       case Authenticated(_, _, at) => at == choice.now
       case TurnedAway(_, _, at) => at == choice.now
       case Hit(_, repository, _, at) =>
         pc.HoldCheck? && at == choice.now && repository == request.github.repositories[pc.i]
       case Miss(_, repository, at) =>
         pc.HoldCheck? && at == choice.now && repository == request.github.repositories[pc.i]
       case Probed(_, repository, answer, at) =>
         && at == choice.now
         && (pc.Reading? || (pc.Getting? && pc.purpose.Probe? && answer.Failure?))
         && (pc.Reading? ==>
               && repository == request.github.repositories[pc.i]
               && match choice.answer.visibility
                  case Success(visibility) => answer == Success(visibility)
                  case Failure(Transport) => answer == Failure(Http)
                  case Failure(Status(status, message)) => answer == Failure(GitHubError(status, message)))
       case Stored(_, repository, visibility, at) =>
         && pc.HoldStore? && at == choice.now
         && repository == request.github.repositories[pc.i] && visibility == pc.visibility
       case Allowed(_, who, _, _, _) => pc.Judging? && who == pc.who
       case Signed(_, _, succeeded) => succeeded == choice.answer.signed
       case Looked(_, _, _, _, installations) => installations == choice.answer.installation
       case Posted(_, _, _, _, _, _, reply) => reply == choice.answer.accessToken
       case DeployAllowed(_, who, _) => pc.Deploying? && who == pc.who
       case SiloFailed(_, client, step, failure) =>
         && (pc.Authorizing? || pc.Confirming? || pc.Redeeming?) && client == pc.client
         && (match step
          case DeviceAuthorization => pc.Authorizing? && choice.answer.device == Failure(failure)
          case Confirmation => pc.Confirming? && choice.answer.confirmation == Failure(failure)
          case TokenGrant => pc.Redeeming? && choice.answer.grant == Failure(failure))
       case Issued(_, client, _, deviceCode, userCode) =>
         pc.Authorizing? && client == pc.client && choice.answer.device == Success((deviceCode, userCode))
       case Confirmed(_, client, userCode) =>
         pc.Confirming? && client == pc.client && userCode == pc.userCode && choice.answer.confirmation.Success?
       case Granted(_, client, deviceCode, token) =>
         pc.Redeeming? && client == pc.client && deviceCode == pc.deviceCode && choice.answer.grant == Success(token)
  }

  lemma BeginRecords(server: Server, id: nat, task: Task, cache: Cache, now: int, answer: Answer)
    requires PcOk(task.call.request, task.pc) && task.pc.Getting? && task.pc.phase.Begin?
    ensures forall e | e in GetBegin(server, id, task, cache, now, answer).events ::
              Recorded(task, e, Choice(id, now, answer))
  {
  }

  lemma SearchRecords(server: Server, id: nat, task: Task, cache: Cache, now: int, answer: Answer)
    requires PcOk(task.call.request, task.pc) && task.pc.Getting? && task.pc.phase.Searching?
    ensures forall e | e in GetSearching(id, task, cache, now, answer).events ::
              Recorded(task, e, Choice(id, now, answer))
  {
  }

  lemma PostRecords(server: Server, id: nat, task: Task, cache: Cache, now: int, answer: Answer)
    requires PcOk(task.call.request, task.pc) && task.pc.Getting? && task.pc.phase.Requesting?
    ensures forall e | e in GetRequesting(id, task, cache, now, answer).events ::
              Recorded(task, e, Choice(id, now, answer))
  {
  }

  lemma GetRecords(server: Server, id: nat, task: Task, cache: Cache, now: int, answer: Answer)
    requires PcOk(task.call.request, task.pc) && task.pc.Getting?
    ensures forall e | e in Get(server, id, task, cache, now, answer).events ::
              Recorded(task, e, Choice(id, now, answer))
  {
    match task.pc.phase {
      case Begin => BeginRecords(server, id, task, cache, now, answer);
      case Searching(_, _, _) => SearchRecords(server, id, task, cache, now, answer);
      case Requesting(_, _) => PostRecords(server, id, task, cache, now, answer);
    }
  }

  lemma DeviceRecords(server: Server, id: nat, task: Task, cache: Cache, now: int, answer: Answer)
    requires PcOk(task.call.request, task.pc)
    requires task.pc.Preparing? || task.pc.Authorizing? || task.pc.Confirming? || task.pc.Redeeming?
    ensures forall e | e in DeviceFlow(server, id, task, cache, answer).events ::
              Recorded(task, e, Choice(id, now, answer))
  {
  }

  /** An action adds only events that its program point, its clock and its answers account for. */
  lemma ActRecords(server: Server, id: nat, task: Task, cache: Cache, now: int, answer: Answer)
    requires PcOk(task.call.request, task.pc)
    ensures forall e | e in Act(server, id, task, cache, now, answer).events ::
              Recorded(task, e, Choice(id, now, answer))
  {
    if task.pc.Getting? {
      GetRecords(server, id, task, cache, now, answer);
    } else if task.pc.Preparing? || task.pc.Authorizing? || task.pc.Confirming? || task.pc.Redeeming? {
      DeviceRecords(server, id, task, cache, now, answer);
    }
  }

  predicate FailedProbe(event: Event) { event.Probed? && event.answer.Failure? }

  /** Only a failed probe adds an event after another one. */
  lemma ActAddsOne(server: Server, id: nat, task: Task, cache: Cache, now: int, answer: Answer)
    requires PcOk(task.call.request, task.pc)
    ensures var events := Act(server, id, task, cache, now, answer).events;
            forall k | 0 < k < |events| :: FailedProbe(events[k])
  {
    if task.pc.Getting? {
      assert var events := Get(server, id, task, cache, now, answer).events;
             forall k | 0 < k < |events| :: FailedProbe(events[k]);
    }
  }

  /** Choice `k` of the run added event `n`. */
  ghost predicate AddedBy(server: Server, calls: seq<Call>, choices: seq<Choice>, n: nat, k: nat) {
    var trace := Run(server, calls, choices).trace;
    && n < |trace| && k < |choices| && choices[k].id < |calls|
    && |Run(server, calls, choices[..k]).trace| <= n
    && (|Run(server, calls, choices[..k]).trace| < n ==> FailedProbe(trace[n]))
    && Run(server, calls, choices[..k]).trace <= trace
    && Recorded(Run(server, calls, choices[..k]).tasks[choices[k].id], trace[n], choices[k])
  }

  lemma StepRecords(server: Server, w: World, choice: Choice, n: nat)
    requires WorldOk(w) && |w.trace| <= n < |Step(server, w, choice).trace|
    ensures choice.id < |w.tasks| && w.trace <= Step(server, w, choice).trace
    ensures Recorded(w.tasks[choice.id], Step(server, w, choice).trace[n], choice)
    ensures n > |w.trace| ==> FailedProbe(Step(server, w, choice).trace[n])
  {
    var task := w.tasks[choice.id];
    var events := Act(server, choice.id, task, w.cache, choice.now, choice.answer).events;
    ActRecords(server, choice.id, task, w.cache, choice.now, choice.answer);
    ActAddsOne(server, choice.id, task, w.cache, choice.now, choice.answer);
    assert Step(server, w, choice).trace[n] == events[n - |w.trace|];
    assert events[n - |w.trace|] in events;
  }

  /** Every event of a run stems from one action of its own call. */
  lemma {:induction false} EventComesFromAction(server: Server, calls: seq<Call>, choices: seq<Choice>, n: nat)
      returns (k: nat)
    requires n < |Run(server, calls, choices).trace|
    ensures AddedBy(server, calls, choices, n, k)
  {
    var last := |choices| - 1;
    var w := Run(server, calls, choices[..last]);
    if n < |w.trace| {
      k := EventComesFromAction(server, calls, choices[..last], n);
      assert choices[..last][..k] == choices[..k];
    } else {
      k := last;
      StepRecords(server, w, choices[last], n);
    }
  }

  /***** First actions *****/

  /** Choice `k` is the first one of this call. */
  predicate FirstAction(choices: seq<Choice>, k: nat, id: nat) {
    k < |choices| && choices[k].id == id && forall m | 0 <= m < k :: choices[m].id != id
  }

  lemma NeverArrivesAgain(server: Server, w: World, choice: Choice, id: nat)
    requires WorldOk(w) && id < |w.tasks| && Step(server, w, choice).tasks[id].pc.Arrived?
    ensures w.tasks[id].pc.Arrived? && choice.id != id
  {
  }

  /** A call that is still at its start has not acted yet. */
  lemma {:induction false} ArrivedHasNotActed(server: Server, calls: seq<Call>, choices: seq<Choice>, id: nat)
    requires id < |calls| && Run(server, calls, choices).tasks[id].pc.Arrived?
    ensures forall m | 0 <= m < |choices| :: choices[m].id != id
  {
    if choices != [] {
      var last := |choices| - 1;
      NeverArrivesAgain(server, Run(server, calls, choices[..last]), choices[last], id);
      ArrivedHasNotActed(server, calls, choices[..last], id);
    }
  }

  /** What the call's identity came to was decided by its first action. */
  lemma IdentityIsDecidedFirst(server: Server, calls: seq<Call>, choices: seq<Choice>, n: nat) returns (k: nat)
    requires n < |Run(server, calls, choices).trace|
    requires var event := Run(server, calls, choices).trace[n]; event.Authenticated? || event.TurnedAway?
    ensures var event := Run(server, calls, choices).trace[n];
            FirstAction(choices, k, event.call) && event.at == choices[k].now
  {
    k := EventComesFromAction(server, calls, choices, n);
    ArrivedHasNotActed(server, calls, choices[..k], choices[k].id);
    assert forall m | 0 <= m < k :: choices[..k][m] == choices[m];
  }
}
