/**
 * Progress: no reachable state is stuck, every action brings its call closer to returning, and so
 * every finite set of calls completes, however GitHub and the silos answer.
 */
module Progress {

  import opened Exchange
  import opened ExchangeActions
  import opened ExchangeSteps
  import opened GitHubRequest
  import opened Policy
  import opened TokenRequests

  /***** How many actions a call can still take *****/

  /** `k` repository entries, each with its query and `permissions` judgements. */
  function Entries(k: nat, permissions: nat): nat {
    if k == 0 then 0 else 9 + permissions + Entries(k - 1, permissions)
  }

  const MINTING := 4

  /** The actions left once the visibility of entry `i` is known and no permission is judged yet. */
  function AfterView(github: GitHubTokenRequest, i: nat): nat
    requires i < |github.repositories|
  {
    |github.permissions| + Entries(|github.repositories| - i - 1, |github.permissions|) + MINTING
  }

  function Left(request: TokenRequest, pc: Pc): nat
    requires PcOk(request, pc)
  {
    match pc
    case Arrived =>
      if request.Oxide? then 6
      else 1 + Entries(|request.github.repositories|, |request.github.permissions|) + MINTING
    case AwaitCheck(_, i) => AfterView(request.github, i) + 9
    case HoldCheck(_, i) => AfterView(request.github, i) + 8
    case Getting(_, Probe(i), Begin) => AfterView(request.github, i) + 7
    case Getting(_, Probe(i), Searching(_, kind, _)) => AfterView(request.github, i) + 6 - kind
    case Getting(_, Probe(i), Requesting(_, _)) => AfterView(request.github, i) + 4
    case Reading(_, i, _) => AfterView(request.github, i) + 3
    case AwaitStore(_, i, _) => AfterView(request.github, i) + 2
    case HoldStore(_, i, _) => AfterView(request.github, i) + 1
    case Judging(_, i, _, j) => AfterView(request.github, i) - j
    case Getting(_, Mint, Begin) => MINTING
    case Getting(_, Mint, Searching(_, kind, _)) => 3 - kind
    case Getting(_, Mint, Requesting(_, _)) => 1
    case Deploying(_) => 5
    case Preparing(_) => 4
    case Authorizing(_, _) => 3
    case Confirming(_, _, _, _) => 2
    case Redeeming(_, _, _, _) => 1
    case Returned(_) => 0
  }

  function LeftOf(task: Task): nat
    requires PcOk(task.call.request, task.pc)
  {
    Left(task.call.request, task.pc)
  }

  lemma NextIsCloser(task: Task)
    requires PcOk(task.call.request, task.pc) && task.pc.Judging?
    ensures Left(task.call.request, NextPermission(task)) < LeftOf(task)
  {
  }

  lemma GetIsCloser(server: Server, id: nat, task: Task, cache: Cache, now: int, answer: Answer)
    requires PcOk(task.call.request, task.pc) && task.pc.Getting?
    ensures LeftOf(After(task, Get(server, id, task, cache, now, answer))) < LeftOf(task)
  {
    match task.pc.phase {
      case Begin =>
        assert LeftOf(After(task, GetBegin(server, id, task, cache, now, answer))) < LeftOf(task);
      case Searching(_, _, _) =>
        assert LeftOf(After(task, GetSearching(id, task, cache, now, answer))) < LeftOf(task);
      case Requesting(_, _) =>
        assert LeftOf(After(task, GetRequesting(id, task, cache, now, answer))) < LeftOf(task);
    }
  }

  lemma DeviceIsCloser(server: Server, id: nat, task: Task, cache: Cache, answer: Answer)
    requires PcOk(task.call.request, task.pc)
    requires task.pc.Preparing? || task.pc.Authorizing? || task.pc.Confirming? || task.pc.Redeeming?
    ensures LeftOf(After(task, DeviceFlow(server, id, task, cache, answer))) < LeftOf(task)
  {
  }

  lemma QueryIsCloser(server: Server, id: nat, task: Task, cache: Cache, now: int, answer: Answer)
    requires PcOk(task.call.request, task.pc)
    requires task.pc.AwaitCheck? || task.pc.HoldCheck? || task.pc.Reading? || task.pc.AwaitStore? || task.pc.HoldStore?
    ensures LeftOf(After(task, Act(server, id, task, cache, now, answer))) < LeftOf(task)
  {
  }

  lemma JudgeIsCloser(server: Server, id: nat, task: Task, cache: Cache)
    requires PcOk(task.call.request, task.pc) && task.pc.Judging?
    ensures LeftOf(After(task, Judge(server, id, task, cache))) < LeftOf(task)
  {
    NextIsCloser(task);
  }

  lemma ArriveIsCloser(server: Server, id: nat, task: Task, cache: Cache, now: int)
    requires task.pc.Arrived?
    ensures LeftOf(After(task, Arrive(server, id, task, cache, now))) < LeftOf(task)
  {
  }

  /** Every action strictly lowers the measure; only a call that has returned is at zero. */
  lemma ActsGetCloser(server: Server, id: nat, task: Task, cache: Cache, now: int, answer: Answer)
    requires PcOk(task.call.request, task.pc) && !task.pc.Returned?
    ensures LeftOf(After(task, Act(server, id, task, cache, now, answer))) < LeftOf(task)
  {
    match task.pc {
      case Arrived => ArriveIsCloser(server, id, task, cache, now);
      case Getting(_, _, _) => GetIsCloser(server, id, task, cache, now, answer);
      case Judging(_, _, _, _) => JudgeIsCloser(server, id, task, cache);
      case Deploying(_) => assert LeftOf(After(task, Deploy(server, id, task, cache))) < LeftOf(task);
      case Preparing(_) => DeviceIsCloser(server, id, task, cache, answer);
      case Authorizing(_, _) => DeviceIsCloser(server, id, task, cache, answer);
      case Confirming(_, _, _, _) => DeviceIsCloser(server, id, task, cache, answer);
      case Redeeming(_, _, _, _) => DeviceIsCloser(server, id, task, cache, answer);
      case _ => QueryIsCloser(server, id, task, cache, now, answer);
    }
  }

  /***** All calls together *****/

  function Sum(tasks: seq<Task>): nat
    requires forall k | 0 <= k < |tasks| :: PcOk(tasks[k].call.request, tasks[k].pc)
  {
    if tasks == [] then 0 else Sum(tasks[..|tasks| - 1]) + LeftOf(tasks[|tasks| - 1])
  }

  lemma {:induction false} SumUpdate(tasks: seq<Task>, id: nat, task: Task)
    requires forall k | 0 <= k < |tasks| :: PcOk(tasks[k].call.request, tasks[k].pc)
    requires id < |tasks| && PcOk(task.call.request, task.pc)
    ensures Sum(tasks[id := task]) + LeftOf(tasks[id]) == Sum(tasks) + LeftOf(task)
  {
    var last := |tasks| - 1;
    if id < last {
      SumUpdate(tasks[..last], id, task);
      assert tasks[id := task][..last] == tasks[..last][id := task];
    } else {
      assert tasks[id := task][..last] == tasks[..last];
    }
  }

  /** An action of an enabled call brings the whole system closer to the end. */
  lemma StepsGetCloser(server: Server, w: World, choice: Choice)
    requires WorldOk(w) && Enabled(w, choice.id)
    ensures Sum(Step(server, w, choice).tasks) < Sum(w.tasks)
  {
    var task := w.tasks[choice.id];
    var task' := After(task, Act(server, choice.id, task, w.cache, choice.now, choice.answer));
    ActsGetCloser(server, choice.id, task, w.cache, choice.now, choice.answer);
    SumUpdate(w.tasks, choice.id, task');
  }

  predicate AllReturned(w: World) {
    forall k | 0 <= k < |w.tasks| :: w.tasks[k].pc.Returned?
  }

  predicate Complete(server: Server, calls: seq<Call>, choices: seq<Choice>) {
    AllReturned(Run(server, calls, choices))
  }

  /** No reachable state is stuck: while some call has not returned, some call can act. */
  lemma NeverStuck(server: Server, calls: seq<Call>, choices: seq<Choice>) returns (id: nat)
    requires !Complete(server, calls, choices)
    ensures Enabled(Run(server, calls, choices), id)
  {
    var w := Run(server, calls, choices);
    RunKeeps(server, calls, choices);
    if w.lock.Some? {
      id := w.lock.value;
    } else {
      id :| id < |w.tasks| && !w.tasks[id].pc.Returned?;
    }
  }

  /** How many choices of a run were actions of enabled calls. */
  function Effective(server: Server, calls: seq<Call>, choices: seq<Choice>): nat {
    if choices == [] then 0
    else
      var last := |choices| - 1;
      Effective(server, calls, choices[..last])
      + if Enabled(Run(server, calls, choices[..last]), choices[last].id) then 1 else 0
  }

  /** No run takes more actions than the calls have at the start. */
  lemma {:induction false} RunsAreBounded(server: Server, calls: seq<Call>, choices: seq<Choice>)
    ensures Effective(server, calls, choices) + Sum(Run(server, calls, choices).tasks) <= Sum(Start(calls).tasks)
  {
    if choices != [] {
      var last := |choices| - 1;
      RunsAreBounded(server, calls, choices[..last]);
      var w := Run(server, calls, choices[..last]);
      if Enabled(w, choices[last].id) {
        StepsGetCloser(server, w, choices[last]);
      }
    }
  }

  /** The actions that can still follow a run. */
  function Budget(server: Server, calls: seq<Call>, choices: seq<Choice>): nat {
    Sum(Run(server, calls, choices).tasks)
  }

  /** What the clock reads, and what GitHub and the silos answer, at the `k`-th action. */
  datatype Environment = Environment(now: nat -> int, answer: nat -> Answer)

  /** From action `k` on, the environment decides the clock and the answers of these choices. */
  predicate Given(choices: seq<Choice>, environment: Environment, k: nat) {
    choices != [] ==> FromEnvironment(choices[0], environment, k) && Given(choices[1..], environment, k + 1)
  }

  predicate FromEnvironment(choice: Choice, environment: Environment, k: nat) {
    choice.now == environment.now(k) && choice.answer == environment.answer(k)
  }

  lemma GivenLonger(
      choices: seq<Choice>, choice: Choice, rest: seq<Choice>, environment: Environment, k: nat)
      returns (more: seq<Choice>)
    requires FromEnvironment(choice, environment, k) && Given(rest, environment, k + 1)
    ensures Given(more, environment, k)
    ensures |more| == |rest| + 1 && choices + more == choices + [choice] + rest
  {
    more := [choice] + rest;
    assert more[1..] == rest;
  }

  lemma NextAction(server: Server, calls: seq<Call>, choices: seq<Choice>, environment: Environment, k: nat)
      returns (choice: Choice)
    requires !Complete(server, calls, choices)
    ensures FromEnvironment(choice, environment, k)
    ensures Budget(server, calls, choices + [choice]) < Budget(server, calls, choices)
  {
    var id := NeverStuck(server, calls, choices);
    choice := Choice(id, environment.now(k), environment.answer(k));
    assert (choices + [choice])[..|choices|] == choices;
    StepsGetCloser(server, Run(server, calls, choices), choice);
  }

  /** Every run can be continued until all calls have returned, whatever the environment answers, in
      at most as many actions as the measure says. */
  lemma {:induction false} EveryRunCompletes(
      server: Server, calls: seq<Call>, choices: seq<Choice>, environment: Environment, k: nat)
      returns (more: seq<Choice>)
    ensures Complete(server, calls, choices + more)
    ensures |more| <= Budget(server, calls, choices)
    ensures Given(more, environment, k)
    decreases Budget(server, calls, choices)
  {
    if Complete(server, calls, choices) {
      more := [];
      assert choices + more == choices;
    } else {
      var choice := NextAction(server, calls, choices, environment, k);
      var rest := EveryRunCompletes(server, calls, choices + [choice], environment, k + 1);
      more := GivenLonger(choices, choice, rest, environment, k);
    }
  }
}
