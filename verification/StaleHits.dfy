/**
 * Freshness does not count from GitHub's report: for every age there is a run in which a cache hit
 * returns a report older than that, although another call was told otherwise since, and had even
 * stored what it was told.
 */
module StaleHits {

  import opened Wrappers
  import opened Cedar
  import opened Context
  import opened Exchange
  import opened FetchProtocol
  import opened Freshness
  import opened GitHubRequest
  import opened GitHubRequestLaws
  import opened Oidc
  import opened Policy
  import opened Staleness
  import opened TokenRequests
  import OxideTokens

  /***** Running one call while the others wait *****/

  /** From `w` to `w'` only this call acted, it added events but neither a report nor an insert, and it
      now stands at `pc`. */
  ghost predicate Calm(w: World, w': World, id: nat, pc: Pc) {
    && id < |w.tasks|
    && w'.cache == w.cache
    && w'.tasks == w.tasks[id := Task(w.tasks[id].call, w.tasks[id].seen, pc)]
    && w.trace <= w'.trace
    && forall n | |w.trace| <= n < |w'.trace| :: w'.trace[n].call == id && Uneventful(w'.trace[n])
  }

  predicate Uneventful(event: Event) { !event.Probed? && !event.Stored? }

  lemma CalmStep(server: Server, w: World, w': World, id: nat, choice: Choice, effect: Effect)
    requires WorldOk(w') && choice.id == id && Enabled(w', id) && id < |w.tasks| && Calm(w, w', id, w'.tasks[id].pc)
    requires effect == Act(server, id, w'.tasks[id], w'.cache, choice.now, choice.answer)
    requires effect.cache == w'.cache && effect.seen == w'.tasks[id].seen
    requires |effect.events| <= 1 && forall e | e in effect.events :: e.call == id && Uneventful(e)
    ensures Calm(w, Step(server, w', choice), id, effect.pc)
    ensures Step(server, w', choice).lock ==
            if Awaits(w'.tasks[id].pc) then Some(id) else if Holds(w'.tasks[id].pc) then None else w'.lock
  {
    var next := Step(server, w', choice);
    forall n | |w.trace| <= n < |next.trace|
      ensures next.trace[n].call == id && Uneventful(next.trace[n])
    {
      if n >= |w'.trace| {
        assert next.trace[n] == effect.events[n - |w'.trace|];
        assert next.trace[n] in effect.events;
      }
    }
  }

  /** The run has taken this call from `w` to `pc` and left the mutex like this. */
  ghost predicate At(
      server: Server, calls: seq<Call>, choices: seq<Choice>, w: World, id: nat, pc: Pc, lock: Option<nat>)
  {
    var w' := Run(server, calls, choices);
    id < |w.tasks| == |calls| && w.tasks[id].call == calls[id] && Calm(w, w', id, pc) && w'.lock == lock
  }

  /** The longer run adds choices of this call only, all at this clock. */
  predicate Extends(choices: seq<Choice>, longer: seq<Choice>, id: nat, now: int) {
    choices <= longer && forall k | |choices| <= k < |longer| :: longer[k].id == id && longer[k].now == now
  }

  /** An environment in which every request succeeds. */
  function Helpful(visibility: string): Answer {
    Answer(true, Success(1), Success(""), Success(visibility), Failure(OxideTokens.Unreachable),
           Failure(OxideTokens.Unreachable), Failure(OxideTokens.Unreachable))
  }

  function LockAfter(pc: Pc, id: nat, lock: Option<nat>): Option<nat> {
    if Awaits(pc) then Some(id) else if Holds(pc) then None else lock
  }

  /** One uneventful action. */
  lemma Take(
      server: Server, calls: seq<Call>, choices: seq<Choice>, w: World, id: nat, pc: Pc, lock: Option<nat>,
      now: int, visibility: string, effect: Effect) returns (longer: seq<Choice>)
    requires At(server, calls, choices, w, id, pc, lock) && !pc.Returned? && (Awaits(pc) ==> lock.None?)
    requires PcOk(calls[id].request, pc)
    requires effect == Act(server, id, Task(calls[id], w.tasks[id].seen, pc), w.cache, now, Helpful(visibility))
    requires effect.cache == w.cache && effect.seen == w.tasks[id].seen
    requires |effect.events| <= 1 && forall e | e in effect.events :: e.call == id && Uneventful(e)
    ensures At(server, calls, longer, w, id, effect.pc, LockAfter(pc, id, lock))
    ensures Extends(choices, longer, id, now) && |longer| == |choices| + 1
  {
    var choice := Choice(id, now, Helpful(visibility));
    longer := choices + [choice];
    assert longer[..|choices|] == choices;
    CalmStep(server, w, Run(server, calls, choices), id, choice, effect);
  }

  /***** One fetch, up to GitHub's report *****/

  /** The call asks for one repository, whose visibility a probe can be made for, and its token is good
      at this clock. */
  predicate Asks(server: Server, call: Call, repository: string, now: int, who: Entity, parsed: ParsedGitHubRequest) {
    && server.credentials
    && call.request.GitHub? && call.request.github.repositories == [repository] && call.request.github.permissions != []
    && Parse(GitHubTokenRequest([repository], [PROBE_PERMISSION])) == Success(parsed)
    && Authenticate(server, call.token, now) == Success(who)
  }

  lemma ArriveActs(server: Server, id: nat, task: Task, cache: Cache, repository: string, now: int, who: Entity,
                   parsed: ParsedGitHubRequest, visibility: string)
    requires task.pc.Arrived? && Asks(server, task.call, repository, now, who, parsed)
    ensures Act(server, id, task, cache, now, Helpful(visibility)) ==
            Effect(AwaitCheck(who, 0), task.seen, cache, [Authenticated(id, who, now)])
  {
  }

  lemma CheckActs(server: Server, id: nat, task: Task, cache: Cache, repository: string, now: int, who: Entity,
                  parsed: ParsedGitHubRequest, visibility: string)
    requires Asks(server, task.call, repository, now, who, parsed) && task.pc == HoldCheck(who, 0)
    requires Lookup(cache, repository, now).None?
    ensures Act(server, id, task, cache, now, Helpful(visibility)) ==
            Effect(Getting(who, Probe(0), Begin), task.seen, cache, [Miss(id, repository, now)])
  {
  }

  /** The effect adds at most one event, uneventful, and changes nothing but the program point. */
  predicate QuietEffect(effect: Effect, id: nat, task: Task, cache: Cache) {
    && effect.seen == task.seen && effect.cache == cache && |effect.events| <= 1
    && forall e | e in effect.events :: e.call == id && Uneventful(e)
  }

  lemma BeginActs(server: Server, id: nat, task: Task, cache: Cache, repository: string, now: int, who: Entity,
                  parsed: ParsedGitHubRequest, visibility: string, phase: Phase)
    requires Asks(server, task.call, repository, now, who, parsed)
    requires task.pc == Getting(who, Probe(0), phase) && phase.Begin?
    ensures PcOk(task.call.request, task.pc)
    ensures var effect := Act(server, id, task, cache, now, Helpful(visibility));
            QuietEffect(effect, id, task, cache) && effect.pc == Getting(who, Probe(0), Searching(parsed, 0, None))
  {
  }

  lemma FoundFirst(id: nat, task: Task, cache: Cache, now: int, who: Entity, visibility: string, phase: Phase)
    requires PcOk(task.call.request, task.pc) && task.pc == Getting(who, Probe(0), phase)
    requires phase.Searching? && phase.kind == 0
    ensures GetSearching(id, task, cache, now, Helpful(visibility)) ==
            Effect(Getting(who, Probe(0), Searching(phase.parsed, 1, Some(1))), task.seen, cache,
                   [Looked(id, Probe(0), KINDS[0], phase.parsed.namespace, Success(1))])
  {
  }

  lemma FirstSearchActs(server: Server, id: nat, task: Task, cache: Cache, repository: string, now: int, who: Entity,
                  parsed: ParsedGitHubRequest, visibility: string, phase: Phase)
    requires Asks(server, task.call, repository, now, who, parsed)
    requires task.pc == Getting(who, Probe(0), phase) && phase.Searching? && phase.kind == 0
    ensures PcOk(task.call.request, task.pc)
    ensures var effect := Act(server, id, task, cache, now, Helpful(visibility));
            && QuietEffect(effect, id, task, cache)
            && effect.pc == Getting(who, Probe(0), Searching(phase.parsed, 1, Some(1)))
  {
    FoundFirst(id, task, cache, now, who, visibility, phase);
  }

  lemma LastSearchActs(server: Server, id: nat, task: Task, cache: Cache, repository: string, now: int, who: Entity,
                  parsed: ParsedGitHubRequest, visibility: string, phase: Phase)
    requires Asks(server, task.call, repository, now, who, parsed)
    requires task.pc == Getting(who, Probe(0), phase) && phase.Searching? && phase.kind == 1
    ensures PcOk(task.call.request, task.pc)
    ensures var effect := Act(server, id, task, cache, now, Helpful(visibility));
            QuietEffect(effect, id, task, cache) && effect.pc == Getting(who, Probe(0), Requesting(phase.parsed, 1))
  {
  }

  lemma PostActs(server: Server, id: nat, task: Task, cache: Cache, repository: string, now: int, who: Entity,
                  parsed: ParsedGitHubRequest, visibility: string, phase: Phase)
    requires Asks(server, task.call, repository, now, who, parsed)
    requires task.pc == Getting(who, Probe(0), phase) && phase.Requesting?
    ensures PcOk(task.call.request, task.pc)
    ensures var effect := Act(server, id, task, cache, now, Helpful(visibility));
            QuietEffect(effect, id, task, cache) && effect.pc == Reading(who, 0, "")
  {
  }

  lemma AskedSoFar(
      server: Server, calls: seq<Call>, choices: seq<Choice>, w: World, id: nat, repository: string, now: int,
      who: Entity, parsed: ParsedGitHubRequest, visibility: string) returns (longer: seq<Choice>)
    requires At(server, calls, choices, w, id, Arrived, None) && Asks(server, calls[id], repository, now, who, parsed)
    ensures At(server, calls, longer, w, id, HoldCheck(who, 0), Some(id)) && Extends(choices, longer, id, now)
  {
    var task := Task(calls[id], w.tasks[id].seen, Arrived);
    ArriveActs(server, id, task, w.cache, repository, now, who, parsed, visibility);
    longer := Take(server, calls, choices, w, id, Arrived, None, now, visibility,
                   Act(server, id, task, w.cache, now, Helpful(visibility)));
    var arrived := longer;
    var pc := AwaitCheck(who, 0);
    longer := Take(server, calls, longer, w, id, pc, None, now, visibility,
                   Act(server, id, task.(pc := pc), w.cache, now, Helpful(visibility)));
    assert choices <= arrived <= longer;
  }

  /** One action of `get`. */
  lemma GetOn(
      server: Server, calls: seq<Call>, choices: seq<Choice>, w: World, id: nat, repository: string, now: int,
      who: Entity, parsed: ParsedGitHubRequest, visibility: string, phase: Phase, pc: Pc) returns (longer: seq<Choice>)
    requires At(server, calls, choices, w, id, Getting(who, Probe(0), phase), None)
    requires Asks(server, calls[id], repository, now, who, parsed)
    requires pc == match phase
                   case Begin => Getting(who, Probe(0), Searching(parsed, 0, None))
                   case Searching(p, kind, _) =>
                     Getting(who, Probe(0), if kind == 0 then Searching(p, 1, Some(1)) else Requesting(p, 1))
                   case Requesting(_, _) => Reading(who, 0, "")
    requires PhaseOk(phase)
    ensures At(server, calls, longer, w, id, pc, None) && Extends(choices, longer, id, now)
  {
    var task := Task(calls[id], w.tasks[id].seen, Getting(who, Probe(0), phase));
    match phase {
      case Begin => BeginActs(server, id, task, w.cache, repository, now, who, parsed, visibility, phase);
      case Searching(_, kind, _) =>
        if kind == 0 {
          FirstSearchActs(server, id, task, w.cache, repository, now, who, parsed, visibility, phase);
        } else {
          LastSearchActs(server, id, task, w.cache, repository, now, who, parsed, visibility, phase);
        }
      case Requesting(_, _) => PostActs(server, id, task, w.cache, repository, now, who, parsed, visibility, phase);
    }
    longer := Take(server, calls, choices, w, id, task.pc, None, now, visibility,
                   Act(server, id, task, w.cache, now, Helpful(visibility)));
  }

  lemma ExtendsTwice(choices: seq<Choice>, middle: seq<Choice>, longer: seq<Choice>, id: nat, now: int)
    requires Extends(choices, middle, id, now) && Extends(middle, longer, id, now)
    ensures Extends(choices, longer, id, now)
  {
  }

  /** The probe's token has been granted. */
  lemma Probing(
      server: Server, calls: seq<Call>, choices: seq<Choice>, w: World, id: nat, repository: string, now: int,
      who: Entity, parsed: ParsedGitHubRequest, visibility: string) returns (longer: seq<Choice>)
    requires At(server, calls, choices, w, id, Getting(who, Probe(0), Begin), None)
    requires Asks(server, calls[id], repository, now, who, parsed)
    ensures At(server, calls, longer, w, id, Reading(who, 0, ""), None) && Extends(choices, longer, id, now)
  {
    var first, second := Searching(parsed, 0, None), Searching(parsed, 1, Some(1));
    var begun := GetOn(server, calls, choices, w, id, repository, now, who, parsed, visibility,
                       Begin, Getting(who, Probe(0), first));
    var asked := GetOn(server, calls, begun, w, id, repository, now, who, parsed, visibility,
                       first, Getting(who, Probe(0), second));
    var found := GetOn(server, calls, asked, w, id, repository, now, who, parsed, visibility,
                       second, Getting(who, Probe(0), Requesting(parsed, 1)));
    longer := GetOn(server, calls, found, w, id, repository, now, who, parsed, visibility,
                    Requesting(parsed, 1), Reading(who, 0, ""));
    ExtendsTwice(choices, begun, asked, id, now);
    ExtendsTwice(choices, asked, found, id, now);
    ExtendsTwice(choices, found, longer, id, now);
  }

  /** The call has missed and holds its probe's token. */
  lemma Missing(
      server: Server, calls: seq<Call>, choices: seq<Choice>, w: World, id: nat, repository: string, now: int,
      who: Entity, parsed: ParsedGitHubRequest, visibility: string) returns (longer: seq<Choice>)
    requires At(server, calls, choices, w, id, Arrived, None) && Lookup(w.cache, repository, now).None?
    requires Asks(server, calls[id], repository, now, who, parsed)
    ensures At(server, calls, longer, w, id, Reading(who, 0, ""), None) && Extends(choices, longer, id, now)
  {
    var held := AskedSoFar(server, calls, choices, w, id, repository, now, who, parsed, visibility);
    var task := Task(calls[id], w.tasks[id].seen, HoldCheck(who, 0));
    CheckActs(server, id, task, w.cache, repository, now, who, parsed, visibility);
    var missed := Take(server, calls, held, w, id, task.pc, Some(id), now, visibility,
                       Act(server, id, task, w.cache, now, Helpful(visibility)));
    longer := Probing(server, calls, missed, w, id, repository, now, who, parsed, visibility);
    ExtendsTwice(choices, held, missed, id, now);
    ExtendsTwice(choices, missed, longer, id, now);
  }

  /** From `w` to `w'` this call acted and came to `pc`; its last event is `event`, the others are
      uneventful. */
  ghost predicate Comes(w: World, w': World, id: nat, task: Task, event: Event) {
    && id < |w.tasks|
    && w.lock.None? && w'.lock.None?
    && w'.tasks == w.tasks[id := task]
    && w.trace < w'.trace && w'.trace[|w'.trace| - 1] == event
    && forall n | |w.trace| <= n < |w'.trace| - 1 :: w'.trace[n].call == id && Uneventful(w'.trace[n])
  }

  lemma StartsCalm(w: World, id: nat)
    requires id < |w.tasks|
    ensures Calm(w, w, id, w.tasks[id].pc)
  {
  }

  lemma OneMore(server: Server, calls: seq<Call>, choices: seq<Choice>, choice: Choice) returns (longer: seq<Choice>)
    ensures longer == choices + [choice]
    ensures Run(server, calls, longer) == Step(server, Run(server, calls, choices), choice)
  {
    longer := choices + [choice];
    assert longer[..|choices|] == choices;
  }

  /** GitHub reports to a call that waits for it. */
  lemma ReadIt(
      server: Server, calls: seq<Call>, choices: seq<Choice>, w: World, id: nat, repository: string, now: int,
      who: Entity, visibility: string) returns (longer: seq<Choice>)
    requires At(server, calls, choices, w, id, Reading(who, 0, ""), None) && w.lock.None?
    requires calls[id].request.GitHub? && calls[id].request.github.repositories == [repository]
    ensures Told(w, Run(server, calls, longer), id, repository, now, who, visibility)
    ensures Extends(choices, longer, id, now)
  {
    var choice := Choice(id, now, Helpful(visibility));
    longer := OneMore(server, calls, choices, choice);
    ReadStep(server, w, Run(server, calls, choices), id, repository, choice, who, visibility);
  }

  /** From `w` to `w'` this call was told a visibility by GitHub. */
  ghost predicate Told(w: World, w': World, id: nat, repository: string, now: int, who: Entity, visibility: string) {
    && id < |w.tasks|
    && Comes(w, w', id, w.tasks[id].(pc := AwaitStore(who, 0, visibility)),
             Probed(id, repository, Success(visibility), now))
    && w'.cache == w.cache
  }

  /** A whole fetch, up to GitHub's report. */
  lemma Fetch(
      server: Server, calls: seq<Call>, choices: seq<Choice>, id: nat, repository: string, now: int,
      who: Entity, parsed: ParsedGitHubRequest, visibility: string) returns (longer: seq<Choice>)
    requires id < |calls| && Asks(server, calls[id], repository, now, who, parsed)
    requires CanFetch(Run(server, calls, choices), id, repository, now)
    ensures Told(Run(server, calls, choices), Run(server, calls, longer), id, repository, now, who, visibility)
    ensures Extends(choices, longer, id, now)
  {
    var w := Run(server, calls, choices);
    StartsCalm(w, id);
    var reading := Missing(server, calls, choices, w, id, repository, now, who, parsed, visibility);
    longer := ReadIt(server, calls, reading, w, id, repository, now, who, visibility);
    ExtendsTwice(choices, reading, longer, id, now);
  }

  ghost predicate CanFetch(w: World, id: nat, repository: string, now: int) {
    id < |w.tasks| && w.lock.None? && w.tasks[id].pc.Arrived? && Lookup(w.cache, repository, now).None?
  }

  lemma ReadStep(
      server: Server, w: World, w': World, id: nat, repository: string, choice: Choice, who: Entity, visibility: string)
    requires WorldOk(w') && w.lock.None? && w'.lock.None? && Calm(w, w', id, Reading(who, 0, ""))
    requires choice.id == id && choice.answer == Helpful(visibility)
    requires w.tasks[id].call.request.GitHub? && w.tasks[id].call.request.github.repositories == [repository]
    ensures Told(w, Step(server, w', choice), id, repository, choice.now, who, visibility)
  {
  }

  function Judges(task: Task, who: Entity, visibility: string): Task {
    Task(task.call, task.seen + [visibility], Judging(who, 0, visibility, 0))
  }

  /** From `w` to `w'` this call inserted a visibility and began to judge. */
  ghost predicate Inserts(
      w: World, w': World, id: nat, repository: string, who: Entity, visibility: string, now: int)
  {
    && id < |w.tasks|
    && Comes(w, w', id, Judges(w.tasks[id], who, visibility), Stored(id, repository, visibility, now))
    && w'.cache == Store(w.cache, repository, visibility, now)
    && |w'.trace| == |w.trace| + 1
  }

  /** The clock has not run backwards and reads at most this. */
  predicate Until(choices: seq<Choice>, now: int) {
    Steady(choices) && forall k | 0 <= k < |choices| :: choices[k].now <= now
  }

  lemma NowThen(choices: seq<Choice>, longer: seq<Choice>, id: nat, now: int, later: int)
    requires Until(choices, now) && now <= later && Extends(choices, longer, id, later)
    ensures Until(longer, later)
  {
  }

  /** The two actions of an insert. */
  lemma Insert(
      server: Server, calls: seq<Call>, choices: seq<Choice>, id: nat, repository: string, now: int,
      who: Entity, visibility: string) returns (longer: seq<Choice>)
    requires id < |calls| && calls[id].request.GitHub? && calls[id].request.github.repositories == [repository]
    requires var w := Run(server, calls, choices); w.lock.None? && w.tasks[id].pc == AwaitStore(who, 0, visibility)
    ensures Inserts(Run(server, calls, choices), Run(server, calls, longer), id, repository, who, visibility, now)
    ensures Extends(choices, longer, id, now)
  {
    var choice := Choice(id, now, Helpful(visibility));
    var held := choices + [choice];
    assert held[..|choices|] == choices;
    longer := held + [choice];
    assert longer[..|held|] == held;
  }

  lemma FetchLater(
      server: Server, calls: seq<Call>, choices: seq<Choice>, id: nat, repository: string, before: int, now: int,
      who: Entity, parsed: ParsedGitHubRequest, visibility: string) returns (longer: seq<Choice>, n: nat)
    requires id < |calls| && Asks(server, calls[id], repository, now, who, parsed)
    requires CanFetch(Run(server, calls, choices), id, repository, now)
    requires Until(choices, before) && before <= now
    ensures n + 1 == |Run(server, calls, longer).trace|
    ensures Told(Run(server, calls, choices), Run(server, calls, longer), id, repository, now, who, visibility)
    ensures Until(longer, now)
  {
    longer := Fetch(server, calls, choices, id, repository, now, who, parsed, visibility);
    NowThen(choices, longer, id, before, now);
    n := |Run(server, calls, longer).trace| - 1;
  }

  lemma InsertLater(
      server: Server, calls: seq<Call>, choices: seq<Choice>, id: nat, repository: string, before: int, now: int,
      who: Entity, visibility: string) returns (longer: seq<Choice>, n: nat)
    requires id < |calls| && calls[id].request.GitHub? && calls[id].request.github.repositories == [repository]
    requires CanInsert(Run(server, calls, choices), id, who, visibility)
    requires Until(choices, before) && before <= now
    ensures n + 1 == |Run(server, calls, longer).trace|
    ensures Inserts(Run(server, calls, choices), Run(server, calls, longer), id, repository, who, visibility, now)
    ensures Until(longer, now)
  {
    longer := Insert(server, calls, choices, id, repository, now, who, visibility);
    NowThen(choices, longer, id, before, now);
    n := |Run(server, calls, longer).trace| - 1;
  }

  ghost predicate CanInsert(w: World, id: nat, who: Entity, visibility: string) {
    id < |w.tasks| && w.lock.None? && w.tasks[id].pc == AwaitStore(who, 0, visibility)
  }

  /** A call that arrives and hits. */
  ghost predicate CanHit(w: World, id: nat, repository: string, now: int, visibility: string) {
    id < |w.tasks| && w.lock.None? && w.tasks[id].pc.Arrived? && Lookup(w.cache, repository, now) == Some(visibility)
  }

  /** From `w` to `w'` this call hit and began to judge. */
  ghost predicate Hits(w: World, w': World, id: nat, repository: string, now: int, who: Entity, visibility: string) {
    id < |w.tasks| && Comes(w, w', id, Judges(w.tasks[id], who, visibility), Hit(id, repository, visibility, now))
  }

  lemma HitIt(
      server: Server, calls: seq<Call>, choices: seq<Choice>, id: nat, repository: string, now: int,
      who: Entity, parsed: ParsedGitHubRequest, visibility: string) returns (longer: seq<Choice>)
    requires id < |calls| && Asks(server, calls[id], repository, now, who, parsed)
    requires CanHit(Run(server, calls, choices), id, repository, now, visibility)
    ensures Hits(Run(server, calls, choices), Run(server, calls, longer), id, repository, now, who, visibility)
    ensures Extends(choices, longer, id, now)
  {
    var w := Run(server, calls, choices);
    StartsCalm(w, id);
    var held := AskedSoFar(server, calls, choices, w, id, repository, now, who, parsed, visibility);
    longer := HitHeld(server, calls, held, w, id, repository, now, who, visibility);
    ExtendsTwice(choices, held, longer, id, now);
  }

  lemma HitHeld(
      server: Server, calls: seq<Call>, choices: seq<Choice>, w: World, id: nat, repository: string, now: int,
      who: Entity, visibility: string) returns (longer: seq<Choice>)
    requires At(server, calls, choices, w, id, HoldCheck(who, 0), Some(id)) && w.lock.None?
    requires calls[id].request.GitHub? && calls[id].request.github.repositories == [repository]
    requires Lookup(w.cache, repository, now) == Some(visibility)
    ensures Hits(w, Run(server, calls, longer), id, repository, now, who, visibility)
    ensures Extends(choices, longer, id, now)
  {
    var choice := Choice(id, now, Helpful(visibility));
    longer := OneMore(server, calls, choices, choice);
    HitStep(server, w, Run(server, calls, choices), id, repository, choice, who, visibility);
  }

  lemma HitStep(
      server: Server, w: World, w': World, id: nat, repository: string, choice: Choice, who: Entity, visibility: string)
    requires WorldOk(w') && w.lock.None? && w'.lock == Some(id) && Calm(w, w', id, HoldCheck(who, 0))
    requires choice.id == id && Lookup(w.cache, repository, choice.now) == Some(visibility)
    requires w.tasks[id].call.request.GitHub? && w.tasks[id].call.request.github.repositories == [repository]
    ensures Hits(w, Step(server, w', choice), id, repository, choice.now, who, visibility)
  {
  }

  lemma HitLater(
      server: Server, calls: seq<Call>, choices: seq<Choice>, id: nat, repository: string, before: int, now: int,
      who: Entity, parsed: ParsedGitHubRequest, visibility: string) returns (longer: seq<Choice>, n: nat)
    requires id < |calls| && Asks(server, calls[id], repository, now, who, parsed)
    requires CanHit(Run(server, calls, choices), id, repository, now, visibility)
    requires Until(choices, before) && before <= now
    ensures n + 1 == |Run(server, calls, longer).trace|
    ensures Hits(Run(server, calls, choices), Run(server, calls, longer), id, repository, now, who, visibility)
    ensures Until(longer, now)
  {
    longer := HitIt(server, calls, choices, id, repository, now, who, parsed, visibility);
    NowThen(choices, longer, id, before, now);
    n := |Run(server, calls, longer).trace| - 1;
  }

  /***** The run *****/

  /** Two calls fetch, the second inserts, then the first, and a third one hits. */
  ghost predicate Overlap(
      trace: seq<Event>, repository: string, k: nat, q: nat, s: nat, m: nat, n: nat, late: int, hit: int)
  {
    && k < q < s < m < n < |trace|
    && trace[k] == Probed(0, repository, Success("public"), 0)
    && trace[q] == Probed(1, repository, Success("private"), 0)
    && trace[s] == Stored(1, repository, "private", 0)
    && trace[m] == Stored(0, repository, "public", late)
    && trace[n] == Hit(2, repository, "public", hit)
    && (forall i | k < i < m :: trace[i].call != 0)
    && forall i | m < i < n :: !trace[i].Stored?
  }

  lemma {:induction false} LastFetchIs(trace: seq<Event>, id: nat, k: nat)
    requires k < |trace| && Fetches(trace[k], id) && forall i | k < i < |trace| :: trace[i].call != id
    ensures LastFetch(trace, id) == Some(k)
  {
    LastFetchIsLast(trace, id, k);
  }

  lemma OverlapHasOrigin(
      trace: seq<Event>, repository: string, k: nat, q: nat, s: nat, m: nat, n: nat, late: int, hit: int)
    requires Overlap(trace, repository, k, q, s, m, n, late, hit)
    ensures Origin(trace, n, m, k)
  {
    LastFetchIs(trace[..m], 0, k);
  }

  /** Of three calls the first two ask for the same repository at clock 0. */
  predicate TwoAsk(server: Server, calls: seq<Call>, repository: string, who: Entity, parsed: ParsedGitHubRequest) {
    && |calls| == 3
    && Asks(server, calls[0], repository, 0, who, parsed)
    && Asks(server, calls[1], repository, 0, who, parsed)
  }

  /** The first call was told `public` and has not inserted it. */
  ghost predicate OneTold(w: World, repository: string, who: Entity, k: nat) {
    && |w.tasks| == 3 && w.lock.None? && w.cache == map[]
    && w.tasks[0].pc == AwaitStore(who, 0, "public")
    && w.tasks[1].pc.Arrived? && w.tasks[2].pc.Arrived?
    && k + 1 == |w.trace| && w.trace[k] == Probed(0, repository, Success("public"), 0)
  }

  /** The second call was told `private` since. */
  ghost predicate BothTold(w: World, repository: string, who: Entity, k: nat, q: nat) {
    && |w.tasks| == 3 && w.lock.None?
    && w.tasks[0].pc == AwaitStore(who, 0, "public")
    && w.tasks[1].pc == AwaitStore(who, 0, "private") && w.tasks[2].pc.Arrived?
    && k < q && q + 1 == |w.trace|
    && w.trace[k] == Probed(0, repository, Success("public"), 0)
    && w.trace[q] == Probed(1, repository, Success("private"), 0)
    && forall i | k < i < |w.trace| :: w.trace[i].call != 0
  }

  /** And has inserted what it was told. */
  ghost predicate OneStored(w: World, repository: string, who: Entity, k: nat, q: nat, s: nat) {
    && |w.tasks| == 3 && w.lock.None?
    && w.tasks[0].pc == AwaitStore(who, 0, "public") && w.tasks[2].pc.Arrived?
    && k < q < s && s + 1 == |w.trace|
    && w.trace[k] == Probed(0, repository, Success("public"), 0)
    && w.trace[q] == Probed(1, repository, Success("private"), 0)
    && w.trace[s] == Stored(1, repository, "private", 0)
    && forall i | k < i < |w.trace| :: w.trace[i].call != 0
  }

  /** Then the first call has inserted what it was told before. */
  ghost predicate BothStored(w: World, repository: string, k: nat, q: nat, s: nat, m: nat, late: int) {
    && |w.tasks| == 3 && w.lock.None? && w.tasks[2].pc.Arrived?
    && repository in w.cache && w.cache[repository] == CachedVisibility("public", late + HOUR)
    && k < q < s < m && m + 1 == |w.trace|
    && w.trace[k] == Probed(0, repository, Success("public"), 0)
    && w.trace[q] == Probed(1, repository, Success("private"), 0)
    && w.trace[s] == Stored(1, repository, "private", 0)
    && w.trace[m] == Stored(0, repository, "public", late)
    && forall i | k < i < m :: w.trace[i].call != 0
  }

  lemma TellOne(server: Server, calls: seq<Call>, repository: string, who: Entity, parsed: ParsedGitHubRequest)
      returns (choices: seq<Choice>, k: nat)
    requires TwoAsk(server, calls, repository, who, parsed)
    ensures OneTold(Run(server, calls, choices), repository, who, k)
    ensures Until(choices, 0)
  {
    choices, k := FetchLater(server, calls, [], 0, repository, 0, 0, who, parsed, "public");
    ToldFirst(calls, Run(server, calls, choices), repository, who, k);
  }

  lemma ToldFirst(calls: seq<Call>, w: World, repository: string, who: Entity, k: nat)
    requires |calls| == 3 && Told(Start(calls), w, 0, repository, 0, who, "public") && k + 1 == |w.trace|
    ensures OneTold(w, repository, who, k)
  {
  }

  lemma OtherCanFetch(w: World, repository: string, who: Entity, k: nat)
    requires OneTold(w, repository, who, k)
    ensures CanFetch(w, 1, repository, 0)
  {
  }

  lemma TellOther(w: World, w': World, repository: string, who: Entity, k: nat, q: nat)
    requires OneTold(w, repository, who, k) && Told(w, w', 1, repository, 0, who, "private")
    requires q + 1 == |w'.trace|
    ensures BothTold(w', repository, who, k, q)
  {
  }

  lemma StoreOther(w: World, w': World, repository: string, who: Entity, k: nat, q: nat, s: nat)
    requires BothTold(w, repository, who, k, q) && Inserts(w, w', 1, repository, who, "private", 0)
    requires s + 1 == |w'.trace|
    ensures OneStored(w', repository, who, k, q, s)
  {
  }

  lemma StoreOne(w: World, w': World, repository: string, who: Entity, k: nat, q: nat, s: nat, m: nat, late: int)
    requires OneStored(w, repository, who, k, q, s) && Inserts(w, w', 0, repository, who, "public", late)
    requires m + 1 == |w'.trace|
    ensures BothStored(w', repository, k, q, s, m, late)
  {
  }

  lemma ThirdCanHit(w: World, repository: string, k: nat, q: nat, s: nat, m: nat, late: int, hit: int)
    requires BothStored(w, repository, k, q, s, m, late) && hit <= late + HOUR
    ensures CanHit(w, 2, repository, hit, "public")
  {
  }

  lemma HitOther(
      w: World, w': World, repository: string, who: Entity, k: nat, q: nat, s: nat, m: nat, n: nat, late: int, hit: int)
    requires BothStored(w, repository, k, q, s, m, late) && Hits(w, w', 2, repository, hit, who, "public")
    requires n + 1 == |w'.trace|
    ensures Overlap(w'.trace, repository, k, q, s, m, n, late, hit)
  {
  }

  lemma ThenTell(
      server: Server, calls: seq<Call>, choices: seq<Choice>, repository: string, who: Entity,
      parsed: ParsedGitHubRequest, k: nat) returns (longer: seq<Choice>, q: nat)
    requires |calls| == 3 && Asks(server, calls[1], repository, 0, who, parsed)
    requires OneTold(Run(server, calls, choices), repository, who, k)
    requires Until(choices, 0)
    ensures BothTold(Run(server, calls, longer), repository, who, k, q)
    ensures Until(longer, 0)
  {
    OtherCanFetch(Run(server, calls, choices), repository, who, k);
    longer, q := FetchLater(server, calls, choices, 1, repository, 0, 0, who, parsed, "private");
    TellOther(Run(server, calls, choices), Run(server, calls, longer), repository, who, k, q);
  }

  lemma OtherCanInsert(w: World, repository: string, who: Entity, k: nat, q: nat)
    requires BothTold(w, repository, who, k, q)
    ensures CanInsert(w, 1, who, "private")
  {
  }

  lemma OneCanInsert(w: World, repository: string, who: Entity, k: nat, q: nat, s: nat)
    requires OneStored(w, repository, who, k, q, s)
    ensures CanInsert(w, 0, who, "public")
  {
  }

  lemma ThenStoreOther(
      server: Server, calls: seq<Call>, choices: seq<Choice>, repository: string, who: Entity, k: nat, q: nat)
      returns (longer: seq<Choice>, s: nat)
    requires |calls| == 3 && calls[1].request.GitHub? && calls[1].request.github.repositories == [repository]
    requires BothTold(Run(server, calls, choices), repository, who, k, q)
    requires Until(choices, 0)
    ensures OneStored(Run(server, calls, longer), repository, who, k, q, s)
    ensures Until(longer, 0)
  {
    OtherCanInsert(Run(server, calls, choices), repository, who, k, q);
    longer, s := InsertLater(server, calls, choices, 1, repository, 0, 0, who, "private");
    StoreOther(Run(server, calls, choices), Run(server, calls, longer), repository, who, k, q, s);
  }

  lemma ThenStore(
      server: Server, calls: seq<Call>, choices: seq<Choice>, repository: string, who: Entity, k: nat, q: nat, s: nat,
      late: nat) returns (longer: seq<Choice>, m: nat)
    requires |calls| == 3 && calls[0].request.GitHub? && calls[0].request.github.repositories == [repository]
    requires OneStored(Run(server, calls, choices), repository, who, k, q, s)
    requires Until(choices, 0)
    ensures BothStored(Run(server, calls, longer), repository, k, q, s, m, late)
    ensures Until(longer, late)
  {
    OneCanInsert(Run(server, calls, choices), repository, who, k, q, s);
    longer, m := InsertLater(server, calls, choices, 0, repository, 0, late, who, "public");
    StoreOne(Run(server, calls, choices), Run(server, calls, longer), repository, who, k, q, s, m, late);
  }

  lemma ThenHit(
      server: Server, calls: seq<Call>, choices: seq<Choice>, repository: string, who: Entity,
      parsed: ParsedGitHubRequest, k: nat, q: nat, s: nat, m: nat, late: nat, hit: nat)
      returns (longer: seq<Choice>, n: nat)
    requires |calls| == 3 && Asks(server, calls[2], repository, hit, who, parsed) && late <= hit <= late + HOUR
    requires BothStored(Run(server, calls, choices), repository, k, q, s, m, late)
    requires Until(choices, late)
    ensures Overlap(Run(server, calls, longer).trace, repository, k, q, s, m, n, late, hit)
    ensures Until(longer, hit)
  {
    ThirdCanHit(Run(server, calls, choices), repository, k, q, s, m, late, hit);
    longer, n := HitLater(server, calls, choices, 2, repository, late, hit, who, parsed, "public");
    HitOther(Run(server, calls, choices), Run(server, calls, longer), repository, who, k, q, s, m, n, late, hit);
  }

  lemma TellBoth(server: Server, calls: seq<Call>, repository: string, who: Entity, parsed: ParsedGitHubRequest)
      returns (choices: seq<Choice>, k: nat, q: nat)
    requires TwoAsk(server, calls, repository, who, parsed)
    ensures BothTold(Run(server, calls, choices), repository, who, k, q)
    ensures Until(choices, 0)
  {
    var told;
    told, k := TellOne(server, calls, repository, who, parsed);
    choices, q := ThenTell(server, calls, told, repository, who, parsed, k);
  }

  lemma InsertOther(server: Server, calls: seq<Call>, repository: string, who: Entity, parsed: ParsedGitHubRequest)
      returns (choices: seq<Choice>, k: nat, q: nat, s: nat)
    requires TwoAsk(server, calls, repository, who, parsed)
    ensures OneStored(Run(server, calls, choices), repository, who, k, q, s)
    ensures Until(choices, 0)
  {
    var told;
    told, k, q := TellBoth(server, calls, repository, who, parsed);
    choices, s := ThenStoreOther(server, calls, told, repository, who, k, q);
  }

  lemma InsertBoth(
      server: Server, calls: seq<Call>, repository: string, who: Entity, parsed: ParsedGitHubRequest, late: nat)
      returns (choices: seq<Choice>, k: nat, q: nat, s: nat, m: nat)
    requires TwoAsk(server, calls, repository, who, parsed)
    ensures BothStored(Run(server, calls, choices), repository, k, q, s, m, late)
    ensures Until(choices, late)
  {
    var stored;
    stored, k, q, s := InsertOther(server, calls, repository, who, parsed);
    choices, m := ThenStore(server, calls, stored, repository, who, k, q, s, late);
  }

  lemma Overlapping(
      server: Server, calls: seq<Call>, repository: string, who: Entity, parsed: ParsedGitHubRequest,
      late: nat, hit: nat)
      returns (choices: seq<Choice>, k: nat, q: nat, s: nat, m: nat, n: nat)
    requires TwoAsk(server, calls, repository, who, parsed) && late <= hit <= late + HOUR
    requires Asks(server, calls[2], repository, hit, who, parsed)
    ensures Until(choices, hit)
    ensures Overlap(Run(server, calls, choices).trace, repository, k, q, s, m, n, late, hit)
  {
    var stored;
    stored, k, q, s, m := InsertBoth(server, calls, repository, who, parsed, late);
    choices, n := ThenHit(server, calls, stored, repository, who, parsed, k, q, s, m, late, hit);
  }

  /***** A server and calls to which all this applies *****/

  const EVERYONE := ResolvedOidcConfig("issuer", [Jwk(Some("key"), Some(Signing(RS256)), "", true)])

  /** Clock values count nanoseconds, expiry claims seconds. */
  const SECOND := 1_000_000_000

  /** The payload of a token for this audience with this expiry. */
  function Payload(exp: int): map<string, Json> {
    map["iss" := Text("issuer"), "aud" := Text("oidcx"), "exp" := Integer(exp), "jti" := Text("run")]
  }

  function Token(exp: int): Jwt {
    Jwt(Some(Header(RS256, Some("key"))), Some(Payload(exp)), "")
  }

  /** The token carries an expiry and it has not passed. */
  predicate Unexpired(token: Jwt, now: int) {
    && token.payload.Some? && "exp" in token.payload.value && token.payload.value["exp"].Integer?
    && now <= token.payload.value["exp"].value * SECOND
  }

  /** A server that trusts every signature, rejects expired tokens and allows everything. */
  function Permissive(): Server {
    Server("oidcx", [EVERYONE], (now: int) => (token: Jwt, key: Jwk) => Unexpired(token, now),
           (principal: Entity, action: string, resource: Entity) => true, true, None)
  }

  const RUN := Entity(EntityUid(WorkflowRun, "run"), WorkflowRunAttributes(ClaimsOf(Payload(0))))

  lemma EveryoneIsProvider()
    ensures ProviderMap(Permissive().providers) == map["issuer" := EVERYONE]
  {
    assert Permissive().providers[..0] == [];
  }

  lemma EveryoneValidates(exp: int, genuine: Genuine)
    requires genuine(Token(exp), EVERYONE.jwks[0])
    ensures Validate(EVERYONE, "oidcx", Token(exp), genuine) == Success(ClaimsOf(Payload(exp)))
  {
    assert FindKey(EVERYONE.jwks, "key") == Some(EVERYONE.jwks[0]);
  }

  /** Expiries are numbers, so no text claim depends on them. */
  lemma SameTexts(exp: int, key: string)
    ensures ClaimsOf(Payload(exp)).GetStr(key) == ClaimsOf(Payload(0)).GetStr(key)
  {
    if key in Payload(exp) {
      assert key in ClaimsOf(Payload(exp)).claims && key in ClaimsOf(Payload(0)).claims;
    }
  }

  lemma SamePrincipal(claims: Claims, others: Claims)
    requires forall key :: claims.GetStr(key) == others.GetStr(key)
    ensures WorkflowRunEntity(claims) == WorkflowRunEntity(others)
  {
  }

  /** The expiry is no attribute of the principal. */
  lemma RunIsPrincipal(exp: int)
    ensures WorkflowRunEntity(ClaimsOf(Payload(exp))) == Success(RUN)
  {
    forall key ensures ClaimsOf(Payload(exp)).GetStr(key) == ClaimsOf(Payload(0)).GetStr(key) {
      SameTexts(exp, key);
    }
    SamePrincipal(ClaimsOf(Payload(exp)), ClaimsOf(Payload(0)));
  }

  lemma PermissiveAuthenticates(exp: int, now: int)
    requires now <= exp * SECOND
    ensures Authenticate(Permissive(), Token(exp), now) == Success(RUN)
  {
    EveryoneIsProvider();
    EveryoneValidates(exp, Permissive().genuine(now));
    RunIsPrincipal(exp);
  }

  const PROBE := ParsedGitHubRequest("org", ["repo"], map["metadata" := "read"])

  lemma ProbeOfExampleParses()
    ensures Parse(GitHubTokenRequest(["org/repo"], [PROBE_PERMISSION])) == Success(PROBE)
  {
    assert JoinRepository("org", "repo") == "org/repo" && JoinPermission("metadata", "read") == PROBE_PERMISSION;
    var printed := Print(PROBE, ["metadata"]);
    assert printed.repositories == [printed.repositories[0]] == ["org/repo"];
    assert printed.permissions == [printed.permissions[0]] == [PROBE_PERMISSION];
    ParseUndoesPrint(PROBE, ["metadata"]);
  }

  const REQUEST := GitHub(GitHubTokenRequest(["org/repo"], ["contents:read"]))

  /** Two calls with tokens that expire five minutes after clock 0, one with a token that expires five
      minutes after it hits. */
  function Example(hit: nat): seq<Call> {
    [Call(Token(300), REQUEST), Call(Token(300), REQUEST), Call(Token(hit / SECOND + 300), REQUEST)]
  }

  lemma ExampleAsks(hit: nat)
    ensures TwoAsk(Permissive(), Example(hit), "org/repo", RUN, PROBE)
    ensures Asks(Permissive(), Example(hit)[2], "org/repo", hit, RUN, PROBE)
  {
    ProbeOfExampleParses();
    PermissiveAuthenticates(300, 0);
    PermissiveAuthenticates(hit / SECOND + 300, hit);
  }

  /** A hit at `n` returns the report at `k`, older than `age`, although another call was told otherwise
      at `q` and had inserted that at `s`. */
  ghost predicate Stale(trace: seq<Event>, k: nat, q: nat, s: nat, m: nat, n: nat, age: nat) {
    && Origin(trace, n, m, k) && trace[n].at - trace[k].at > age
    && k < q < s < m && Reports(trace[q], trace[n].repository)
    && trace[q].call != trace[k].call && trace[q].answer != trace[k].answer
    && trace[s].Stored? && trace[s].repository == trace[n].repository
    && trace[q].answer == Success(trace[s].visibility)
    && !Newest(trace, n, k)
  }

  /** No token passes its signature check once it has expired. */
  ghost predicate HeedsExpiry(server: Server) {
    forall now: int, token, key :: server.genuine(now)(token, key) ==> Unexpired(token, now)
  }

  /** For every age, some run of a server that heeds expiry hits an older report, although another call
      was told otherwise since and had even inserted what it was told. */
  lemma HitsCanBeArbitrarilyStale(age: nat)
      returns (server: Server, calls: seq<Call>, choices: seq<Choice>, k: nat, q: nat, s: nat, m: nat, n: nat)
    ensures HeedsExpiry(server) && Steady(choices)
    ensures Stale(Run(server, calls, choices).trace, k, q, s, m, n, age)
  {
    server, calls := Permissive(), Example(age + 1);
    ExampleAsks(age + 1);
    choices, k, q, s, m, n := SomeHitIsStale(server, calls, "org/repo", RUN, PROBE, age);
  }

  lemma SomeHitIsStale(
      server: Server, calls: seq<Call>, repository: string, who: Entity, parsed: ParsedGitHubRequest, age: nat)
      returns (choices: seq<Choice>, k: nat, q: nat, s: nat, m: nat, n: nat)
    requires TwoAsk(server, calls, repository, who, parsed)
    requires Asks(server, calls[2], repository, age + 1, who, parsed)
    ensures Steady(choices)
    ensures Stale(Run(server, calls, choices).trace, k, q, s, m, n, age)
  {
    choices, k, q, s, m, n := Overlapping(server, calls, repository, who, parsed, age + 1, age + 1);
    OverlapIsStale(Run(server, calls, choices).trace, repository, k, q, s, m, n, age);
  }

  lemma OverlapIsStale(
      trace: seq<Event>, repository: string, k: nat, q: nat, s: nat, m: nat, n: nat, age: nat)
    requires Overlap(trace, repository, k, q, s, m, n, age + 1, age + 1)
    ensures Stale(trace, k, q, s, m, n, age)
  {
    OverlapHasOrigin(trace, repository, k, q, s, m, n, age + 1, age + 1);
  }
}
