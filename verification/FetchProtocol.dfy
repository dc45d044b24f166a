/** Where each call stands in the check, fetch and insert protocol of the visibility cache. */
module FetchProtocol {

  import opened Wrappers
  import opened Exchange
  import opened ExchangeActions
  import opened Policy
  import opened Records

  /***** The fetches of one call *****/

  /** An event of the call's own check, fetch and insert protocol. */
  predicate Fetches(event: Event, id: nat) {
    event.call == id && (event.Miss? || event.Probed? || event.Stored?)
  }

  /** The call's latest such event. */
  function LastFetch(trace: seq<Event>, id: nat): (k: Option<nat>)
    ensures k.Some? ==> k.value < |trace| && Fetches(trace[k.value], id)
  {
    if trace == [] then None
    else if Fetches(trace[|trace| - 1], id) then Some(|trace| - 1)
    else LastFetch(trace[..|trace| - 1], id)
  }

  lemma {:induction false} LastFetchIsLast(trace: seq<Event>, id: nat, n: nat)
    requires n < |trace| && Fetches(trace[n], id)
    ensures LastFetch(trace, id).Some? && n <= LastFetch(trace, id).value
  {
    if !Fetches(trace[|trace| - 1], id) {
      LastFetchIsLast(trace[..|trace| - 1], id, n);
    }
  }

  lemma {:induction false} LastFetchStays(trace: seq<Event>, events: seq<Event>, id: nat)
    requires forall e | e in events :: !Fetches(e, id)
    ensures LastFetch(trace + events, id) == LastFetch(trace, id)
  {
    if events == [] {
      assert trace + events == trace;
    } else {
      var init := events[..|events| - 1];
      assert (trace + events)[..|trace + events| - 1] == trace + init;
      assert events[|events| - 1] in events;
      LastFetchStays(trace, init, id);
    }
  }

  lemma LastFetchMoves(trace: seq<Event>, event: Event, id: nat)
    requires Fetches(event, id)
    ensures LastFetch(trace + [event], id) == Some(|trace|)
  {
    assert (trace + [event])[|trace|] == event;
  }

  /** The call's latest step of the protocol was a miss of this repository. */
  predicate HasMissed(trace: seq<Event>, id: nat, repository: string) {
    var k := LastFetch(trace, id);
    k.Some? && trace[k.value].Miss? && trace[k.value].repository == repository
  }

  /** The call's latest step of the protocol was GitHub's report of this visibility. */
  predicate HasReport(trace: seq<Event>, id: nat, repository: string, visibility: string) {
    var k := LastFetch(trace, id);
    && k.Some? && Reports(trace[k.value], repository)
    && trace[k.value].answer == Success(visibility)
  }

  /** GitHub reported a visibility of this repository. */
  predicate Reports(event: Event, repository: string) {
    event.Probed? && event.repository == repository && event.answer.Success?
  }

  /** Where a call stands in the protocol. */
  predicate FetchPoint(trace: seq<Event>, id: nat, task: Task)
    requires PcOk(task.call.request, task.pc)
  {
    match task.pc
    case Getting(_, Probe(i), _) => HasMissed(trace, id, task.call.request.github.repositories[i])
    case Reading(_, i, _) => HasMissed(trace, id, task.call.request.github.repositories[i])
    case AwaitStore(_, i, visibility) => HasReport(trace, id, task.call.request.github.repositories[i], visibility)
    case HoldStore(_, i, visibility) => HasReport(trace, id, task.call.request.github.repositories[i], visibility)
    case _ => true
  }

  lemma FetchPointFrame(trace: seq<Event>, events: seq<Event>, id: nat, task: Task)
    requires PcOk(task.call.request, task.pc) && FetchPoint(trace, id, task)
    requires forall e | e in events :: !Fetches(e, id)
    ensures FetchPoint(trace + events, id, task)
  {
    LastFetchStays(trace, events, id);
  }

  lemma GetFetches(server: Server, id: nat, task: Task, cache: Cache, now: int, answer: Answer, trace: seq<Event>)
    requires PcOk(task.call.request, task.pc) && task.pc.Getting? && FetchPoint(trace, id, task)
    ensures var effect := Get(server, id, task, cache, now, answer);
            FetchPoint(trace + effect.events, id, After(task, effect))
  {
    var effect := Get(server, id, task, cache, now, answer);
    if effect.pc.Getting? || effect.pc.Reading? {
      assert forall e | e in effect.events :: !Fetches(e, id);
      LastFetchStays(trace, effect.events, id);
    }
  }

  lemma CheckFetches(id: nat, task: Task, cache: Cache, now: int, trace: seq<Event>)
    requires PcOk(task.call.request, task.pc) && task.pc.HoldCheck?
    ensures var effect := Check(id, task, cache, now);
            FetchPoint(trace + effect.events, id, After(task, effect))
  {
    var effect := Check(id, task, cache, now);
    if effect.pc.Getting? {
      LastFetchMoves(trace, effect.events[0], id);
    }
  }

  lemma ReadFetches(id: nat, task: Task, cache: Cache, now: int, answer: Answer, trace: seq<Event>)
    requires PcOk(task.call.request, task.pc) && task.pc.Reading?
    ensures var effect := Read(id, task, cache, now, answer);
            FetchPoint(trace + effect.events, id, After(task, effect))
  {
    var effect := Read(id, task, cache, now, answer);
    if effect.pc.AwaitStore? {
      LastFetchMoves(trace, effect.events[0], id);
    }
  }

  /** The other actions lead out of the protocol, or never into it. */
  lemma OtherFetches(server: Server, id: nat, task: Task, cache: Cache, now: int, answer: Answer, trace: seq<Event>)
    requires PcOk(task.call.request, task.pc)
    requires !task.pc.HoldCheck? && !task.pc.Getting? && !task.pc.Reading? && !task.pc.AwaitStore?
    ensures FetchPoint(trace, id, After(task, Act(server, id, task, cache, now, answer)))
  {
  }

  lemma ActFetches(server: Server, id: nat, task: Task, cache: Cache, now: int, answer: Answer, trace: seq<Event>)
    requires PcOk(task.call.request, task.pc) && FetchPoint(trace, id, task)
    ensures var effect := Act(server, id, task, cache, now, answer);
            FetchPoint(trace + effect.events, id, After(task, effect))
  {
    match task.pc {
      case HoldCheck(_, _) => CheckFetches(id, task, cache, now, trace);
      case Getting(_, _, _) => GetFetches(server, id, task, cache, now, answer, trace);
      case Reading(_, _, _) => ReadFetches(id, task, cache, now, answer, trace);
      case AwaitStore(_, _, _) => assert trace + [] == trace;
      case _ =>
        var effect := Act(server, id, task, cache, now, answer);
        OtherFetches(server, id, task, cache, now, answer, trace + effect.events);
    }
  }

  /** In every reachable state, every call stands in the protocol where its program point says. */
  lemma {:induction false} RunFetches(server: Server, calls: seq<Call>, choices: seq<Choice>, id: nat)
    requires id < |calls|
    ensures var w := Run(server, calls, choices); FetchPoint(w.trace, id, w.tasks[id])
  {
    if choices != [] {
      var last := |choices| - 1;
      var choice := choices[last];
      var w := Run(server, calls, choices[..last]);
      RunFetches(server, calls, choices[..last], id);
      if Enabled(w, choice.id) {
        var task := w.tasks[choice.id];
        if choice.id == id {
          ActFetches(server, id, task, w.cache, choice.now, choice.answer, w.trace);
        } else {
          ActRecords(server, choice.id, task, w.cache, choice.now, choice.answer);
          FetchPointFrame(w.trace, Act(server, choice.id, task, w.cache, choice.now, choice.answer).events,
                          id, w.tasks[id]);
        }
      }
    }
  }
}
