/**
 * How fresh cached visibilities are, when the clock never runs backwards, over all interleavings and
 * whatever GitHub reports.
 */
module Freshness {

  import opened Wrappers
  import opened Exchange
  import opened ExchangeInvariant
  import opened ExchangeSafety
  import opened ExchangeSteps
  import opened Policy
  import opened Records

  /***** Time in a trace *****/

  predicate Steady(choices: seq<Choice>) {
    forall i, k | 0 <= i < k < |choices| :: choices[i].now <= choices[k].now
  }

  predicate Timed(event: Event) {
    || event.Authenticated? || event.TurnedAway? || event.Hit? || event.Miss? || event.Probed? || event.Stored?
  }

  /** Timed events stand in the order of their clock values, none later than `bound`. */
  ghost predicate InOrder(trace: seq<Event>, bound: int) {
    && (forall n | 0 <= n < |trace| && Timed(trace[n]) :: trace[n].at <= bound)
    && forall m, n | 0 <= m < n < |trace| && Timed(trace[m]) && Timed(trace[n]) :: trace[m].at <= trace[n].at
  }

  lemma InOrderAppend(trace: seq<Event>, events: seq<Event>, bound: int, now: int)
    requires InOrder(trace, bound) && bound <= now
    requires forall e | e in events && Timed(e) :: e.at == now
    ensures InOrder(trace + events, now)
  {
    var longer := trace + events;
    forall n | 0 <= n < |longer| && Timed(longer[n])
      ensures longer[n].at <= now && (n >= |trace| ==> longer[n].at == now)
    {
      assert n >= |trace| ==> longer[n] in events;
    }
  }

  lemma {:induction false} RunInOrder(server: Server, calls: seq<Call>, choices: seq<Choice>, bound: int)
    requires Steady(choices)
    requires choices != [] ==> choices[|choices| - 1].now <= bound
    ensures InOrder(Run(server, calls, choices).trace, bound)
  {
    if choices != [] {
      var last := |choices| - 1;
      var choice := choices[last];
      RunInOrder(server, calls, choices[..last], choice.now);
      var w := Run(server, calls, choices[..last]);
      if Enabled(w, choice.id) {
        var task := w.tasks[choice.id];
        ActRecords(server, choice.id, task, w.cache, choice.now, choice.answer);
        InOrderAppend(w.trace, Act(server, choice.id, task, w.cache, choice.now, choice.answer).events,
                      choice.now, choice.now);
      }
    }
  }

  /***** What the cache holds *****/

  /** Event `m` is the last store for the repository. */
  predicate LastStore(trace: seq<Event>, repository: string, m: nat) {
    && m < |trace| && trace[m].Stored? && trace[m].repository == repository
    && forall k | m < k < |trace| :: !(trace[k].Stored? && trace[k].repository == repository)
  }

  /** The cache holds what the last store put there, for every repository ever stored and no other. */
  lemma {:induction false} CacheHoldsLastStores(trace: seq<Event>, repository: string)
    ensures repository in CacheOf(trace) <==> exists m: nat :: LastStore(trace, repository, m)
    ensures forall m: nat | LastStore(trace, repository, m) ::
              && repository in CacheOf(trace)
              && CacheOf(trace)[repository] == CachedVisibility(trace[m].visibility, trace[m].at + 3600 * 1_000_000_000)
    ensures repository !in CacheOf(trace) ==>
              forall k | 0 <= k < |trace| :: !(trace[k].Stored? && trace[k].repository == repository)
  {
    if trace != [] {
      var last := |trace| - 1;
      var init := trace[..last];
      CacheHoldsLastStores(init, repository);
      if trace[last].Stored? && trace[last].repository == repository {
        assert LastStore(trace, repository, last);
      } else {
        forall m: nat
          ensures LastStore(trace, repository, m) <==> LastStore(init, repository, m)
        {
        }
      }
    }
  }

  /***** The guarantees *****/

  /** Every cache hit returns a visibility that some call stored for this very repository at most an
      hour earlier, the latest one stored, after GitHub had reported it to that call. */
  lemma HitsAreFresh(server: Server, calls: seq<Call>, choices: seq<Choice>, n: nat)
    requires Steady(choices)
    requires var trace := Run(server, calls, choices).trace; n < |trace| && trace[n].Hit?
    ensures var trace := Run(server, calls, choices).trace;
            var Hit(_, repository, visibility, at) := trace[n];
            exists m: nat, k: nat ::
              && k < m < n
              && LastStore(trace[..n], repository, m) && trace[m].visibility == visibility
              && at - 3600 * 1_000_000_000 <= trace[m].at <= at
              && trace[k].Probed? && trace[k].call == trace[m].call
              && trace[k].repository == repository && trace[k].answer == Success(visibility)
              && trace[k].at <= trace[m].at
  {
    var trace := Run(server, calls, choices).trace;
    var Hit(_, repository, visibility, at) := trace[n];
    EventIsJustified(server, calls, choices, n);
    CacheHoldsLastStores(trace[..n], repository);
    var m: nat :| LastStore(trace[..n], repository, m);
    EventIsJustified(server, calls, choices, m);
    assert FetchedBefore(trace[..m], trace[m].call, repository, visibility);
    var t :| Probed(trace[m].call, repository, Success(visibility), t) in trace[..m];
    var k: nat :| k < m && trace[k] == Probed(trace[m].call, repository, Success(visibility), t);
    var bound := if choices == [] then 0 else choices[|choices| - 1].now;
    RunInOrder(server, calls, choices, bound);
    assert trace[..n][m] == trace[m];
  }

  /** A call asks GitHub only when nothing was stored for the repository within the last hour. */
  lemma MissesAreNecessary(server: Server, calls: seq<Call>, choices: seq<Choice>, n: nat, m: nat)
    requires Steady(choices)
    requires var trace := Run(server, calls, choices).trace;
             && m < n < |trace| && trace[n].Miss?
             && trace[m].Stored? && trace[m].repository == trace[n].repository
    ensures var trace := Run(server, calls, choices).trace; trace[m].at + 3600 * 1_000_000_000 < trace[n].at
  {
    var trace := Run(server, calls, choices).trace;
    var repository := trace[n].repository;
    EventIsJustified(server, calls, choices, n);
    CacheHoldsLastStores(trace[..n], repository);
    assert trace[..n][m] == trace[m];
    var last: nat :| LastStore(trace[..n], repository, last);
    assert trace[..n][last] == trace[last];
    var bound := if choices == [] then 0 else choices[|choices| - 1].now;
    RunInOrder(server, calls, choices, bound);
    assert m <= last;
  }

  /** Entries are never removed, and an entry never gets to expire earlier than it did. */
  lemma {:induction false} EntriesOnlyImprove(trace: seq<Event>, m: nat, bound: int, repository: string)
    requires InOrder(trace, bound) && m <= |trace| && repository in CacheOf(trace[..m])
    ensures repository in CacheOf(trace)
    ensures CacheOf(trace[..m])[repository].expiresAt <= CacheOf(trace)[repository].expiresAt
  {
    CacheHoldsLastStores(trace[..m], repository);
    CacheHoldsLastStores(trace, repository);
    var a: nat :| LastStore(trace[..m], repository, a);
    assert trace[a] == trace[..m][a];
    assert trace[a].Stored? && trace[a].repository == repository;
    var b: nat :| LastStore(trace, repository, b);
    assert a <= b;
  }

  lemma CacheOnlyImproves(server: Server, calls: seq<Call>, choices: seq<Choice>, n: nat, repository: string)
    requires Steady(choices) && n <= |choices|
    requires repository in Run(server, calls, choices[..n]).cache
    ensures var earlier, later := Run(server, calls, choices[..n]).cache, Run(server, calls, choices).cache;
            repository in later && earlier[repository].expiresAt <= later[repository].expiresAt
  {
    var bound := if choices == [] then 0 else choices[|choices| - 1].now;
    RunInOrder(server, calls, choices, bound);
    RunKeeps(server, calls, choices[..n]);
    RunKeeps(server, calls, choices);
    var early, late := Run(server, calls, choices[..n]).trace, Run(server, calls, choices).trace;
    TracesGrow(server, calls, choices, n);
    assert late[..|early|] == early;
    EntriesOnlyImprove(late, |early|, bound, repository);
  }

  /** What happened stays: the trace of a shorter run is a prefix of the longer run's. */
  lemma {:induction false} TracesGrow(server: Server, calls: seq<Call>, choices: seq<Choice>, n: nat)
    requires n <= |choices|
    ensures Run(server, calls, choices[..n]).trace <= Run(server, calls, choices).trace
  {
    if n == |choices| {
      assert choices[..n] == choices;
    } else {
      var last := |choices| - 1;
      assert choices[..last][..n] == choices[..n];
      TracesGrow(server, calls, choices[..last], n);
    }
  }
}
