/**
 * How old a cached visibility is, counted from GitHub's report: what the cache holds is what the last
 * call to finish its fetch was told, not what GitHub reported last. This module says exactly when the
 * two agree, which schedules make them agree, and what bounds the age of a report.
 */
module Staleness {

  import opened Wrappers
  import opened Exchange
  import opened ExchangeSafety
  import opened FetchProtocol
  import opened Freshness
  import opened Policy
  import opened Records

  /** Every success reported by GitHub answers a miss of the same call for the same repository, and
      every insert stores the report that is the call's latest step of the protocol. */
  lemma FetchesAreOrdered(server: Server, calls: seq<Call>, choices: seq<Choice>, n: nat)
    requires n < |Run(server, calls, choices).trace|
    ensures var trace := Run(server, calls, choices).trace;
            var event := trace[n];
            && (event.Probed? && event.answer.Success? ==>
                  HasMissed(trace[..n], event.call, event.repository))
            && (event.Stored? ==> HasReport(trace[..n], event.call, event.repository, event.visibility))
  {
    var trace := Run(server, calls, choices).trace;
    var k := EventComesFromAction(server, calls, choices, n);
    RunFetches(server, calls, choices[..k], trace[n].call);
    assert trace[..|Run(server, calls, choices[..k]).trace|] == Run(server, calls, choices[..k]).trace;
  }

  /***** Where a hit's visibility comes from *****/

  /** The hit at `n` returns what was inserted at `m`, the last insert for the repository, and that is
      what GitHub reported at `k` to the call that inserted it, its latest report. */
  ghost predicate Origin(trace: seq<Event>, n: nat, m: nat, k: nat) {
    && k < m < n < |trace|
    && trace[n].Hit?
    && LastStore(trace[..n], trace[n].repository, m)
    && trace[m].visibility == trace[n].visibility
    && LastFetch(trace[..m], trace[m].call) == Some(k)
    && Reports(trace[k], trace[n].repository)
    && trace[k].answer == Success(trace[n].visibility)
  }

  lemma StoresReport(server: Server, calls: seq<Call>, choices: seq<Choice>, m: nat) returns (k: nat)
    requires var trace := Run(server, calls, choices).trace; m < |trace| && trace[m].Stored?
    ensures var trace := Run(server, calls, choices).trace;
            && k < m && LastFetch(trace[..m], trace[m].call) == Some(k)
            && Reports(trace[k], trace[m].repository) && trace[k].answer == Success(trace[m].visibility)
  {
    var trace := Run(server, calls, choices).trace;
    FetchesAreOrdered(server, calls, choices, m);
    assert LastFetch(trace[..m], trace[m].call).Some?;
    k := LastFetch(trace[..m], trace[m].call).value;
    assert trace[..m][k] == trace[k];
  }

  lemma HitHasOrigin(server: Server, calls: seq<Call>, choices: seq<Choice>, n: nat) returns (m: nat, k: nat)
    requires var trace := Run(server, calls, choices).trace; n < |trace| && trace[n].Hit?
    ensures var trace := Run(server, calls, choices).trace;
            Origin(trace, n, m, k) && trace[n].at <= trace[m].at + HOUR
  {
    var trace := Run(server, calls, choices).trace;
    EventIsJustified(server, calls, choices, n);
    CacheHoldsLastStores(trace[..n], trace[n].repository);
    m :| LastStore(trace[..n], trace[n].repository, m);
    assert trace[..n][m] == trace[m];
    k := StoresReport(server, calls, choices, m);
  }

  function LastClock(choices: seq<Choice>): int {
    if choices == [] then 0 else choices[|choices| - 1].now
  }

  /** Every hit has an origin, and the age of the report it returns exceeds the hour by at most the
      time that passed between the report and its insertion. */
  lemma ReportAgeIsBounded(server: Server, calls: seq<Call>, choices: seq<Choice>, n: nat) returns (m: nat, k: nat)
    requires Steady(choices)
    requires var trace := Run(server, calls, choices).trace; n < |trace| && trace[n].Hit?
    ensures var trace := Run(server, calls, choices).trace;
            && Origin(trace, n, m, k)
            && trace[k].at <= trace[m].at <= trace[n].at
            && trace[n].at - trace[k].at <= HOUR + (trace[m].at - trace[k].at)
  {
    m, k := HitHasOrigin(server, calls, choices, n);
    RunInOrder(server, calls, choices, LastClock(choices));
  }

  /***** When a hit returns the newest report *****/

  /** A hit's insert answers it because it is at most an hour old. */
  lemma OriginIsFresh(server: Server, calls: seq<Call>, choices: seq<Choice>, n: nat, m: nat, k: nat)
    requires Origin(Run(server, calls, choices).trace, n, m, k)
    ensures var trace := Run(server, calls, choices).trace; trace[m].Stored? && trace[n].at <= trace[m].at + HOUR
  {
    var trace := Run(server, calls, choices).trace;
    EventIsJustified(server, calls, choices, n);
    CacheHoldsLastStores(trace[..n], trace[n].repository);
    assert trace[..n][m] == trace[m];
  }

  /** No call misses a repository while what is cached for it still answers a later hit. */
  lemma NoMissBeforeHit(server: Server, calls: seq<Call>, choices: seq<Choice>, n: nat, m: nat, k: nat, p: nat)
    requires Steady(choices) && Origin(Run(server, calls, choices).trace, n, m, k)
    requires m < p < n && Run(server, calls, choices).trace[p].Miss?
    ensures var trace := Run(server, calls, choices).trace; trace[p].repository != trace[n].repository
  {
    var trace := Run(server, calls, choices).trace;
    OriginIsFresh(server, calls, choices, n, m, k);
    RunInOrder(server, calls, choices, LastClock(choices));
    if trace[p].repository == trace[n].repository {
      assert trace[..n][m] == trace[m];
      MissesAreNecessary(server, calls, choices, p, m);
    }
  }

  /** The report at `q` answers a miss of the same call for the same repository, with no other step of
      that call's protocol in between. */
  lemma ReportAnswersMiss(server: Server, calls: seq<Call>, choices: seq<Choice>, q: nat) returns (p: nat)
    requires var trace := Run(server, calls, choices).trace;
             q < |trace| && trace[q].Probed? && trace[q].answer.Success?
    ensures var trace := Run(server, calls, choices).trace;
            && p < q && LastFetch(trace[..q], trace[q].call) == Some(p)
            && trace[p].Miss? && trace[p].call == trace[q].call && trace[p].repository == trace[q].repository
  {
    var trace := Run(server, calls, choices).trace;
    FetchesAreOrdered(server, calls, choices, q);
    assert LastFetch(trace[..q], trace[q].call).Some?;
    p := LastFetch(trace[..q], trace[q].call).value;
    assert trace[..q][p] == trace[p];
  }

  /** Between its latest step before `n` and `n` a call takes no step of the protocol. */
  lemma NothingBetween(trace: seq<Event>, id: nat, n: nat, p: nat, q: nat)
    requires p < q < n <= |trace| && LastFetch(trace[..n], id) == Some(p)
    ensures !Fetches(trace[q], id)
  {
    if Fetches(trace[q], id) {
      assert trace[..n][q] == trace[q];
      LastFetchIsLast(trace[..n], id, q);
    }
  }

  /** The call whose report a hit returns gets no newer report before the hit. */
  lemma OwnReportIsNewest(server: Server, calls: seq<Call>, choices: seq<Choice>, n: nat, m: nat, k: nat, q: nat)
    requires Steady(choices) && Origin(Run(server, calls, choices).trace, n, m, k)
    requires k < q < n && Reports(Run(server, calls, choices).trace[q], Run(server, calls, choices).trace[n].repository)
    ensures var trace := Run(server, calls, choices).trace; trace[q].call != trace[k].call
  {
    var trace := Run(server, calls, choices).trace;
    OriginIsFresh(server, calls, choices, n, m, k);
    assert trace[k].call == trace[m].call;
    if trace[q].call == trace[k].call {
      if q < m {
        NothingBetween(trace, trace[m].call, m, k, q);
      } else {
        var p := ReportAnswersMiss(server, calls, choices, q);
        if p < m {
          NothingBetween(trace, trace[m].call, q, p, m);
        }
        NoMissBeforeHit(server, calls, choices, n, m, k, p);
      }
    }
  }

  /** The visibility a hit returns is the newest GitHub reported for this repository. */
  ghost predicate Newest(trace: seq<Event>, n: nat, k: nat) {
    k < n < |trace| && trace[n].Hit? && forall q | k < q < n :: !Reports(trace[q], trace[n].repository)
  }

  /** A hit returns the newest report if and only if no other call was told of this repository between
      that report and the hit. */
  lemma HitsAreNewestExactly(server: Server, calls: seq<Call>, choices: seq<Choice>, n: nat, m: nat, k: nat)
    requires Steady(choices) && Origin(Run(server, calls, choices).trace, n, m, k)
    ensures var trace := Run(server, calls, choices).trace;
            Newest(trace, n, k) <==>
            forall q | k < q < n && Reports(trace[q], trace[n].repository) :: trace[q].call == trace[k].call
  {
    var trace := Run(server, calls, choices).trace;
    forall q | k < q < n && Reports(trace[q], trace[n].repository)
      ensures trace[q].call != trace[k].call
    {
      OwnReportIsNewest(server, calls, choices, n, m, k, q);
    }
  }

  /***** Schedules without overlapping fetches *****/

  /** The call's fetch begun at `p` ended before `q`: with an insert, or because it failed. */
  predicate EndedBetween(trace: seq<Event>, p: nat, q: nat)
    requires p < q < |trace|
  {
    exists s | p < s < q ::
      trace[s].call == trace[p].call && (trace[s].Stored? || FailedProbe(trace[s]))
  }

  /** No call begins to fetch the repository while another one is fetching it. */
  predicate Serial(trace: seq<Event>, repository: string) {
    forall p, q | 0 <= p < q < |trace| && MissOf(trace[p], repository) && MissOf(trace[q], repository)
                  && trace[p].call != trace[q].call ::
      EndedBetween(trace, p, q)
  }

  predicate MissOf(event: Event, repository: string) { event.Miss? && event.repository == repository }

  /** A fetch that led to the report at `k` and the insert at `m` did not end before that insert. */
  lemma FetchEndsWithInsert(trace: seq<Event>, id: nat, p: nat, k: nat, m: nat, q: nat)
    requires p < k < m < |trace| && p < q < |trace| && EndedBetween(trace, p, q)
    requires trace[p].call == id && LastFetch(trace[..k], id) == Some(p) && LastFetch(trace[..m], id) == Some(k)
    requires trace[k].Probed? && trace[k].answer.Success?
    ensures m < q
  {
    var s :| p < s < q && trace[s].call == id && (trace[s].Stored? || FailedProbe(trace[s]));
    assert Fetches(trace[s], id);
    if s < k {
      NothingBetween(trace, id, k, p, s);
    } else if k < s < m {
      NothingBetween(trace, id, m, k, s);
    }
  }

  /** A fetch that led to the report at `k` did not end before that report. */
  lemma FetchLastsToReport(trace: seq<Event>, id: nat, p: nat, k: nat, q: nat)
    requires p < k < |trace| && p < q <= k && EndedBetween(trace, p, q)
    requires trace[p].call == id
    ensures LastFetch(trace[..k], id) != Some(p)
  {
    var s :| p < s < q && trace[s].call == id && (trace[s].Stored? || FailedProbe(trace[s]));
    assert Fetches(trace[s], id);
    if LastFetch(trace[..k], id) == Some(p) {
      NothingBetween(trace, id, k, p, s);
    }
  }

  lemma EndedInPrefix(trace: seq<Event>, n: nat, p: nat, q: nat)
    requires p < q < n <= |trace| && EndedBetween(trace[..n], p, q)
    ensures EndedBetween(trace, p, q)
  {
    var before := trace[..n];
    var s :| p < s < q && before[s].call == before[p].call && (before[s].Stored? || FailedProbe(before[s]));
    assert trace[s] == before[s] && trace[p] == before[p];
  }

  /** Without overlaps, a call that reports after another one began its fetch after the other's insert. */
  lemma LaterReportsStartLater(
      trace: seq<Event>, n: nat, repository: string, p: nat, k: nat, m: nat, p': nat, q: nat)
    requires n <= |trace| && Serial(trace[..n], repository)
    requires p < k < m < n && p' < q < n && k < q
    requires MissOf(trace[p], repository) && MissOf(trace[p'], repository) && trace[p].call != trace[p'].call
    requires LastFetch(trace[..k], trace[p].call) == Some(p) && LastFetch(trace[..m], trace[p].call) == Some(k)
    requires trace[k].Probed? && trace[k].answer.Success?
    requires LastFetch(trace[..q], trace[p'].call) == Some(p')
    ensures m < p'
  {
    var before := trace[..n];
    assert MissOf(before[p], repository) && MissOf(before[p'], repository);
    if p < p' {
      assert EndedBetween(before, p, p');
      EndedInPrefix(trace, n, p, p');
      FetchEndsWithInsert(trace, trace[p].call, p, k, m, p');
    } else {
      assert EndedBetween(before, p', p);
      EndedInPrefix(trace, n, p', p);
      FetchLastsToReport(trace, trace[p'].call, p', q, p);
    }
  }

  /** When fetches of a repository did not overlap before a hit for it, the hit returns the newest report. */
  lemma SerialHitsAreNewest(server: Server, calls: seq<Call>, choices: seq<Choice>, n: nat, m: nat, k: nat)
    requires Steady(choices) && Origin(Run(server, calls, choices).trace, n, m, k)
    requires var trace := Run(server, calls, choices).trace; Serial(trace[..n], trace[n].repository)
    ensures Newest(Run(server, calls, choices).trace, n, k)
  {
    var trace := Run(server, calls, choices).trace;
    forall q | k < q < n && Reports(trace[q], trace[n].repository)
      ensures false
    {
      OwnReportIsNewest(server, calls, choices, n, m, k, q);
      NoOtherReport(server, calls, choices, n, m, k, q);
    }
  }

  lemma NoOtherReport(server: Server, calls: seq<Call>, choices: seq<Choice>, n: nat, m: nat, k: nat, q: nat)
    requires Steady(choices) && Origin(Run(server, calls, choices).trace, n, m, k)
    requires var trace := Run(server, calls, choices).trace; Serial(trace[..n], trace[n].repository)
    requires k < q < n && Reports(Run(server, calls, choices).trace[q], Run(server, calls, choices).trace[n].repository)
    ensures var trace := Run(server, calls, choices).trace; trace[q].call == trace[k].call
  {
    var trace := Run(server, calls, choices).trace;
    var p := ReportAnswersMiss(server, calls, choices, k);
    var p' := ReportAnswersMiss(server, calls, choices, q);
    if trace[q].call != trace[k].call {
      OriginIsFresh(server, calls, choices, n, m, k);
      LaterReportsStartLater(trace, n, trace[n].repository, p, k, m, p', q);
      NoMissBeforeHit(server, calls, choices, n, m, k, p');
    }
  }
}
