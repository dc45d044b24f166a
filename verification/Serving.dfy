/**
 * Which authorized calls are served: exactly those whose signing and requests the environment did not
 * fail. A call mints at most once, and never before its authorization has ended.
 */
module Serving {

  import opened Wrappers
  import opened Exchange
  import opened ExchangeActions
  import opened ExchangeInvariant
  import opened ExchangeSafety
  import opened GitHubRequest
  import opened GitHubTokens
  import opened Policy
  import opened Records

  /***** The mint of a call *****/

  /** The event belongs to minting the call's own token. */
  predicate OfMint(event: Event, id: nat) {
    event.call == id && (event.Signed? || event.Looked? || event.Posted?) && event.purpose.Mint?
  }

  /** What the call did to mint its token, in order. */
  function MintLog(trace: seq<Event>, id: nat): seq<Event> {
    if trace == [] then []
    else
      var last := |trace| - 1;
      MintLog(trace[..last], id) + if OfMint(trace[last], id) then [trace[last]] else []
  }

  lemma {:induction false} MintLogHolds(trace: seq<Event>, id: nat, event: Event)
    ensures event in MintLog(trace, id) <==> event in trace && OfMint(event, id)
  {
    if trace != [] {
      var last := |trace| - 1;
      MintLogHolds(trace[..last], id, event);
      assert trace == trace[..last] + [trace[last]];
    }
  }

  /** Two events of a mint stand in its log in their order. */
  lemma {:induction false} MintLogKeepsOrder(trace: seq<Event>, id: nat, m: nat, n: nat) returns (a: nat, b: nat)
    requires m < n < |trace| && OfMint(trace[m], id) && OfMint(trace[n], id)
    ensures a < b < |MintLog(trace, id)|
    ensures MintLog(trace, id)[a] == trace[m] && MintLog(trace, id)[b] == trace[n]
  {
    var last := |trace| - 1;
    if n < last {
      a, b := MintLogKeepsOrder(trace[..last], id, m, n);
    } else {
      MintLogHolds(trace[..last], id, trace[m]);
      assert trace[..last][m] == trace[m];
      a :| a < |MintLog(trace[..last], id)| && MintLog(trace[..last], id)[a] == trace[m];
      b := |MintLog(trace[..last], id)|;
    }
  }

  lemma MintLogOne(trace: seq<Event>, event: Event, id: nat)
    ensures MintLog(trace + [event], id) == MintLog(trace, id) + if OfMint(event, id) then [event] else []
  {
    assert (trace + [event])[..|trace|] == trace;
  }

  lemma {:induction false} MintLogStays(trace: seq<Event>, events: seq<Event>, id: nat)
    requires forall e | e in events :: !OfMint(e, id)
    ensures MintLog(trace + events, id) == MintLog(trace, id)
  {
    if events == [] {
      assert trace + events == trace;
    } else {
      var init, last := events[..|events| - 1], events[|events| - 1];
      assert trace + events == (trace + init) + [last];
      MintLogStays(trace, init, id);
      MintLogOne(trace + init, last, id);
    }
  }

  /***** How far a mint has come *****/

  function LookedUp(id: nat, kind: nat, ns: string, answer: Result<nat, HttpFailure>): Event
    requires kind < |KINDS|
  {
    Looked(id, Mint, if kind == 0 then "orgs" else "users", ns, answer)
  }

  /** The mint's search is at this account kind and has found this so far. */
  ghost predicate SearchingLog(log: seq<Event>, id: nat, ns: string, kind: nat, found: Option<nat>) {
    if kind == 0 then found.None? && log == [Signed(id, Mint, true)]
    else
      exists orgs ::
        SearchStep(None, orgs) == Success(found) && log == [Signed(id, Mint, true), LookedUp(id, 0, ns, orgs)]
  }

  ghost predicate LocatedLog(log: seq<Event>, id: nat, ns: string, installation: nat) {
    exists orgs, users ::
      && FoundBy(orgs, users, installation)
      && log == [Signed(id, Mint, true), LookedUp(id, 0, ns, orgs), LookedUp(id, 1, ns, users)]
  }

  /** The whole mint: signed once, both account kinds asked once, and one token requested and granted. */
  ghost predicate ServedLog(github: GitHubTokenRequest, log: seq<Event>, id: nat, token: string) {
    exists parsed, installation ::
      && Parse(github) == Success(parsed) && log != []
      && LocatedLog(log[..|log| - 1], id, parsed.namespace, installation)
      && log[|log| - 1] == PostOf(id, parsed, installation, Success(token))
  }

  function PostOf(id: nat, parsed: ParsedGitHubRequest, installation: nat, reply: Result<string, HttpFailure>): Event {
    Posted(id, Mint, parsed.namespace, installation, parsed.repositoryNames, parsed.permissions, reply)
  }

  /** The mint ended early: at most its last event requests a token, in vain. */
  predicate BrokenLog(log: seq<Event>) {
    forall k | 0 <= k < |log| && log[k].Posted? :: k == |log| - 1 && log[k].reply.Failure?
  }

  /** What the mint's log holds at each program point; nothing until authorization has ended. */
  ghost predicate MintPoint(log: seq<Event>, id: nat, task: Task)
    requires PcOk(task.call.request, task.pc)
  {
    match task.pc
    case Getting(_, Mint, phase) =>
      (match phase
       case Begin => log == []
       case Searching(parsed, kind, found) =>
         && Parse(task.call.request.github) == Success(parsed)
         && SearchingLog(log, id, parsed.namespace, kind, found)
       case Requesting(parsed, installation) =>
         && Parse(task.call.request.github) == Success(parsed)
         && LocatedLog(log, id, parsed.namespace, installation))
    case Returned(Success(token)) =>
      if task.call.request.GitHub? then ServedLog(task.call.request.github, log, id, token) else log == []
    case Returned(Failure(GitHubFailure(_))) => task.call.request.GitHub? && BrokenLog(log)
    case _ => log == []
  }

  lemma BeginMints(server: Server, id: nat, task: Task, cache: Cache, now: int, answer: Answer, trace: seq<Event>)
    requires PcOk(task.call.request, task.pc) && task.pc.Getting? && task.pc.purpose.Mint? && task.pc.phase.Begin?
    requires MintPoint(MintLog(trace, id), id, task)
    ensures var effect := GetBegin(server, id, task, cache, now, answer);
            MintPoint(MintLog(trace + effect.events, id), id, After(task, effect))
  {
    var effect := GetBegin(server, id, task, cache, now, answer);
    if effect.events == [] {
      assert trace + effect.events == trace;
    } else {
      assert effect.events == [Signed(id, Mint, answer.signed)];
      MintLogOne(trace, effect.events[0], id);
    }
  }

  lemma SearchMints(id: nat, task: Task, cache: Cache, now: int, answer: Answer, trace: seq<Event>)
    requires PcOk(task.call.request, task.pc) && task.pc.Getting? && task.pc.purpose.Mint? && task.pc.phase.Searching?
    requires MintPoint(MintLog(trace, id), id, task)
    ensures var effect := GetSearching(id, task, cache, now, answer);
            MintPoint(MintLog(trace + effect.events, id), id, After(task, effect))
  {
    var effect := GetSearching(id, task, cache, now, answer);
    var Searching(parsed, kind, found) := task.pc.phase;
    var asked := LookedUp(id, kind, parsed.namespace, answer.installation);
    assert effect.events == [asked];
    MintLogOne(trace, asked, id);
    if effect.pc.Getting? {
      SearchLogGrows(MintLog(trace, id), id, parsed.namespace, kind, found, answer.installation);
    }
  }

  lemma SearchLogGrows(
      log: seq<Event>, id: nat, ns: string, kind: nat, found: Option<nat>, answer: Result<nat, HttpFailure>)
    requires kind < |KINDS| && SearchingLog(log, id, ns, kind, found) && SearchStep(found, answer).Success?
    ensures var found' := SearchStep(found, answer).value;
            if kind == 0 then SearchingLog(log + [LookedUp(id, 0, ns, answer)], id, ns, 1, found')
            else found'.Some? ==> LocatedLog(log + [LookedUp(id, 1, ns, answer)], id, ns, found'.value)
  {
    if kind == 1 && SearchStep(found, answer).value.Some? {
      var orgs :| SearchStep(None, orgs) == Success(found)
                  && log == [Signed(id, Mint, true), LookedUp(id, 0, ns, orgs)];
      assert FoundBy(orgs, answer, SearchStep(found, answer).value.value);
      assert log + [LookedUp(id, 1, ns, answer)]
             == [Signed(id, Mint, true), LookedUp(id, 0, ns, orgs), LookedUp(id, 1, ns, answer)];
    }
  }

  lemma PostMints(id: nat, task: Task, cache: Cache, now: int, answer: Answer, trace: seq<Event>)
    requires PcOk(task.call.request, task.pc) && task.pc.Getting? && task.pc.purpose.Mint? && task.pc.phase.Requesting?
    requires MintPoint(MintLog(trace, id), id, task)
    ensures var effect := GetRequesting(id, task, cache, now, answer);
            MintPoint(MintLog(trace + effect.events, id), id, After(task, effect))
  {
    var effect := GetRequesting(id, task, cache, now, answer);
    var Requesting(parsed, installation) := task.pc.phase;
    var log, posted := MintLog(trace, id), PostOf(id, parsed, installation, answer.accessToken);
    assert effect.events == [posted];
    MintLogOne(trace, posted, id);
    assert (log + [posted])[..|log|] == log;
  }

  lemma ProbesDoNotMint(server: Server, id: nat, task: Task, cache: Cache, now: int, answer: Answer)
    requires PcOk(task.call.request, task.pc) && task.pc.Getting? && task.pc.purpose.Probe?
    ensures forall e | e in Get(server, id, task, cache, now, answer).events :: !OfMint(e, id)
  {
    match task.pc.phase {
      case Begin =>
        assert forall e | e in GetBegin(server, id, task, cache, now, answer).events :: !OfMint(e, id);
      case Searching(_, _, _) =>
        assert forall e | e in GetSearching(id, task, cache, now, answer).events :: !OfMint(e, id);
      case Requesting(_, _) =>
        assert forall e | e in GetRequesting(id, task, cache, now, answer).events :: !OfMint(e, id);
    }
  }

  /** Actions outside the mint add nothing to its log. */
  lemma OthersDoNotMint(server: Server, id: nat, task: Task, cache: Cache, now: int, answer: Answer)
    requires PcOk(task.call.request, task.pc) && !(task.pc.Getting? && task.pc.purpose.Mint?)
    ensures forall e | e in Act(server, id, task, cache, now, answer).events :: !OfMint(e, id)
  {
    if task.pc.Getting? {
      ProbesDoNotMint(server, id, task, cache, now, answer);
    } else if task.pc.Preparing? || task.pc.Authorizing? || task.pc.Confirming? || task.pc.Redeeming? {
      assert forall e | e in DeviceFlow(server, id, task, cache, answer).events :: !OfMint(e, id);
    }
  }

  /** They lead to a point where no mint has begun. */
  lemma OthersLeadOutside(server: Server, id: nat, task: Task, cache: Cache, now: int, answer: Answer)
    requires PcOk(task.call.request, task.pc) && !task.pc.Returned? && !(task.pc.Getting? && task.pc.purpose.Mint?)
    ensures MintPoint([], id, After(task, Act(server, id, task, cache, now, answer)))
  {
    if task.pc.Getting? {
      assert MintPoint([], id, After(task, Get(server, id, task, cache, now, answer)));
    }
  }

  lemma ActMints(server: Server, id: nat, task: Task, cache: Cache, now: int, answer: Answer, trace: seq<Event>)
    requires PcOk(task.call.request, task.pc) && !task.pc.Returned? && MintPoint(MintLog(trace, id), id, task)
    ensures var effect := Act(server, id, task, cache, now, answer);
            MintPoint(MintLog(trace + effect.events, id), id, After(task, effect))
  {
    if task.pc.Getting? && task.pc.purpose.Mint? {
      match task.pc.phase {
        case Begin => BeginMints(server, id, task, cache, now, answer, trace);
        case Searching(_, _, _) => SearchMints(id, task, cache, now, answer, trace);
        case Requesting(_, _) => PostMints(id, task, cache, now, answer, trace);
      }
    } else {
      OthersDoNotMint(server, id, task, cache, now, answer);
      OthersLeadOutside(server, id, task, cache, now, answer);
      MintLogStays(trace, Act(server, id, task, cache, now, answer).events, id);
    }
  }

  /** In every reachable state, every call has done exactly so much of its mint as its program point says. */
  lemma {:induction false} RunMints(server: Server, calls: seq<Call>, choices: seq<Choice>, id: nat)
    requires id < |calls|
    ensures var w := Run(server, calls, choices); MintPoint(MintLog(w.trace, id), id, w.tasks[id])
  {
    if choices != [] {
      var last := |choices| - 1;
      var choice := choices[last];
      var w := Run(server, calls, choices[..last]);
      RunMints(server, calls, choices[..last], id);
      if Enabled(w, choice.id) {
        var task := w.tasks[choice.id];
        if choice.id == id {
          ActMints(server, id, task, w.cache, choice.now, choice.answer, w.trace);
        } else {
          ActRecords(server, choice.id, task, w.cache, choice.now, choice.answer);
          MintLogStays(w.trace, Act(server, choice.id, task, w.cache, choice.now, choice.answer).events, id);
        }
      }
    }
  }

  /***** One mint, after authorization *****/

  predicate MintPost(event: Event, id: nat) { OfMint(event, id) && event.Posted? }

  /** A call requests at most one token for its caller. */
  lemma OneMintPerCall(server: Server, calls: seq<Call>, choices: seq<Choice>, id: nat, m: nat, n: nat)
    requires id < |calls| && m < n < |Run(server, calls, choices).trace|
    requires MintPost(Run(server, calls, choices).trace[m], id)
    ensures !MintPost(Run(server, calls, choices).trace[n], id)
  {
    var w := Run(server, calls, choices);
    if MintPost(w.trace[n], id) {
      RunMints(server, calls, choices, id);
      var a, b := MintLogKeepsOrder(w.trace, id, m, n);
      PostComesLast(MintLog(w.trace, id), id, w.tasks[id], a, b);
    }
  }

  lemma PostComesLast(log: seq<Event>, id: nat, task: Task, a: nat, b: nat)
    requires PcOk(task.call.request, task.pc) && MintPoint(log, id, task) && a < b < |log|
    ensures !log[a].Posted?
  {
    if task.pc.Returned? && task.pc.outcome.Success? && task.call.request.GitHub? {
      ServedPostComesLast(task.call.request.github, log, id, task.pc.outcome.value, a);
    }
  }

  lemma ServedPostComesLast(github: GitHubTokenRequest, log: seq<Event>, id: nat, token: string, a: nat)
    requires ServedLog(github, log, id, token) && a + 1 < |log|
    ensures !log[a].Posted?
  {
    var parsed, installation :|
      && Parse(github) == Success(parsed)
      && LocatedLog(log[..|log| - 1], id, parsed.namespace, installation)
      && log[|log| - 1] == PostOf(id, parsed, installation, Success(token));
    assert log[..|log| - 1][a] == log[a];
  }

  /** Nothing is done for a call's own token before its authorization has ended, nor for one that was
      turned away, was refused or asked for a silo. */
  lemma MintsFollowAuthorization(server: Server, calls: seq<Call>, choices: seq<Choice>, id: nat, n: nat)
    requires id < |calls| && n < |Run(server, calls, choices).trace|
    requires OfMint(Run(server, calls, choices).trace[n], id)
    ensures calls[id].request.GitHub? && Authorized(Run(server, calls, choices).tasks[id].pc)
  {
    var w := Run(server, calls, choices);
    RunMints(server, calls, choices, id);
    MintLogHolds(w.trace, id, w.trace[n]);
    NoMintOutside(MintLog(w.trace, id), id, w.tasks[id]);
  }

  lemma NoMintOutside(log: seq<Event>, id: nat, task: Task)
    requires PcOk(task.call.request, task.pc) && MintPoint(log, id, task)
    ensures log != [] ==> task.call.request.GitHub? && Authorized(task.pc)
  {
  }

  /***** Which authorized calls are served *****/

  /** Neither account kind knows the App. */
  ghost predicate NotInstalled(trace: seq<Event>, id: nat) {
    exists ns, message, message' ::
      && Looked(id, Mint, "orgs", ns, Failure(Status(404, message))) in trace
      && Looked(id, Mint, "users", ns, Failure(Status(404, message'))) in trace
  }

  /** Signing for the mint succeeded, no look-up failed other than with status 404, at least one account
      kind knows the App, and the token was granted. */
  ghost predicate MintAnswered(trace: seq<Event>, id: nat) {
    && (forall e | e in trace && OfMint(e, id) ::
          && (e.Signed? ==> e.succeeded)
          && (e.Looked? ==>
                e.installations.Success? || (e.installations.error.Status? && e.installations.error.status == 404))
          && (e.Posted? ==> e.reply.Success?))
    && !NotInstalled(trace, id)
  }

  lemma AnsweredMintsDoNotFail(github: GitHubTokenRequest, trace: seq<Event>, id: nat, e: GitHubTokenError)
    requires !NamespacesDiffer(github.repositories) && forall name :: !NamedTwice(github.permissions, name)
    requires MintAnswered(trace, id)
    ensures !MintError(github, trace, id, e)
  {
    if MintError(github, trace, id, e) {
      MintErrorsAreConflicts(github, trace, id, e);
      FailedRequestsAreNotAnswered(trace, id, Parse(github).value, e);
    }
  }

  lemma FailedRequestsAreNotAnswered(
      trace: seq<Event>, id: nat, parsed: ParsedGitHubRequest, e: GitHubTokenError)
    requires RequestFailed(trace, id, Mint, parsed, e)
    ensures !MintAnswered(trace, id)
  {
    if e.EncodeJwt? {
      assert OfMint(Signed(id, Mint, false), id);
    } else if e.Http? || e.GitHubError? {
      var failure := if e.Http? then Transport else Status(e.status, e.message);
      if PostFailed(trace, id, Mint, parsed, failure) {
        var installation :|
          Posted(id, Mint, parsed.namespace, installation, parsed.repositoryNames, parsed.permissions,
                 Failure(failure)) in trace;
        assert OfMint(PostOf(id, parsed, installation, Failure(failure)), id);
      } else {
        var kind :| Looked(id, Mint, kind, parsed.namespace, Failure(failure)) in trace;
        assert OfMint(Looked(id, Mint, kind, parsed.namespace, Failure(failure)), id);
      }
    }
  }

  /** The events of a served mint. */
  lemma ServedMintHas(github: GitHubTokenRequest, trace: seq<Event>, id: nat, token: string)
    returns (ns: string, orgs: Result<nat, HttpFailure>, users: Result<nat, HttpFailure>)
    requires ServedLog(github, MintLog(trace, id), id, token)
    ensures orgs.Success? || users.Success?
    ensures orgs.Success? || (orgs.error.Status? && orgs.error.status == 404)
    ensures users.Success? || (users.error.Status? && users.error.status == 404)
    ensures forall e | e in trace && OfMint(e, id) ::
              || e == Signed(id, Mint, true) || e == LookedUp(id, 0, ns, orgs) || e == LookedUp(id, 1, ns, users)
              || (e.Posted? && e.reply == Success(token))
  {
    var log := MintLog(trace, id);
    var parsed, installation :|
      && Parse(github) == Success(parsed)
      && LocatedLog(log[..|log| - 1], id, parsed.namespace, installation)
      && log[|log| - 1] == PostOf(id, parsed, installation, Success(token));
    ns := parsed.namespace;
    orgs, users :|
      && FoundBy(orgs, users, installation)
      && log[..|log| - 1] == [Signed(id, Mint, true), LookedUp(id, 0, ns, orgs), LookedUp(id, 1, ns, users)];
    assert log == log[..|log| - 1] + [log[|log| - 1]];
    forall e | e in trace && OfMint(e, id)
      ensures e in log
    {
      MintLogHolds(trace, id, e);
    }
  }

  /** A served mint was answered. */
  lemma ServedMintsAreAnswered(github: GitHubTokenRequest, trace: seq<Event>, id: nat, token: string)
    requires ServedLog(github, MintLog(trace, id), id, token)
    ensures MintAnswered(trace, id)
  {
    var ns, orgs, users := ServedMintHas(github, trace, id, token);
    forall ns', answer, answer' | Looked(id, Mint, "orgs", ns', answer) in trace
                                  && Looked(id, Mint, "users", ns', answer') in trace
      ensures answer == orgs && answer' == users
    {
      assert OfMint(Looked(id, Mint, "orgs", ns', answer), id) && OfMint(Looked(id, Mint, "users", ns', answer'), id);
    }
  }

  /** An authorized request without conflicts, once it has returned, returns a token if and only if its
      mint was answered; the token is the one GitHub posted for that mint. */
  lemma AuthorizedRequestsAreServed(server: Server, calls: seq<Call>, choices: seq<Choice>, id: nat)
    requires id < |calls| && calls[id].request.GitHub?
    requires !NamespacesDiffer(calls[id].request.github.repositories)
    requires forall name :: !NamedTwice(calls[id].request.github.permissions, name)
    requires var w := Run(server, calls, choices); w.tasks[id].pc.Returned? && Authorized(w.tasks[id].pc)
    ensures var w := Run(server, calls, choices);
            && (w.tasks[id].pc.outcome.Success? <==> MintAnswered(w.trace, id))
            && (w.tasks[id].pc.outcome.Success? ==>
                  ServedLog(calls[id].request.github, MintLog(w.trace, id), id, w.tasks[id].pc.outcome.value))
  {
    var w := Run(server, calls, choices);
    RunMints(server, calls, choices, id);
    if w.tasks[id].pc.outcome.Success? {
      ServedMintsAreAnswered(calls[id].request.github, w.trace, id, w.tasks[id].pc.outcome.value);
    } else {
      MintErrorOfRun(server, calls, choices, id, w.tasks[id].pc.outcome.error.githubError);
      if MintAnswered(w.trace, id) {
        AnsweredMintsDoNotFail(calls[id].request.github, w.trace, id, w.tasks[id].pc.outcome.error.githubError);
      }
    }
  }

  /***** Silos *****/

  /** A failed request to a silo ends the call. */
  predicate SiloPoint(trace: seq<Event>, id: nat, pc: Pc) {
    (forall e | e in trace :: !(e.call == id && e.SiloFailed?)) || (pc.Returned? && pc.outcome.Failure?)
  }

  lemma DeviceFailureEnds(server: Server, id: nat, task: Task, cache: Cache, answer: Answer)
    requires PcOk(task.call.request, task.pc)
    requires task.pc.Preparing? || task.pc.Authorizing? || task.pc.Confirming? || task.pc.Redeeming?
    ensures var effect := DeviceFlow(server, id, task, cache, answer);
            forall e | e in effect.events && e.SiloFailed? :: effect.pc.Returned? && effect.pc.outcome.Failure?
  {
  }

  lemma SiloFailureEnds(server: Server, id: nat, task: Task, cache: Cache, now: int, answer: Answer)
    requires PcOk(task.call.request, task.pc)
    ensures var effect := Act(server, id, task, cache, now, answer);
            forall e | e in effect.events && e.SiloFailed? :: effect.pc.Returned? && effect.pc.outcome.Failure?
  {
    ActRecords(server, id, task, cache, now, answer);
    if task.pc.Authorizing? || task.pc.Confirming? || task.pc.Redeeming? {
      DeviceFailureEnds(server, id, task, cache, answer);
    }
  }

  lemma {:induction false} RunSilos(server: Server, calls: seq<Call>, choices: seq<Choice>, id: nat)
    requires id < |calls|
    ensures var w := Run(server, calls, choices); SiloPoint(w.trace, id, w.tasks[id].pc)
  {
    if choices != [] {
      var last := |choices| - 1;
      var choice := choices[last];
      var w := Run(server, calls, choices[..last]);
      RunSilos(server, calls, choices[..last], id);
      if Enabled(w, choice.id) {
        var task := w.tasks[choice.id];
        ActRecords(server, choice.id, task, w.cache, choice.now, choice.answer);
        SiloFailureEnds(server, choice.id, task, w.cache, choice.now, choice.answer);
      }
    }
  }

  /** An allowed request for a silo that passes the checks, once it has returned, returns a token if and
      only if the silo failed none of its requests; the token is one the silo granted to it. */
  lemma AllowedSilosAreServed(server: Server, calls: seq<Call>, choices: seq<Choice>, id: nat)
    requires id < |calls| && calls[id].request.Oxide? && SiloReady(server, calls[id].request.oxide)
    requires var pc := Run(server, calls, choices).tasks[id].pc;
             pc.Returned? && (pc.outcome.Success? || pc.outcome.error.OxideFailure?)
    ensures var w := Run(server, calls, choices);
            && (w.tasks[id].pc.outcome.Success? <==> forall e | e in w.trace && e.call == id :: !e.SiloFailed?)
            && (w.tasks[id].pc.outcome.Success? ==>
                  exists client, deviceCode ::
                    && UsesClient(server, calls[id].request.oxide, client)
                    && Granted(id, client, deviceCode, w.tasks[id].pc.outcome.value) in w.trace)
  {
    var w := Run(server, calls, choices);
    RunSilos(server, calls, choices, id);
    if w.tasks[id].pc.outcome.Failure? {
      SiloErrorsAreExact(server, calls, choices, id, w.tasks[id].pc.outcome.error.oxideError);
    } else {
      TaskIsSound(server, calls, choices, id);
      GrantedAtReturn(server, id, w.tasks[id], w.trace);
    }
  }

  lemma GrantedAtReturn(server: Server, id: nat, task: Task, trace: seq<Event>)
    requires task.call.request.Oxide? && task.pc.Returned? && task.pc.outcome.Success?
    requires TaskInv(server, id, task, trace)
    ensures exists client, deviceCode ::
              && UsesClient(server, task.call.request.oxide, client)
              && Granted(id, client, deviceCode, task.pc.outcome.value) in trace
  {
  }
}
