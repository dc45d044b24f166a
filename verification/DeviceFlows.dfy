/**
 * Tokens for Oxide silos over all runs: every token a call returns was granted for a device code that
 * was issued to that same call and confirmed by it, at the silo the policy allowed, with a lifetime
 * the instance may grant; concurrent calls that share a client never redeem each other's codes.
 */
module DeviceFlows {

  import opened Wrappers
  import opened Cedar
  import opened Exchange
  import opened ExchangeInvariant
  import opened ExchangeSafety
  import opened Policy
  import opened Records
  import opened TokenRequests
  import OxideTokens

  /** A silo never issues a device code or a user code twice (sections 3.2 and 5.1 of RFC 8628). */
  predicate FreshCodes(trace: seq<Event>) {
    forall m, n | 0 <= m < n < |trace| && trace[m].Issued? && trace[n].Issued?
                  && trace[m].client.host == trace[n].client.host ::
      trace[m].deviceCode != trace[n].deviceCode && trace[m].userCode != trace[n].userCode
  }

  /** Events `a`, `b`, `c` and `d` are one device flow of this call, in order: the policy allowed the
      silo, the silo issued a pair of codes, the user code was confirmed, the device code redeemed, all
      with one client, whose host is the silo. */
  predicate IsFlow(
      trace: seq<Event>, id: nat, oxide: OxideTokenRequest, token: string,
      a: nat, b: nat, c: nat, d: nat, who: Entity, client: OxideTokens.Client, deviceCode: string, userCode: string)
  {
    && a < b < c < d < |trace|
    && client.host == oxide.silo.text
    && trace[a] == DeployAllowed(id, who, oxide.silo)
    && trace[b].Issued? && Lifetime(trace[b].ttl, oxide.duration)
    && trace[b] == Issued(id, client, trace[b].ttl, deviceCode, userCode)
    && trace[c] == Confirmed(id, client, userCode)
    && trace[d] == Granted(id, client, deviceCode, token)
  }

  /** No call but this one was ever given, or granted a token for, this device code. */
  predicate OwnedBy(trace: seq<Event>, id: nat, host: string, deviceCode: string) {
    forall n | 0 <= n < |trace| && (trace[n].Issued? || trace[n].Granted?)
               && trace[n].client.host == host && trace[n].deviceCode == deviceCode ::
      trace[n].call == id
  }

  lemma IssuedAt(
      server: Server, calls: seq<Call>, choices: seq<Choice>, n: nat, id: nat, client: OxideTokens.Client,
      ttl: Option<OxideTokens.NonZeroU32>, deviceCode: string, userCode: string) returns (b: nat)
    requires n <= |Run(server, calls, choices).trace|
    requires IssuedBefore(Run(server, calls, choices).trace[..n], id, client, ttl, deviceCode, userCode)
    ensures var trace := Run(server, calls, choices).trace;
            && b < n && trace[b] == Issued(id, client, ttl, deviceCode, userCode)
            && id < |calls| && IssueJustified(server, calls[id], trace[..b], id, client, ttl)
  {
    var trace := Run(server, calls, choices).trace;
    b :| b < n && trace[b] == Issued(id, client, ttl, deviceCode, userCode);
    EventIsJustified(server, calls, choices, b);
  }

  lemma DeployAt(
      server: Server, calls: seq<Call>, choices: seq<Choice>, n: nat, id: nat, silo: Url) returns (a: nat, who: Entity)
    requires n <= |Run(server, calls, choices).trace|
    requires exists who :: DeployAllowed(id, who, silo) in Run(server, calls, choices).trace[..n]
    ensures a < n && Run(server, calls, choices).trace[a] == DeployAllowed(id, who, silo)
    ensures id < |calls| && DeployJustified(server, calls[id], Run(server, calls, choices).trace[..a], id, who, silo)
  {
    var trace := Run(server, calls, choices).trace;
    who :| DeployAllowed(id, who, silo) in trace[..n];
    a :| a < n && trace[a] == DeployAllowed(id, who, silo);
    EventIsJustified(server, calls, choices, a);
  }

  lemma ConfirmedAt(
      server: Server, calls: seq<Call>, choices: seq<Choice>, n: nat, id: nat, client: OxideTokens.Client,
      userCode: string)
      returns (b: nat, c: nat)
    requires n <= |Run(server, calls, choices).trace|
    requires Confirmed(id, client, userCode) in Run(server, calls, choices).trace[..n]
    ensures var trace := Run(server, calls, choices).trace;
            && b < c < n && trace[c] == Confirmed(id, client, userCode)
            && trace[b].Issued? && trace[b].call == id && trace[b].client == client
            && trace[b].userCode == userCode
  {
    var trace := Run(server, calls, choices).trace;
    c :| c < n && trace[c] == Confirmed(id, client, userCode);
    EventIsJustified(server, calls, choices, c);
    var ttl, deviceCode :| IssuedBefore(trace[..c], id, client, ttl, deviceCode, userCode);
    b := IssuedAt(server, calls, choices, c, id, client, ttl, deviceCode, userCode);
  }

  /***** One device authorization for each call *****/

  predicate IssuedTo(event: Event, id: nat) { event.Issued? && event.call == id }

  /** The call has not asked for codes yet. */
  predicate BeforeIssue(pc: Pc) { pc.Arrived? || pc.Deploying? || pc.Preparing? || pc.Authorizing? }

  /** Codes were issued to the call at most once, and not before it asked. */
  predicate IssuesOnce(trace: seq<Event>, id: nat, pc: Pc) {
    && (BeforeIssue(pc) ==> forall n | 0 <= n < |trace| :: !IssuedTo(trace[n], id))
    && forall m, n | 0 <= m < n < |trace| :: !(IssuedTo(trace[m], id) && IssuedTo(trace[n], id))
  }

  lemma ActIssues(server: Server, id: nat, task: Task, cache: Cache, now: int, answer: Answer)
    requires PcOk(task.call.request, task.pc)
    ensures var effect := Act(server, id, task, cache, now, answer);
            && (BeforeIssue(effect.pc) ==> BeforeIssue(task.pc))
            && (task.pc.Authorizing? ==> !BeforeIssue(effect.pc) && |effect.events| <= 1)
  {
  }

  lemma StepIssues(server: Server, w: World, choice: Choice, id: nat)
    requires WorldOk(w) && id < |w.tasks| && IssuesOnce(w.trace, id, w.tasks[id].pc)
    ensures var w' := Step(server, w, choice); IssuesOnce(w'.trace, id, w'.tasks[id].pc)
  {
    if Enabled(w, choice.id) {
      var task := w.tasks[choice.id];
      var events := Act(server, choice.id, task, w.cache, choice.now, choice.answer).events;
      ActRecords(server, choice.id, task, w.cache, choice.now, choice.answer);
      ActIssues(server, choice.id, task, w.cache, choice.now, choice.answer);
      forall n | 0 <= n < |events| && IssuedTo(events[n], id)
        ensures choice.id == id && task.pc.Authorizing?
      {
        assert events[n] in events;
      }
    }
  }

  /** However often a silo repeats a code, no call is issued codes twice. */
  lemma {:induction false} OneIssuePerCall(server: Server, calls: seq<Call>, choices: seq<Choice>, id: nat)
    requires id < |calls|
    ensures var w := Run(server, calls, choices); IssuesOnce(w.trace, id, w.tasks[id].pc)
  {
    if choices != [] {
      var last := |choices| - 1;
      OneIssuePerCall(server, calls, choices[..last], id);
      StepIssues(server, Run(server, calls, choices[..last]), choices[last], id);
    }
  }

  /***** Device flows *****/

  /** A token is only ever granted at the end of a whole device flow of one call, whatever codes the
      silo issues. */
  lemma GrantsEndFlows(server: Server, calls: seq<Call>, choices: seq<Choice>, d: nat)
    requires var trace := Run(server, calls, choices).trace; d < |trace| && trace[d].Granted?
    ensures var trace := Run(server, calls, choices).trace;
            var Granted(id, client, deviceCode, token) := trace[d];
            && id < |calls| && calls[id].request.Oxide?
            && UsesClient(server, calls[id].request.oxide, client)
            && exists a: nat, b: nat, c: nat, who, userCode ::
                 && IsFlow(trace, id, calls[id].request.oxide, token, a, b, c, d, who, client, deviceCode, userCode)
                 && DeployJustified(server, calls[id], trace[..a], id, who, calls[id].request.oxide.silo)
  {
    var trace := Run(server, calls, choices).trace;
    var Granted(id, client, deviceCode, token) := trace[d];
    EventIsJustified(server, calls, choices, d);
    var ttl, userCode :| IssuedBefore(trace[..d], id, client, ttl, deviceCode, userCode)
                         && Confirmed(id, client, userCode) in trace[..d];
    var b := IssuedAt(server, calls, choices, d, id, client, ttl, deviceCode, userCode);
    var b', c := ConfirmedAt(server, calls, choices, d, id, client, userCode);
    OneIssuePerCall(server, calls, choices, id);
    assert IssuedTo(trace[b], id) && IssuedTo(trace[b'], id);
    assert b == b';
    var a, who := DeployAt(server, calls, choices, b, id, calls[id].request.oxide.silo);
    assert IsFlow(trace, id, calls[id].request.oxide, token, a, b, c, d, who, client, deviceCode, userCode);
  }

  /** If the silo never repeats a code, calls sharing a client never redeem each other's codes. */
  lemma CodesAreNotShared(server: Server, calls: seq<Call>, choices: seq<Choice>, d: nat)
    requires var trace := Run(server, calls, choices).trace; d < |trace| && trace[d].Granted? && FreshCodes(trace)
    ensures var trace := Run(server, calls, choices).trace;
            OwnedBy(trace, trace[d].call, trace[d].client.host, trace[d].deviceCode)
  {
    var trace := Run(server, calls, choices).trace;
    var b := IssueOf(server, calls, choices, d);
    forall n | 0 <= n < |trace| && (trace[n].Issued? || trace[n].Granted?)
               && trace[n].client.host == trace[d].client.host && trace[n].deviceCode == trace[d].deviceCode
      ensures trace[n].call == trace[d].call
    {
      var m := if trace[n].Issued? then n else b;
      if trace[n].Granted? {
        m := IssueOf(server, calls, choices, n);
      }
      assert m == b;
    }
  }

  lemma IssueOf(server: Server, calls: seq<Call>, choices: seq<Choice>, d: nat) returns (b: nat)
    requires var trace := Run(server, calls, choices).trace; d < |trace| && trace[d].Granted?
    ensures var trace := Run(server, calls, choices).trace;
            && b < d && trace[b].Issued? && trace[b].call == trace[d].call
            && trace[b].client == trace[d].client && trace[b].deviceCode == trace[d].deviceCode
  {
    var trace := Run(server, calls, choices).trace;
    var Granted(id, client, deviceCode, token) := trace[d];
    EventIsJustified(server, calls, choices, d);
    var ttl, userCode :| IssuedBefore(trace[..d], id, client, ttl, deviceCode, userCode);
    b := IssuedAt(server, calls, choices, d, id, client, ttl, deviceCode, userCode);
  }

  lemma ReturnedTokensWereGranted(
      server: Server, calls: seq<Call>, choices: seq<Choice>, id: nat, token: string) returns (d: nat)
    requires id < |calls| && calls[id].request.Oxide?
    requires Run(server, calls, choices).tasks[id].pc == Returned(Success(token))
    ensures var trace := Run(server, calls, choices).trace;
            && d < |trace| && trace[d].Granted?
            && trace[d].call == id && trace[d].client.host == calls[id].request.oxide.silo.text
            && trace[d].token == token
  {
    var w := Run(server, calls, choices);
    TaskIsSound(server, calls, choices, id);
    d := GrantOfReturn(server, id, w.tasks[id], w.trace, token);
  }

  lemma GrantOfReturn(server: Server, id: nat, task: Task, trace: seq<Event>, token: string) returns (d: nat)
    requires task.call.request.Oxide? && task.pc == Returned(Success(token)) && TaskInv(server, id, task, trace)
    ensures d < |trace| && trace[d].Granted?
    ensures trace[d].call == id && trace[d].client.host == task.call.request.oxide.silo.text && trace[d].token == token
  {
    var who, client, deviceCode :|
      && Deployable(server, id, task, trace, who)
      && UsesClient(server, task.call.request.oxide, client)
      && Granted(id, client, deviceCode, token) in trace;
    d :| d < |trace| && trace[d] == Granted(id, client, deviceCode, token);
  }

  /** Every token returned for a silo is the last step of a device flow of that very call, at the silo
      and for the lifetime that were requested and allowed; if the silo never repeats a code, that code
      was issued to no other call and redeemed by no other call. */
  lemma ReturnedTokensWereConfirmed(
      server: Server, calls: seq<Call>, choices: seq<Choice>, id: nat, token: string)
    requires id < |calls| && calls[id].request.Oxide?
    requires Run(server, calls, choices).tasks[id].pc == Returned(Success(token))
    ensures SiloReady(server, calls[id].request.oxide)
    ensures var trace := Run(server, calls, choices).trace;
            exists a: nat, b: nat, c: nat, d: nat, who, client, deviceCode, userCode ::
              && IsFlow(trace, id, calls[id].request.oxide, token, a, b, c, d, who, client, deviceCode, userCode)
              && DeployJustified(server, calls[id], trace[..a], id, who, calls[id].request.oxide.silo)
              && (FreshCodes(trace) ==> OwnedBy(trace, id, calls[id].request.oxide.silo.text, deviceCode))
  {
    var trace := Run(server, calls, choices).trace;
    var d := ReturnedTokensWereGranted(server, calls, choices, id, token);
    GrantsEndFlows(server, calls, choices, d);
    if FreshCodes(trace) {
      CodesAreNotShared(server, calls, choices, d);
    }
  }

  /***** Clients and credentials *****/

  /** The event is a request to a silo, answered or failed. */
  predicate ToSilo(event: Event) { event.SiloFailed? || event.Issued? || event.Confirmed? || event.Granted? }

  /** Every request to a silo goes out with the client of the silo that the call asked for. */
  lemma RequestsUseOwnClient(server: Server, calls: seq<Call>, choices: seq<Choice>, n: nat)
    requires n < |Run(server, calls, choices).trace| && ToSilo(Run(server, calls, choices).trace[n])
    ensures var event := Run(server, calls, choices).trace[n];
            && event.call < |calls| && calls[event.call].request.Oxide?
            && UsesClient(server, calls[event.call].request.oxide, event.client)
            && event.client.host == calls[event.call].request.oxide.silo.text
  {
    var trace := Run(server, calls, choices).trace;
    var id, client := trace[n].call, trace[n].client;
    EventIsJustified(server, calls, choices, n);
    if trace[n].Confirmed? {
      var ttl, deviceCode :| IssuedBefore(trace[..n], id, client, ttl, deviceCode, trace[n].userCode);
      var _ := IssuedAt(server, calls, choices, n, id, client, ttl, deviceCode, trace[n].userCode);
    } else if trace[n].Granted? {
      var ttl, userCode :| IssuedBefore(trace[..n], id, client, ttl, trace[n].deviceCode, userCode);
      var _ := IssuedAt(server, calls, choices, n, id, client, ttl, trace[n].deviceCode, userCode);
    }
  }

  /** Whichever order the manifest was read in, every request to a silo goes to a silo in the manifest, in
      some spelling, and carries that entry's credential. */
  lemma GrantingSilosAreConfigured(
      server: Server, calls: seq<Call>, choices: seq<Choice>, n: nat, order: seq<string>,
      manifest: OxideTokens.Manifest, canonical: OxideTokens.Canonical, accepts: OxideTokens.Accepts)
    requires n < |Run(server, calls, choices).trace| && ToSilo(Run(server, calls, choices).trace[n])
    requires server.oxide.Some? && OxideTokens.AllUsable(order, manifest, canonical, accepts)
    requires server.oxide.value.clients == OxideTokens.ClientMap(order, manifest, canonical, accepts)
    ensures var client := Run(server, calls, choices).trace[n].client;
            && client.host in server.oxide.value.clients
            && exists url ::
                 url in manifest && canonical(url) == Some(client.host) && manifest[url] == Some(client.token)
  {
    RequestsUseOwnClient(server, calls, choices, n);
    var client := Run(server, calls, choices).trace[n].client;
    OxideTokens.ClientsMatchManifest(order, manifest, canonical, accepts, client.host);
    var k :| 0 <= k < |order|
             && OxideTokens.Provides(manifest, canonical, client.host, server.oxide.value.clients[client.host],
                                     order[k]);
  }
}
