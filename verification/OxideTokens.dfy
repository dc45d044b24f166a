/** Tokens for Oxide silos (`src/token/oxide.rs`): the clients built from the manifest and lifetimes. */
module OxideTokens {

  import opened Wrappers
  import opened TokenRequests

  datatype OxideError =
    | ByteStream
    | DeviceAuthRequest
    | ResolveParam
    | SiloNotConfigured(silo: string)
    | InvalidSiloUrl(url: string)
    | AuthFailed(silo: string)
    | Remote
    | NotConfigured
    | NoExpirationDisallowed
    | TooLongExpiration(maxDuration: u32)

  /** How a request to a silo's API can go wrong. */
  datatype ServiceFailure = Unreadable | Rejected | Unreachable

  /** Only the device authorization request has its rejection read; only its answer and the token's
      are parsed. */
  function DeviceError(failure: ServiceFailure): OxideError {
    match failure
    case Unreadable => ByteStream
    case Rejected => DeviceAuthRequest
    case Unreachable => Remote
  }

  function GrantError(failure: ServiceFailure): OxideError {
    if failure.Unreadable? then ByteStream else Remote
  }

  /** The three requests of the device flow. */
  datatype SiloRequest = DeviceAuthorization | Confirmation | TokenGrant

  function RequestError(request: SiloRequest, failure: ServiceFailure): OxideError {
    match request
    case DeviceAuthorization => DeviceError(failure)
    case Confirmation => Remote
    case TokenGrant => GrantError(failure)
  }

  /** A client authenticated against one silo. */
  datatype Client = Client(host: string, token: string)

  /** Every client is keyed by its own host. */
  type Clients = clients: map<string, Client> | forall silo | silo in clients :: clients[silo].host == silo

  datatype State = State(clients: Clients, allowTokensWithoutExpiry: bool, maxDuration: u32)

  /***** Lifetimes *****/

  type NonZeroU32 = x: u32 | x != 0 witness 1

  /** The lifetime sent with a device authorization request; `None` asks for an unlimited token. */
  function Ttl(duration: u32): Option<NonZeroU32> {
    if duration == 0 then None else Some(duration)
  }

  /** A lifetime the instance may grant. */
  predicate Bounded(ttl: Option<NonZeroU32>, allowTokensWithoutExpiry: bool, maxDuration: u32) {
    match ttl
    case None => allowTokensWithoutExpiry
    case Some(seconds) => 1 <= seconds <= maxDuration
  }

  /** Validation accepts exactly the durations whose lifetime the instance may grant. */
  function ValidateDuration(duration: u32, allowTokensWithoutExpiry: bool, maxDuration: u32)
    : (r: Result<(), OxideError>)
    ensures r.Success? <==> Bounded(Ttl(duration), allowTokensWithoutExpiry, maxDuration)
  {
    if duration == 0 && !allowTokensWithoutExpiry then Failure(NoExpirationDisallowed)
    else if duration > maxDuration then Failure(TooLongExpiration(maxDuration))
    else Success(())
  }

  /***** The manifest *****/

  /** The manifest maps silo URLs, in any spelling, to credentials; `None` is one that cannot be
      resolved. */
  type Manifest = map<string, Option<string>>

  /** The `url` crate's normalization: the canonical serialization of a URL that parses. */
  type Canonical = string -> Option<string>

  /** Whether a client can be made from a host and a token. */
  type Accepts = (string, string) -> bool

  function ClientOf(manifest: Manifest, canonical: Canonical, accepts: Accepts, url: string): Result<Client, OxideError>
    requires url in manifest
  {
    if manifest[url].None? then Failure(ResolveParam)
    else if canonical(url).None? then Failure(InvalidSiloUrl(url))
    else if !accepts(canonical(url).value, manifest[url].value) then Failure(AuthFailed(canonical(url).value))
    else Success(Client(canonical(url).value, manifest[url].value))
  }

  /** `order` is one of the orders in which iterating over the manifest can visit its keys. */
  predicate Visits(order: seq<string>, manifest: Manifest) {
    && (forall url | url in manifest :: url in order)
    && (forall url | url in order :: url in manifest)
    && (forall j, k | 0 <= j < k < |order| :: order[j] != order[k])
  }

  predicate AllUsable(order: seq<string>, manifest: Manifest, canonical: Canonical, accepts: Accepts) {
    forall k | 0 <= k < |order| :: order[k] in manifest && ClientOf(manifest, canonical, accepts, order[k]).Success?
  }

  /** The map left by inserting every client under its canonical URL, in this order. */
  function ClientMap(order: seq<string>, manifest: Manifest, canonical: Canonical, accepts: Accepts)
    : map<string, Client>
    requires AllUsable(order, manifest, canonical, accepts)
  {
    if order == [] then map[]
    else
      var last := |order| - 1;
      assert order[last] in order;
      var client := ClientOf(manifest, canonical, accepts, order[last]).value;
      ClientMap(order[..last], manifest, canonical, accepts)[client.host := client]
  }

  lemma UsableExactly(order: seq<string>, manifest: Manifest, canonical: Canonical, accepts: Accepts, n: nat)
    requires Visits(order, manifest) && n <= |order|
    ensures AllUsable(order[..n], manifest, canonical, accepts) <==>
            forall j | 0 <= j < n ::
              && manifest[order[j]].Some? && canonical(order[j]).Some?
              && accepts(canonical(order[j]).value, manifest[order[j]].value)
  {
    if AllUsable(order[..n], manifest, canonical, accepts) {
      forall j | 0 <= j < n
        ensures ClientOf(manifest, canonical, accepts, order[j]).Success?
      {
        assert order[..n][j] == order[j];
      }
    }
  }

  lemma VisitedAll(order: seq<string>, manifest: Manifest, canonical: Canonical, accepts: Accepts)
    requires Visits(order, manifest)
    ensures AllUsable(order, manifest, canonical, accepts) <==>
            forall url | url in manifest ::
              && manifest[url].Some? && canonical(url).Some?
              && accepts(canonical(url).value, manifest[url].value)
  {
    if AllUsable(order, manifest, canonical, accepts) {
      EveryOrderUsable(order, order, manifest, canonical, accepts);
    }
  }

  lemma ClientsAreKeyedByHost(order: seq<string>, manifest: Manifest, canonical: Canonical, accepts: Accepts)
    requires AllUsable(order, manifest, canonical, accepts)
    ensures var clients := ClientMap(order, manifest, canonical, accepts);
            forall silo | silo in clients :: clients[silo].host == silo
  {
    forall silo | silo in ClientMap(order, manifest, canonical, accepts) {
      ClientsMatchManifest(order, manifest, canonical, accepts, silo);
    }
  }

  /** The rekeying loop. It succeeds exactly when every entry of the manifest has a credential that
      resolves, a key that is a URL, and a client for the two; otherwise the first entry visited that
      misses one of these gives the error. */
  method BuildClients(order: seq<string>, manifest: Manifest, canonical: Canonical, accepts: Accepts)
    returns (r: Result<Clients, OxideError>)
    requires Visits(order, manifest)
    ensures r.Success? <==>
            forall url | url in manifest ::
              && manifest[url].Some? && canonical(url).Some?
              && accepts(canonical(url).value, manifest[url].value)
    ensures r.Success? ==>
              AllUsable(order, manifest, canonical, accepts)
              && r.value == ClientMap(order, manifest, canonical, accepts)
    ensures r.Failure? ==>
              exists k | 0 <= k < |order| ::
                && (forall j | 0 <= j < k ::
                      && manifest[order[j]].Some? && canonical(order[j]).Some?
                      && accepts(canonical(order[j]).value, manifest[order[j]].value))
                && if manifest[order[k]].None? then r.error == ResolveParam
                   else if canonical(order[k]).None? then r.error == InvalidSiloUrl(order[k])
                   else !accepts(canonical(order[k]).value, manifest[order[k]].value)
                        && r.error == AuthFailed(canonical(order[k]).value)
  {
    var clients: map<string, Client> := map[];
    VisitedAll(order, manifest, canonical, accepts);
    for k := 0 to |order|
      invariant AllUsable(order[..k], manifest, canonical, accepts)
      invariant clients == ClientMap(order[..k], manifest, canonical, accepts)
    {
      var url := order[k];
      UsableExactly(order, manifest, canonical, accepts, k);
      if manifest[url].None? {
        return Failure(ResolveParam);
      }
      var silo := canonical(url);
      if silo.None? {
        return Failure(InvalidSiloUrl(url));
      }
      if !accepts(silo.value, manifest[url].value) {
        return Failure(AuthFailed(silo.value));
      }
      clients := clients[silo.value := Client(silo.value, manifest[url].value)];
      assert order[..k + 1][..k] == order[..k];
    }
    assert order[..|order|] == order;
    ClientsAreKeyedByHost(order, manifest, canonical, accepts);
    return Success(clients);
  }

  /** Some entry with this canonical form provides this client. */
  predicate Provides(manifest: Manifest, canonical: Canonical, silo: string, client: Client, url: string) {
    url in manifest && canonical(url) == Some(silo) && manifest[url] == Some(client.token) && client.host == silo
  }

  /** The clients are keyed by exactly the canonical forms of the manifest's keys, and each one holds
      the credential of an entry with that form, namely the last one visited. */
  lemma {:induction false} ClientsMatchManifest(
      order: seq<string>, manifest: Manifest, canonical: Canonical, accepts: Accepts, silo: string)
    requires AllUsable(order, manifest, canonical, accepts)
    ensures var clients := ClientMap(order, manifest, canonical, accepts);
            && (silo in clients <==> exists k | 0 <= k < |order| :: canonical(order[k]) == Some(silo))
            && (silo in clients ==>
                  exists k | 0 <= k < |order| ::
                    && Provides(manifest, canonical, silo, clients[silo], order[k])
                    && forall m | k < m < |order| :: canonical(order[m]) != Some(silo))
  {
    if order != [] {
      var last := |order| - 1;
      var init := order[..last];
      ClientsMatchManifest(init, manifest, canonical, accepts, silo);
      var clients := ClientMap(order, manifest, canonical, accepts);
      assert forall k | 0 <= k < last :: init[k] == order[k];
      if canonical(order[last]) == Some(silo) {
        assert Provides(manifest, canonical, silo, clients[silo], order[last]);
      } else if silo in clients {
        var k :| 0 <= k < last && Provides(manifest, canonical, silo, clients[silo], init[k])
                 && forall m | k < m < last :: canonical(init[m]) != Some(silo);
        assert Provides(manifest, canonical, silo, clients[silo], order[k]);
      }
    }
  }

  /** Entries that normalize to the same URL carry the same credential. */
  predicate Unambiguous(manifest: Manifest, canonical: Canonical) {
    forall u, v | u in manifest && v in manifest && canonical(u) == canonical(v) :: manifest[u] == manifest[v]
  }

  lemma OrderIsIrrelevant(
      order: seq<string>, other: seq<string>, manifest: Manifest, canonical: Canonical, accepts: Accepts)
    requires Visits(order, manifest) && Visits(other, manifest)
    requires AllUsable(order, manifest, canonical, accepts) && Unambiguous(manifest, canonical)
    ensures AllUsable(other, manifest, canonical, accepts)
    ensures ClientMap(order, manifest, canonical, accepts) == ClientMap(other, manifest, canonical, accepts)
  {
    EveryOrderUsable(order, other, manifest, canonical, accepts);
    var clients := ClientMap(order, manifest, canonical, accepts);
    var clients' := ClientMap(other, manifest, canonical, accepts);
    forall silo
      ensures silo in clients <==> silo in clients'
      ensures silo in clients && silo in clients' ==> clients[silo] == clients'[silo]
    {
      ClientsMatchManifest(order, manifest, canonical, accepts, silo);
      ClientsMatchManifest(other, manifest, canonical, accepts, silo);
      SameForms(order, other, manifest, canonical, silo);
      SameForms(other, order, manifest, canonical, silo);
    }
  }

  lemma SameForms(order: seq<string>, other: seq<string>, manifest: Manifest, canonical: Canonical, silo: string)
    requires Visits(order, manifest) && Visits(other, manifest)
    ensures (exists k | 0 <= k < |order| :: canonical(order[k]) == Some(silo)) ==>
            exists k | 0 <= k < |other| :: canonical(other[k]) == Some(silo)
  {
    if k :| 0 <= k < |order| && canonical(order[k]) == Some(silo) {
      assert order[k] in manifest;
      assert order[k] in other;
    }
  }

  /** Every order can be rearranged to visit a chosen key last. */
  lemma VisitLast(order: seq<string>, manifest: Manifest, url: string) returns (other: seq<string>)
    requires Visits(order, manifest) && url in manifest
    ensures Visits(other, manifest) && other != [] && other[|other| - 1] == url
  {
    var k :| 0 <= k < |order| && order[k] == url;
    other := order[..k] + order[k + 1..] + [url];
    forall u | u in manifest
      ensures u in other
    {
      var m :| 0 <= m < |order| && order[m] == u;
      assert m < k ==> other[m] == u;
      assert m > k ==> other[m - 1] == u;
    }
  }

  /** The iteration order matters exactly when two spellings of one URL carry different credentials. */
  lemma OrderMattersExactly(order: seq<string>, manifest: Manifest, canonical: Canonical, accepts: Accepts)
    requires Visits(order, manifest) && AllUsable(order, manifest, canonical, accepts)
    ensures Unambiguous(manifest, canonical) <==>
            forall other | Visits(other, manifest) && AllUsable(other, manifest, canonical, accepts) ::
              ClientMap(other, manifest, canonical, accepts) == ClientMap(order, manifest, canonical, accepts)
  {
    if Unambiguous(manifest, canonical) {
      forall other | Visits(other, manifest) && AllUsable(other, manifest, canonical, accepts) {
        OrderIsIrrelevant(order, other, manifest, canonical, accepts);
      }
    } else {
      var u, v :| u in manifest && v in manifest && canonical(u) == canonical(v) && manifest[u] != manifest[v];
      var endsInU := VisitLast(order, manifest, u);
      var endsInV := VisitLast(order, manifest, v);
      EveryOrderUsable(order, endsInU, manifest, canonical, accepts);
      EveryOrderUsable(order, endsInV, manifest, canonical, accepts);
      var silo := canonical(u).value;
      assert ClientMap(endsInU, manifest, canonical, accepts)[silo].token == manifest[u].value;
      assert ClientMap(endsInV, manifest, canonical, accepts)[silo].token == manifest[v].value;
    }
  }

  lemma EveryOrderUsable(
      order: seq<string>, other: seq<string>, manifest: Manifest, canonical: Canonical, accepts: Accepts)
    requires Visits(order, manifest) && Visits(other, manifest) && AllUsable(order, manifest, canonical, accepts)
    ensures AllUsable(other, manifest, canonical, accepts)
    ensures forall url | url in manifest :: ClientOf(manifest, canonical, accepts, url).Success?
  {
    forall url | url in manifest
      ensures ClientOf(manifest, canonical, accepts, url).Success?
    {
      var k :| 0 <= k < |order| && order[k] == url;
    }
  }
}
