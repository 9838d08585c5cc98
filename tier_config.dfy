/** The tier catalogue of src/lib/tierConfig.ts: a process-wide memoised
    fetch of `GET /config/tiers` with a hard-coded fallback. The two
    module-level variables `cachedTiers` and `fetchPromise` are the fields of
    `TierCache`; the pending promise is `fetchInFlight`, and resolving it is
    the separate step `Settle`. */
module TierConfig {
  import opened Wrappers
  import opened Seqs

  datatype TierIcon = Free | Std | Pro

  datatype Tier = Tier(id: string, tierLabel: string, priceDisplay: string, icon: TierIcon, features: Option<seq<string>>)

  const FallbackTiers: seq<Tier> := [
    Tier("lite", "Lite", "Free", Free, None),
    Tier("standard", "Standard", "", Std, None),
    Tier("premium", "Premium", "", Pro, None)
  ]

  /** The fallback lists lite, standard and premium, in that order, with
      icons free, std and pro. */
  lemma FallbackOrder()
    ensures |FallbackTiers| == 3
    ensures FallbackTiers[0].id == "lite" && FallbackTiers[0].icon == Free
    ensures FallbackTiers[1].id == "standard" && FallbackTiers[1].icon == Std
    ensures FallbackTiers[2].id == "premium" && FallbackTiers[2].icon == Pro
  {
  }

  /** How the catalogue request ended: a response whose body parsed as a
      tier list (or did not), or a rejected fetch. */
  datatype CatalogResponse = Response(ok: bool, body: Option<seq<Tier>>) | NetworkError

  /** The value the fetch chain settles with: the body verbatim on success,
      otherwise the fallback (`.catch` swallows every failure). */
  function SettledTiers(response: CatalogResponse): (tiers: seq<Tier>)
    ensures response.Response? && response.ok && response.body.Some? ==> tiers == response.body.value
    ensures !(response.Response? && response.ok && response.body.Some?) ==> tiers == FallbackTiers
  {
    match response
    case Response(ok, Some(data)) => if ok then data else FallbackTiers
    case _ => FallbackTiers
  }

  /** What a call to `fetchTiers` hands back: the cached list at once, the
      promise already in flight, or a promise for a request it just started. */
  datatype FetchCall = Cached(tiers: seq<Tier>) | JoinedInFlight | StartedRequest

  class TierCache {
    var cachedTiers: Option<seq<Tier>>
    var fetchInFlight: bool
    var requestsIssued: nat
    var requestsSettled: nat

    /** At most one request is outstanding, and none once the cache is set. */
    ghost predicate Valid()
      reads this
    {
      && requestsIssued == requestsSettled + (if fetchInFlight then 1 else 0)
      && (fetchInFlight ==> cachedTiers.None?)
    }

    constructor ()
      ensures Valid()
      ensures cachedTiers.None? && !fetchInFlight && requestsIssued == 0
    {
      cachedTiers, fetchInFlight := None, false;
      requestsIssued, requestsSettled := 0, 0;
    }

    /** `fetchTiers()` */
    method FetchTiers() returns (call: FetchCall)
      requires Valid()
      modifies this
      ensures Valid()
      ensures old(cachedTiers).Some? ==> call == Cached(old(cachedTiers).value) && unchanged(this)
      ensures old(cachedTiers).None? && old(fetchInFlight) ==> call == JoinedInFlight && unchanged(this)
      ensures old(cachedTiers).None? && !old(fetchInFlight) ==>
        call == StartedRequest && fetchInFlight && cachedTiers.None? &&
        requestsIssued == old(requestsIssued) + 1 && requestsSettled == old(requestsSettled)
    {
      if cachedTiers.Some? {
        return Cached(cachedTiers.value);
      }
      if fetchInFlight {
        return JoinedInFlight;
      }
      fetchInFlight := true;
      requestsIssued := requestsIssued + 1;
      call := StartedRequest;
    }

    /** The in-flight promise settles: every caller that holds it receives
        `tiers`, the cache is set, and `fetchPromise` is cleared. It never
        rejects. */
    method Settle(response: CatalogResponse) returns (tiers: seq<Tier>)
      requires Valid() && fetchInFlight
      modifies this
      ensures Valid()
      ensures tiers == SettledTiers(response)
      ensures cachedTiers == Some(tiers) && !fetchInFlight
      ensures requestsIssued == old(requestsIssued) && requestsSettled == old(requestsSettled) + 1
    {
      tiers := SettledTiers(response);
      cachedTiers := Some(tiers);
      fetchInFlight := false;
      requestsSettled := requestsSettled + 1;
    }
  }

  /** A client that calls `fetchTiers` twice before the request settles, then
      once after, issues exactly one request and sees one list. */
  method ConcurrentCallers(response: CatalogResponse) returns (first: seq<Tier>, later: FetchCall, issued: nat)
    ensures first == SettledTiers(response) && later == Cached(first)
    ensures issued == 1
  {
    var cache := new TierCache();
    var a := cache.FetchTiers();
    var b := cache.FetchTiers();
    assert a == StartedRequest && b == JoinedInFlight;
    assert cache.requestsIssued == 1;
    first := cache.Settle(response);
    later := cache.FetchTiers();
    issued := cache.requestsIssued;
  }

  /** The initial state of `useTiers`: the cache if there is one, otherwise
      the fallback, and loading exactly when there is no cache. */
  function UseTiersInitial(cachedTiers: Option<seq<Tier>>): (state: (seq<Tier>, bool))
    ensures state.1 <==> cachedTiers.None?
    ensures cachedTiers.Some? ==> state.0 == cachedTiers.value
    ensures cachedTiers.None? ==> state.0 == FallbackTiers
  {
    (cachedTiers.GetOr(FallbackTiers), cachedTiers.None?)
  }

  /** `getTierById`: the first tier with that id, if any. */
  function GetTierById(tiers: seq<Tier>, id: string): (t: Option<Tier>)
    ensures t.None? <==> forall i :: 0 <= i < |tiers| ==> tiers[i].id != id
    ensures t.Some? ==> t.value.id == id
    ensures t.Some? ==> exists i :: 0 <= i < |tiers| && tiers[i] == t.value &&
                                    forall j :: 0 <= j < i ==> tiers[j].id != id
  {
    match FindFirst(tiers, (x: Tier) => x.id == id)
    case None => None
    case Some(k) => Some(tiers[k])
  }

  /** Every id of the fallback catalogue resolves to its own entry. */
  lemma FallbackLookups()
    ensures GetTierById(FallbackTiers, "lite") == Some(FallbackTiers[0])
    ensures GetTierById(FallbackTiers, "standard") == Some(FallbackTiers[1])
    ensures GetTierById(FallbackTiers, "premium") == Some(FallbackTiers[2])
  {
    assert FallbackTiers[0].id == "lite";
    assert FallbackTiers[1].id == "standard" && FallbackTiers[0].id != "standard";
    assert FallbackTiers[2].id == "premium" && FallbackTiers[0].id != "premium" && FallbackTiers[1].id != "premium";
  }
}
