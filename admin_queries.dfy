/**
 * The admin query hook's own key factory (src/hooks/useAdminQueries.ts).
 * Unlike the shared factory, it spreads the parameter object into the tuple
 * without filtering, so an omitted `params` stays in the key as `undefined`.
 */
module AdminQueries {
  import opened Wrappers
  import opened QueryKeys

  const All: QueryKey := [Str("admin")]

  function Pickups(params: Option<PaginationParams>): (r: QueryKey)
    ensures |r| == 3 && HasPrefix(r, All)
    ensures r[1] == Str("pickups") && r[2] == ParamArg(params)
  {
    All + [Str("pickups"), ParamArg(params)]
  }

  function Drivers(): (r: QueryKey)
    ensures r == [Str("admin"), Str("drivers")]
  {
    All + [Str("drivers")]
  }

  function Stats(): (r: QueryKey)
    ensures r == [Str("admin"), Str("stats")]
  {
    All + [Str("stats")]
  }

  function Users(params: Option<PaginationParams>): (r: QueryKey)
    ensures |r| == 3 && HasPrefix(r, All)
    ensures r[1] == Str("users") && r[2] == ParamArg(params)
  {
    All + [Str("users"), ParamArg(params)]
  }

  function PickupDetail(id: string): (r: QueryKey)
    ensures |r| == 3 && HasPrefix(r, All)
    ensures r[1] == Str("pickup") && r[2] == Str(id)
  {
    All + [Str("pickup"), Str(id)]
  }

  /** The options the pickup-detail query is registered with. */
  datatype QueryOptions = QueryOptions(key: QueryKey, enabled: bool, staleTimeMs: nat)

  /** `getPickupDetails(pickupId)`: the query runs only for a non-empty id. */
  function PickupDetailsQuery(pickupId: string): (q: QueryOptions)
    ensures q.enabled <==> pickupId != ""
    ensures q.key == PickupDetail(pickupId)
    ensures q.staleTimeMs == 2 * 60 * 1000
  {
    QueryOptions(PickupDetail(pickupId), pickupId != "", 2 * 60 * 1000)
  }

  lemma PickupDetailInjective(a: string, b: string)
    ensures PickupDetail(a) == PickupDetail(b) ==> a == b
  {
    if PickupDetail(a) == PickupDetail(b) {
      assert PickupDetail(a)[2] == PickupDetail(b)[2];
    }
  }

  /**
   * How the local and the shared admin factories relate: with a parameter
   * object they agree; without one the shared key is a proper prefix of the
   * local key, whose last element is `undefined`, so the two never coincide.
   * The fixed keys and the pickup-detail key agree.
   */
  lemma LocalAndSharedAdminKeys(params: Option<PaginationParams>, id: string)
    ensures params.Some? ==> Pickups(params) == AdminPickups(params) && Users(params) == AdminUsers(params)
    ensures params.None? ==> HasPrefix(Pickups(params), AdminPickups(params)) && Pickups(params) != AdminPickups(params)
    ensures params.None? ==> HasPrefix(Users(params), AdminUsers(params)) && Users(params) != AdminUsers(params)
    ensures Drivers() == AdminDrivers() && Stats() == AdminStats()
    ensures PickupDetail(id) == AdminPickupDetail(id)
  {
    if params.None? {
      assert |Pickups(params)| != |AdminPickups(params)|;
      assert |Users(params)| != |AdminUsers(params)|;
    }
  }
}
