/**
 * Cache keys of the query layer (src/API/queryKeys.ts). A key is a tuple whose
 * first element names a domain; `undefined` arguments are dropped so that
 * calls that differ only in omitted arguments share one cache slot. The
 * query hooks' own local factories (src/hooks/usePickupQueries.ts and
 * src/hooks/useAuthQueries.ts) are modelled here too, so that the keys the
 * mutations invalidate can be compared with the keys the queries use.
 */
module QueryKeys {
  import opened Wrappers
  import Sequences

  datatype PaginationParams = PaginationParams(page: Option<int>, limit: Option<int>)

  /** One element of a key tuple: a string, a number, a parameter object or `undefined`. */
  datatype KeyPart = Str(s: string) | Num(n: int) | Params(p: PaginationParams) | Undefined

  type QueryKey = seq<KeyPart>

  predicate Defined(k: KeyPart) {
    !k.Undefined?
  }

  predicate HasPrefix(key: QueryKey, prefix: QueryKey) {
    |prefix| <= |key| && key[..|prefix|] == prefix
  }

  /** An optional parameter object as the argument list sees it. */
  function ParamArg(params: Option<PaginationParams>): KeyPart {
    match params
    case Some(p) => Params(p)
    case None => Undefined
  }

  /**
   * `createQueryKey(domain, ...keys)`: the domain followed by exactly the
   * defined arguments, in their original order.
   */
  function CreateQueryKey(domain: string, keys: seq<KeyPart>): (r: QueryKey)
    ensures |r| == 1 + Sequences.Count(keys, Defined)
    ensures r[0] == Str(domain)
    ensures forall i :: 1 <= i < |r| ==> r[i] != Undefined
    ensures Sequences.IsSubsequence(r[1..], keys)
  {
    Sequences.FilterIsSubsequence(keys, Defined);
    var rest := Sequences.Filter(keys, Defined);
    assert ([Str(domain)] + rest)[1..] == rest;
    [Str(domain)] + rest
  }

  /** Arguments that are all defined are kept unchanged. */
  lemma CreateQueryKeyAllDefined(domain: string, keys: seq<KeyPart>)
    requires forall i :: 0 <= i < |keys| ==> keys[i] != Undefined
    ensures CreateQueryKey(domain, keys) == [Str(domain)] + keys
  {
    Sequences.FilterAll(keys, Defined);
  }

  /** Dropping `undefined` commutes with splitting the argument list. */
  lemma CreateQueryKeyAppend(domain: string, a: seq<KeyPart>, b: seq<KeyPart>)
    ensures CreateQueryKey(domain, a + b) == CreateQueryKey(domain, a) + CreateQueryKey(domain, b)[1..]
  {
    Sequences.FilterAppend(a, b, Defined);
    assert CreateQueryKey(domain, b)[1..] == Sequences.Filter(b, Defined);
  }

  /** `createQueryKey` on one argument. */
  lemma CreateQueryKeyOne(domain: string, a: KeyPart)
    ensures CreateQueryKey(domain, [a]) == [Str(domain)] + (if Defined(a) then [a] else [])
  {
    assert [a][1..] == [];
  }

  /** `createQueryKey` on two arguments. */
  lemma CreateQueryKeyTwo(domain: string, a: KeyPart, b: KeyPart)
    ensures CreateQueryKey(domain, [a, b])
         == [Str(domain)] + (if Defined(a) then [a] else []) + (if Defined(b) then [b] else [])
  {
    assert [a, b][1..] == [b];
    CreateQueryKeyOne(domain, b);
    assert Sequences.Filter([b], Defined) == (if Defined(b) then [b] else []);
  }

  // authKeys

  const AuthAll: QueryKey := [Str("auth")]

  function AuthProfile(): (r: QueryKey)
    ensures r == AuthAll + [Str("profile")]
  {
    CreateQueryKeyOne("auth", Str("profile"));
    CreateQueryKey("auth", [Str("profile")])
  }

  function AuthUser(id: string): (r: QueryKey)
    ensures r == AuthAll + [Str("user"), Str(id)]
  {
    CreateQueryKeyTwo("auth", Str("user"), Str(id));
    CreateQueryKey("auth", [Str("user"), Str(id)])
  }

  // pickupKeys

  const PickupAll: QueryKey := [Str("pickups")]

  function PickupMy(): (r: QueryKey)
    ensures r == PickupAll + [Str("my")]
  {
    CreateQueryKeyOne("pickups", Str("my"));
    CreateQueryKey("pickups", [Str("my")])
  }

  function PickupDetail(id: string): (r: QueryKey)
    ensures r == PickupAll + [Str("detail"), Str(id)]
  {
    CreateQueryKeyTwo("pickups", Str("detail"), Str(id));
    CreateQueryKey("pickups", [Str("detail"), Str(id)])
  }

  function PickupByStatus(status: string): (r: QueryKey)
    ensures r == PickupAll + [Str("status"), Str(status)]
  {
    CreateQueryKeyTwo("pickups", Str("status"), Str(status));
    CreateQueryKey("pickups", [Str("status"), Str(status)])
  }

  function PickupByUser(userId: string): (r: QueryKey)
    ensures r == PickupAll + [Str("user"), Str(userId)]
  {
    CreateQueryKeyTwo("pickups", Str("user"), Str(userId));
    CreateQueryKey("pickups", [Str("user"), Str(userId)])
  }

  // adminKeys

  const AdminAll: QueryKey := [Str("admin")]

  /** `adminKeys.pickups(params)`: an omitted parameter object is dropped from the key. */
  function AdminPickups(params: Option<PaginationParams>): (r: QueryKey)
    ensures params.None? ==> r == AdminAll + [Str("pickups")]
    ensures params.Some? ==> r == AdminAll + [Str("pickups"), Params(params.value)]
  {
    CreateQueryKeyTwo("admin", Str("pickups"), ParamArg(params));
    CreateQueryKey("admin", [Str("pickups"), ParamArg(params)])
  }

  function AdminDrivers(): (r: QueryKey)
    ensures r == AdminAll + [Str("drivers")]
  {
    CreateQueryKeyOne("admin", Str("drivers"));
    CreateQueryKey("admin", [Str("drivers")])
  }

  function AdminStats(): (r: QueryKey)
    ensures r == AdminAll + [Str("stats")]
  {
    CreateQueryKeyOne("admin", Str("stats"));
    CreateQueryKey("admin", [Str("stats")])
  }

  /** `adminKeys.users(params)`: an omitted parameter object is dropped from the key. */
  function AdminUsers(params: Option<PaginationParams>): (r: QueryKey)
    ensures params.None? ==> r == AdminAll + [Str("users")]
    ensures params.Some? ==> r == AdminAll + [Str("users"), Params(params.value)]
  {
    CreateQueryKeyTwo("admin", Str("users"), ParamArg(params));
    CreateQueryKey("admin", [Str("users"), ParamArg(params)])
  }

  function AdminPickupDetail(id: string): (r: QueryKey)
    ensures r == AdminAll + [Str("pickup"), Str(id)]
  {
    CreateQueryKeyTwo("admin", Str("pickup"), Str(id));
    CreateQueryKey("admin", [Str("pickup"), Str(id)])
  }

  function AdminDashboard(): (r: QueryKey)
    ensures r == AdminAll + [Str("dashboard")]
  {
    CreateQueryKeyOne("admin", Str("dashboard"));
    CreateQueryKey("admin", [Str("dashboard")])
  }

  /** Every key a factory builds lies under that factory's `all` key. */
  lemma FactoriesExtendTheirDomainKey(id: string, params: Option<PaginationParams>)
    ensures HasPrefix(AuthProfile(), AuthAll) && HasPrefix(AuthUser(id), AuthAll)
    ensures HasPrefix(PickupMy(), PickupAll) && HasPrefix(PickupDetail(id), PickupAll)
    ensures HasPrefix(PickupByStatus(id), PickupAll) && HasPrefix(PickupByUser(id), PickupAll)
    ensures HasPrefix(AdminPickups(params), AdminAll) && HasPrefix(AdminUsers(params), AdminAll)
    ensures HasPrefix(AdminDrivers(), AdminAll) && HasPrefix(AdminStats(), AdminAll)
    ensures HasPrefix(AdminPickupDetail(id), AdminAll) && HasPrefix(AdminDashboard(), AdminAll)
  {
  }

  /** `authKeys.user` is injective, and the profile key is not a user key. */
  lemma AuthKeysDistinct(a: string, b: string)
    ensures AuthUser(a) == AuthUser(b) ==> a == b
    ensures AuthProfile() != AuthUser(a)
  {
    if AuthUser(a) == AuthUser(b) { assert AuthUser(a)[2] == AuthUser(b)[2]; }
  }

  /** The parameterised pickup factories are injective and never share a key with each other. */
  lemma PickupKeysDistinct(a: string, b: string)
    ensures PickupDetail(a) == PickupDetail(b) ==> a == b
    ensures PickupByStatus(a) == PickupByStatus(b) ==> a == b
    ensures PickupByUser(a) == PickupByUser(b) ==> a == b
    ensures PickupMy() != PickupDetail(a) && PickupDetail(a) != PickupByStatus(b)
    ensures PickupDetail(a) != PickupByUser(b) && PickupByStatus(a) != PickupByUser(b)
  {
    if PickupDetail(a) == PickupDetail(b) { assert PickupDetail(a)[2] == PickupDetail(b)[2]; }
    if PickupByStatus(a) == PickupByStatus(b) { assert PickupByStatus(a)[2] == PickupByStatus(b)[2]; }
    if PickupByUser(a) == PickupByUser(b) { assert PickupByUser(a)[2] == PickupByUser(b)[2]; }
    assert PickupDetail(a)[1] != PickupByStatus(b)[1];
    assert PickupDetail(a)[1] != PickupByUser(b)[1];
    assert PickupByStatus(a)[1] != PickupByUser(b)[1];
  }

  /** The parameterised admin factories are injective. */
  lemma AdminKeysInjective(a: string, b: string, p: Option<PaginationParams>, q: Option<PaginationParams>)
    ensures AdminPickupDetail(a) == AdminPickupDetail(b) ==> a == b
    ensures AdminPickups(p) == AdminPickups(q) ==> p == q
    ensures AdminUsers(p) == AdminUsers(q) ==> p == q
  {
    if AdminPickupDetail(a) == AdminPickupDetail(b) { assert AdminPickupDetail(a)[2] == AdminPickupDetail(b)[2]; }
    if AdminPickups(p) == AdminPickups(q) && p.Some? { assert |AdminPickups(q)| == 3; assert AdminPickups(p)[2] == AdminPickups(q)[2]; }
    if AdminUsers(p) == AdminUsers(q) && p.Some? { assert |AdminUsers(q)| == 3; assert AdminUsers(p)[2] == AdminUsers(q)[2]; }
  }

  /** Different admin operations never share a key. */
  lemma AdminKeysDistinct(a: string, p: Option<PaginationParams>, q: Option<PaginationParams>)
    ensures AdminPickups(p) != AdminUsers(q) && AdminPickups(p) != AdminPickupDetail(a)
    ensures AdminUsers(p) != AdminPickupDetail(a)
    ensures AdminDrivers() != AdminStats() && AdminStats() != AdminDashboard() && AdminDrivers() != AdminDashboard()
  {
    assert AdminPickups(p)[1] != AdminUsers(q)[1];
    assert AdminPickups(p)[1] != AdminPickupDetail(a)[1];
    assert AdminUsers(p)[1] != AdminPickupDetail(a)[1];
  }

  // The local factories of the pickup and auth query hooks.

  function HookPickupMy(): QueryKey {
    PickupAll + [Str("my")]
  }

  function HookPickupDetail(id: string): QueryKey {
    PickupAll + [Str("detail"), Str(id)]
  }

  function HookAuthProfile(): QueryKey {
    AuthAll + [Str("profile")]
  }

  /**
   * The keys the mutations invalidate (shared factories) are the keys the
   * queries cache under (hook-local factories).
   */
  lemma HookKeysAgreeWithSharedKeys(id: string)
    ensures HookPickupMy() == PickupMy()
    ensures HookPickupDetail(id) == PickupDetail(id)
    ensures HookAuthProfile() == AuthProfile()
  {
  }
}
