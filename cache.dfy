/** The two TTL key-value stores of cache.js: memberships for 300 s and roles
    for 600 s. Keys are strings, as in the plain object node-cache keeps its
    entries in (a numeric key such as a rank is stored under its decimal
    text). Time is the caller's `now`, in milliseconds. */
module Cache {
  import opened Js
  import opened RobloxApi

  const MembershipTtlMs: int := 300 * 1000
  const RoleTtlMs: int := 600 * 1000

  /** A stored value and the last millisecond at which it may be returned. */
  datatype Entry = Entry(value: string, expiresAt: int)

  type Store = map<string, Entry>

  /** node-cache `get`: the value, unless missing or expired (an entry lives
      while `now <= expiresAt`; an expired one reads as absent). */
  function Lookup(store: Store, key: string, now: int): Option<string>
  {
    if key in store && now <= store[key].expiresAt then Some(store[key].value) else None
  }

  /** node-cache `set` with the store's standard TTL. */
  function Put(store: Store, key: string, value: string, now: int, ttlMs: int): Store
  {
    store[key := Entry(value, now + ttlMs)]
  }

  /** The key a role's rank is stored under. */
  function RankKey(rank: int): string
  {
    IntToDecimal(rank)
  }

  /** `roles.forEach(role => rolesCache.set(role.rank, role.id))`. */
  function PutRoles(store: Store, roles: seq<Role>, now: int): Store
    decreases |roles|
  {
    if roles == [] then store
    else
      var last := roles[|roles| - 1];
      Put(PutRoles(store, roles[..|roles| - 1], now), RankKey(last.rank), last.id, now, RoleTtlMs)
  }

  /** A saved value is returned up to and including the TTL's last
      millisecond, and is absent afterwards. */
  lemma SavedValueLivesForTtl(store: Store, key: string, value: string, savedAt: int, ttlMs: int, now: int)
    ensures Lookup(Put(store, key, value, savedAt, ttlMs), key, now)
         == if now <= savedAt + ttlMs then Some(value) else None
  {
  }

  /** A membership saved under a key is returned for 300 s, then is absent. */
  lemma SavedMembershipLivesFor300s(store: Store, key: string, value: string, savedAt: int, now: int)
    ensures savedAt <= now <= savedAt + 300000 ==> Lookup(Put(store, key, value, savedAt, MembershipTtlMs), key, now) == Some(value)
    ensures now > savedAt + 300000 ==> Lookup(Put(store, key, value, savedAt, MembershipTtlMs), key, now) == None
  {
    SavedValueLivesForTtl(store, key, value, savedAt, MembershipTtlMs, now);
  }

  /** A save touches only its own key. */
  lemma PutLeavesOtherKeys(store: Store, key: string, value: string, savedAt: int, ttlMs: int, other: string, now: int)
    requires other != key
    ensures Lookup(Put(store, key, value, savedAt, ttlMs), other, now) == Lookup(store, other, now)
  {
  }

  /** After saving a list of roles, each listed rank holds the id of the last
      role in the list with that rank, for 600 s. */
  lemma {:induction false} PutRolesLastWins(store: Store, roles: seq<Role>, now: int, i: nat)
    requires i < |roles|
    requires forall j :: i < j < |roles| ==> roles[j].rank != roles[i].rank
    ensures RankKey(roles[i].rank) in PutRoles(store, roles, now)
    ensures PutRoles(store, roles, now)[RankKey(roles[i].rank)] == Entry(roles[i].id, now + RoleTtlMs)
    decreases |roles|
  {
    var n := |roles| - 1;
    if i < n {
      assert roles[n].rank != roles[i].rank;
      if RankKey(roles[n].rank) == RankKey(roles[i].rank) {
        IntToDecimalInjective(roles[n].rank, roles[i].rank);
      }
      var init := roles[..n];
      assert forall j :: i < j < |init| ==> init[j].rank == roles[j].rank;
      PutRolesLastWins(store, init, now, i);
    }
  }

  /** Saving roles changes no key that is not the key of a listed rank. */
  lemma {:induction false} PutRolesFrame(store: Store, roles: seq<Role>, now: int, key: string)
    requires forall j :: 0 <= j < |roles| ==> RankKey(roles[j].rank) != key
    ensures key in PutRoles(store, roles, now) <==> key in store
    ensures key in store ==> PutRoles(store, roles, now)[key] == store[key]
    decreases |roles|
  {
    if roles != [] {
      PutRolesFrame(store, roles[..|roles| - 1], now, key);
    }
  }

  /** A role saved by `saveRoles` is returned for its rank for 600 s, then is
      absent, when it is the last listed role of that rank. */
  lemma SavedRoleLivesFor600s(store: Store, roles: seq<Role>, savedAt: int, i: nat, now: int)
    requires i < |roles|
    requires forall j :: i < j < |roles| ==> roles[j].rank != roles[i].rank
    ensures savedAt <= now <= savedAt + 600000 ==> Lookup(PutRoles(store, roles, savedAt), RankKey(roles[i].rank), now) == Some(roles[i].id)
    ensures now > savedAt + 600000 ==> Lookup(PutRoles(store, roles, savedAt), RankKey(roles[i].rank), now) == None
  {
    PutRolesLastWins(store, roles, savedAt, i);
  }

  /** The process-wide pair of stores. */
  class Caches {
    var memberships: Store
    var roles: Store

    constructor ()
      ensures memberships == map[] && roles == map[]
    {
      memberships := map[];
      roles := map[];
    }

    /** `getMembership(key)`. */
    function GetMembership(key: string, now: int): Option<string>
      reads this
    {
      Lookup(memberships, key, now)
    }

    /** `saveMembership(key, value)`: writes the membership store only, and
        returns nothing. */
    method SaveMembership(key: string, value: string, now: int)
      modifies this
      ensures memberships == Put(old(memberships), key, value, now, MembershipTtlMs)
      ensures roles == old(roles)
    {
      memberships := Put(memberships, key, value, now, MembershipTtlMs);
    }

    /** `getRoleByRank(key)`. */
    function GetRoleByRank(key: string, now: int): Option<string>
      reads this
    {
      Lookup(roles, key, now)
    }

    /** `saveRoles(roles)`: one `set` per listed role, in list order; the
        membership store is untouched. */
    method SaveRoles(list: seq<Role>, now: int)
      modifies this
      ensures roles == PutRoles(old(roles), list, now)
      ensures memberships == old(memberships)
    {
      var i := 0;
      while i < |list|
        invariant 0 <= i <= |list|
        invariant roles == PutRoles(old(roles), list[..i], now)
        invariant memberships == old(memberships)
      {
        var role := list[i];
        assert list[..i + 1][..i] == list[..i];
        roles := Put(roles, RankKey(role.rank), role.id, now, RoleTtlMs);
        i := i + 1;
      }
      assert list[..i] == list;
    }

    /** `clearAllCaches()`: both stores emptied; every lookup then misses. */
    method ClearAllCaches()
      modifies this
      ensures memberships == map[] && roles == map[]
      ensures forall key, now :: GetMembership(key, now) == None && GetRoleByRank(key, now) == None
    {
      memberships := map[];
      roles := map[];
    }
  }
}
