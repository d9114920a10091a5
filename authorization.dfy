/** The `authorize` middleware and its permission cache. The effective
    permissions of a (user, company) pair are cached for five minutes; an
    entry is used only while its expiry lies strictly in the future, and
    role changes drop the pair's entry. A route passes when the user holds
    every permission it requires. Times are milliseconds from the clock the
    caller passes in. */
module Authorization {
  import opened Common
  import opened Tenancy
  import opened Authentication

  /** `CACHE_TTL`: five minutes. */
  const CacheTtl: nat := 5 * 60 * 1000

  datatype Entry = Entry(permissions: seq<string>, expires: int)

  /** The cache key `${userId}:${companyId}`; user ids are UUIDs, which
      contain no colon, so the key determines the pair. */
  type Key = (UserId, CompanyId)

  /** The cached permissions of a pair, if its entry is still fresh at `now`. */
  function Lookup(entries: map<Key, Entry>, u: UserId, c: CompanyId, now: int): (r: Option<seq<string>>)
    ensures r.Some? <==> (u, c) in entries && entries[(u, c)].expires > now
    ensures r.Some? ==> r.value == entries[(u, c)].permissions
  {
    if (u, c) in entries && entries[(u, c)].expires > now then Some(entries[(u, c)].permissions) else None
  }

  /** A freshly stored entry serves until just before its expiry, and not at
      the expiry instant itself. */
  lemma FreshEntryServes(entries: map<Key, Entry>, u: UserId, c: CompanyId, perms: seq<string>, now: int, later: int)
    requires now <= later
    ensures var e := entries[(u, c) := Entry(perms, now + CacheTtl)];
      (Lookup(e, u, c, later) == Some(perms) <==> later < now + CacheTtl)
      && Lookup(e, u, c, now + CacheTtl) == None
  {
  }

  /** After invalidation the pair has no entry, so the next load recomputes;
      every other pair's lookups are as before. */
  lemma InvalidationForcesReload(entries: map<Key, Entry>, u: UserId, c: CompanyId, now: int)
    ensures Lookup(entries - {(u, c)}, u, c, now) == None
    ensures forall v: UserId, d: CompanyId :: (v, d) != (u, c) ==>
      Lookup(entries - {(u, c)}, v, d, now) == Lookup(entries, v, d, now)
  {
  }

  /** `requiredPermissions.every((rp) => userPermissions.includes(rp))`. */
  predicate HoldsAll(required: seq<string>, held: seq<string>) {
    forall i :: 0 <= i < |required| ==> required[i] in held
  }

  /** The all-of check as the source's loop computes it: one required
      permission after another. */
  function EveryHeld(required: seq<string>, held: seq<string>): (b: bool)
    ensures b <==> HoldsAll(required, held)
  {
    if |required| == 0 then true
    else
      var rest := EveryHeld(required[1..], held);
      assert HoldsAll(required[1..], held) <==> forall i :: 1 <= i < |required| ==> required[i] in held;
      required[0] in held && rest
  }

  /** No requirement always passes; more requirements never pass more often. */
  lemma AllOfMonotone(required: seq<string>, more: seq<string>, held: seq<string>)
    ensures EveryHeld([], held)
    ensures EveryHeld(required + more, held) <==> EveryHeld(required, held) && EveryHeld(more, held)
  {
    var both := required + more;
    assert forall i :: 0 <= i < |more| ==> more[i] == both[|required| + i];
    assert forall i :: 0 <= i < |required| ==> required[i] == both[i];
    assert HoldsAll(both, held) <==> HoldsAll(required, held) && HoldsAll(more, held) by {
      if HoldsAll(required, held) && HoldsAll(more, held) {
        forall i | 0 <= i < |both|
          ensures both[i] in held
        {
          if i >= |required| {
            assert both[i] == more[i - |required|];
          }
        }
      }
    }
  }

  /** `permissionCache`. */
  class PermissionCache {
    var entries: map<Key, Entry>

    constructor ()
      ensures entries == map[]
    {
      entries := map[];
    }

    /** `loadPermissions`: a fresh entry is returned as it is; otherwise the
        permissions are collected from the role tables and stored for five
        minutes. */
    method Load(dir: Directory, u: UserId, c: CompanyId, now: int) returns (perms: seq<string>)
      modifies this
      ensures old(Lookup(entries, u, c, now)).Some? ==>
        perms == old(Lookup(entries, u, c, now)).value && entries == old(entries)
      ensures old(Lookup(entries, u, c, now)).None? ==>
        perms == Permissions(dir.assignments, dir.roles, u, c)
        && entries == old(entries)[(u, c) := Entry(perms, now + CacheTtl)]
    {
      var cached := Lookup(entries, u, c, now);
      if cached.Some? {
        return cached.value;
      }
      perms := CollectPermissions(dir.assignments, dir.roles, u, c);
      entries := entries[(u, c) := Entry(perms, now + CacheTtl)];
    }

    /** `invalidatePermissionCache`: only the pair's entry goes. */
    method Invalidate(u: UserId, c: CompanyId)
      modifies this
      ensures entries == old(entries) - {(u, c)}
      ensures (u, c) !in entries
      ensures forall k :: k in old(entries) && k != (u, c) ==> k in entries && entries[k] == old(entries)[k]
    {
      entries := entries - {(u, c)};
    }

    /** `authorize(...required)`: NOT_AUTHENTICATED without an identity,
        FORBIDDEN unless every required permission is held. A fresh cache
        entry for the identity's pair is used as it is; otherwise the pair's
        permissions are collected and stored for five minutes, so a later
        request within that time is decided on the stored set. */
    method Authorize(user: Option<Identity>, required: seq<string>, dir: Directory, now: int) returns (r: Outcome)
      modifies this
      ensures user.None? ==> r == Fail(Raise(401, "NOT_AUTHENTICATED", "Authentication required")) && entries == old(entries)
      ensures user.Some? ==>
        var held := if old(Lookup(entries, user.value.userId, user.value.companyId, now)).Some?
                    then old(Lookup(entries, user.value.userId, user.value.companyId, now)).value
                    else Permissions(dir.assignments, dir.roles, user.value.userId, user.value.companyId);
        (r == Pass <==> HoldsAll(required, held))
        && (r != Pass ==> r == Fail(Raise(403, "FORBIDDEN", "You do not have permission to perform this action")))
      ensures user.Some? ==>
        var u, c := user.value.userId, user.value.companyId;
        entries == if old(Lookup(entries, u, c, now)).Some? then old(entries)
                   else old(entries)[(u, c) := Entry(Permissions(dir.assignments, dir.roles, u, c), now + CacheTtl)]
    {
      if user.None? {
        return Fail(Raise(401, "NOT_AUTHENTICATED", "Authentication required"));
      }
      var held := Load(dir, user.value.userId, user.value.companyId, now);
      if EveryHeld(required, held) {
        r := Pass;
      } else {
        r := Fail(Raise(403, "FORBIDDEN", "You do not have permission to perform this action"));
      }
    }
  }
}
