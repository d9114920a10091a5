/** User administration: reading a user with the roles held in one company,
    creating a user (optionally with a default membership and roles),
    updating a user's fields, and replacing a user's roles in a company,
    which also drops that pair's cached permissions. Passwords are stored
    through a hash function given as a parameter. */
module Users {
  import opened Common
  import opened Tenancy
  import opened Authorization

  // ---- Role rows of one (user, company) pair

  /** The role ids granted to u in c, in table order. */
  function RoleIdsOf(asg: seq<Assignment>, u: UserId, c: CompanyId): (ids: seq<RoleId>)
    ensures forall r :: r in ids <==> Assignment(u, c, r) in asg
  {
    if |asg| == 0 then []
    else
      var rest := RoleIdsOf(asg[1..], u, c);
      assert forall a :: a in asg <==> a == asg[0] || a in asg[1..];
      if Grants(asg[0], u, c) then [asg[0].roleId] + rest else rest
  }

  lemma {:induction false} RoleIdsOfAppend(a: seq<Assignment>, b: seq<Assignment>, u: UserId, c: CompanyId)
    ensures RoleIdsOf(a + b, u, c) == RoleIdsOf(a, u, c) + RoleIdsOf(b, u, c)
  {
    if |a| == 0 {
      assert a + b == b;
    } else {
      assert (a + b)[0] == a[0];
      assert (a + b)[1..] == a[1..] + b;
      RoleIdsOfAppend(a[1..], b, u, c);
    }
  }

  /** `{ role_id, role_name }` of one role row. */
  datatype RoleRef = RoleRef(roleId: RoleId, name: string)

  /** The roles of u in c as the services return them. */
  function RolesIn(asg: seq<Assignment>, roles: seq<Role>, u: UserId, c: CompanyId): (rs: seq<RoleRef>)
    requires forall a :: a in asg ==> a.roleId < |roles|
    ensures |rs| == |RoleIdsOf(asg, u, c)|
    ensures forall i :: 0 <= i < |rs| ==> rs[i].roleId == RoleIdsOf(asg, u, c)[i] && rs[i].roleId < |roles|
    ensures forall i :: 0 <= i < |rs| ==> rs[i].name == roles[rs[i].roleId].name
  {
    var ids := RoleIdsOf(asg, u, c);
    assert forall i :: 0 <= i < |ids| ==> Assignment(u, c, ids[i]) in asg;
    seq(|ids|, i requires 0 <= i < |ids| => RoleRef(ids[i], roles[ids[i]].name))
  }

  // ---- getUserById

  datatype UserDetail = UserDetail(
    userId: UserId, username: string, email: string, displayName: string, status: UserStatus,
    lastLoginAt: Option<nat>, roles: seq<RoleRef>, memberships: seq<Membership>)

  /** The user's memberships restricted to company c. */
  function MembershipsIn(ms: seq<Membership>, u: UserId, c: CompanyId): (r: seq<Membership>)
    ensures forall m :: m in r <==> m in ms && m.userId == u && m.companyId == c
  {
    if |ms| == 0 then []
    else
      var rest := MembershipsIn(ms[1..], u, c);
      assert forall m :: m in ms <==> m == ms[0] || m in ms[1..];
      if ms[0].userId == u && ms[0].companyId == c then [ms[0]] + rest else rest
  }

  /** `getUserById(userId, companyId)`: NOT_FOUND for an unknown user; the
      roles and memberships listed are those in company c only. */
  function GetUser(users: seq<User>, ms: seq<Membership>, asg: seq<Assignment>, roles: seq<Role>,
                   u: UserId, c: CompanyId): (r: Result<UserDetail>)
    requires forall a :: a in asg ==> a.roleId < |roles|
    ensures r.Err? <==> u >= |users|
    ensures r.Err? ==> r.error == Raise(404, "NOT_FOUND", "User not found")
    ensures r.Ok? ==>
      && r.value.userId == u && r.value.username == users[u].username && r.value.status == users[u].status
      && (forall x :: x in r.value.roles ==> Assignment(u, c, x.roleId) in asg && x.name == roles[x.roleId].name)
      && (forall id: RoleId :: Assignment(u, c, id) in asg ==> RoleRef(id, roles[id].name) in r.value.roles)
      && (forall m :: m in r.value.memberships <==> m in ms && m.userId == u && m.companyId == c)
  {
    if u >= |users| then Err(Raise(404, "NOT_FOUND", "User not found"))
    else
      var rs := RolesIn(asg, roles, u, c);
      assert forall id: RoleId :: Assignment(u, c, id) in asg ==> RoleRef(id, roles[id].name) in rs by {
        forall id: RoleId | Assignment(u, c, id) in asg
          ensures RoleRef(id, roles[id].name) in rs
        {
          var ids := RoleIdsOf(asg, u, c);
          var i :| 0 <= i < |ids| && ids[i] == id;
          assert rs[i] == RoleRef(id, roles[id].name);
        }
      }
      assert forall x :: x in rs ==> Assignment(u, c, x.roleId) in asg by {
        forall x | x in rs
          ensures Assignment(u, c, x.roleId) in asg
        {
          var i :| 0 <= i < |rs| && rs[i] == x;
          assert RoleIdsOf(asg, u, c)[i] in RoleIdsOf(asg, u, c);
        }
      }
      var row := users[u];
      Ok(UserDetail(u, row.username, row.email, row.displayName, row.status, row.lastLoginAt,
                    rs, MembershipsIn(ms, u, c)))
  }

  // ---- createUser

  datatype NewUser = NewUser(
    username: string,
    email: string,
    password: string,
    displayName: string,
    companyId: Option<CompanyId>,
    roleIds: seq<RoleId>)

  /** The role rows `createMany` writes for u in c, one per role id, in order. */
  function GrantsOf(u: UserId, c: CompanyId, ids: seq<RoleId>): (r: seq<Assignment>)
    ensures |r| == |ids|
    ensures forall i :: 0 <= i < |ids| ==> r[i] == Assignment(u, c, ids[i])
    ensures RoleIdsOf(r, u, c) == ids
    ensures forall v: UserId, d: CompanyId :: (v, d) != (u, c) ==> RoleIdsOf(r, v, d) == []
  {
    if |ids| == 0 then []
    else
      var rest := GrantsOf(u, c, ids[1..]);
      var r := [Assignment(u, c, ids[0])] + rest;
      assert r[1..] == rest;
      assert ids == [ids[0]] + ids[1..];
      r
  }

  predicate AllRolesExist(roles: seq<Role>, ids: seq<RoleId>) {
    forall i :: 0 <= i < |ids| ==> ids[i] < |roles|
  }

  /** No role id is given twice. */
  predicate DistinctIds(ids: seq<RoleId>) {
    forall i, j :: 0 <= i < j < |ids| ==> ids[i] != ids[j]
  }

  /** The rows `createMany` writes fit the composite key
      (user_id, role_id, company_id) iff no role id is repeated. */
  lemma GrantsFitKey(u: UserId, c: CompanyId, ids: seq<RoleId>)
    ensures DistinctIds(ids) <==>
      forall i, j :: 0 <= i < j < |ids| ==> GrantsOf(u, c, ids)[i] != GrantsOf(u, c, ids)[j]
  {
    var g := GrantsOf(u, c, ids);
    assert forall i :: 0 <= i < |ids| ==> g[i] == Assignment(u, c, ids[i]);
    if DistinctIds(ids) {
      forall i, j | 0 <= i < j < |ids|
        ensures g[i] != g[j]
      {
        assert ids[i] != ids[j];
      }
    } else {
      var i, j :| 0 <= i < j < |ids| && ids[i] == ids[j];
      assert 0 <= i < j < |ids| && GrantsOf(u, c, ids)[i] == GrantsOf(u, c, ids)[j];
    }
  }

  /** The error of a `createMany` of role rows: a repeated role id breaks the
      composite key as the rows are inserted, which comes before the foreign
      keys are checked at the end of the statement. */
  const DuplicateGrant: Error := PrismaKnown("P2002", Some(["user_id", "role_id", "company_id"]))

  /** The row of a new user: ACTIVE, no failed attempts, never signed in, with
      the hash of the password. */
  function NewUserRow(input: NewUser, hash: string -> string): User {
    User(input.username, input.email, input.displayName, hash(input.password), Active, 0, None, None)
  }

  /** `createUser(data)`. A taken username fails the unique constraint and
      writes nothing. Otherwise the user row is written first; with a company
      the user joins it as default member, then gets one role row per role id
      (a missing company or role fails its foreign key, a repeated role id the
      composite key of the role rows, and what was written before stays
      written). */
  method CreateUser(dir: Directory, input: NewUser, hash: string -> string) returns (r: Result<UserId>)
    requires dir.Valid()
    modifies dir
    ensures dir.Valid()
    ensures dir.companies == old(dir.companies) && dir.roles == old(dir.roles)
    ensures (exists i :: 0 <= i < |old(dir.users)| && old(dir.users)[i].username == input.username) ==>
      r == Err(PrismaKnown("P2002", Some(["username"])))
      && dir.users == old(dir.users) && dir.memberships == old(dir.memberships)
      && dir.assignments == old(dir.assignments)
    ensures (forall i :: 0 <= i < |old(dir.users)| ==> old(dir.users)[i].username != input.username) ==>
      var id := |old(dir.users)|;
      && dir.users == old(dir.users) + [NewUserRow(input, hash)]
      && (input.companyId.None? ==>
            r == Ok(id) && dir.memberships == old(dir.memberships) && dir.assignments == old(dir.assignments))
      && (input.companyId.Some? && input.companyId.value >= |dir.companies| ==>
            r == Err(PrismaKnown("P2003", None))
            && dir.memberships == old(dir.memberships) && dir.assignments == old(dir.assignments))
      && (input.companyId.Some? && input.companyId.value < |dir.companies| ==>
            && dir.memberships == old(dir.memberships) + [Membership(id, input.companyId.value, true)]
            && (!DistinctIds(input.roleIds) ==>
                  r == Err(DuplicateGrant) && dir.assignments == old(dir.assignments))
            && (DistinctIds(input.roleIds) && AllRolesExist(dir.roles, input.roleIds) ==>
                  r == Ok(id) && dir.assignments == old(dir.assignments) + GrantsOf(id, input.companyId.value, input.roleIds))
            && (DistinctIds(input.roleIds) && !AllRolesExist(dir.roles, input.roleIds) ==>
                  r == Err(PrismaKnown("P2003", None)) && dir.assignments == old(dir.assignments)))
  {
    if exists i :: 0 <= i < |dir.users| && dir.users[i].username == input.username {
      return Err(PrismaKnown("P2002", Some(["username"])));
    }
    var id := |dir.users|;
    AddUser(dir, NewUserRow(input, hash));
    if input.companyId.None? {
      return Ok(id);
    }
    var c := input.companyId.value;
    if c >= |dir.companies| {
      return Err(PrismaKnown("P2003", None));
    }
    JoinAsDefault(dir, id, c);
    if !DistinctIds(input.roleIds) {
      return Err(DuplicateGrant);
    }
    if !AllRolesExist(dir.roles, input.roleIds) {
      return Err(PrismaKnown("P2003", None));
    }
    Grant(dir, id, c, input.roleIds);
    r := Ok(id);
  }

  /** The user row of `createUser`, under a username nobody has. */
  method AddUser(dir: Directory, row: User)
    requires dir.Valid()
    requires forall i :: 0 <= i < |dir.users| ==> dir.users[i].username != row.username
    modifies dir
    ensures dir.Valid()
    ensures dir.users == old(dir.users) + [row]
    ensures dir.companies == old(dir.companies) && dir.roles == old(dir.roles)
    ensures dir.memberships == old(dir.memberships) && dir.assignments == old(dir.assignments)
  {
    dir.users := dir.users + [row];
  }

  /** The default membership of a new user, who has no membership yet. */
  method JoinAsDefault(dir: Directory, u: UserId, c: CompanyId)
    requires dir.Valid()
    requires u < |dir.users| && c < |dir.companies|
    requires forall m :: m in dir.memberships ==> m.userId != u
    modifies dir
    ensures dir.Valid() && IsMember(dir.memberships, u, c)
    ensures dir.memberships == old(dir.memberships) + [Membership(u, c, true)]
    ensures dir.users == old(dir.users) && dir.companies == old(dir.companies)
    ensures dir.roles == old(dir.roles) && dir.assignments == old(dir.assignments)
  {
    var before := dir.memberships;
    dir.memberships := before + [Membership(u, c, true)];
    assert dir.memberships[|before|] == Membership(u, c, true);
    assert forall v: UserId, d: CompanyId :: IsMember(before, v, d) ==> IsMember(dir.memberships, v, d) by {
      forall v: UserId, d: CompanyId | IsMember(before, v, d)
        ensures IsMember(dir.memberships, v, d)
      {
        var i :| 0 <= i < |before| && before[i].userId == v && before[i].companyId == d;
        assert dir.memberships[i] == before[i];
      }
    }
  }

  /** The role rows of a member, for role ids that all exist. */
  method Grant(dir: Directory, u: UserId, c: CompanyId, ids: seq<RoleId>)
    requires dir.Valid()
    requires u < |dir.users| && c < |dir.companies| && IsMember(dir.memberships, u, c)
    requires AllRolesExist(dir.roles, ids)
    modifies dir
    ensures dir.Valid()
    ensures dir.assignments == old(dir.assignments) + GrantsOf(u, c, ids)
    ensures dir.users == old(dir.users) && dir.companies == old(dir.companies)
    ensures dir.roles == old(dir.roles) && dir.memberships == old(dir.memberships)
  {
    dir.assignments := dir.assignments + GrantsOf(u, c, ids);
  }

  /** A user created with a company and roles signs in to that company with
      exactly those roles. */
  lemma CreatedUserRoles(asg: seq<Assignment>, id: UserId, c: CompanyId, ids: seq<RoleId>)
    requires forall a :: a in asg ==> a.userId < id
    ensures RoleIdsOf(asg + GrantsOf(id, c, ids), id, c) == ids
  {
    RoleIdsOfAppend(asg, GrantsOf(id, c, ids), id, c);
    NoRolesBeforeCreation(asg, id, c);
  }

  lemma {:induction false} NoRolesBeforeCreation(asg: seq<Assignment>, id: UserId, c: CompanyId)
    requires forall a :: a in asg ==> a.userId < id
    ensures RoleIdsOf(asg, id, c) == []
  {
    if |asg| > 0 {
      assert asg[0] in asg;
      assert forall a :: a in asg[1..] ==> a in asg;
      NoRolesBeforeCreation(asg[1..], id, c);
    }
  }

  // ---- updateUser

  datatype UserPatch = UserPatch(
    email: Option<string>,
    displayName: Option<string>,
    status: Option<UserStatus>,
    password: Option<string>)

  /** A patch field counts only when it is present and not empty. */
  predicate Given(s: Option<string>) {
    s.Some? && s.value != ""
  }

  /** The row after `updateUser`: each given field replaces the stored one,
      a given password is stored hashed. */
  function UserPatched(row: User, patch: UserPatch, hash: string -> string): (r: User)
    ensures r.username == row.username && r.failedAttempts == row.failedAttempts
    ensures r.lockedUntil == row.lockedUntil && r.lastLoginAt == row.lastLoginAt
    ensures r.email == (if Given(patch.email) then patch.email.value else row.email)
    ensures r.displayName == (if Given(patch.displayName) then patch.displayName.value else row.displayName)
    ensures r.status == (if patch.status.Some? then patch.status.value else row.status)
    ensures r.passwordHash == (if Given(patch.password) then hash(patch.password.value) else row.passwordHash)
  {
    var r := row;
    var r := if Given(patch.email) then r.(email := patch.email.value) else r;
    var r := if Given(patch.displayName) then r.(displayName := patch.displayName.value) else r;
    var r := if patch.status.Some? then r.(status := patch.status.value) else r;
    if Given(patch.password) then r.(passwordHash := hash(patch.password.value)) else r
  }

  /** Applying the same patch twice is applying it once; an empty patch
      changes nothing. */
  lemma UserPatchIdempotent(row: User, patch: UserPatch, hash: string -> string)
    ensures UserPatched(UserPatched(row, patch, hash), patch, hash) == UserPatched(row, patch, hash)
    ensures UserPatched(row, UserPatch(None, Some(""), None, Some("")), hash) == row
  {
  }

  /** `updateUser(userId, data)`: the database's record-not-found error for
      an unknown user; otherwise the row is patched. */
  method UpdateUser(dir: Directory, u: UserId, patch: UserPatch, hash: string -> string) returns (r: Result<User>)
    requires dir.Valid()
    modifies dir
    ensures dir.Valid()
    ensures dir.companies == old(dir.companies) && dir.memberships == old(dir.memberships)
    ensures dir.roles == old(dir.roles) && dir.assignments == old(dir.assignments)
    ensures u >= |old(dir.users)| ==> r == Err(PrismaKnown("P2025", None)) && dir.users == old(dir.users)
    ensures u < |old(dir.users)| ==>
      r == Ok(UserPatched(old(dir.users)[u], patch, hash)) && dir.users == old(dir.users)[u := r.value]
  {
    if u >= |dir.users| {
      return Err(PrismaKnown("P2025", None));
    }
    var row := dir.users[u];
    if Given(patch.email) { row := row.(email := patch.email.value); }
    if Given(patch.displayName) { row := row.(displayName := patch.displayName.value); }
    if patch.status.Some? { row := row.(status := patch.status.value); }
    if Given(patch.password) { row := row.(passwordHash := hash(patch.password.value)); }
    dir.users := dir.users[u := row];
    r := Ok(row);
  }

  // ---- assignRoles

  /** The role rows other than those of (u, c), in table order. */
  function Without(asg: seq<Assignment>, u: UserId, c: CompanyId): (r: seq<Assignment>)
    ensures forall a :: a in r <==> a in asg && !Grants(a, u, c)
    ensures RoleIdsOf(r, u, c) == []
    ensures forall v: UserId, d: CompanyId :: (v, d) != (u, c) ==> RoleIdsOf(r, v, d) == RoleIdsOf(asg, v, d)
  {
    if |asg| == 0 then []
    else
      var rest := Without(asg[1..], u, c);
      assert forall a :: a in asg <==> a == asg[0] || a in asg[1..];
      if Grants(asg[0], u, c) then rest
      else
        var r := [asg[0]] + rest;
        assert r[1..] == rest;
        r
  }

  /** The role rows after `assignRoles(u, c, ids)` succeeds. */
  function Replaced(asg: seq<Assignment>, u: UserId, c: CompanyId, ids: seq<RoleId>): seq<Assignment> {
    Without(asg, u, c) + GrantsOf(u, c, ids)
  }

  /** After the replacement u holds in c exactly the given roles, in the
      given order, and every other pair holds what it held before. */
  lemma ReplacedSpec(asg: seq<Assignment>, u: UserId, c: CompanyId, ids: seq<RoleId>)
    ensures RoleIdsOf(Replaced(asg, u, c, ids), u, c) == ids
    ensures forall v: UserId, d: CompanyId :: (v, d) != (u, c) ==> RoleIdsOf(Replaced(asg, u, c, ids), v, d) == RoleIdsOf(asg, v, d)
    ensures forall a :: !Grants(a, u, c) ==> (a in Replaced(asg, u, c, ids) <==> a in asg)
  {
    RoleIdsOfAppend(Without(asg, u, c), GrantsOf(u, c, ids), u, c);
    forall v: UserId, d: CompanyId | (v, d) != (u, c)
      ensures RoleIdsOf(Replaced(asg, u, c, ids), v, d) == RoleIdsOf(asg, v, d)
    {
      RoleIdsOfAppend(Without(asg, u, c), GrantsOf(u, c, ids), v, d);
    }
  }

  /** The auto-membership step of `assignRoles`: a user who is not yet a
      member of c joins it as a non-default member. */
  method Join(dir: Directory, u: UserId, c: CompanyId)
    requires dir.Valid()
    requires IsMember(dir.memberships, u, c) || (u < |dir.users| && c < |dir.companies|)
    modifies dir
    ensures dir.Valid() && IsMember(dir.memberships, u, c)
    ensures dir.users == old(dir.users) && dir.companies == old(dir.companies)
    ensures dir.roles == old(dir.roles) && dir.assignments == old(dir.assignments)
    ensures dir.memberships == (if IsMember(old(dir.memberships), u, c) then old(dir.memberships)
                                else old(dir.memberships) + [Membership(u, c, false)])
  {
    var before := dir.memberships;
    if !IsMember(before, u, c) {
      assert forall m :: m in before ==> !(m.userId == u && m.companyId == c);
      dir.memberships := before + [Membership(u, c, false)];
      assert dir.memberships[|before|] == Membership(u, c, false);
      assert forall v: UserId, d: CompanyId :: IsMember(before, v, d) ==> IsMember(dir.memberships, v, d) by {
        forall v: UserId, d: CompanyId | IsMember(before, v, d)
          ensures IsMember(dir.memberships, v, d)
        {
          var i :| 0 <= i < |before| && before[i].userId == v && before[i].companyId == d;
          assert dir.memberships[i] == before[i];
        }
      }
    }
  }

  /** `assignRoles(userId, companyId, roleIds)`. A missing membership is added
      (not default); an unknown user or company fails its foreign key before
      anything is written. The pair's role rows are then deleted and the new
      ones written; an unknown role id fails that write, leaving the pair
      without roles and the cache untouched. On success the pair's cache
      entry is dropped and the new roles are returned. */
  method AssignRoles(dir: Directory, cache: PermissionCache, u: UserId, c: CompanyId, ids: seq<RoleId>)
    returns (r: Result<seq<RoleRef>>)
    requires dir.Valid()
    modifies dir, cache
    ensures dir.Valid()
    ensures dir.users == old(dir.users) && dir.companies == old(dir.companies) && dir.roles == old(dir.roles)
    ensures !IsMember(old(dir.memberships), u, c) && (u >= |dir.users| || c >= |dir.companies|) ==>
      r == Err(PrismaKnown("P2003", None)) && dir.memberships == old(dir.memberships)
      && dir.assignments == old(dir.assignments) && cache.entries == old(cache.entries)
    ensures IsMember(old(dir.memberships), u, c) || (u < |dir.users| && c < |dir.companies|) ==>
      && dir.memberships == (if IsMember(old(dir.memberships), u, c) then old(dir.memberships)
                             else old(dir.memberships) + [Membership(u, c, false)])
      && (!DistinctIds(ids) ==>
            r == Err(DuplicateGrant) && dir.assignments == Without(old(dir.assignments), u, c)
            && cache.entries == old(cache.entries))
      && (DistinctIds(ids) && !AllRolesExist(dir.roles, ids) ==>
            r == Err(PrismaKnown("P2003", None)) && dir.assignments == Without(old(dir.assignments), u, c)
            && cache.entries == old(cache.entries))
      && (DistinctIds(ids) && AllRolesExist(dir.roles, ids) ==>
            && dir.assignments == Replaced(old(dir.assignments), u, c, ids)
            && cache.entries == old(cache.entries) - {(u, c)}
            && r == Ok(RolesIn(dir.assignments, dir.roles, u, c)))
  {
    if !IsMember(dir.memberships, u, c) && (u >= |dir.users| || c >= |dir.companies|) {
      return Err(PrismaKnown("P2003", None));
    }
    Join(dir, u, c);
    assert IsMember(dir.memberships, u, c);
    var kept := Without(dir.assignments, u, c);
    dir.assignments := kept;
    if !DistinctIds(ids) {
      return Err(DuplicateGrant);
    }
    if !AllRolesExist(dir.roles, ids) {
      return Err(PrismaKnown("P2003", None));
    }
    dir.assignments := kept + GrantsOf(u, c, ids);
    cache.Invalidate(u, c);
    r := Ok(RolesIn(dir.assignments, dir.roles, u, c));
  }
}
