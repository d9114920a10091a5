/** The tenant directory: users, companies, the memberships that join them
    (each with an `is_default` flag), roles with their permission codes, and
    the role assignments that grant a role to a user within one company.

    The effective permissions of a user in a company are the permission codes
    of all roles assigned to that pair, deduplicated; the services compute
    them with two nested loops that add codes to a `Set` and then read the set
    back in insertion order (`Array.from`). */
module Tenancy {
  import opened Common

  datatype UserStatus = Active | Inactive | Locked

  /** A user row. Timestamps are milliseconds since the epoch. */
  datatype User = User(
    username: string,
    email: string,
    displayName: string,
    passwordHash: string,
    status: UserStatus,
    failedAttempts: nat,
    lockedUntil: Option<nat>,
    lastLoginAt: Option<nat>)

  /** A company (tenant) row. The tax rate is a whole percentage. */
  datatype Company = Company(
    name: string,
    shortName: Option<string>,
    taxId: Option<string>,
    representative: Option<string>,
    phone: Option<string>,
    fax: Option<string>,
    address: Option<string>,
    email: Option<string>,
    defaultCurrency: string,
    taxRate: nat,
    fiscalYearStart: nat)

  datatype Membership = Membership(userId: UserId, companyId: CompanyId, isDefault: bool)

  /** A role: its unique name and the codes of its permissions, in the order
      the role's permission rows are read. */
  datatype Role = Role(name: string, codes: seq<string>)

  datatype Assignment = Assignment(userId: UserId, companyId: CompanyId, roleId: RoleId)

  // ---- Memberships

  predicate IsMember(ms: seq<Membership>, u: UserId, c: CompanyId) {
    exists i :: 0 <= i < |ms| && ms[i].userId == u && ms[i].companyId == c
  }

  /** The memberships of one user, in table order. */
  function MembershipsOf(ms: seq<Membership>, u: UserId): (r: seq<Membership>)
    ensures forall m :: m in r <==> m in ms && m.userId == u
    ensures |r| <= |ms|
  {
    if |ms| == 0 then []
    else
      var rest := MembershipsOf(ms[..|ms| - 1], u);
      var last := ms[|ms| - 1];
      assert ms == ms[..|ms| - 1] + [last];
      if last.userId == u then rest + [last] else rest
  }

  /** `memberships.find((uc) => uc.is_default) || memberships[0]`. */
  function DefaultMembership(ms: seq<Membership>): Option<Membership> {
    if |ms| == 0 then None
    else match FirstDefault(ms)
      case Some(m) => Some(m)
      case None => Some(ms[0])
  }

  function FirstDefault(ms: seq<Membership>): Option<Membership> {
    if |ms| == 0 then None
    else if ms[0].isDefault then Some(ms[0])
    else FirstDefault(ms[1..])
  }

  /** The chosen membership exists exactly when there is some membership; it is
      a default one whenever any is, and it is the first default one. */
  lemma {:induction false} DefaultMembershipChoice(ms: seq<Membership>)
    ensures DefaultMembership(ms).None? <==> |ms| == 0
    ensures DefaultMembership(ms).Some? ==> DefaultMembership(ms).value in ms
    ensures (exists m :: m in ms && m.isDefault) ==>
      DefaultMembership(ms).Some? && DefaultMembership(ms).value.isDefault
    ensures (forall m :: m in ms ==> !m.isDefault) && |ms| > 0 ==> DefaultMembership(ms) == Some(ms[0])
    ensures forall i :: 0 <= i < |ms| && ms[i].isDefault ==>
      exists j :: 0 <= j <= i && DefaultMembership(ms) == Some(ms[j])
  {
    FirstDefaultFinds(ms);
  }

  lemma {:induction false} FirstDefaultFinds(ms: seq<Membership>)
    ensures FirstDefault(ms).Some? <==> exists m :: m in ms && m.isDefault
    ensures FirstDefault(ms).Some? ==> FirstDefault(ms).value in ms && FirstDefault(ms).value.isDefault
    ensures forall i :: 0 <= i < |ms| && ms[i].isDefault ==>
      exists j :: 0 <= j <= i && FirstDefault(ms) == Some(ms[j]) && ms[j].isDefault
  {
    FirstDefaultIsDefault(ms);
    forall i | 0 <= i < |ms| && ms[i].isDefault
      ensures exists j :: 0 <= j <= i && FirstDefault(ms) == Some(ms[j]) && ms[j].isDefault
    {
      FirstDefaultEarliest(ms, i);
    }
    if exists m :: m in ms && m.isDefault {
      var m :| m in ms && m.isDefault;
      var i :| 0 <= i < |ms| && ms[i] == m;
      FirstDefaultEarliest(ms, i);
    }
  }

  /** A found membership is a default one taken from the list. */
  lemma {:induction false} FirstDefaultIsDefault(ms: seq<Membership>)
    ensures FirstDefault(ms).Some? ==> FirstDefault(ms).value in ms && FirstDefault(ms).value.isDefault
  {
    if |ms| > 0 && !ms[0].isDefault {
      var rest := ms[1..];
      FirstDefaultIsDefault(rest);
      if FirstDefault(rest).Some? {
        var i :| 0 <= i < |rest| && rest[i] == FirstDefault(rest).value;
        assert ms[i + 1] == rest[i];
      }
    }
  }

  /** A default membership at position `i` is found, at `i` or earlier. */
  lemma {:induction false} FirstDefaultEarliest(ms: seq<Membership>, i: int)
    requires 0 <= i < |ms| && ms[i].isDefault
    ensures exists j :: 0 <= j <= i && FirstDefault(ms) == Some(ms[j]) && ms[j].isDefault
  {
    if ms[0].isDefault {
      assert FirstDefault(ms) == Some(ms[0]);
    } else {
      var rest := ms[1..];
      assert rest[i - 1] == ms[i];
      FirstDefaultEarliest(rest, i - 1);
      var j :| 0 <= j <= i - 1 && FirstDefault(rest) == Some(rest[j]) && rest[j].isDefault;
      assert rest[j] == ms[j + 1];
    }
  }

  /** No user has two default memberships. */
  predicate AtMostOneDefault(ms: seq<Membership>) {
    forall i, j ::
      0 <= i < |ms| && 0 <= j < |ms| && ms[i].isDefault && ms[j].isDefault && ms[i].userId == ms[j].userId
      ==> i == j
  }

  /** Each (user, company) pair has at most one membership row. */
  predicate UniquePairs(ms: seq<Membership>) {
    forall i, j ::
      0 <= i < |ms| && 0 <= j < |ms| && ms[i].userId == ms[j].userId && ms[i].companyId == ms[j].companyId
      ==> i == j
  }

  // ---- Effective permissions

  /** The codes of a role, or none for an unknown role id. */
  function RoleCodes(roles: seq<Role>, id: RoleId): seq<string> {
    if id < |roles| then roles[id].codes else []
  }

  predicate Grants(a: Assignment, u: UserId, c: CompanyId) {
    a.userId == u && a.companyId == c
  }

  /** Every code the loops visit for (u, c), in visiting order, with repeats. */
  function Visited(asg: seq<Assignment>, roles: seq<Role>, u: UserId, c: CompanyId): seq<string> {
    if |asg| == 0 then []
    else
      var a := asg[|asg| - 1];
      Visited(asg[..|asg| - 1], roles, u, c) + (if Grants(a, u, c) then RoleCodes(roles, a.roleId) else [])
  }

  /** A sequence with each element kept at its first occurrence only: what a
      `Set` filled in that order gives back. */
  function Dedup(s: seq<string>): seq<string> {
    if |s| == 0 then []
    else
      var d := Dedup(s[..|s| - 1]);
      if s[|s| - 1] in d then d else d + [s[|s| - 1]]
  }

  predicate NoDuplicates(s: seq<string>) {
    forall i, j :: 0 <= i < j < |s| ==> s[i] != s[j]
  }

  /** Deduplication keeps exactly the elements and never repeats one. */
  lemma {:induction false} DedupSameElements(s: seq<string>)
    ensures forall x :: x in Dedup(s) <==> x in s
    ensures NoDuplicates(Dedup(s))
  {
    if |s| > 0 {
      DedupSameElements(s[..|s| - 1]);
      assert s == s[..|s| - 1] + [s[|s| - 1]];
    }
  }

  /** A code is visited exactly when some role assigned to (u, c) has it. */
  lemma {:induction false} VisitedIsUnion(asg: seq<Assignment>, roles: seq<Role>, u: UserId, c: CompanyId, code: string)
    ensures code in Visited(asg, roles, u, c) <==>
      exists i :: 0 <= i < |asg| && Grants(asg[i], u, c) && code in RoleCodes(roles, asg[i].roleId)
  {
    if |asg| > 0 {
      var init := asg[..|asg| - 1];
      VisitedIsUnion(init, roles, u, c, code);
      if code in Visited(init, roles, u, c) {
        var i :| 0 <= i < |init| && Grants(init[i], u, c) && code in RoleCodes(roles, init[i].roleId);
        assert asg[i] == init[i];
      }
      if exists i :: 0 <= i < |asg| && Grants(asg[i], u, c) && code in RoleCodes(roles, asg[i].roleId) {
        var i :| 0 <= i < |asg| && Grants(asg[i], u, c) && code in RoleCodes(roles, asg[i].roleId);
        if i < |asg| - 1 {
          assert init[i] == asg[i];
        }
      }
    }
  }

  /** The effective permissions of u in c. */
  function Permissions(asg: seq<Assignment>, roles: seq<Role>, u: UserId, c: CompanyId): seq<string> {
    Dedup(Visited(asg, roles, u, c))
  }

  /** The effective permissions are the union of the codes of the roles
      assigned to (u, c), each listed once; assignments of other pairs play no
      part. */
  lemma PermissionsAreUnion(asg: seq<Assignment>, roles: seq<Role>, u: UserId, c: CompanyId)
    ensures NoDuplicates(Permissions(asg, roles, u, c))
    ensures forall code :: code in Permissions(asg, roles, u, c) <==>
      exists i :: 0 <= i < |asg| && Grants(asg[i], u, c) && code in RoleCodes(roles, asg[i].roleId)
  {
    DedupSameElements(Visited(asg, roles, u, c));
    forall code ensures code in Visited(asg, roles, u, c) <==>
      exists i :: 0 <= i < |asg| && Grants(asg[i], u, c) && code in RoleCodes(roles, asg[i].roleId)
    {
      VisitedIsUnion(asg, roles, u, c, code);
    }
  }

  /** `getUserPermissions` (and the same loops in the permission cache and in
      company switching): for each role row of (u, c), for each of the role's
      codes, add the code to a set; then list the set. */
  method CollectPermissions(asg: seq<Assignment>, roles: seq<Role>, u: UserId, c: CompanyId)
    returns (codes: seq<string>)
    ensures codes == Permissions(asg, roles, u, c)
  {
    codes := [];
    var seen: set<string> := {};
    var i := 0;
    while i < |asg|
      invariant 0 <= i <= |asg|
      invariant codes == Dedup(Visited(asg[..i], roles, u, c))
      invariant forall x :: x in seen <==> x in codes
    {
      var own := if Grants(asg[i], u, c) then RoleCodes(roles, asg[i].roleId) else [];
      codes, seen := AddCodes(codes, seen, Visited(asg[..i], roles, u, c), own);
      VisitedStep(asg, roles, u, c, i);
      i := i + 1;
    }
    assert asg[..i] == asg;
  }

  /** The inner loop: add one role's codes to the set and its listing. */
  method AddCodes(codes: seq<string>, seen: set<string>, ghost visited: seq<string>, own: seq<string>)
    returns (codes': seq<string>, seen': set<string>)
    requires codes == Dedup(visited)
    requires forall x :: x in seen <==> x in codes
    ensures codes' == Dedup(visited + own)
    ensures forall x :: x in seen' <==> x in codes'
  {
    codes', seen' := codes, seen;
    var j := 0;
    assert visited + own[..0] == visited;
    while j < |own|
      invariant 0 <= j <= |own|
      invariant codes' == Dedup(visited + own[..j])
      invariant forall x :: x in seen' <==> x in codes'
    {
      DedupStep(visited + own[..j], own[j]);
      assert visited + own[..j + 1] == (visited + own[..j]) + [own[j]];
      if own[j] !in seen' {
        seen' := seen' + {own[j]};
        codes' := codes' + [own[j]];
      }
      j := j + 1;
    }
    assert own[..j] == own;
  }

  lemma DedupStep(s: seq<string>, x: string)
    ensures Dedup(s + [x]) == if x in Dedup(s) then Dedup(s) else Dedup(s) + [x]
  {
    assert (s + [x])[..|s|] == s;
  }

  lemma VisitedStep(asg: seq<Assignment>, roles: seq<Role>, u: UserId, c: CompanyId, i: nat)
    requires i < |asg|
    ensures Visited(asg[..i + 1], roles, u, c) ==
      Visited(asg[..i], roles, u, c) + (if Grants(asg[i], u, c) then RoleCodes(roles, asg[i].roleId) else [])
  {
    assert asg[..i + 1][..i] == asg[..i];
  }

  // ---- The directory tables

  predicate UniqueUsernames(users: seq<User>) {
    forall i, j :: 0 <= i < |users| && 0 <= j < |users| && users[i].username == users[j].username ==> i == j
  }

  predicate UniqueRoleNames(roles: seq<Role>) {
    forall i, j :: 0 <= i < |roles| && 0 <= j < |roles| && roles[i].name == roles[j].name ==> i == j
  }

  /** The user, company, membership, role and role-assignment tables. Row ids
      are positions; rows are never deleted except role assignments. */
  /** Foreign keys hold, usernames and role names are unique, each
      (user, company) pair has one membership row at most, no user has two
      default memberships, and every role assignment is backed by a
      membership. */
  predicate Consistent(users: seq<User>, companies: seq<Company>, memberships: seq<Membership>,
                       roles: seq<Role>, assignments: seq<Assignment>)
  {
    && UniqueUsernames(users)
    && UniqueRoleNames(roles)
    && (forall m :: m in memberships ==> m.userId < |users| && m.companyId < |companies|)
    && UniquePairs(memberships)
    && AtMostOneDefault(memberships)
    && (forall a :: a in assignments ==>
          a.userId < |users| && a.companyId < |companies| && a.roleId < |roles|
          && IsMember(memberships, a.userId, a.companyId))
  }

  /** The empty tables are consistent, so a directory can always be started. */
  lemma EmptyConsistent()
    ensures Consistent([], [], [], [], [])
  {
  }

  class Directory {
    var users: seq<User>
    var companies: seq<Company>
    var memberships: seq<Membership>
    var roles: seq<Role>
    var assignments: seq<Assignment>

    /** The tables are consistent. */
    predicate Valid()
      reads this
    {
      Consistent(users, companies, memberships, roles, assignments)
    }

    /** A directory over consistent tables. */
    constructor (users: seq<User>, companies: seq<Company>, memberships: seq<Membership>,
                 roles: seq<Role>, assignments: seq<Assignment>)
      requires Consistent(users, companies, memberships, roles, assignments)
      ensures this.users == users && this.companies == companies && this.memberships == memberships
      ensures this.roles == roles && this.assignments == assignments
      ensures Valid()
    {
      this.users := users;
      this.companies := companies;
      this.memberships := memberships;
      this.roles := roles;
      this.assignments := assignments;
    }

    /** The effective permissions of u in c under the current tables. */
    function PermissionsOf(u: UserId, c: CompanyId): seq<string>
      reads this
    {
      Permissions(assignments, roles, u, c)
    }
  }
}
