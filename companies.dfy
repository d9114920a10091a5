/** Companies (tenants): the companies of a user ordered by name, lookup,
    creation (the creator joins the new company and becomes its Company
    Admin when that role exists), and switching the session to another of
    the user's companies, which moves the user's default flag and issues an
    access token for the target company. */
module Companies {
  import opened Common
  import opened Text
  import opened Pagination
  import opened Tenancy
  import opened Tokens
  import opened Auth

  // ---- listCompanies

  /** `orderBy: { company: { company_name: 'asc' } }`, ties kept in table order. */
  predicate SortedByName(es: seq<CompanyEntry>) {
    forall i, j :: 0 <= i < j < |es| ==> LexLe(es[i].company.name, es[j].company.name)
  }

  lemma LexLeTransitive(a: string, b: string, c: string)
    requires LexLe(a, b) && LexLe(b, c)
    ensures LexLe(a, c)
  {
    if a != b && b != c {
      LexLessTransitive(a, b, c);
    }
  }

  function InsertByName(e: CompanyEntry, es: seq<CompanyEntry>): (r: seq<CompanyEntry>)
    ensures multiset(r) == multiset(es) + multiset{e}
  {
    if |es| == 0 then [e]
    else if LexLe(e.company.name, es[0].company.name) then [e] + es
    else
      assert es == [es[0]] + es[1..];
      [es[0]] + InsertByName(e, es[1..])
  }

  lemma {:induction false} InsertByNameSorted(e: CompanyEntry, es: seq<CompanyEntry>)
    requires SortedByName(es)
    ensures SortedByName(InsertByName(e, es))
  {
    if |es| > 0 {
      if LexLe(e.company.name, es[0].company.name) {
        var r := [e] + es;
        forall i, j | 0 <= i < j < |r|
          ensures LexLe(r[i].company.name, r[j].company.name)
        {
          if i == 0 && j > 1 {
            LexLeTransitive(e.company.name, es[0].company.name, es[j - 1].company.name);
          }
        }
      } else {
        LexTrichotomy(e.company.name, es[0].company.name);
        InsertByNameSorted(e, es[1..]);
        var tail := InsertByName(e, es[1..]);
        var r := [es[0]] + tail;
        forall i, j | 0 <= i < j < |r|
          ensures LexLe(r[i].company.name, r[j].company.name)
        {
          if i == 0 {
            var x := r[j];
            assert x in multiset(tail);
            assert x == e || x in es[1..];
            if x in es[1..] {
              var k :| 0 <= k < |es[1..]| && es[1..][k] == x;
              assert es[k + 1] == x;
            }
          }
        }
      }
    }
  }

  /** The user's companies sorted by name. */
  function SortByName(es: seq<CompanyEntry>): (r: seq<CompanyEntry>)
    ensures multiset(r) == multiset(es)
  {
    if |es| == 0 then []
    else
      assert es == [es[0]] + es[1..];
      InsertByName(es[0], SortByName(es[1..]))
  }

  lemma {:induction false} SortByNameSorted(es: seq<CompanyEntry>)
    ensures SortedByName(SortByName(es))
  {
    if |es| > 0 {
      SortByNameSorted(es[1..]);
      InsertByNameSorted(es[0], SortByName(es[1..]));
    }
  }

  /** `listCompanies(userId)`: each of the user's companies with that
      membership's default flag, ordered by company name. */
  function ListCompanies(ms: seq<Membership>, companies: seq<Company>, u: UserId): seq<CompanyEntry>
    requires forall m :: m in ms ==> m.companyId < |companies|
  {
    SortByName(Entries(MembershipsOf(ms, u), companies))
  }

  /** The listing is ordered by name and holds exactly one entry per
      membership of the user: its company row and its default flag. */
  lemma ListCompaniesSpec(ms: seq<Membership>, companies: seq<Company>, u: UserId)
    requires forall m :: m in ms ==> m.companyId < |companies|
    ensures SortedByName(ListCompanies(ms, companies, u))
    ensures multiset(ListCompanies(ms, companies, u)) == multiset(Entries(MembershipsOf(ms, u), companies))
    ensures forall e :: e in ListCompanies(ms, companies, u) <==>
      exists m :: m in ms && m.userId == u && e == CompanyEntry(m.companyId, companies[m.companyId], m.isDefault)
  {
    var own := MembershipsOf(ms, u);
    var es := Entries(own, companies);
    SortByNameSorted(es);
    forall e ensures e in ListCompanies(ms, companies, u) <==> e in es {
      assert e in multiset(ListCompanies(ms, companies, u)) <==> e in multiset(es);
    }
    forall e ensures e in es <==>
      exists m :: m in ms && m.userId == u && e == CompanyEntry(m.companyId, companies[m.companyId], m.isDefault)
    {
      if e in es {
        var i :| 0 <= i < |es| && es[i] == e;
        assert own[i] in own;
      }
      if exists m :: m in ms && m.userId == u && e == CompanyEntry(m.companyId, companies[m.companyId], m.isDefault) {
        var m :| m in ms && m.userId == u && e == CompanyEntry(m.companyId, companies[m.companyId], m.isDefault);
        var i :| 0 <= i < |own| && own[i] == m;
        assert es[i] == e;
      }
    }
  }

  // ---- getCompanyById

  function GetCompany(companies: seq<Company>, id: CompanyId): (r: Result<Company>)
    ensures r.Ok? <==> id < |companies|
    ensures r.Ok? ==> r.value == companies[id]
    ensures r.Err? ==> r.error == Raise(404, "NOT_FOUND", "Company not found")
  {
    if id < |companies| then Ok(companies[id]) else Err(Raise(404, "NOT_FOUND", "Company not found"))
  }

  // ---- createCompany

  /** The request body of `createCompany`. */
  datatype NewCompany = NewCompany(
    name: string,
    shortName: Option<string>,
    taxId: Option<string>,
    representative: Option<string>,
    phone: Option<string>,
    fax: Option<string>,
    address: Option<string>,
    email: Option<string>,
    defaultCurrency: Option<string>,
    taxRate: Option<nat>,
    fiscalYearStart: Option<nat>)

  /** The row created: the currency defaults with `||` (an empty currency
      becomes TWD), the tax rate and fiscal year start with `??` (a given
      zero stays zero). */
  function CompanyOf(input: NewCompany): Company {
    Company(input.name, input.shortName, input.taxId, input.representative, input.phone, input.fax,
            input.address, input.email, OrDefault(input.defaultCurrency, "TWD"),
            input.taxRate.GetOr(5), input.fiscalYearStart.GetOr(1))
  }

  /** Which defaults apply: an absent or empty currency is TWD, an absent tax
      rate 5 % and an absent fiscal year start January; given values, zero
      included, are kept. */
  lemma CompanyDefaults(input: NewCompany)
    ensures var co := CompanyOf(input);
      && (co.defaultCurrency == "TWD" <==> input.defaultCurrency.None? || input.defaultCurrency.value in {"", "TWD"})
      && (input.taxRate.None? ==> co.taxRate == 5)
      && (input.taxRate.Some? ==> co.taxRate == input.taxRate.value)
      && (input.fiscalYearStart.None? ==> co.fiscalYearStart == 1)
      && (input.fiscalYearStart.Some? ==> co.fiscalYearStart == input.fiscalYearStart.value)
      && co.name == input.name
  {
  }

  /** `findUnique({ where: { role_name } })`: role names are unique, so the
      role found is the first, and only, one with that name. */
  function FindRole(roles: seq<Role>, name: string): (r: Option<RoleId>)
    ensures r.Some? ==> r.value < |roles| && roles[r.value].name == name
    ensures r.Some? ==> forall j :: 0 <= j < r.value ==> roles[j].name != name
    ensures r.None? ==> forall i :: 0 <= i < |roles| ==> roles[i].name != name
  {
    if |roles| == 0 then None
    else if roles[0].name == name then Some(0)
    else
      var rest := roles[1..];
      assert forall i :: 1 <= i < |roles| ==> roles[i] == rest[i - 1];
      match FindRole(rest, name)
      case None => None
      case Some(i) => Some(i + 1)
  }

  /** The role assignments `createCompany` adds for the creator of company c. */
  function AdminGrant(roles: seq<Role>, creator: UserId, c: CompanyId): seq<Assignment> {
    match FindRole(roles, "Company Admin")
    case None => []
    case Some(id) => [Assignment(creator, c, id)]
  }

  /** `createCompany(data, creatorUserId)`. The company row is written first;
      a creator that is not a user then fails the membership's foreign key
      and nothing more is written. */
  method CreateCompany(dir: Directory, input: NewCompany, creator: UserId) returns (r: Result<CompanyId>)
    requires dir.Valid()
    modifies dir
    ensures dir.Valid()
    ensures dir.companies == old(dir.companies) + [CompanyOf(input)]
    ensures dir.users == old(dir.users) && dir.roles == old(dir.roles)
    ensures creator >= |dir.users| ==>
      r == Err(PrismaKnown("P2003", None))
      && dir.memberships == old(dir.memberships) && dir.assignments == old(dir.assignments)
    ensures creator < |dir.users| ==>
      var id := |old(dir.companies)|;
      && r == Ok(id)
      && dir.memberships == old(dir.memberships) + [Membership(creator, id, false)]
      && dir.assignments == old(dir.assignments) + AdminGrant(dir.roles, creator, id)
  {
    var id := |dir.companies|;
    dir.companies := dir.companies + [CompanyOf(input)];
    if creator >= |dir.users| {
      return Err(PrismaKnown("P2003", None));
    }
    var joined := Membership(creator, id, false);
    assert forall m :: m in dir.memberships ==> m.companyId < id;
    var before := dir.memberships;
    dir.memberships := dir.memberships + [joined];
    assert dir.memberships[|before|] == joined;
    assert forall v, d :: IsMember(before, v, d) ==> IsMember(dir.memberships, v, d) by {
      forall v, d | IsMember(before, v, d)
        ensures IsMember(dir.memberships, v, d)
      {
        var i :| 0 <= i < |before| && before[i].userId == v && before[i].companyId == d;
        assert dir.memberships[i] == before[i];
      }
    }
    assert IsMember(dir.memberships, creator, id);
    dir.assignments := dir.assignments + AdminGrant(dir.roles, creator, id);
    r := Ok(id);
  }

  /** A created company is listed for its creator, as a non-default entry. */
  lemma CreatorListsNewCompany(ms: seq<Membership>, companies: seq<Company>, input: NewCompany, creator: UserId)
    requires forall m :: m in ms ==> m.companyId < |companies|
    ensures var id := |companies|;
      var ms' := ms + [Membership(creator, id, false)];
      var cs' := companies + [CompanyOf(input)];
      (forall m :: m in ms' ==> m.companyId < |cs'|)
      && CompanyEntry(id, CompanyOf(input), false) in ListCompanies(ms', cs', creator)
  {
    var id := |companies|;
    var ms' := ms + [Membership(creator, id, false)];
    var cs' := companies + [CompanyOf(input)];
    assert Membership(creator, id, false) in ms';
    ListCompaniesSpec(ms', cs', creator);
  }

  // ---- switchCompany

  /** The membership rows after `switchCompany(u, c)`: every row of u has its
      default flag set exactly when it is the row of c; other users' rows are
      untouched. */
  function SwitchedMemberships(ms: seq<Membership>, u: UserId, c: CompanyId): (r: seq<Membership>)
    ensures |r| == |ms|
    ensures forall i :: 0 <= i < |ms| ==>
      r[i].userId == ms[i].userId && r[i].companyId == ms[i].companyId
      && (ms[i].userId != u ==> r[i] == ms[i])
      && (ms[i].userId == u ==> (r[i].isDefault <==> ms[i].companyId == c))
  {
    seq(|ms|, i requires 0 <= i < |ms| => if ms[i].userId == u then ms[i].(isDefault := ms[i].companyId == c) else ms[i])
  }

  /** Switching keeps the membership table's invariants and the membership
      relation itself. */
  lemma SwitchKeepsMemberships(ms: seq<Membership>, u: UserId, c: CompanyId)
    requires UniquePairs(ms)
    ensures var r := SwitchedMemberships(ms, u, c);
      UniquePairs(r)
      && (forall v, d :: IsMember(r, v, d) <==> IsMember(ms, v, d))
  {
    var r := SwitchedMemberships(ms, u, c);
    forall v, d ensures IsMember(r, v, d) <==> IsMember(ms, v, d) {
      if IsMember(r, v, d) {
        var i :| 0 <= i < |r| && r[i].userId == v && r[i].companyId == d;
        assert ms[i].userId == v && ms[i].companyId == d;
      }
      if IsMember(ms, v, d) {
        var i :| 0 <= i < |ms| && ms[i].userId == v && ms[i].companyId == d;
        assert r[i].userId == v && r[i].companyId == d;
      }
    }
  }

  /** Switching also keeps "at most one default" when it held for the rest of
      the table, since only the switching user's rows change. */
  lemma SwitchKeepsOneDefault(ms: seq<Membership>, u: UserId, c: CompanyId)
    requires UniquePairs(ms) && AtMostOneDefault(ms)
    ensures AtMostOneDefault(SwitchedMemberships(ms, u, c))
  {
    var r := SwitchedMemberships(ms, u, c);
    forall i, j | 0 <= i < |r| && 0 <= j < |r| && r[i].isDefault && r[j].isDefault && r[i].userId == r[j].userId
      ensures i == j
    {
      if r[i].userId != u {
        assert r[i] == ms[i] && r[j] == ms[j];
      }
    }
  }

  /** After switching to c, the company chosen at the next sign-in or token
      refresh is c. */
  lemma SwitchThenDefaultIsTarget(ms: seq<Membership>, u: UserId, c: CompanyId)
    requires UniquePairs(ms) && IsMember(ms, u, c)
    ensures DefaultMembership(MembershipsOf(SwitchedMemberships(ms, u, c), u)) == Some(Membership(u, c, true))
  {
    var r := SwitchedMemberships(ms, u, c);
    var own := MembershipsOf(r, u);
    var i :| 0 <= i < |ms| && ms[i].userId == u && ms[i].companyId == c;
    assert r[i] == Membership(u, c, true);
    assert r[i] in own;
    DefaultMembershipChoice(own);
    var chosen := DefaultMembership(own).value;
    assert chosen in r && chosen.userId == u && chosen.isDefault;
    var k :| 0 <= k < |r| && r[k] == chosen;
  }

  /** What `switchCompany` returns. */
  datatype Switch = Switch(access: Signing<AccessPayload>, company: Company, permissions: seq<string>)

  /** `switchCompany(userId, targetCompanyId, username)`: NO_ACCESS unless the
      user belongs to the target company; otherwise the default flag moves to
      the target and a token for it is issued with the permissions there. */
  method SwitchCompany(dir: Directory, u: UserId, c: CompanyId, username: string, secrets: Secrets)
    returns (r: Result<Switch>)
    requires dir.Valid()
    modifies dir
    ensures dir.Valid()
    ensures dir.users == old(dir.users) && dir.companies == old(dir.companies)
    ensures dir.roles == old(dir.roles) && dir.assignments == old(dir.assignments)
    ensures !IsMember(old(dir.memberships), u, c) ==>
      r == Err(Raise(403, "NO_ACCESS", "You do not have access to this company"))
      && dir.memberships == old(dir.memberships)
    ensures IsMember(old(dir.memberships), u, c) ==>
      && dir.memberships == SwitchedMemberships(old(dir.memberships), u, c)
      && c < |dir.companies|
      && r == Ok(Switch(SignAccess(AccessPayload(u, c, username), secrets), dir.companies[c],
                        Permissions(dir.assignments, dir.roles, u, c)))
  {
    if !IsMember(dir.memberships, u, c) {
      return Err(Raise(403, "NO_ACCESS", "You do not have access to this company"));
    }
    var i :| 0 <= i < |dir.memberships| && dir.memberships[i].userId == u && dir.memberships[i].companyId == c;
    assert dir.memberships[i] in dir.memberships;
    var before := dir.memberships;
    SwitchKeepsMemberships(before, u, c);
    SwitchKeepsOneDefault(before, u, c);
    dir.memberships := SwitchedMemberships(before, u, c);
    assert forall m :: m in dir.memberships ==> m.userId < |dir.users| && m.companyId < |dir.companies| by {
      forall m | m in dir.memberships
        ensures m.userId < |dir.users| && m.companyId < |dir.companies|
      {
        var k :| 0 <= k < |dir.memberships| && dir.memberships[k] == m;
        assert before[k] in before;
      }
    }
    var permissions := CollectPermissions(dir.assignments, dir.roles, u, c);
    r := Ok(Switch(SignAccess(AccessPayload(u, c, username), secrets), dir.companies[c], permissions));
  }
}
