/** The front end's session store: the signed-in user, both tokens, the
    current company, the user's companies and the permissions. The API calls
    it makes are given as their outcomes. */
module AuthStore {
  import opened Common
  import opened Tenancy
  import opened Auth

  /** A company as the front end stores it; `is_default` is present only in
      the list of companies. */
  datatype CompanyRef = CompanyRef(companyId: CompanyId, company: Company, isDefault: Option<bool>)

  /** `res.data.data` of a successful sign-in. */
  datatype LoginData = LoginData(
    user: UserView,
    accessToken: string,
    refreshToken: string,
    company: CompanyRef,
    companies: seq<CompanyRef>,
    permissions: seq<string>)

  /** The seven fields that are written to local storage. */
  datatype Persisted = Persisted(
    user: Option<UserView>,
    accessToken: Option<string>,
    refreshToken: Option<string>,
    currentCompany: Option<CompanyRef>,
    companies: seq<CompanyRef>,
    permissions: seq<string>,
    isAuthenticated: bool)

  /** What a store holds after `clearAuth`, and initially. */
  const Cleared := Persisted(None, None, None, None, [], [], false)

  class Store {
    var user: Option<UserView>
    var accessToken: Option<string>
    var refreshToken: Option<string>
    var currentCompany: Option<CompanyRef>
    var companies: seq<CompanyRef>
    var permissions: seq<string>
    var isAuthenticated: bool

    /** `partialize`: exactly the seven data fields. */
    function Snapshot(): Persisted
      reads this
    {
      Persisted(user, accessToken, refreshToken, currentCompany, companies, permissions, isAuthenticated)
    }

    constructor ()
      ensures Snapshot() == Cleared
    {
      user := None;
      accessToken := None;
      refreshToken := None;
      currentCompany := None;
      companies := [];
      permissions := [];
      isAuthenticated := false;
    }

    /** `login(username, password)`: a failed call rejects and leaves the store
        as it was; a successful one copies the response into every field. */
    method Login(response: Result<LoginData>) returns (r: Outcome)
      modifies this
      ensures response.Err? ==> r == Fail(response.error) && Snapshot() == old(Snapshot())
      ensures response.Ok? ==>
        var d := response.value;
        r == Pass && Snapshot() == Persisted(Some(d.user), Some(d.accessToken), Some(d.refreshToken),
                                             Some(d.company), d.companies, d.permissions, true)
    {
      if response.Err? {
        return Fail(response.error);
      }
      var d := response.value;
      user := Some(d.user);
      accessToken := Some(d.accessToken);
      refreshToken := Some(d.refreshToken);
      currentCompany := Some(d.company);
      companies := d.companies;
      permissions := d.permissions;
      isAuthenticated := true;
      r := Pass;
    }

    /** `clearAuth`. */
    method ClearAuth()
      modifies this
      ensures Snapshot() == Cleared
    {
      user := None;
      accessToken := None;
      refreshToken := None;
      currentCompany := None;
      companies := [];
      permissions := [];
      isAuthenticated := false;
    }

    /** `logout()`: the server is told only when an access token is held; its
        answer, failure included, is never read, so it is not a parameter here;
        the store always ends cleared. `calledApi` says whether the server was
        called. */
    method Logout() returns (calledApi: bool)
      modifies this
      ensures calledApi <==> old(accessToken).Some? && old(accessToken).value != ""
      ensures Snapshot() == Cleared
    {
      calledApi := accessToken.Some? && accessToken.value != "";
      ClearAuth();
    }

    /** `setCompanyData(company, accessToken, permissions)`: after a company
        switch only these three fields change. */
    method SetCompanyData(company: CompanyRef, token: string, perms: seq<string>)
      modifies this
      ensures Snapshot() == old(Snapshot()).(currentCompany := Some(company), accessToken := Some(token), permissions := perms)
    {
      currentCompany := Some(company);
      accessToken := Some(token);
      permissions := perms;
    }

    /** Rehydration from local storage: each persisted field is written back. */
    method Restore(p: Persisted)
      modifies this
      ensures Snapshot() == p
    {
      user := p.user;
      accessToken := p.accessToken;
      refreshToken := p.refreshToken;
      currentCompany := p.currentCompany;
      companies := p.companies;
      permissions := p.permissions;
      isAuthenticated := p.isAuthenticated;
    }
  }
}
