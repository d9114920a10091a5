/** Sign-in and the credential state machine: lockout after repeated wrong
    passwords, automatic unlock once the lock has expired, the inactive
    check, the choice of the session's company, token refresh, password
    change and sign-out.

    `login` reads the user row once and decides on that snapshot, even after
    it has itself rewritten the row (the automatic unlock). Password hashing
    is bcrypt's: the check is a parameter `matches(password, hash)` and the
    hash a parameter `hash(password)`. */
module Auth {
  import opened Common
  import opened Tenancy
  import opened Tokens

  /** `config.lockoutThreshold` and `config.lockoutDurationMinutes` in ms. */
  const LockoutThreshold: nat := 5
  const LockoutMillis: nat := 30 * 60 * 1000

  /** The user with a given username (usernames are unique). */
  function FindUser(users: seq<User>, username: string): (r: Option<UserId>)
    ensures r.Some? ==> r.value < |users| && users[r.value].username == username
    ensures r.None? ==> forall i :: 0 <= i < |users| ==> users[i].username != username
  {
    if |users| == 0 then None
    else if users[|users| - 1].username == username then Some(|users| - 1)
    else FindUser(users[..|users| - 1], username)
  }

  /** A locked account whose lock has run out. */
  predicate AutoUnlocks(u: User, now: nat) {
    u.status == Locked && u.lockedUntil.Some? && u.lockedUntil.value < now
  }

  /** The automatic unlock's write. */
  function Unlocked(u: User): User {
    u.(status := Active, failedAttempts := 0, lockedUntil := None)
  }

  /** The wrong-password write: the attempt count is the snapshot's count plus
      one, and reaching the threshold locks the account for 30 minutes. The
      write lands on `stored`, the row as it is in the table. */
  function AfterWrongPassword(stored: User, snapshot: User, now: nat): User {
    var attempts := snapshot.failedAttempts + 1;
    if attempts >= LockoutThreshold then
      stored.(failedAttempts := attempts, status := Locked, lockedUntil := Some(now + LockoutMillis))
    else stored.(failedAttempts := attempts)
  }

  /** The successful sign-in's write. */
  function AfterSignIn(stored: User, now: nat): User {
    stored.(failedAttempts := 0, lastLoginAt := Some(now), lockedUntil := None)
  }

  /** The user row after a sign-in attempt and the error it ends in, if any. */
  datatype Attempt = Attempt(row: User, error: Option<Error>)

  /** One `login` call on the snapshot of an existing user: a lock still in
      force refuses whatever the password; an expired lock is lifted first;
      an inactive account is refused before the password is checked; a wrong
      password counts (from the snapshot) and may lock; a right password
      without any company is refused; otherwise the counters are reset. */
  function Attempted(snapshot: User, passwordOk: bool, hasCompany: bool, now: nat): Attempt {
    if snapshot.status == Locked && !AutoUnlocks(snapshot, now) then
      Attempt(snapshot, Some(Raise(423, "ACCOUNT_LOCKED", "Account is locked. Please try again later.")))
    else
      var stored := if snapshot.status == Locked then Unlocked(snapshot) else snapshot;
      if snapshot.status == Inactive then
        Attempt(stored, Some(Raise(401, "ACCOUNT_INACTIVE", "Account is inactive")))
      else if !passwordOk then
        Attempt(AfterWrongPassword(stored, snapshot, now), Some(Raise(401, "INVALID_CREDENTIALS", "Invalid username or password")))
      else if !hasCompany then
        Attempt(stored, Some(Raise(403, "NO_COMPANY", "User is not assigned to any company")))
      else
        Attempt(AfterSignIn(stored, now), None)
  }

  /** The sign-in state machine, transition by transition. */
  lemma AttemptSpec(snapshot: User, passwordOk: bool, hasCompany: bool, now: nat)
    ensures var a := Attempted(snapshot, passwordOk, hasCompany, now);
      snapshot.status == Locked && !AutoUnlocks(snapshot, now) ==>
        a.row == snapshot && a.error.Some? && CodeOf(a.error.value) == "ACCOUNT_LOCKED"
    ensures var a := Attempted(snapshot, passwordOk, hasCompany, now);
      snapshot.status == Inactive ==> a.row == snapshot && a.error == Some(Raise(401, "ACCOUNT_INACTIVE", "Account is inactive"))
    ensures var a := Attempted(snapshot, passwordOk, hasCompany, now);
      snapshot.status != Inactive && !(snapshot.status == Locked && !AutoUnlocks(snapshot, now)) && !passwordOk ==>
        a.error == Some(Raise(401, "INVALID_CREDENTIALS", "Invalid username or password"))
        && a.row.failedAttempts == snapshot.failedAttempts + 1
        && (a.row.status == Locked <==> snapshot.failedAttempts + 1 >= LockoutThreshold)
        && (a.row.status == Locked ==> a.row.lockedUntil == Some(now + LockoutMillis))
    ensures var a := Attempted(snapshot, passwordOk, hasCompany, now);
      a.error.None? <==>
        passwordOk && hasCompany && (snapshot.status == Active || AutoUnlocks(snapshot, now))
    ensures var a := Attempted(snapshot, passwordOk, hasCompany, now);
      a.error.None? ==>
        a.row.failedAttempts == 0 && a.row.lockedUntil == None && a.row.lastLoginAt == Some(now)
        && a.row.status == Active
    ensures var a := Attempted(snapshot, passwordOk, hasCompany, now);
      a.row.username == snapshot.username && a.row.passwordHash == snapshot.passwordHash
      && a.row.email == snapshot.email && a.row.displayName == snapshot.displayName
  {
  }

  // ---- Finding: the wrong-password count after an automatic unlock.

  /** As written: once an expired lock is lifted, the wrong-password branch
      still counts from the locked snapshot, so a single wrong password locks
      the account again for another 30 minutes. */
  lemma AsWrittenOneMissRelocks(snapshot: User, hasCompany: bool, now: nat)
    requires AutoUnlocks(snapshot, now) && snapshot.failedAttempts + 1 >= LockoutThreshold
    ensures var a := Attempted(snapshot, false, hasCompany, now);
      a.row.status == Locked && a.row.failedAttempts == snapshot.failedAttempts + 1
      && a.row.lockedUntil == Some(now + LockoutMillis)
  {
  }

  /** Corrected: the wrong-password branch counts from the row as stored,
      that is from zero after an automatic unlock. */
  function AttemptedCorrected(snapshot: User, passwordOk: bool, hasCompany: bool, now: nat): Attempt {
    var a := Attempted(snapshot, passwordOk, hasCompany, now);
    if AutoUnlocks(snapshot, now) && !passwordOk then
      Attempt(AfterWrongPassword(Unlocked(snapshot), Unlocked(snapshot), now), a.error)
    else a
  }

  /** With the correction an unlocked account gets the full five attempts
      again: a wrong password right after the unlock leaves it active with
      one failed attempt; in every other case the correction changes nothing. */
  lemma CorrectedUnlockRestartsCount(snapshot: User, passwordOk: bool, hasCompany: bool, now: nat)
    ensures AutoUnlocks(snapshot, now) && !passwordOk ==>
      var a := AttemptedCorrected(snapshot, passwordOk, hasCompany, now);
      a.row.status == Active && a.row.failedAttempts == 1 && a.row.lockedUntil == None
      && a.error == Attempted(snapshot, passwordOk, hasCompany, now).error
    ensures !(AutoUnlocks(snapshot, now) && !passwordOk) ==>
      AttemptedCorrected(snapshot, passwordOk, hasCompany, now) == Attempted(snapshot, passwordOk, hasCompany, now)
    ensures var a := AttemptedCorrected(snapshot, passwordOk, hasCompany, now);
      a.row.status == Locked && a.row.lockedUntil != snapshot.lockedUntil ==>
        !AutoUnlocks(snapshot, now) && snapshot.failedAttempts + 1 >= LockoutThreshold
  {
  }

  // ---- The session returned by login

  datatype UserView = UserView(userId: UserId, username: string, email: string, displayName: string, status: UserStatus)

  /** A company as listed for a user, with that membership's default flag. */
  datatype CompanyEntry = CompanyEntry(companyId: CompanyId, company: Company, isDefault: bool)

  datatype Session = Session(
    access: Signing<AccessPayload>,
    refresh: Signing<RefreshPayload>,
    user: UserView,
    companyId: CompanyId,
    company: Company,
    companies: seq<CompanyEntry>,
    permissions: seq<string>)

  /** `user_companies.map((uc) => ({ ...uc.company, is_default: uc.is_default }))`. */
  function Entries(ms: seq<Membership>, companies: seq<Company>): (es: seq<CompanyEntry>)
    requires forall m :: m in ms ==> m.companyId < |companies|
    ensures |es| == |ms|
    ensures forall i :: 0 <= i < |ms| ==>
      es[i] == CompanyEntry(ms[i].companyId, companies[ms[i].companyId], ms[i].isDefault)
  {
    if |ms| == 0 then [] else [CompanyEntry(ms[0].companyId, companies[ms[0].companyId], ms[0].isDefault)] + Entries(ms[1..], companies)
  }

  /** What a successful sign-in returns for user id: tokens for the chosen
      company, the user as read at the start (status included), the chosen
      company, all the user's companies and the effective permissions. */
  function SessionFor(id: UserId, snapshot: User, ms: seq<Membership>, companies: seq<Company>,
                      asg: seq<Assignment>, roles: seq<Role>, secrets: Secrets): Session
    requires forall m :: m in ms ==> m.companyId < |companies|
    requires |ms| > 0
  {
    DefaultMembershipChoice(ms);
    var chosen := DefaultMembership(ms).value;
    Session(SignAccess(AccessPayload(id, chosen.companyId, snapshot.username), secrets),
            SignRefresh(RefreshPayload(id), secrets),
            UserView(id, snapshot.username, snapshot.email, snapshot.displayName, snapshot.status),
            chosen.companyId, companies[chosen.companyId], Entries(ms, companies),
            Permissions(asg, roles, id, chosen.companyId))
  }

  /** The session reports the status read before the automatic unlock: a user
      whose expired lock was just lifted signs in as LOCKED while the stored
      row is ACTIVE. */
  lemma StaleStatusReported(id: UserId, snapshot: User, ms: seq<Membership>, companies: seq<Company>,
                            asg: seq<Assignment>, roles: seq<Role>, secrets: Secrets, now: nat)
    requires forall m :: m in ms ==> m.companyId < |companies|
    requires |ms| > 0 && AutoUnlocks(snapshot, now)
    ensures Attempted(snapshot, true, true, now).row.status == Active
    ensures SessionFor(id, snapshot, ms, companies, asg, roles, secrets).user.status == Locked
  {
  }

  /** The session's company is one of the user's companies, the default one
      when there is one, and the tokens are issued for it. */
  lemma SessionCompany(id: UserId, snapshot: User, ms: seq<Membership>, companies: seq<Company>,
                       asg: seq<Assignment>, roles: seq<Role>, secrets: Secrets)
    requires forall m :: m in ms ==> m.companyId < |companies|
    requires |ms| > 0
    ensures var s := SessionFor(id, snapshot, ms, companies, asg, roles, secrets);
      && (exists i :: 0 <= i < |ms| && ms[i].companyId == s.companyId)
      && ((exists i :: 0 <= i < |ms| && ms[i].isDefault) ==>
            exists i :: 0 <= i < |ms| && ms[i].isDefault && ms[i].companyId == s.companyId)
      && s.access.payload == AccessPayload(id, s.companyId, snapshot.username)
      && s.access.secret == secrets.access && s.refresh.payload == RefreshPayload(id)
      && s.company == companies[s.companyId]
  {
    DefaultMembershipChoice(ms);
    var chosen := DefaultMembership(ms).value;
    var i :| 0 <= i < |ms| && ms[i] == chosen;
    if exists j :: 0 <= j < |ms| && ms[j].isDefault {
      var j :| 0 <= j < |ms| && ms[j].isDefault;
      assert ms[j] in ms;
    }
  }

  /** `login(username, password)`. An unknown username is refused without any
      change; otherwise the user's row is rewritten as the attempt says and no
      other table changes. */
  method Login(dir: Directory, username: string, password: string, now: nat,
               matches: (string, string) -> bool, secrets: Secrets) returns (r: Result<Session>)
    requires dir.Valid()
    modifies dir
    ensures dir.Valid()
    ensures dir.companies == old(dir.companies) && dir.memberships == old(dir.memberships)
    ensures dir.roles == old(dir.roles) && dir.assignments == old(dir.assignments)
    ensures FindUser(old(dir.users), username).None? ==>
      r == Err(Raise(401, "INVALID_CREDENTIALS", "Invalid username or password")) && dir.users == old(dir.users)
    ensures FindUser(old(dir.users), username).Some? ==>
      var id := FindUser(old(dir.users), username).value;
      var snapshot := old(dir.users)[id];
      var ms := MembershipsOf(old(dir.memberships), id);
      var a := Attempted(snapshot, matches(password, snapshot.passwordHash), |ms| > 0, now);
      && dir.users == old(dir.users)[id := a.row]
      && (a.error.Some? ==> r == Err(a.error.value))
      && (a.error.None? ==> |ms| > 0 && r == Ok(SessionFor(id, snapshot, ms, dir.companies, dir.assignments, dir.roles, secrets)))
  {
    var found := FindUser(dir.users, username);
    if found.None? {
      return Err(Raise(401, "INVALID_CREDENTIALS", "Invalid username or password"));
    }
    var id := found.value;
    var snapshot := dir.users[id];
    var ms := MembershipsOf(dir.memberships, id);
    var a := Attempted(snapshot, matches(password, snapshot.passwordHash), |ms| > 0, now);
    AttemptSpec(snapshot, matches(password, snapshot.passwordHash), |ms| > 0, now);
    dir.users := dir.users[id := a.row];
    if a.error.Some? {
      return Err(a.error.value);
    }
    var chosen := DefaultMembership(ms);
    DefaultMembershipChoice(ms);
    var permissions := CollectPermissions(dir.assignments, dir.roles, id, chosen.value.companyId);
    r := Ok(Session(SignAccess(AccessPayload(id, chosen.value.companyId, snapshot.username), secrets),
                    SignRefresh(RefreshPayload(id), secrets),
                    UserView(id, snapshot.username, snapshot.email, snapshot.displayName, snapshot.status),
                    chosen.value.companyId, dir.companies[chosen.value.companyId], Entries(ms, dir.companies),
                    permissions));
  }

  /** What `refresh` returns: a new access token and the permissions. */
  datatype Refreshed = Refreshed(access: Signing<AccessPayload>, permissions: seq<string>)

  /** `refresh(token)`, given the payload the refresh secret verifies (none
      when verification throws): the user must exist, be ACTIVE and belong to
      a company; the token is for the default company (else the first). */
  function RefreshOutcome(users: seq<User>, ms: seq<Membership>, asg: seq<Assignment>, roles: seq<Role>,
                          verified: Option<RefreshPayload>, secrets: Secrets): Result<Refreshed>
  {
    if verified.None? then Err(Raise(401, "INVALID_TOKEN", "Invalid or expired refresh token"))
    else
      var id := verified.value.userId;
      if id >= |users| || users[id].status != Active then Err(Raise(401, "INVALID_TOKEN", "User not found or inactive"))
      else match DefaultMembership(MembershipsOf(ms, id))
        case None => Err(Raise(403, "NO_COMPANY", "User is not assigned to any company"))
        case Some(m) =>
          Ok(Refreshed(SignAccess(AccessPayload(id, m.companyId, users[id].username), secrets),
                       Permissions(asg, roles, id, m.companyId)))
  }

  /** Refresh succeeds exactly for a verified token of an existing active user
      with a company, and then issues an access token for one of that user's
      companies (the default one if any). */
  lemma RefreshSpec(users: seq<User>, ms: seq<Membership>, asg: seq<Assignment>, roles: seq<Role>,
                    verified: Option<RefreshPayload>, secrets: Secrets)
    ensures var r := RefreshOutcome(users, ms, asg, roles, verified, secrets);
      r.Ok? <==>
        verified.Some? && verified.value.userId < |users| && users[verified.value.userId].status == Active
        && exists i :: 0 <= i < |ms| && ms[i].userId == verified.value.userId
    ensures var r := RefreshOutcome(users, ms, asg, roles, verified, secrets);
      r.Err? && CodeOf(r.error) == "INVALID_TOKEN" <==>
        verified.None? || verified.value.userId >= |users| || users[verified.value.userId].status != Active
    ensures var r := RefreshOutcome(users, ms, asg, roles, verified, secrets);
      r.Err? && CodeOf(r.error) != "INVALID_TOKEN" ==>
        r.error == Raise(403, "NO_COMPANY", "User is not assigned to any company")
    ensures var r := RefreshOutcome(users, ms, asg, roles, verified, secrets);
      r.Ok? ==>
        && IsMember(ms, verified.value.userId, r.value.access.payload.companyId)
        && r.value.access.payload.userId == verified.value.userId
        && r.value.access.secret == secrets.access
        && r.value.permissions == Permissions(asg, roles, verified.value.userId, r.value.access.payload.companyId)
  {
    if verified.Some? && verified.value.userId < |users| && users[verified.value.userId].status == Active {
      var id := verified.value.userId;
      var own := MembershipsOf(ms, id);
      DefaultMembershipChoice(own);
      if |own| > 0 {
        var m := DefaultMembership(own).value;
        assert m in ms;
        var i :| 0 <= i < |ms| && ms[i] == m;
      }
    }
  }

  /** `refresh`: reads the tables, changes nothing. */
  method Refresh(dir: Directory, verified: Option<RefreshPayload>, secrets: Secrets) returns (r: Result<Refreshed>)
    ensures r == RefreshOutcome(dir.users, dir.memberships, dir.assignments, dir.roles, verified, secrets)
  {
    if verified.None? {
      return Err(Raise(401, "INVALID_TOKEN", "Invalid or expired refresh token"));
    }
    var id := verified.value.userId;
    if id >= |dir.users| || dir.users[id].status != Active {
      return Err(Raise(401, "INVALID_TOKEN", "User not found or inactive"));
    }
    var chosen := DefaultMembership(MembershipsOf(dir.memberships, id));
    if chosen.None? {
      return Err(Raise(403, "NO_COMPANY", "User is not assigned to any company"));
    }
    var permissions := CollectPermissions(dir.assignments, dir.roles, id, chosen.value.companyId);
    r := Ok(Refreshed(SignAccess(AccessPayload(id, chosen.value.companyId, dir.users[id].username), secrets), permissions));
  }

  /** `changePassword`: NOT_FOUND for an unknown user, INVALID_PASSWORD when
      the current password does not match; otherwise only the password hash
      changes. */
  method ChangePassword(dir: Directory, id: UserId, current: string, next: string,
                        matches: (string, string) -> bool, hash: string -> string) returns (r: Outcome)
    requires dir.Valid()
    modifies dir
    ensures dir.Valid()
    ensures dir.companies == old(dir.companies) && dir.memberships == old(dir.memberships)
    ensures dir.roles == old(dir.roles) && dir.assignments == old(dir.assignments)
    ensures id >= |old(dir.users)| ==> r == Fail(Raise(404, "NOT_FOUND", "User not found")) && dir.users == old(dir.users)
    ensures id < |old(dir.users)| && !matches(current, old(dir.users)[id].passwordHash) ==>
      r == Fail(Raise(401, "INVALID_PASSWORD", "Current password is incorrect")) && dir.users == old(dir.users)
    ensures id < |old(dir.users)| && matches(current, old(dir.users)[id].passwordHash) ==>
      r == Pass && dir.users == old(dir.users)[id := old(dir.users)[id].(passwordHash := hash(next))]
  {
    if id >= |dir.users| {
      return Fail(Raise(404, "NOT_FOUND", "User not found"));
    }
    if !matches(current, dir.users[id].passwordHash) {
      return Fail(Raise(401, "INVALID_PASSWORD", "Current password is incorrect"));
    }
    dir.users := dir.users[id := dir.users[id].(passwordHash := hash(next))];
    r := Pass;
  }

  /** `logout(token)`: the access token is revoked. */
  method Logout(rev: Revocation, token: string)
    modifies rev
    ensures rev.revoked == old(rev.revoked) + {token}
  {
    rev.Revoke(token);
  }
}
