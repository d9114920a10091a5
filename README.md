# Financial management backend core, modelled in Dafny

This project models the business logic of a multi-tenant financial management system.
The system is an Express/Prisma REST backend with a React admin front end.
The modelled parts are:

- the accounts-receivable invoice and accounts-payable bill engine: sequential numbering, tax, update and void guards, lookup and listing;
- payment application against invoices and bills, with its overpayment guard;
- sign-in with its lockout state machine, token refresh, password change and sign-out;
- the permission cache and the permission gate on every route;
- token revocation and bearer-token authentication;
- tenant membership: company creation, listing and switching;
- user administration: creation, update, lookup and role assignment;
- customer and vendor codes, lookups and listing;
- the helpers around them: pagination, the error handler, the CORS allow list and the JSON envelopes;
- the front end's permission predicates and its session store.

Each database table is a `seq` of rows inside a class, and a row's identifier is its position.
The classes are `Tenancy.Directory` (users, companies, memberships, roles, role assignments), `Documents.DocumentTable` (invoices or bills, and their payments) and `Partners.PartnerTable` (customers or vendors).
Their methods change those fields and state each new table exactly.
Pure rules are functions, and what the source promises about them is proved as lemmas.
Amounts are integers in minor units (hundredths).
Company tax rates are whole percentages. Tax is `(subtotal * rate + 50) / 100` in minor units. For a whole-percent rate and a non-negative subtotal, this is `Math.round(subtotal * rate) / 100` in major units.
The clock, the calendar year of a date, bcrypt and JWT signing and verification are parameters.
The database's ordering of text is byte-wise lexicographic order (`Text.LexLess`).

The AR and AP services are line-for-line the same apart from names.
One parameterised definition (`Documents.Kind`, `Partners.PartnerKind`) models both, and module `Payables` states the AP wording and scheme (`BIL`, `V-`, "Bill not found").

Behaviour of the program that the model keeps as it is:

- A document, customer or vendor of another company is reported as 404 NOT_FOUND.
- Every token verification failure is INVALID_TOKEN; expiry is not reported separately.
- Number generation reads the current maximum and writes without a lock or transaction.
- An update of the subtotal does not keep `paid_amount <= total_amount` (finding 3).

The services model the code as written, including the four defects listed under "## Findings".
Each finding also has a corrected definition and a proof of the intended property.

## Model

| member | source | states |
|---|---|---|
| Text.Pad4 | backend/src/modules/ar/ar-invoices.service.ts:97 | `String(n).padStart(4, '0')` reads back as n, and has exactly four digits iff n <= 9999 |
| Text.DigitsLexIsNumeric | backend/src/modules/ar/ar-invoices.service.ts:88 | for digit strings of equal length, the database's text order is numeric order |
| Text.LexMax | backend/src/modules/ar/ar-invoices.service.ts:83-90 | the first row of a descending text ordering is one of the numbers, and no number is greater |
| Text.JoinSplit | backend/src/config/cors.ts:4-5 | splitting a text at a separator and joining the pieces with it gives the text back |
| Numbering.SuffixOfFormat | backend/src/modules/ar/ar-invoices.service.ts:94-97 | the regular expression and `parseInt` read a formatted number back as its sequence number |
| Numbering.FormatInjective | backend/src/modules/ar/ar-invoices.service.ts:97 | two sequence numbers give the same document number iff they are equal |
| Numbering.FormatOrder | backend/src/modules/ar/ar-invoices.service.ts:88-97 | up to 9999, the text order of formatted numbers is their numeric order |
| Numbering.NextNumberIsMaxPlusOne | backend/src/modules/ar/ar-invoices.service.ts:92-96 | with sequence numbers up to 9999: the next number is 1 in an empty scope, is the greatest one plus one, and exceeds every existing one |
| Numbering.NextNumberIsFresh | backend/src/modules/ar/ar-invoices.service.ts:82-97 | with sequence numbers up to 9999 the new number is not in use in its scope |
| Numbering.SequentialNumbering | backend/src/modules/ar/ar-invoices.service.ts:82-97 | after 0001 … k (k <= 9999) the next number is k + 1 |
| Numbering.AsWrittenRepeatsTenThousand | backend/src/modules/ar/ar-invoices.service.ts:83-97 | with `…-9999` and `…-10000` in scope the code issues `…-10000` again |
| Numbering.AsWrittenRepeatsAfterTenThousandCreations | backend/src/modules/ar/ar-invoices.service.ts:83-97 | after 10000 numbered creations the next number repeats one already issued |
| Numbering.NumericNextIsFresh | backend/src/modules/ar/ar-invoices.service.ts:92-97 | the corrected rule (numeric maximum plus one) never issues a number already in scope |
| Numbering.NumericAgreesBelowTenThousand | backend/src/modules/ar/ar-invoices.service.ts:92-97 | below 10000 the corrected rule issues the same number as the written one |
| Money.TaxAmount | backend/src/modules/ar/ar-invoices.service.ts:100-101 | the tax is subtotal times a whole-percent rate, rounded half up to a whole minor unit |
| Money.TotalAmount | backend/src/modules/ar/ar-invoices.service.ts:102 | the total is at least the subtotal |
| Money.TaxIsNearest | backend/src/modules/ar/ar-invoices.service.ts:101 | a whole amount is the tax iff it is within half a unit of subtotal times rate percent (ties up) |
| Money.TaxAtMostSubtotal | backend/src/modules/ar/ar-invoices.service.ts:100-102 | with a rate of at most 100 the tax is at most the subtotal and the total at most twice it |
| Money.TaxMonotone | backend/src/modules/ar/ar-invoices.service.ts:100-102 | a larger subtotal never gives a smaller tax or total |
| Pagination.ParsePagination | backend/src/shared/utils/pagination.ts:1-6 | page >= 1, 1 <= limit <= 100, take = limit, and skip = (page - 1) * limit >= 0 whenever page and limit are numbers; NaN propagates |
| Pagination.ClampPage | backend/src/shared/utils/pagination.ts:2 | `Math.max(1, n)`: at least 1, n itself when n >= 1, NaN iff n is NaN |
| Pagination.ClampLimit | backend/src/shared/utils/pagination.ts:3 | `Math.min(100, Math.max(1, n))`: between 1 and 100, n itself when in range, NaN iff n is NaN |
| Pagination.DefaultPaging | backend/src/shared/utils/pagination.ts:2-5 | with no page or limit: page 1, limit 20, skip 0, take 20 |
| Pagination.DecimalPaging | backend/src/shared/utils/pagination.ts:2-5 | decimal page and limit strings are read and clamped |
| Pagination.ParseIntOfDecimal | backend/src/shared/utils/pagination.ts:2 | `parseInt` reads a printed natural number back |
| Pagination.PaginationMeta | backend/src/shared/utils/pagination.ts:8-10 | page, limit and total are echoed; totalPages is the ceiling of total / limit, and 0 iff total is 0 |
| Pagination.CeilDiv | backend/src/shared/utils/pagination.ts:9 | the least quotient that covers the total |
| Pagination.NewestFirst | backend/src/modules/ar/ar-invoices.service.ts:22-32 | exactly the matching rows, newest first |
| Pagination.Window | backend/src/modules/ar/ar-invoices.service.ts:25-26 | the `skip`/`take` window: at most take rows, those from position skip on |
| Pagination.Paginate | backend/src/modules/ar/ar-invoices.service.ts:22-35 | Ok iff skip is a number; then the page is exactly the skip/take window of the ordered matches and meta is `paginationMeta(total, page, limit)` with the total of all matches; a NaN skip makes the query fail |
| Pagination.AsWrittenNonNumericPage | backend/src/shared/utils/pagination.ts:2 | `page=abc` gives a NaN page and skip |
| Pagination.NonNumericPage | backend/src/shared/utils/pagination.ts:2-3 | every page text starting with neither a blank, a sign nor a digit gives a NaN page and skip, whatever the limit |
| Pagination.CorrectedPagingIsTotal | backend/src/shared/utils/pagination.ts:2-5 | with a fallback for non-numbers, page, limit and skip are always numbers in range, and nothing else changes |
| Tenancy.MembershipsOf | backend/src/modules/auth/auth.service.ts:31-37 | exactly the memberships of one user |
| Tenancy.DefaultMembershipChoice | backend/src/modules/auth/auth.service.ts:72 | the first default membership if there is one, otherwise the first membership, and none only for a user without memberships |
| Tenancy.FirstDefaultFinds | backend/src/modules/auth/auth.service.ts:72 | `find(is_default)` finds a default membership iff there is one, and the earliest |
| Tenancy.PermissionsAreUnion | backend/src/modules/auth/auth.service.ts:7-28 | the permission list has no duplicates and holds exactly the codes of the roles assigned in that company |
| Tenancy.VisitedIsUnion | backend/src/modules/auth/auth.service.ts:22-26 | the codes the loops visit are the union over the pair's role assignments |
| Tenancy.DedupSameElements | backend/src/modules/auth/auth.service.ts:21-27 | `Array.from(new Set(...))` keeps every element and drops repeats |
| Tenancy.CollectPermissions | backend/src/modules/auth/auth.service.ts:21-27 | the loop over assignments and role codes computes the deduplicated union |
| Tenancy.AddCodes | backend/src/modules/auth/auth.service.ts:23-25 | the inner loop adds one role's codes to the set in order |
| Tokens.ConfiguredSecrets | backend/src/config/index.ts:5-6 | each secret is the environment value when it is non-empty, otherwise its development default |
| Tokens.SignAccess | backend/src/modules/auth/token.service.ts:16-19 | an access token carries user, company and username, the access secret, and lives 900 s |
| Tokens.SignRefresh | backend/src/modules/auth/token.service.ts:21-24 | a refresh token carries only the user, the refresh secret, and lives 604800 s |
| Tokens.DefaultSecretsDiffer | backend/src/modules/auth/token.service.ts:16-32 | with the default secrets, access and refresh tokens are signed with different secrets |
| Tokens.Revocation.Revoke | backend/src/modules/auth/token.service.ts:34-36 | the token is revoked afterwards, no other token changes, and revoking twice changes nothing |
| Tokens.RevocationIsPermanent | backend/src/modules/auth/token.service.ts:14-40 | any sequence of revocations only adds tokens |
| Authentication.BearerToken | backend/src/middleware/authenticate.ts:7-12 | a token exists iff the header starts with `Bearer `, and it is the rest of the header |
| Authentication.DecideSpec | backend/src/middleware/authenticate.ts:5-32 | NO_TOKEN iff no bearer header; TOKEN_REVOKED iff the token is revoked; success iff it is not revoked and verifies; the identity is the payload's; every failure is 401 |
| Authentication.RevokedRefusedWhateverSignature | backend/src/middleware/authenticate.ts:13-15 | a revoked token is refused before its signature is looked at |
| Authentication.Authenticate | backend/src/middleware/authenticate.ts:5-32 | the request's user is set to the decided identity on success and untouched on failure |
| Authorization.Lookup | backend/src/middleware/authorize.ts:9-13 | a cached entry is used iff it exists and its expiry is strictly after now |
| Authorization.FreshEntryServes | backend/src/middleware/authorize.ts:6-13 | a stored entry serves for exactly five minutes; at its expiry instant it is stale |
| Authorization.InvalidationForcesReload | backend/src/middleware/authorize.ts:40-42 | after invalidation the pair misses the cache and every other pair looks up as before |
| Authorization.EveryHeld | backend/src/middleware/authorize.ts:53 | `every` holds iff each required code is held |
| Authorization.AllOfMonotone | backend/src/middleware/authorize.ts:53-56 | no requirement always passes; a joined requirement passes iff both parts do |
| Authorization.PermissionCache.Load | backend/src/middleware/authorize.ts:8-38 | a fresh entry is returned with the cache unchanged; otherwise the union is computed and stored to expire in five minutes |
| Authorization.PermissionCache.Invalidate | backend/src/middleware/authorize.ts:40-42 | exactly the pair's entry is removed |
| Authorization.PermissionCache.Authorize | backend/src/middleware/authorize.ts:44-63 | 401 NOT_AUTHENTICATED without an identity and no cache change; otherwise pass iff every required code of the cached or freshly collected set is held, else 403 FORBIDDEN, and the cache keeps a fresh entry or gains the collected set for five minutes |
| Documents.NumbersInScope | backend/src/modules/ar/ar-invoices.service.ts:83-87 | exactly the company's numbers that start with `INV-<year>-` |
| Documents.CreatedSpec | backend/src/modules/ar/ar-invoices.service.ts:68-123 | NOT_FOUND iff the company is missing or the customer is not the company's; otherwise a fresh number, the tax rule, paid 0, DRAFT and the company currency by default |
| Documents.CreatedKeepsLedger | backend/src/modules/ar/ar-invoices.service.ts:104-123 | a created document keeps numbers unique per company, amounts consistent and paid amounts equal to their payments |
| Documents.UpdateSpec | backend/src/modules/ar/ar-invoices.service.ts:128-172 | NOT_FOUND iff not the company's; INVALID_STATUS iff VOID or PAID; amounts change together only with a subtotal; number, company, paid amount, currency and creator are kept; partner, dates, status, description and notes take the patch's value when given and keep their own otherwise |
| Documents.RevisedKeepsLedger | backend/src/modules/ar/ar-invoices.service.ts:141-169 | an update keeps the ledger invariant |
| Documents.VoidOutcome | backend/src/modules/ar/ar-invoices.service.ts:174-189 | voiding succeeds iff the document is the company's and neither VOID nor PAID, and changes only the status; NOT_FOUND when not the company's, 400 INVALID_STATUS for a VOID or PAID one |
| Documents.PaymentsOf | backend/src/modules/ar/ar-invoices.service.ts:43 | exactly the document's payments |
| Documents.InsertKeepsOrder | backend/src/modules/ar/ar-invoices.service.ts:43 | inserting by date keeps payments newest first |
| Documents.ByDateDescending | backend/src/modules/ar/ar-invoices.service.ts:43 | the ordering is a permutation of the payments |
| Documents.ByDateDescendingSorted | backend/src/modules/ar/ar-invoices.service.ts:43 | the ordering has payments newest first |
| Documents.DocumentTable.Create | backend/src/modules/ar/ar-invoices.service.ts:54-126 | on error nothing is stored; otherwise exactly the created document is appended |
| Documents.DocumentTable.Update | backend/src/modules/ar/ar-invoices.service.ts:128-172 | stores the update outcome in place of the document, or nothing on error |
| Documents.DocumentTable.VoidDocument | backend/src/modules/ar/ar-invoices.service.ts:174-189 | stores the voided document, or nothing on error |
| Documents.DocumentTable.Get | backend/src/modules/ar/ar-invoices.service.ts:38-52 | found iff the document is the company's; it comes with exactly its payments, newest first |
| Documents.DocumentTable.List | backend/src/modules/ar/ar-invoices.service.ts:5-36 | only the company's documents matching status, partner and dates; on success the page is exactly the skip/take window of those matches newest first, and meta is `paginationMeta` of their count and the parsed page and limit; Ok iff skip is a number |
| Documents.StatusRegression | backend/src/modules/ar/ar-invoices.service.ts:159 | a PARTIALLY_PAID invoice can be set back to DRAFT, keeping its paid amount |
| Documents.ForeignPartnerAccepted | backend/src/modules/ar/ar-invoices.service.ts:156 | a patched customer of another company is accepted |
| Documents.AsWrittenSubtotalBelowPaid | backend/src/modules/ar/ar-invoices.service.ts:144-154 | a subtotal patch can leave an invoice that owes less than was paid on it |
| Documents.CorrectedUpdateKeepsCovered | backend/src/modules/ar/ar-invoices.service.ts:144-154 | the corrected update keeps paid <= total and otherwise agrees with the written one |
| Payments.PaymentSpec | backend/src/modules/ar/ar-payments.service.ts:16-58 | accepted iff the invoice is the company's, not VOID or PAID, and the amount is at most the remainder; paid grows by the amount; PAID iff fully paid, else PARTIALLY_PAID; OVERPAYMENT iff the amount exceeds the remainder |
| Payments.PaymentKeepsCovered | backend/src/modules/ar/ar-payments.service.ts:25-28 | an accepted payment keeps paid <= total |
| Payments.UncoveredRefusesPayments | backend/src/modules/ar/ar-payments.service.ts:25-28 | an invoice already paid beyond its total refuses every payment |
| Payments.FullPaymentSettles | backend/src/modules/ar/ar-payments.service.ts:45-47 | paying exactly the remainder is accepted and makes the invoice PAID |
| Payments.PaymentKeepsLedger | backend/src/modules/ar/ar-payments.service.ts:31-58 | recording the payment and the new paid amount together keeps the ledger invariant |
| Payments.CreatePayment | backend/src/modules/ar/ar-payments.service.ts:4-61 | on error nothing changes; otherwise one payment row is appended and the invoice updated, together |
| Payables.BillCreation | backend/src/modules/ap/ap-bills.service.ts:69-97 | a vendor outside the company is 404 "Vendor not found"; bill numbers are `BIL-<year>-` with the next sequence in scope |
| Payables.BillGuards | backend/src/modules/ap/ap-bills.service.ts:133-181 | updating or voiding a bill that is missing, VOID or PAID fails with the bill wording |
| Payables.BillPaymentGuards | backend/src/modules/ap/ap-payments.service.ts:17-23 | paying a bill that is missing, VOID or PAID fails with the bill wording |
| Payables.BillsOfVendor | backend/src/modules/ap/ap-bills.service.ts:11-14 | listing by vendor returns only that vendor's bills of the company |
| Payables.VendorCodes | backend/src/modules/vendors/vendors.service.ts:67-79 | vendor codes are `V-` and the next sequence among the company's codes |
| Payables.VendorNotFound | backend/src/modules/vendors/vendors.service.ts:39-48 | a vendor lookup fails iff the vendor is not the company's, with "Vendor not found" |
| Partners.CodesIn | backend/src/modules/customers/customers.service.ts:68-72 | exactly the codes of the company's customers |
| Partners.PartnerTable.Created | backend/src/modules/customers/customers.service.ts:67-97 | the next code in the company; payment terms default to 30 and credit limit to 0; active |
| Partners.PartnerTable.Create | backend/src/modules/customers/customers.service.ts:51-100 | a company id that is not a company row fails the foreign key (P2003) with nothing stored; otherwise exactly the created customer is appended and its id returned |
| Partners.PartnerTable.Get | backend/src/modules/customers/customers.service.ts:39-49 | found iff the customer is the company's, else 404 |
| Partners.PartnerTable.Update | backend/src/modules/customers/customers.service.ts:102-122 | 404 with nothing changed when not the company's; otherwise the given fields replace the old ones |
| Partners.PartnerTable.List | backend/src/modules/customers/customers.service.ts:5-37 | only the company's customers matching search and status; on success the page is exactly the skip/take window of those matches newest first, and meta is `paginationMeta` of their count and the parsed page and limit; Ok iff skip is a number |
| Partners.CodesScopedToCompany | backend/src/modules/customers/customers.service.ts:68-72 | another company's customers do not change the next code |
| Partners.FirstCode | backend/src/modules/customers/customers.service.ts:74-79 | a company's first customer gets `C-0001` |
| Partners.PatchIdempotent | backend/src/modules/customers/customers.service.ts:116-119 | applying an update twice is applying it once; an empty update changes nothing |
| Auth.FindUser | backend/src/modules/auth/auth.service.ts:31-37 | finds the user with that username, or shows there is none |
| Auth.AttemptSpec | backend/src/modules/auth/auth.service.ts:39-80 | locked and not expired: 423 and no change; INACTIVE: 401; wrong password: count from the snapshot plus one, locked for 30 minutes at 5; success iff password and company and ACTIVE or auto-unlocked, and then the counter and lock are cleared and the login time set |
| Auth.AsWrittenOneMissRelocks | backend/src/modules/auth/auth.service.ts:43-66 | right after an automatic unlock, one wrong password locks the account again |
| Auth.CorrectedUnlockRestartsCount | backend/src/modules/auth/auth.service.ts:43-66 | counting from the stored row, an unlocked account gets its attempts back and nothing else changes |
| Auth.Entries | backend/src/modules/auth/auth.service.ts:99-102 | one entry per membership, carrying its company and default flag |
| Auth.StaleStatusReported | backend/src/modules/auth/auth.service.ts:91-97 | after an automatic unlock the stored user is ACTIVE while the response says LOCKED |
| Auth.SessionCompany | backend/src/modules/auth/auth.service.ts:72-98 | the session company is one of the user's, the default one if any; the tokens carry that company and user |
| Auth.Login | backend/src/modules/auth/auth.service.ts:30-105 | unknown username is 401 with no change; otherwise the user row becomes the attempt's row and the result is its error or the session |
| Auth.RefreshSpec | backend/src/modules/auth/auth.service.ts:111-138 | succeeds iff the token verifies and the user exists, is ACTIVE and has a membership; INVALID_TOKEN iff one of the first three fails; any other failure is 403 NO_COMPANY "User is not assigned to any company"; the new token is for a company of the user, with its permissions |
| Auth.Refresh | backend/src/modules/auth/auth.service.ts:111-138 | computes the refresh outcome and changes nothing |
| Auth.ChangePassword | backend/src/modules/auth/auth.service.ts:140-156 | 404 for an unknown user, 401 for a wrong current password, each with no change; otherwise only the password hash changes |
| Auth.Logout | backend/src/modules/auth/auth.service.ts:107-109 | the token is added to the revoked set |
| Companies.SortByName | backend/src/modules/companies/companies.service.ts:9 | the ordering is a permutation |
| Companies.SortByNameSorted | backend/src/modules/companies/companies.service.ts:9 | the ordering is ascending by company name |
| Companies.ListCompaniesSpec | backend/src/modules/companies/companies.service.ts:5-16 | sorted by name, and exactly one entry per membership of the user with its default flag |
| Companies.GetCompany | backend/src/modules/companies/companies.service.ts:18-28 | the company, or 404 "Company not found" iff it does not exist |
| Companies.CompanyDefaults | backend/src/modules/companies/companies.service.ts:46-59 | currency TWD when absent or empty, tax rate 5 and fiscal start 1 only when absent |
| Companies.FindRole | backend/src/modules/companies/companies.service.ts:72-74 | finds the first role with that name (role names are unique, so the only one), or shows there is none |
| Companies.CreateCompany | backend/src/modules/companies/companies.service.ts:30-86 | the company is appended; the creator gets a non-default membership and Company Admin only if that role exists; an unknown creator fails after the company is stored |
| Companies.CreatorListsNewCompany | backend/src/modules/companies/companies.service.ts:62-69 | the creator's company list then shows the new company as non-default |
| Companies.SwitchedMemberships | backend/src/modules/companies/companies.service.ts:110-119 | the user's memberships are default iff they are for the target; other users' are untouched |
| Companies.SwitchKeepsMemberships | backend/src/modules/companies/companies.service.ts:110-119 | a switch adds and removes no membership and keeps pairs unique |
| Companies.SwitchKeepsOneDefault | backend/src/modules/companies/companies.service.ts:110-119 | a switch keeps at most one default membership per user |
| Companies.SwitchThenDefaultIsTarget | backend/src/modules/companies/companies.service.ts:110-119 | after a switch the user's default membership is the target |
| Companies.SwitchCompany | backend/src/modules/companies/companies.service.ts:100-157 | 403 NO_ACCESS with no change without a membership; otherwise the switched memberships, a token for the target and its permissions |
| Users.RoleIdsOf | backend/src/modules/users/users.service.ts:207-210 | exactly the roles assigned to the pair |
| Users.RolesIn | backend/src/modules/users/users.service.ts:207-215 | the pair's roles with their names |
| Users.MembershipsIn | backend/src/modules/users/users.service.ts:82-84 | exactly the user's memberships in the company |
| Users.GetUser | backend/src/modules/users/users.service.ts:66-100 | 404 iff the user does not exist; otherwise only the roles and memberships in the given company |
| Users.GrantsOf | backend/src/modules/users/users.service.ts:139-145 | one role row per role id, for that pair only |
| Users.CreateUser | backend/src/modules/users/users.service.ts:102-150 | a taken username stores nothing; otherwise the user is stored, then a default membership and the role rows when a company is given; a repeated role id fails with P2002 and an unknown one with P2003, after the user and the membership are stored |
| Users.GrantsFitKey | backend/src/modules/users/users.service.ts:139-145 | the role rows fit the composite key (user_id, role_id, company_id) iff no role id is repeated |
| Users.CreatedUserRoles | backend/src/modules/users/users.service.ts:138-146 | a new user's roles in the company are exactly the given ids |
| Users.UserPatched | backend/src/modules/users/users.service.ts:156-161 | only the fields given non-empty change; a password is stored hashed |
| Users.UserPatchIdempotent | backend/src/modules/users/users.service.ts:156-161 | applying an update twice is applying it once; empty fields change nothing |
| Users.UpdateUser | backend/src/modules/users/users.service.ts:152-177 | P2025 for an unknown user; otherwise only that user's row changes |
| Users.Without | backend/src/modules/users/users.service.ts:193-195 | removes exactly the pair's role rows |
| Users.ReplacedSpec | backend/src/modules/users/users.service.ts:192-203 | the pair's roles become exactly the ids; every other pair's are unchanged |
| Users.Join | backend/src/modules/users/users.service.ts:181-190 | a missing membership is added as non-default; an existing one is kept |
| Users.AssignRoles | backend/src/modules/users/users.service.ts:179-216 | membership ensured, the pair's old roles deleted; a repeated role id fails with P2002 and an unknown one with P2003, leaving them deleted; otherwise the roles replaced, the pair's cache entry dropped, and the new roles returned |
| ErrorHandling.IssueDetails | backend/src/middleware/errorHandler.ts:14 | one detail per issue, with its dotted path and message |
| ErrorHandling.HandleClassifies | backend/src/middleware/errorHandler.ts:7-33 | an AppError keeps its status, code and message; otherwise 400 iff validation, 409 iff P2002, 404 iff P2025, 500 for everything else |
| ErrorHandling.DuplicateMessage | backend/src/middleware/errorHandler.ts:19-24 | a unique violation is 409 naming the target fields |
| ErrorHandling.DuplicateMessageExamples | backend/src/middleware/errorHandler.ts:21-22 | examples of the rule above: a duplicate username reads `Duplicate value for: username`; no target names none |
| ErrorHandling.ValidationPath | backend/src/middleware/errorHandler.ts:14 | for every non-empty path whose keys hold no dot, splitting the printed path at dots gives back each key and each array index in decimal |
| ErrorHandling.ValidationPathExample | backend/src/middleware/errorHandler.ts:14 | example: a nested path prints as `lines.0.amount` |
| Responses.SuccessResponse | backend/src/shared/utils/response.ts:8-10 | success is true, data unchanged, meta present iff given |
| Responses.ErrorResponse | backend/src/shared/utils/response.ts:12-14 | success is false with the code and message; details present iff truthy |
| Responses.EnvelopesReadBack | backend/src/shared/utils/response.ts:8-14 | the two envelopes always differ; an empty array detail is kept and an empty string dropped |
| Cors.TrimmedNonEmpty | backend/src/config/cors.ts:4-7 | exactly the trimmed non-empty pieces |
| Cors.AllowedOrigins | backend/src/config/cors.ts:4-7 | the allowed origins are the trimmed non-empty comma-separated pieces |
| Cors.Decide | backend/src/config/cors.ts:10-17 | allowed iff there is no origin or it is listed exactly; otherwise "Not allowed by CORS" |
| Text.SplitJoin | backend/src/config/cors.ts:4-5 | comma-joining origins without commas and splitting gives them back |
| Cors.ConfiguredOriginsRoundTrip | backend/src/config/cors.ts:4-17 | configuring a list of clean origins allows exactly those origins |
| PermissionHooks.HasPermission | frontend/src/hooks/usePermission.ts:3-6 | true iff the code is held |
| PermissionHooks.HasAnyPermission | frontend/src/hooks/usePermission.ts:8-11 | true iff at least one of the codes is held |
| PermissionHooks.AnyOfBasics | frontend/src/hooks/usePermission.ts:8-11 | no codes is false; a list containing a held code is true |
| PermissionHooks.AnyOfWeakerThanAllOf | frontend/src/hooks/usePermission.ts:8-11 | a non-empty requirement the server grants is shown, but not conversely |
| AuthStore.Store.constructor | frontend/src/stores/authStore.ts:42-48 | a new store is cleared |
| AuthStore.Store.Login | frontend/src/stores/authStore.ts:50-62 | a failed call leaves the store as it was; a successful one copies the response into every field |
| AuthStore.Store.ClearAuth | frontend/src/stores/authStore.ts:77-87 | every field is cleared |
| AuthStore.Store.Logout | frontend/src/stores/authStore.ts:64-71 | the server is called iff a non-empty access token is held, its answer is never read, and the store always ends cleared |
| AuthStore.Store.SetCompanyData | frontend/src/stores/authStore.ts:73-75 | only the company, access token and permissions change |
| AuthStore.Store.Restore | frontend/src/stores/authStore.ts:89-99 | the persisted fields are restored exactly |

## Left out

- Floating point: amounts are exact minor units, so rounding error of the source's binary numbers is not modelled.
- Concurrency: each operation is atomic in the model. The race between two creations reading the same maximum number, and between two concurrent switches, is not modelled.
- Request validation (zod schemas): inputs are typed values; the schema's limits (non-negative amounts, status DRAFT/ISSUED on input) appear only as the types that allow them.
- Dates: a document's date, its calendar year and the clock are parameters; `new Date` parsing is not modelled.
- bcrypt hashing and comparison, and JWT signing and verification, are parameters; the model keeps each token's payload, secret and lifetime.
- UUID identifiers are table positions, so a malformed identifier is not modelled; a foreign key to a missing row is `PrismaKnown("P2003")`.
- `listUsers`, `getRoles` and `updateCompany` are not part of this model.
- Users.CreateUser, Users.AssignRoles: when role ids are both repeated and unknown, the model reports P2002. PostgreSQL checks the unique key as each row is inserted and the foreign keys at the end of the statement; the source does not fix this order itself.
- Users.CreateUser: only the username is unique; the email's unique constraint is not modelled.
- Companies.SortByName: names are ordered byte-wise; the database collation is not modelled.
- Numbering.NextNumber: the regular expression is matched only at the start of the greatest number; an edited code holding the pattern later in the text is read as no match.
- Partners.MatchesSearch: case-insensitive matching folds ASCII letters only.
- Cors.AllowedOrigins: the configured text is a parameter; its default `http://localhost:5173` is not part of the model.
- Logging with `console.error`, the front end's HTTP interceptor and token refresh, and the React pages are not part of this model.
- Authorization.PermissionCache: a cache key is the pair (user, company) rather than the text `user:company`; distinct UUIDs cannot collide, so the two agree.
- AuthStore.Store.Login: the request is given as its outcome; a rejected promise is the error outcome.
- Money.TaxAmount: the rate is a whole percentage. The company schema also admits fractional rates between 0 and 100 (5.5, say), and `Math.round(subtotal * 5.5) / 100` is outside the model.
- Database defaults and constraints the model takes as given, because the service code does not state them:
  - a new invoice or bill has `paid_amount` 0;
  - a new user is ACTIVE;
  - a new customer or vendor is ACTIVE;
  - invoice and bill numbers are unique per company, which is where `Documents.Created` gets P2002.
- Partners.PartnerTable.Create: no unique constraint on customer or vendor codes is known, so a repeated code is stored. The only failure modelled is the company foreign key (P2003).

## Findings

| source | as written | input that shows it | evidently intended | confidence | as-written member | corrected member |
|---|---|---|---|---|---|---|
| backend/src/modules/ar/ar-invoices.service.ts:83-97 | the next number is the suffix of the text-greatest `INV-<year>-` number plus one | `INV-2026-9999` and `INV-2026-10000` exist; `…-9999` sorts last, so `INV-2026-10000` is issued again (same in ap-bills.service.ts and the C-/V- codes) | the numeric greatest suffix plus one | not executed | Numbering.AsWrittenRepeatsTenThousand | Numbering.NumericNextIsFresh |
| backend/src/modules/auth/auth.service.ts:43-66 | after an automatic unlock the wrong-password branch counts from the snapshot read before the unlock | LOCKED user with 5 failed attempts and an expired lock types a wrong password: the count becomes 6 and the account is locked again for 30 minutes | the unlock resets the count to 0, so the wrong password leaves it ACTIVE with 1 | not executed | Auth.AsWrittenOneMissRelocks | Auth.CorrectedUnlockRestartsCount |
| backend/src/modules/ar/ar-invoices.service.ts:144-154 | a subtotal patch recomputes tax and total without looking at the paid amount | PARTIALLY_PAID invoice, total 10.50, paid 5.00, patched to subtotal 1.00 at 5%: total 1.05 < paid 5.00 | refuse an update whose total would fall below the amount paid | not executed | Documents.AsWrittenSubtotalBelowPaid | Documents.CorrectedUpdateKeepsCovered |
| backend/src/shared/utils/pagination.ts:2-3 | `parseInt` of a non-numeric page or limit is NaN, and `Math.max`/`Math.min` pass NaN on | `?page=abc`: page and skip are NaN and the list query fails | fall back to page 1 and limit 20 | not executed | Pagination.AsWrittenNonNumericPage | Pagination.CorrectedPagingIsTotal |

The services model the code as written, so they keep the as-written behaviour.
The corrected definitions are `Numbering.NextNumberNumeric`, `Auth.AttemptedCorrected`, `Documents.UpdateOutcomeCorrected` and `Pagination.ParsePaginationCorrected`.
Each is proved to have the intended property and to agree with the written code wherever the defect cannot occur.
