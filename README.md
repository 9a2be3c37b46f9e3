# Welfare-society backend: authorization, audit log and contact mail

A Dafny model of the security-relevant core of an Express/Mongoose backend for a
staff welfare society. Members apply for loans, death-fund, medical, refund,
retirement and scholarship benefits. Officers (president, secretary, treasurer
and their assistants) and a super-admin manage those benefits.

The model covers six parts of the system:

- **Authentication.** The bearer-header `protect` middleware (`HeaderAuth`) and
  the cookie-first `protect` variant (`CookieAuth`). Both rest on shared request
  parsing (`Identity`). `generateToken` issues the `jwt` cookie (`TokenIssue`).
- **Role guards.** The six role guards are `isAdmin`, `isAdminOrMember`, the
  three office guards and `isSuperAdmin` (`Roles`, `Guards`).
- **Authorization decision table.**
  - Every mounted router is a first-match list of routes, each with a guard
    chain (`Routing` and the `*Routes` modules).
  - `server.js` mounts the routers and applies the CORS origin check
    (`Server`).
  - Lemmas state who can reach which handler with which token: who may create,
    update and delete benefits; that no protected route admits a request
    without a token; that the super-admin is locked out of member management;
    that a token for a deleted user still passes the bearer `protect`.
- **Audit log store.**
  - The log schema (`LogModel`).
  - The logger service: the `log` method appends a validated record and its
    five severity wrappers delegate to it. `searchLogs` filters, sorts newest
    first and paginates (`LogSearch`, `Logger.LogStore`).
  - The `getLogs` controller clamps the query before forwarding it
    (`LogController`).
- **Member schema.** The member schema as a validity predicate with a
  unique-email insert (`MemberModel`).
- **Contact-form controller.** It sends mail and writes audit records for each
  outcome (`EmailController`).

External services are oracles:

- JWT verification is a map from token to user id.
- The user store is a map from id to user, plus a "store down" flag.
- The mail transport outcome, the clock and store failures are parameters.

Route handlers are opaque labels: the model decides whether a request reaches a
handler, and with which `req.user`. It does not model what the handler does.

## Model

| member | source | states |
|---|---|---|
| Roles.ParseRole | middleware/auth.middleware.js:25-81 | a role string is read as the role the guards compare against; it is unknown exactly when it is none of the nine names the guards use |
| Roles.ParseRoleEq | middleware/auth.middleware.js:25-81 | a known role is recognised exactly when the string equals its name (the guards' strict `===`) |
| Roles.ParseRoleName | middleware/auth.middleware.js:25-81 | reading a role's name back gives the role exactly for canonical roles |
| Guards.Passes | middleware/auth.middleware.js:25-81 | definition: each guard's own test, `req.user` present and its role one of the strings the guard compares with |
| Guards.DenyMessage | middleware/auth.middleware.js:25-81 | definition: each guard's 403 message |
| Guards.RunGuard | middleware/auth.middleware.js:25-81 | a guard calls `next()` exactly when a user is attached and its role is in the guard's allowed set; otherwise it answers 403 |
| Guards.PassesMatchesTable | middleware/auth.middleware.js:25-81 | each guard's boolean test agrees with its table of allowed roles |
| Guards.NoUserForbidden | middleware/auth.middleware.js:25-81 | with no `req.user` every guard answers 403 with its own message |
| Guards.UnknownRoleForbidden | middleware/auth.middleware.js:25-81 | a role outside the known names is refused by every guard |
| Guards.AdminGuardsExact | middleware/auth.middleware.js:25-39 | `isAdmin` admits exactly "admin"; `isAdminOrMember` admits exactly "admin" or "member"; a super-admin fails `isAdmin` |
| Guards.OfficeGuardsExact | middleware/auth.middleware.js:42-81 | each office guard admits exactly its office, its assistant and the super-admin; `isSuperAdmin` admits only "super_admin" |
| Guards.PresidentGuardExact | middleware/auth.middleware.js:42-50 | `isPresidentOrVicePresident` admits exactly president, vice-president and super-admin |
| Guards.SecretaryGuardExact | middleware/auth.middleware.js:53-61 | `isSecretaryOrAssistantSecretary` admits exactly secretary, assistant secretary and super-admin |
| Guards.TreasurerGuardExact | middleware/auth.middleware.js:64-72 | `isTreasurerOrAssistantTreasurer` admits exactly treasurer, assistant treasurer and super-admin |
| Guards.SuperAdminGuardExact | middleware/auth.middleware.js:75-81 | `isSuperAdmin` admits exactly "super_admin" |
| Guards.RunGuardPasses | middleware/auth.middleware.js:25-81 | running a guard proceeds exactly when its test passes |
| Guards.SuperAdminHierarchy | middleware/auth.middleware.js:42-81 | the super-admin passes every office guard yet fails `isAdmin`; whoever passes `isSuperAdmin` passes every office guard |
| Guards.BaselineRolesBelowOffices | middleware/auth.middleware.js:42-81 | plain "admin" and "member" users are refused by every office guard and by `isSuperAdmin` |
| Identity.BearerToken | middleware/auth.middleware.js:7-8 | a token is taken only from a header starting with "Bearer" and never holds a space; under that prefix a token exists exactly when the header has a space |
| Identity.FirstSpace | middleware/auth.middleware.js:8 | finds the first space of the header, or reports there is none |
| Identity.SecondField | middleware/auth.middleware.js:8 | `split(" ")[1]` exists exactly when the header has a space, and holds no space |
| Identity.SecondFieldOf | middleware/auth.middleware.js:8 | for `p + " " + t + rest`, the second field is `t` |
| Identity.FirstSpaceAt | middleware/auth.middleware.js:8 | the first space of `p + " " + q` sits right after `p` when `p` has no space |
| Identity.BearerRoundTrip | middleware/auth.middleware.js:7-8 | `"Bearer " + t` yields the token `t` |
| Identity.BearerSchemeLoose | middleware/auth.middleware.js:7-8 | the `startsWith("Bearer")` test also accepts `"BearerXYZ t"`, and a double space yields an empty token |
| Identity.NoBearerPrefixNoToken | middleware/auth.middleware.js:7-13 | a header not starting with "Bearer" yields no token |
| Identity.FindById | middleware/auth.middleware.js:16 | the user lookup finds the stored user exactly when the id is present |
| Identity.Request.constructor | middleware/auth.middleware.js:4-23 | a fresh request carries its header and cookies and no user |
| HeaderAuth.ProtectResult | middleware/auth.middleware.js:4-23 | every rejection of the bearer `protect` is a 401 |
| HeaderAuth.Protect | middleware/auth.middleware.js:4-23 | the middleware's outcome is the decision function's; on `next()` it sets `req.user` to the looked-up user, and on rejection it leaves `req.user` alone |
| HeaderAuth.NoTokenRejected | middleware/auth.middleware.js:7-13 | without a bearer token the answer is 401 "Not authorized, no token" |
| HeaderAuth.InvalidTokenRejected | middleware/auth.middleware.js:15-22 | a token the verifier refuses gives 401 "Invalid token" |
| HeaderAuth.ProceedsExactlyWhenVerified | middleware/auth.middleware.js:15-18 | `protect` proceeds exactly when a token is present, verifies and the store answers; it then attaches the lookup's result |
| HeaderAuth.DeletedUserProceeds | middleware/auth.middleware.js:16-18 | a valid token for a user no longer in the store still proceeds, with `req.user` null |
| HeaderAuth.VerifiedTokenProceeds | middleware/auth.middleware.js:7-18 | a valid bearer token proceeds with the stored user for its id |
| CookieAuth.ExtractToken | middleware/authMiddleware.js:9-13 | definition: the non-empty `jwt` cookie, otherwise the bearer token of the header |
| CookieAuth.ProtectResult | middleware/authMiddleware.js:4-35 | rejections of the cookie-first `protect` are 401 or 500 |
| CookieAuth.Protect | middleware/authMiddleware.js:4-35 | the middleware's outcome is the decision function's; `req.user` is set exactly when the lookup ran |
| CookieAuth.CookieTakesPriority | middleware/authMiddleware.js:9-13 | a non-empty `jwt` cookie is used whatever the Authorization header says |
| CookieAuth.NoTokenRejected | middleware/authMiddleware.js:15-17 | no cookie and no bearer token give 401 "Not authorized, no token provided" |
| CookieAuth.FailClosed | middleware/authMiddleware.js:21-28 | this variant proceeds only when a token verifies and its user exists, and then attaches that user |
| CookieAuth.AgreesWithHeaderOnly | middleware/authMiddleware.js:21-28 | with no cookies, whatever this variant admits the bearer `protect` admits with the same user |
| TokenIssue.CookieOptionsFor | utils/generateToken.js:10-15 | the cookie is http-only, strict same-site, lives 30 days and is `secure` outside development |
| TokenIssue.Response.constructor | utils/generateToken.js:10-15 | a fresh response sets no cookies |
| TokenIssue.GenerateToken | utils/generateToken.js:3-18 | a token is issued exactly when the secret is set; it is the signed claim for the user id and is stored as the `jwt` cookie; without a secret no cookie is set |
| TokenIssue.IssuedCookieAuthenticates | utils/generateToken.js:5-17 | the token `sign` produces for the user's claim, set as the `jwt` cookie, authenticates that user with the cookie-first `protect` whatever header comes with it, given that the verifier reads a signed token back to its user id and the user still exists |
| LogModel.ParseSeverity | models/log.model.js:5-10 | only the five enum strings are accepted as a severity |
| LogModel.SeverityRoundTrip | models/log.model.js:5-10 | every severity's name parses back to it |
| LogModel.NewLog | models/log.model.js:3-38 | a record is valid exactly when its type is in the enum and its event and message are non-empty; a valid record carries the given fields and defaults |
| LogModel.DefaultsApplied | models/log.model.js:16-33 | a missing user defaults to null, missing data to `{}`, and the timestamp to now |
| LogSearch.Lower | utils/logger.js:54 | lower-casing keeps the length |
| LogSearch.ContainsIff | utils/logger.js:54 | the substring test holds exactly when the needle occurs at some index |
| LogSearch.ContainsFinds | utils/logger.js:54 | a substring hit has an index where the needle occurs |
| LogSearch.OccurrenceFound | utils/logger.js:54 | an occurrence at any index makes the substring test hold |
| LogSearch.OccursAtStart | utils/logger.js:54 | an occurrence at index 0 is a prefix |
| LogSearch.LowerIdempotent | utils/logger.js:54 | lower-casing twice is lower-casing once, so a case-insensitive match is the same on lowered text |
| LogSearch.Matches | utils/logger.js:49-70 | definition: a record satisfies every supplied filter (equal type, event containing the pattern ignoring case, equal user, timestamp within the bounds) |
| LogSearch.Matching | utils/logger.js:46-70 | the filter keeps every matching record with its multiplicity and drops every other one |
| LogSearch.MatchingMembers | utils/logger.js:46-70 | a record is in the filtered list exactly when it is stored and matches |
| LogSearch.NoFiltersMatchAll | utils/logger.js:44-70 | with no filters every stored record matches, in order |
| LogSearch.MatchingLast | utils/logger.js:46-70 | filtering a list with a last record appended filters the prefix and keeps the last record only if it matches |
| LogSearch.InsertByTime | utils/logger.js:82 | insertion keeps the list newest-first and adds exactly the one record |
| LogSearch.SortNewestFirst | utils/logger.js:82 | the sort gives a newest-first permutation of its input |
| LogSearch.CeilDiv | utils/logger.js:77 | `Math.ceil(n / d)` is the least page count whose pages hold `n` items |
| LogSearch.Skip | utils/logger.js:73 | the skip is `(page - 1) * limit` |
| LogSearch.PageSlice | utils/logger.js:83-84 | skip-then-limit returns at most `limit` consecutive items starting at `skip` |
| LogSearch.Ordered | utils/logger.js:80-82 | the query result is newest-first and holds exactly the stored records that match |
| LogSearch.Paginate | utils/logger.js:73-96 | a page holds at most `limit` of the ordered records; the total counts all of them and the page count is its ceiling over `limit` |
| LogSearch.Search | utils/logger.js:44-96 | fails exactly when the page is below 1 (a negative skip); otherwise returns at most `limit` matching records, newest first, counts every match, and gives the page count as the ceiling of the match count over `limit` |
| LogSearch.PaginationMeaning | utils/logger.js:73-96 | the page flags and the total page count agree with the slice that was returned |
| LogSearch.PageArithmetic | utils/logger.js:76-95 | relates `page < totalPages` to the skip and the item count |
| LogSearch.EveryRecordOnItsPage | utils/logger.js:73-84 | the k-th ordered record appears on page `k / limit + 1` |
| LogSearch.SearchComplete | utils/logger.js:46-96 | every stored matching record appears on some page |
| LogSearch.SearchIsPaginate | utils/logger.js:73-96 | for a valid page, the search is pagination of the filtered, ordered records |
| LogSearch.TwentyFiveMatchesTenPerPage | utils/logger.js:76-96 | 25 matches at 10 per page give 3 pages: page 1 has ten records and a next page; page 3 has five and a previous page |
| LogSearch.AppendNonMatchingInvisible | utils/logger.js:46-84 | logging a record that does not match leaves every search result unchanged |
| LogSearch.AppendMatchingCounted | utils/logger.js:76 | logging a matching record raises the total by one |
| Logger.LogStore.Log | utils/logger.js:4-20 | a record is stored exactly when it validates and the store accepts it; the collection grows by exactly that record, and is unchanged on failure |
| Logger.LogStore.Info | utils/logger.js:23-25 | `info` stores an "info" record with the given fields exactly when the event and message are present |
| Logger.LogStore.Warn | utils/logger.js:27-29 | as `info`, with severity "warn" |
| Logger.LogStore.Error | utils/logger.js:31-33 | as `info`, with severity "error" |
| Logger.LogStore.Debug | utils/logger.js:35-37 | as `info`, with severity "debug" |
| Logger.LogStore.Critical | utils/logger.js:39-41 | as `info`, with severity "critical" |
| Logger.LogStore.SearchLogs | utils/logger.js:44-101 | a store failure propagates; a page below 1 is rejected; otherwise the result is the filtered, ordered, paginated search; nothing is modified |
| LogController.PageNum | controllers/log.controller.js:6-9 | the page is at least 1, defaults to 1, and a value below 1 becomes 1 |
| LogController.LimitNum | controllers/log.controller.js:6-10 | the limit lies in 1..100, defaults to 20, and is clamped at both ends |
| LogController.ForwardedFilters | controllers/log.controller.js:12-18 | only the query fields that are present become filters; the date bounds pass through |
| LogController.ResponseFor | controllers/log.controller.js:20-29 | the 200 response carries at most the clamped limit of matching records (exactly the slice of the newest-first matches at the clamped page), the clamped page, the total match count and its ceiling over the limit as the page count |
| LogController.GetLogs | controllers/log.controller.js:2-38 | a store failure gives 500 "Failed to retrieve logs"; otherwise the response is the search over the stored records |
| LogController.ForwardingKeepsMeaning | controllers/log.controller.js:13-18 | dropping absent query fields does not change which records match |
| LogController.ClampEdges | controllers/log.controller.js:9-10 | a limit of 500 becomes 100; zero or negative pages and limits become 1 |
| LogController.TwentyFiveErrors | controllers/log.controller.js:20-29 | 25 error records at page 1, limit 10 answer 25 items over 3 pages with ten records |
| MemberModel.SchemaValid | models/member.model.js:6-112 | definition: the required fields are present and non-empty, the role is "admin" or "member", and the fee is present |
| MemberModel.Insert | models/member.model.js:4-123 | a member is stored exactly when it satisfies the schema and its email, if any, is new; the collection keeps unique emails |
| MemberModel.AsUser | models/member.model.js:37-41 | the authenticated user carries the member's id and role |
| MemberModel.SchemaRolesPassNoOffice | models/member.model.js:37-41 | the schema only allows "admin" and "member", so no stored member passes an office guard or `isSuperAdmin` |
| MemberModel.WithoutEmailAlwaysStored | models/member.model.js:10-14 | a schema-valid member without an email never clashes on the sparse unique index |
| EmailController.Expected | controllers/email.controller.js:4-68 | the controller's decision: at most one audit record per run, only 200, 400 or 500 answered, and 400 exactly for an incomplete form |
| EmailController.SendEmail | controllers/email.controller.js:4-68 | the response and the records appended to the audit log are those of the controller's decision for the form, configuration and mail outcome |
| EmailController.IncompleteFormWritesNothing | controllers/email.controller.js:8-10 | a form missing name, email or message gets 400 and writes no record |
| EmailController.OneRecordPerOutcome | controllers/email.controller.js:12-66 | every complete form writes exactly one record when its write succeeds: info on success, error on failure |
| EmailController.MissingCredentials | controllers/email.controller.js:12-20 | when either mail credential is missing, the answer is 500 "Email service not configured properly" with one error record, and the transport's outcome changes nothing (no mail is sent) |
| EmailController.SentAndRecorded | controllers/email.controller.js:38-53 | a mail that goes out and is recorded gives 200 and one info record naming the sender |
| EmailController.SendFailed | controllers/email.controller.js:38-66 | a mail the transport rejects gives 500 "Failed to send email" and one error record carrying the transport's message |
| EmailController.RecordsTagged | controllers/email.controller.js:12-64 | every record carries the handler's event name, the requester's user id (or null), the time of the run and the client's IP and user agent |
| EmailController.ClientKeysKept | controllers/email.controller.js:45-62 | adding the sender and name to a record's data keeps the client's IP and user agent |
| EmailController.SentYetReportedFailed | controllers/email.controller.js:38-66 | when the mail goes out but its audit write fails, the client is told 500 "Failed to send email" and one error record is written |
| EmailRoutes.ContactPublic | routes/email.routes.js:6 | `POST /contact` reaches `sendEmail` with no authentication |
| Routing.PatternMatches | routes/loan.routes.js:22-49 | definition: a path matches a pattern of the same length whose literals are equal and whose parameters are non-empty |
| Routing.Select | routes/loan.routes.js:22-49 | the route chosen is a registered route that applies to the verb and path |
| Routing.SelectNone | routes/loan.routes.js:22-49 | no route is chosen exactly when none applies |
| Routing.SelectFirst | routes/loan.routes.js:22-49 | the chosen route is the first one that applies in registration order |
| Routing.RunChain | routes/loan.routes.js:22-49 | a chain halts only with 401 (from `protect`) or 403 (from a guard) |
| Routing.ChecksDecision | middleware/auth.middleware.js:25-81 | a chain of guards admits exactly when every guard passes, and then keeps the user |
| Routing.ChainDecision | routes/user.routes.js:15-25 | an empty chain admits with no user; a guarded chain ends in `protect`'s rejection, or in the guards' verdict on the user `protect` attached |
| Routing.Decide | routes/loan.routes.js:22-49 | a request reaches a handler only through the first applicable route; denials are 401 or 403 |
| Routing.DecideMeaning | routes/loan.routes.js:22-49 | reaching a handler means its chain admitted the user; being denied means it did not |
| Routing.SelectAppend | routes/loan.routes.js:22-49 | routes registered later are consulted only when no earlier one applies |
| Routing.SelectAt | routes/loan.routes.js:22-49 | the first applicable route is selected |
| Routing.DecideProtected | routes/loan.routes.js:25 | a `protect`-only route is reached exactly when `protect` proceeds, with its user |
| Routing.DecideGuardedBy | routes/loan.routes.js:24 | a `protect`-then-guard route is reached exactly when both pass; a guard failure is 403 |
| Routing.DecidePublic | routes/user.routes.js:15 | an unguarded route is always reached, with no user |
| BenefitRoutes.Table | routes/deathFund.routes.js:18-29 | definition: the six registrations of a benefit route file, with its handler labels and per-user segment |
| BenefitRoutes.LookupRoot | routes/deathFund.routes.js:18-21 | POST and GET on the root select the create and list routes |
| BenefitRoutes.LookupView | routes/deathFund.routes.js:25 | GET `/:id` selects the view route |
| BenefitRoutes.LookupUpdate | routes/deathFund.routes.js:26 | PUT `/:id` selects the update route |
| BenefitRoutes.LookupRemove | routes/deathFund.routes.js:27 | DELETE `/:id` selects the delete route |
| BenefitRoutes.LookupId | routes/deathFund.routes.js:23-27 | the three `/:id` verbs select their routes |
| BenefitRoutes.LookupByUser | routes/deathFund.routes.js:29 | GET `/benefits/:userId` selects the per-user listing, not `/:id` |
| BenefitRoutes.AllGuarded | routes/deathFund.routes.js:18-29 | every chain is `protect` followed by guards |
| BenefitRoutes.ReadDecisions | routes/medical.routes.js:21-29 | every read is reached exactly when `protect` proceeds, whatever the role |
| BenefitRoutes.WriteDecisions | routes/refund.routes.js:20-26 | create and update are reached exactly by treasurers, assistant treasurers and the super-admin |
| BenefitRoutes.DeleteDecision | routes/scholarship.routes.js:27 | delete is reached exactly by the super-admin |
| BenefitRoutes.NoTokenEverywhere | routes/deathFund.routes.js:18-29 | with no token every route answers 401 "Not authorized, no token" |
| BenefitRoutes.DeleteImpliesWrite | routes/deathFund.routes.js:26-27 | whoever can delete can also create and update |
| BenefitRoutes.TreasurerCannotDelete | routes/deathFund.routes.js:26-27 | a treasurer who can update is refused delete with 403 |
| BenefitRoutes.IsAdminUnused | routes/retirement.routes.js:11-30 | no benefit route uses `isAdmin` |
| BenefitRoutes.AdminCannotMutate | routes/deathFund.routes.js:18-29 | a user with role "admin" cannot create, update or delete a benefit |
| BenefitRoutes.ChainsByVerb | routes/deathFund.routes.js:18-29 | reads are `protect` only; create and update add the treasurer guard; delete adds `isSuperAdmin` |
| BenefitRoutes.NonePublic | routes/deathFund.routes.js:18-29 | every route starts with `protect` |
| BenefitRoutes.Registrations | routes/deathFund.routes.js:18-29 | in a file registered in the benefit shape, each of the six requests selects its route with these chains and that file's own handler label |
| LoanRoutes.AsBenefitTable | routes/loan.routes.js:22-33 | where the benefit-shaped routes apply, the loan router decides like a benefit router |
| LoanRoutes.ViewDecision | routes/loan.routes.js:29 | GET `/:id` reaches the view with `protect`'s user when `protect` proceeds, and gets `protect`'s 401 when it rejects |
| LoanRoutes.StatusPathFallsThrough | routes/loan.routes.js:27-40 | `PUT /:loanId/status` is not captured by `/:id` |
| LoanRoutes.UtilPathsFallThrough | routes/loan.routes.js:27-49 | `GET /util/...` is not captured by `/:id` or `/user/:userId` |
| LoanRoutes.StatusDecision | routes/loan.routes.js:35-40 | a status update is reached exactly by treasury roles and the super-admin |
| LoanRoutes.LoanNumberDecision | routes/loan.routes.js:42-47 | loan-number generation is reached exactly by treasury roles and the super-admin |
| LoanRoutes.ByStatusDecision | routes/loan.routes.js:49 | listing by status is reached exactly when `protect` proceeds |
| LoanRoutes.IsAdminUnusedHere | routes/loan.routes.js:14-49 | `isAdmin` is imported but no loan route uses it |
| LoanRoutes.AllGuardedHere | routes/loan.routes.js:22-49 | every loan chain is `protect` followed by guards |
| LoanRoutes.WriteChains | routes/loan.routes.js:22-49 | POST and PUT routes need the treasurer guard; DELETE needs `isSuperAdmin`; GET routes other than loan-number generation need only `protect` |
| LoanRoutes.NonePublicHere | routes/loan.routes.js:22-49 | every loan route starts with `protect` |
| UserRoutes.LookupSession | routes/user.routes.js:15-16 | POST `/auth` and `/logout` select their routes |
| UserRoutes.LookupList | routes/user.routes.js:19 | GET `/` selects the member list |
| UserRoutes.LookupRegister | routes/user.routes.js:20 | POST `/` selects member registration |
| UserRoutes.LookupRoot | routes/user.routes.js:17-20 | both root verbs select their routes |
| UserRoutes.LookupProfile | routes/user.routes.js:23 | GET `/:id` selects the profile view |
| UserRoutes.LookupChange | routes/user.routes.js:24-25 | PUT and DELETE `/:id` select update and delete |
| UserRoutes.LoginPublic | routes/user.routes.js:15 | login is reached with no authentication |
| UserRoutes.ProtectOnlyDecisions | routes/user.routes.js:16-23 | logout and the profile view are reached exactly when `protect` proceeds |
| UserRoutes.ManagementDecisions | routes/user.routes.js:19-25 | listing, registering, updating and deleting members are reached exactly by a token whose user has role "admin" |
| UserRoutes.SuperAdminLockedOut | routes/user.routes.js:19-25 | the super-admin is refused member management with 403 "Not authorized as an admin" |
| UserRoutes.AllGuardedHere | routes/user.routes.js:15-25 | every chain is empty or `protect` followed by guards |
| UserRoutes.OnlyLoginPublic | routes/user.routes.js:15-25 | login is the only unguarded member route |
| AdminRoutes.Decisions | routes/admin.routes.js:7-8 | admin login is public; admin registration needs an "admin" token; other verbs find no route |
| AdminRoutes.OnlyLoginPublic | routes/admin.routes.js:7-8 | admin login is the only unguarded admin route |
| LogRoutes.Decisions | routes/log.route.js:6-7 | both log queries need a super-admin token; other verbs find no route |
| Server.DispatchMounts | server.js:59-69 | a handler is reached only through a mount whose prefix matches and whose route applies to the rest of the path; denials are 401 or 403 |
| Server.Dispatch | server.js:24-69 | `GET /` is greeted before CORS; any other request from a refused origin is a CORS error; a handler is reached only from an allowed origin and through a matching mount |
| Server.CorsAllows | server.js:46-53 | definition: a missing or empty origin passes, any other only when listed |
| Server.CorsDecision | server.js:39-54 | a missing or empty origin is allowed; any other is allowed exactly when it is one of the two listed local origins |
| Server.DispatchSkips | server.js:59-69 | mounts that find no route are passed over in order |
| Server.DispatchAt | server.js:59-69 | the first mount that decides answers the request |
| Server.RoutersGuarded | server.js:59-67 | every mounted router's chains are empty or `protect` followed by guards |
| Server.MountsAdmit | server.js:59-69 | through any list of mounts, an unguarded handler sees no user; a guarded one sees `protect`'s user and every guard admitted it; a 401 is `protect`'s rejection and a 403 comes only after `protect` proceeded |
| Server.ReachedMeansAdmitted | server.js:59-69 | the same for the whole application |
| Server.PublicHandlers | server.js:59-67 | the only unguarded handlers are member login, admin login and the contact form |
| Server.NoTokenOnlyPublic | server.js:59-69 | a request with no bearer token reaches only those three handlers, with no user, and is otherwise denied with 401 "Not authorized, no token" |
| Server.BenefitWriteChains | server.js:59-67 | on every mounted benefit and loan router, creates and updates run `protect` then the treasurer guard, and deletes run `protect` then `isSuperAdmin` |
| Server.BenefitHandlers | server.js:63-67 | each of the five mounted benefit routers (death fund, scholarship, medical, refund, retirement) is the shared benefit table with `/benefits/:userId` and its own handler labels |
| Server.BenefitWritesNeedOffice | server.js:59-67 | a delete reaching a benefit or loan handler carries a super-admin; a create or update carries a treasurer, assistant treasurer or super-admin |
| Server.IsAdminMeansAdmin | server.js:59-67 | a handler guarded by `isAdmin` is reached only by a user with role "admin" |
| Server.SchemaRolesReachNoOffice | server.js:59-67 | a handler reached by a schema-valid stored member has no office guard and no `isSuperAdmin` in its chain |
| Server.LoanPathMount | server.js:59-60 | `/api/loans/:id` misses the member mount and is decided by the loan router |
| Server.MountMiss | server.js:59-67 | a mount whose prefix differs in its second segment finds no route |
| Server.MountHit | server.js:59-67 | a mount whose prefix matches decides on the rest of the path |
| Server.LoanViewDispatch | server.js:60 | `GET /api/loans/:id` reaches the loan view exactly with `protect`'s user |
| Server.DeletedUserReadsLoan | server.js:60 | a valid token for a deleted user reaches the loan view with a null `req.user` |
| Server.ContactPathMount | server.js:59-62 | `/api/contact` misses the first three mounts and is decided by the email router |
| Server.ContactMissesFirstMounts | server.js:59-61 | the member, loan and admin mounts find no route for `/api/contact` |
| Server.ContactAuditedAnonymously | server.js:62 | the contact form is reached without authentication, so every audit record it writes has a null user |
| Server.LogPathsMissMounts | server.js:59-67 | no mount finds a route for `/api/logs` |
| Server.LogPathMissesContact | server.js:62 | the email router has no route under `/logs` |
| Server.LogQueriesNotFound | server.js:59-69 | `/api/logs` and `/api/logs/stats` fall to not-found, because the log router is never mounted |

## Left out

- JWT signing and verification and bcrypt are oracles: a map from token to user id and a signing function. Token expiry and signature checks are not modelled.
- Log-filter regular expressions are read as case-insensitive substring tests. Metacharacters in the `event` filter are not interpreted. The `user` filter is an equality, as in the source.
- LogSearch.Lower: folds only ASCII A-Z, so `LogSearch.ContainsIgnoreCase` misses matches that the regular expression's `i` flag finds between non-ASCII letters of different case ("é" against "CAFÉ").
- `new Date(...)` parsing of the `from`/`to` query fields is left out: the bounds are integers. A `page` or `limit` that `parseInt` cannot read is modelled as absent, so the defaults 1 and 20 apply; in the source `Math.max(1, NaN)` is `NaN`, so `searchLogs` receives a `NaN` page or limit, and the model does not capture what MongoDB then returns.
- getLogStats (controllers/log.controller.js:40-75) is not modelled: it uses a `Log` model the file never imports. Its route is unreachable anyway (`Server.LogQueriesNotFound`).
- The route handlers are opaque labels. The CRUD controllers and the user and admin controllers are not part of this model.
- The legacy unmounted files routes/userRoutes.js, routes/loanRoutes.js, models/memberModel.js, models/user.model.js and models/Loan.js are not part of this model.
- The model matches paths exactly and case-sensitively. Express by default matches routes case-insensitively and accepts a trailing slash; that tolerance is left out, and so are URL decoding, HEAD/OPTIONS and CORS preflight.
- The root `GET /` greeting is answered before CORS and carries no authorization.
- middleware/error.middleware.js is not part of this model. A refused origin and a missed route are distinct outcomes, without the status codes and bodies the error handler would give.
- Mongoose `populate`, indexes other than the unique email, and the password-hashing pre-save hook are left out. The optional member profile fields are not carried.
- LogSearch.Search: requires `limit >= 1`. `searchLogs`' own defaults (page 1, limit 20) are not modelled, because its only caller always passes a clamped page and limit.
- Logger.LogStore.SearchLogs: requires `limit >= 1`, for the same reason.
- Records with equal timestamps are ordered as the insertion sort leaves them; MongoDB's order for ties is not specified.
- The `authMiddleware` declared inside `isSuperAdmin` (middleware/auth.middleware.js:90-104) is never invoked, so it has no effect and is not modelled.
- controllers/email.controller.js and controllers/log.controller.js import `../utils/Logger.js`, while the file is `utils/logger.js`. The model assumes the import resolves, as on a case-insensitive file system.
- The mail transport is an outcome parameter. Mail subject and body text are not modelled.
- Console output, `cookie-parser`, body parsing, `serverless-http`, the database connection and `listen` are left out.
- HeaderAuth.ProtectResult: a verified token whose user id is not a valid ObjectId makes `findById` throw, and the source answers 401 "Invalid token"; the model treats every id as a lookup key and gives `Proceed(None)` there. Tokens the server signs always carry a real `_id`.
- MemberModel.Insert: a sparse unique index still indexes an explicit `email: null`, so two documents stored that way clash in MongoDB; the model reads `None` as a missing field, which never clashes.
- The route tables are constants (`Routes` of each route module, `LoanRoutes.Extra`, `Server.Mounts`); their content is stated by `BenefitRoutes.Registrations`, the `Lookup*` lemmas and `Server.BenefitHandlers` rather than by rows of their own.
