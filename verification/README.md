# AdviserServices: registration, sign-in and access control

AdviserServices is an Express and Postgres back end for a financial-adviser
portal. This project is a Dafny model of its identity core, with proofs about
that model. The core covers:

- **Registration.** Advisers register through three handlers:
  - migration of an existing adviser admin;
  - a new adviser application;
  - a new staff user under an adviser admin.

  Each handler validates the request body. It refuses a user_id that is
  already registered, then runs `createAdviser`. That is one database
  transaction that inserts the adviser, credential, contacts and
  person/non-person rows, and notifies the active admins of a new
  application.
- **Sign-in.** Advisers sign in with a password (argon2), and receive a JWT
  whose role is their credential type. Admins and the root user sign in
  through their own handlers.
- **Access control.** Two routers chain `verifyToken`, `isAdmin` and
  `isRoot` in front of the handlers.
- **Admin handlers.** These create and invite admins, set an admin password,
  update admin and adviser statuses, and normalise paging parameters.

The database is a `Database.Store` class with one map per table. Service
methods change it in place, with BEGIN/COMMIT/ROLLBACK as an explicit
snapshot and restore. Each method is proved equal to a pure specification
function on `Database.Tables`. Lemmas about those functions state what the
services promise:

- all or nothing;
- no duplicate user_id;
- staff join their parent's adviser id;
- consistency of the tables is preserved;
- registration then password then sign-in succeeds with the right role;
- an adviser token reaches no admin route.

Argon2 hashing and JWT verification are function values, passed as
parameters. A thrown database error is a `fault` parameter naming the step
that throws.

Three places where the code does something other than what it evidently
intends are listed under Findings. The model keeps both behaviours, as
written and corrected. The model follows the code in these places:

- root sign-in is refused by validation;
- `updateAdviserStatus` accepts only the admin statuses;
- an invited admin is stored without the `'Pending'` status.

## Model

| member | source | states |
|---|---|---|
| Constants.CredentialType.Parse | src/app/shared/constants.ts:1-7 | accepts exactly the five credential-type strings, and returns the member with that string value |
| Constants.RBAC.Parse | src/app/shared/constants.ts:9-12 | accepts exactly "Registered" and "TBD", and returns the member with that value |
| Constants.IntermediaryType.Parse | src/app/shared/constants.ts:14-18 | accepts exactly "Applicant", "Migrated" and "TBD", and returns the member with that value |
| Constants.LegalEntityType.Parse | src/app/shared/constants.ts:20-23 | accepts exactly "person" and "non_person", and returns the member with that value |
| Constants.AdviserStatus.Parse | src/app/shared/constants.ts:25-29 | accepts exactly the three adviser statuses, and returns the member with that value |
| Constants.CredentialStatus.Parse | src/app/shared/constants.ts:31-37 | accepts exactly the five credential statuses, and returns the member with that value |
| Constants.RoundTrips | src/app/shared/constants.ts:1-37 | for every enumeration, parsing a member's string value gives the member back |
| Strings.TrimStart | src/app/modules/admin/model/admin.validation.ts:3 | the result is a suffix of the input; it does not start with white space; everything removed is white space |
| Strings.TrimEnd | src/app/modules/admin/model/admin.validation.ts:3 | the result is a prefix of the input; it does not end with white space; everything removed is white space |
| Strings.NonBlankIff | src/app/modules/v1/advisers/model/adviser.validation.ts:4 | `trim() !== ''` holds exactly when the string has a character that is not white space |
| Strings.Split | src/app/middleware/authMiddleware.ts:8 | at least one field; no field contains the separator |
| Strings.Join | src/app/modules/v1/advisers/services/adviser.services.ts:211 | joining one part gives that part |
| Strings.JoinSplit | src/app/modules/v1/advisers/services/adviser.services.ts:198-231 | joining the fields of a split gives back the original string |
| Strings.SplitNoSeparator | src/app/modules/v1/advisers/services/adviser.services.ts:198-231 | a string without the separator splits into itself alone |
| Strings.SplitFirstField | src/app/modules/v1/advisers/services/adviser.services.ts:198-231 | a separator-free first field is split off on its own |
| Strings.SplitJoin | src/app/modules/v1/advisers/services/adviser.services.ts:198-231 | splitting a join of separator-free parts gives the parts back |
| Strings.ToLower | src/app/modules/v1/advisers/services/adviser.services.ts:47-53 | same length; each character is mapped to lower case |
| Strings.ToUpper | src/app/modules/v1/advisers/controllers/adviser.controller.ts:186-188 | same length; each character is mapped to upper case |
| Validation.RuleIssues | src/app/modules/admin/model/admin.validation.ts:6-15 | a field rule reports at most one issue, on its own field |
| Validation.Validate | src/app/modules/admin/model/admin.validation.ts:6-15 | at most one issue per rule of the schema |
| Validation.RuleIssuesIff | src/app/modules/admin/model/admin.validation.ts:6-15 | a rule reports no issue exactly when it accepts the body |
| Validation.Messages | src/app/modules/admin/controllers/admin.controller.ts:37-39 | one message per issue: the i-th message is the i-th issue's message |
| Validation.ValidateIff | src/app/modules/admin/model/admin.validation.ts:6-15 | a schema reports no issue exactly when every one of its rules accepts the body |
| Validation.Names | src/app/modules/admin/model/admin.validation.ts:6-15 | the i-th name is the i-th rule's field |
| Validation.IssuesNameFields | src/app/modules/admin/model/admin.validation.ts:6-15 | every issue's path is a field of the schema |
| Validation.StringSchemaIff | src/app/modules/admin/model/admin.validation.ts:6-15 | a schema of string fields passes exactly when every field is present, a string and non-blank |
| Validation.DpAdviserIff | src/app/modules/v1/advisers/model/adviser.validation.ts:6-59 | the data-platform adviser schema passes exactly when each of its fields is a non-blank string |
| Validation.RootSignInIff | src/app/modules/admin/model/admin.validation.ts:6-15 | rootSignIn passes exactly when user_id and secret are non-blank strings |
| Validation.SignInIff | src/app/modules/v1/advisers/model/adviser.validation.ts:61-70 | adminSignIn and the adviser signIn pass exactly when user_id and password are non-blank strings |
| Validation.DpAdviserStatusUpdateIff | src/app/modules/admin/model/admin.validation.ts:36-46 | passes exactly when user_id and status are non-blank strings |
| Validation.AdviserCreateCredsIff | src/app/modules/v1/advisers/model/adviser.validation.ts:72-85 | passes exactly when user_id, password and otp are non-blank strings |
| Validation.AdminStatusUpdateIff | src/app/modules/admin/model/admin.validation.ts:28-34 | passes exactly when user_id is non-blank and status is Active, Inactive or PasswordReset |
| Validation.MissingAndWrongTypeDiffer | src/app/modules/admin/model/admin.validation.ts:6-46 | a missing field and a field of the wrong type get different messages |
| Database.Empty | src/app/config/database.ts:15-22 | the empty database is consistent |
| Database.GetCredentials | src/app/modules/v1/advisers/services/adviser.services.ts:397-404 | succeeds exactly for a registered user_id, with its credential row; otherwise code 204 |
| Database.GetAdviser | src/app/modules/v1/advisers/services/adviser.services.ts:406-413 | succeeds exactly when the credential and its adviser row exist, and returns both |
| Database.GetAdminCredentials | src/app/modules/admin/services/admin.services.ts:59-68 | succeeds exactly for an existing admin, with its row |
| Database.Store.constructor | src/app/config/database.ts:15-24 | the pool starts on the empty database |
| Database.Store.Rollback | src/app/modules/v1/advisers/services/adviser.services.ts:248-263 | every table is restored to its state at BEGIN; the id sequence keeps its advanced value |
| AdviserServices.StaffAdviserId | src/app/modules/v1/advisers/services/adviser.services.ts:47-72 | staff resolve only to an existing adviser_admin that is not themselves (case-insensitive), and take its adviser id |
| AdviserServices.Apply | src/app/modules/v1/advisers/services/adviser.services.ts:74-193 | the inserts leave the id sequence and the admins table alone |
| AdviserServices.Finish | src/app/modules/v1/advisers/services/adviser.services.ts:97-263 | a failing insert leaves the tables as they were and answers 500; a commit inserts the bundle under a free user_id |
| AdviserServices.Register | src/app/modules/v1/advisers/services/adviser.services.ts:25-267 | all or nothing; the sequence moves once for non-staff; a registered user_id is never re-registered; self-reference is a 400 |
| AdviserServices.ApplyEffects | src/app/modules/v1/advisers/services/adviser.services.ts:74-193 | exactly which rows each table gains, and that all other rows are unchanged |
| AdviserServices.RegisterIsApply | src/app/modules/v1/advisers/services/adviser.services.ts:25-247 | a successful registration is the bundle for the chosen adviser id, inserted into free keys |
| AdviserServices.RegisterWrites | src/app/modules/v1/advisers/services/adviser.services.ts:97-193 | one new Not_Set credential with the handler's type, RBAC and the digest of its source; old credentials kept; one entity row in the right table |
| AdviserServices.StaffJoinsParent | src/app/modules/v1/advisers/services/adviser.services.ts:47-72 | a registered staff user shares its parent adviser admin's adviser id and adds no adviser or contacts row |
| AdviserServices.FreshAdviser | src/app/modules/v1/advisers/services/adviser.services.ts:74-162 | a non-staff registration takes the next sequence id and adds its adviser row (with the handler's status) and contacts row |
| AdviserServices.RegisterSucceedsIff | src/app/modules/v1/advisers/services/adviser.services.ts:25-267 | with nothing throwing, success exactly when the user_id is free and, for staff, the parent is an adviser admin other than the user |
| AdviserServices.ApplyKeepsValid | src/app/modules/v1/advisers/services/adviser.services.ts:74-193 | inserting a well-formed bundle keeps the tables consistent |
| AdviserServices.RegisterPreservesValid | src/app/modules/v1/advisers/services/adviser.services.ts:25-267 | every registration, successful or not, keeps the tables consistent |
| AdviserServices.Notification | src/app/modules/v1/advisers/services/adviser.services.ts:198-231 | mail only after a commit of a Pending_Approval adviser, to the active admins joined by ';', with the set-password link |
| AdviserServices.RecipientsRecoverable | src/app/modules/v1/advisers/services/adviser.services.ts:198-231 | the recipient list splits back into the active admins' addresses |
| AdviserServices.ResolveAdviserId | src/app/modules/v1/advisers/services/adviser.services.ts:47-95 | the first stage in place: the staff lookup, or the sequence draw and adviser insert |
| AdviserServices.InsertRows | src/app/modules/v1/advisers/services/adviser.services.ts:97-195 | the second stage in place: the remaining inserts, failing at the first insert error |
| AdviserServices.CreateAdviser | src/app/modules/v1/advisers/services/adviser.services.ts:25-267 | the transaction leaves the database and returns what `Register` specifies, and mails what `Notification` specifies; a consistent database stays consistent |
| AdviserServices.SetDigest | src/app/modules/v1/advisers/services/adviser.services.ts:293-319 | succeeds exactly for a registered user_id; only that credential's digest changes, to the hash of the password; 400 or 500 otherwise |
| AdviserServices.SetDigestPreservesValid | src/app/modules/v1/advisers/services/adviser.services.ts:293-319 | setting a password keeps the tables consistent |
| AdviserServices.SetPassword | src/app/modules/v1/advisers/services/adviser.services.ts:293-319 | the UPDATE in place has exactly the effect and result `SetDigest` specifies; a consistent database stays consistent |
| AdviserServices.LookupErrors | src/app/modules/v1/advisers/services/adviser.services.ts:436-443 | a lookup contributes an error exactly when it failed with error data |
| AdviserServices.GetProfileAsWritten | src/app/modules/v1/advisers/services/adviser.services.ts:429-447 | succeeds when both lookups do; a failure always carries an empty error list |
| AdviserServices.GetProfile | src/app/modules/v1/advisers/services/adviser.services.ts:429-447 | succeeds exactly when the credential and adviser rows exist and returns them; a failure is 500 with one or two errors, one exactly when only the adviser row is missing |
| AdviserServices.ProfileErrorsDropped | src/app/modules/v1/advisers/services/adviser.services.ts:440-443 | the written and the corrected getProfile agree except that the written one drops every error |
| AdviserServices.ProfileErrorsDroppedExample | src/app/modules/v1/advisers/services/adviser.services.ts:440-443 | on the empty database, "x" gives no errors as written and two "not found" errors corrected |
| AdviserServices.CheckIfAdviserExists | src/app/modules/v1/advisers/services/adviser.services.ts:424-427 | true only for a registered user_id |
| AdviserServices.AdviserExistsIffCredential | src/app/modules/v1/advisers/services/adviser.services.ts:424-427 | on a consistent database, true exactly for a registered user_id |
| AdviserServices.SignIn | src/app/modules/v1/advisers/services/adviser.services.ts:321-395 | success exactly when the profile exists and the password verifies; 403 on a wrong password, 500 without a profile; the token's subject, issuer and role are the user_id, the issuer and the credential type |
| AdviserServices.RegisterThenSignIn | src/app/modules/v1/advisers/services/adviser.services.ts:293-395 | after a registration, setting a password succeeds and signing in with it succeeds with the registered role |
| AdviserServices.RegisteredPasswordSignsIn | src/app/modules/v1/advisers/services/adviser.services.ts:97-101 | a registration carrying a password can sign in with that password |
| AdminServices.RootSignIn | src/app/modules/admin/services/admin.services.ts:10-31 | succeeds exactly for the configured secret, with a root token; otherwise "secret invalid" |
| AdminServices.AdminSignIn | src/app/modules/admin/services/admin.services.ts:70-101 | succeeds exactly for an admin whose digest verifies the password, with an admin token for that user_id |
| AdminServices.CheckIfAdminExists | src/app/modules/admin/services/admin.services.ts:33-36 | true exactly for an existing admin |
| AdminServices.AddAdmin | src/app/modules/admin/services/admin.services.ts:38-57 | succeeds exactly for a new user_id with nothing throwing; adds one row with the password's hash and the default status; changes nothing else |
| AdminServices.AddAdminPreservesValid | src/app/modules/admin/services/admin.services.ts:38-57 | creating an admin keeps the tables consistent |
| AdminServices.AddAdminThenSignIn | src/app/modules/admin/services/admin.services.ts:38-101 | a newly created admin can sign in with its password |
| AdminServices.CreateAdmin | src/app/modules/admin/services/admin.services.ts:38-57 | the INSERT in place has exactly the effect and result `AddAdmin` specifies; a consistent database stays consistent |
| AdminServices.SetAdminStatus | src/app/modules/admin/services/admin.services.ts:129-155 | empty arguments are refused unchanged; only the named admin's status changes; success does not depend on a row matching |
| AdminServices.SetAdviserStatus | src/app/modules/admin/services/admin.services.ts:207-233 | empty arguments are refused unchanged; only the named credential's status changes; success does not depend on a row matching |
| AdminServices.UpdateOfUnknownUserSucceeds | src/app/modules/admin/services/admin.services.ts:129-155 | an update of an unknown user_id reports success and changes nothing |
| AdminServices.StatusUpdatesPreserveValid | src/app/modules/admin/services/admin.services.ts:207-233 | both status updates keep the tables consistent |
| AdminServices.UpdateAdminStatus | src/app/modules/admin/services/admin.services.ts:129-155 | the UPDATE in place has exactly the effect and result `SetAdminStatus` specifies; a consistent database stays consistent |
| AdminServices.UpdateAdviserStatus | src/app/modules/admin/services/admin.services.ts:207-233 | the UPDATE in place has exactly the effect and result `SetAdviserStatus` specifies; a consistent database stays consistent |
| AdminServices.PageWindow | src/app/modules/admin/services/admin.services.ts:103-107 | the limit is the page size; page 0 means page 1; page 1 starts at offset 0; for a page of at least 1 and a non-negative page size the offset is not negative |
| AdminServices.PagesTile | src/app/modules/admin/services/admin.services.ts:157-161 | each page starts where the previous one ends |
| AuthMiddleware.BearerToken | src/app/middleware/authMiddleware.ts:8 | the token is the second space-separated field of the header, if there is one; it contains no space |
| AuthMiddleware.BearerOfWellFormedHeader | src/app/middleware/authMiddleware.ts:8 | a space-free scheme, one space and a space-free token yield that token |
| AuthMiddleware.NoSpaceNoToken | src/app/middleware/authMiddleware.ts:8-12 | a header without a space yields no token |
| AuthMiddleware.VerifyToken | src/app/middleware/authMiddleware.ts:7-22 | 401 exactly for a missing or empty token; 403 exactly when verification fails, naming the error; otherwise `next` with exactly the decoded token |
| AuthMiddleware.CanAccess | src/app/middleware/authMiddleware.ts:24-35 | passes exactly the root role |
| AuthMiddleware.CanAccessIsRoot | src/app/middleware/authMiddleware.ts:24-35 | `canAccess` behaves exactly as `isRoot`, whatever its arguments |
| AuthMiddleware.GetClaims | src/app/middleware/authMiddleware.ts:39-47 | the decoded token exactly when verification succeeds |
| AuthMiddleware.GetClaimsAgreesWithVerifyToken | src/app/middleware/authMiddleware.ts:7-47 | `getClaims` has claims exactly when `verifyToken` calls `next`, and they are the same token |
| AdminMiddleware.IsAdmin | src/app/middleware/adminMiddleware.ts:3-12 | passes exactly admin and root; otherwise 403 |
| AdminMiddleware.IsRoot | src/app/middleware/adminMiddleware.ts:14-23 | passes exactly root; otherwise 403 |
| AdminMiddleware.RootPassesAdmin | src/app/middleware/adminMiddleware.ts:3-23 | `isRoot` is strictly stricter than `isAdmin` |
| AdminMiddleware.AdviserRolesRefused | src/app/middleware/adminMiddleware.ts:3-23 | no adviser credential type passes either guard |
| Router.RunGuards | src/app/modules/admin/routes/admin.routes.ts:108 | an empty chain reaches the handler with what was decoded; a decoded token is never lost |
| Router.DecodedNeverCrashes | src/app/modules/admin/routes/admin.routes.ts:108-372 | once a token is decoded, every refusal is 401 or 403 |
| Router.VerifyFirstChain | src/app/modules/admin/routes/admin.routes.ts:108-372 | a chain starting with `verifyToken` never crashes and reaches the handler only with a verified token |
| Router.RoleGuardFirstCrashes | src/app/middleware/adminMiddleware.ts:4 | a role guard before `verifyToken` always fails with 500 |
| Router.TokenAndRole | src/app/modules/admin/routes/admin.routes.ts:108 | `verifyToken` then a role guard: the handler is reached exactly for a verified token whose role passes |
| Router.TokenOnly | src/app/modules/v1/advisers/routes/adviser.routes.ts:43 | `verifyToken` alone: the handler is reached exactly for a verified token |
| AdminRoutes.RouteOf | src/app/modules/admin/routes/admin.routes.ts:40-372 | each path is registered once, under its own path |
| AdminRoutes.Groups | src/app/modules/admin/routes/admin.routes.ts:40-372 | every path is a sign-in (no guards), root-only (`verifyToken, isRoot`) or admin (`verifyToken, isAdmin`) |
| AdminRoutes.SignInsOpen | src/app/modules/admin/routes/admin.routes.ts:40-74 | the two sign-ins are reached with no token |
| AdminRoutes.RootOnly | src/app/modules/admin/routes/admin.routes.ts:108-144 | create-admin and update-admin-status are reached exactly with a verified root token |
| AdminRoutes.AdminOrRoot | src/app/modules/admin/routes/admin.routes.ts:206-372 | the adviser and event routes are reached exactly with a verified admin or root token |
| AdminRoutes.VerifyTokenFirst | src/app/modules/admin/routes/admin.routes.ts:108-372 | every guarded route runs `verifyToken` first and never crashes |
| AdminRoutes.NoAdviserRole | src/app/modules/admin/routes/admin.routes.ts:108-372 | a token with an adviser role gets 403 on every path except the sign-ins |
| AdviserRoutes.RouteOf | src/app/modules/v1/advisers/routes/adviser.routes.ts:43-147 | each path is registered once, under its own path |
| AdviserRoutes.NoRoleGuards | src/app/modules/v1/advisers/routes/adviser.routes.ts:43-147 | no adviser route checks a role |
| AdviserRoutes.SignInOpen | src/app/modules/v1/advisers/routes/adviser.routes.ts:147 | the sign-in is reached with no token |
| AdviserRoutes.TokenSuffices | src/app/modules/v1/advisers/routes/adviser.routes.ts:43-113 | every other route is reached exactly with a verified token, of any role |
| AdviserController.KindAttrs | src/app/modules/v1/advisers/controllers/adviser.controller.ts:92-99 | every handler registers a registered person with an adviser role; only the application is Pending_Approval, adviser_applicant and Applicant, and migration and staff registrations are TBD; only migration is adviser_admin |
| AdviserController.KindOf | src/app/modules/v1/advisers/controllers/adviser.controller.ts:129 | only the staff handler registers staff, under the body's adviser_user_id |
| AdviserController.DtoFor | src/app/modules/v1/advisers/controllers/adviser.controller.ts:31-36 | the user_id is the primary email; no password is passed on |
| AdviserController.Handle | src/app/modules/v1/advisers/controllers/adviser.controller.ts:19-161 | validation issues give 400 with the issues and no change; every error is 400 or 500 |
| AdviserController.DuplicateGate | src/app/modules/v1/advisers/controllers/adviser.controller.ts:38-42 | an existing user_id gets 400 and the database is unchanged |
| AdviserController.FailuresAre500 | src/app/modules/v1/advisers/controllers/adviser.controller.ts:52-57 | a failing `createAdviser` is answered 500 with the handler's message and the service's error |
| AdviserController.RegisteredAsPrimaryEmail | src/app/modules/v1/advisers/controllers/adviser.controller.ts:31-51 | a 200 adds the primary email as a Not_Set credential with an adviser role and the digest of the two OTP halves |
| AdviserController.HandleSucceedsIff | src/app/modules/v1/advisers/controllers/adviser.controller.ts:19-161 | with nothing throwing, 200 exactly when the email is new and, for staff, the parent is another adviser admin |
| AdviserController.HandlePreservesValid | src/app/modules/v1/advisers/controllers/adviser.controller.ts:19-161 | every request keeps the tables consistent |
| AdviserController.OnlyApplicationsNotify | src/app/modules/v1/advisers/controllers/adviser.controller.ts:92-99 | only the new-application handler can cause an admin notification |
| AdviserController.RegisterAdviser | src/app/modules/v1/advisers/controllers/adviser.controller.ts:19-161 | the handler in place leaves the database and answers as `Handle` specifies; the mail is exactly the `Notification` for the kind's status and the outcome when the body is valid and the email new, and none otherwise, so it goes out only on a 200 for an application |
| AdviserController.RefusalsAsWritten | src/app/modules/v1/advisers/controllers/adviser.controller.ts:196-208 | the missing-key message appears exactly when the key is falsy or spelled `__noKeyFound`; for any other key the invalid-key message appears exactly when the key is not a camel-case spelling; the missing-value message appears exactly when the value is falsy |
| AdviserController.CamelCaseKeysRefusedSilently | src/app/modules/v1/advisers/controllers/adviser.controller.ts:186-208 | every request with a value and a camel-case key (kraPin, mobileNo, idNumber in any case) is refused with an empty error list |
| AdviserController.QueryPlatformAdviserAsWritten | src/app/modules/v1/advisers/controllers/adviser.controller.ts:183-214 | forwards exactly a present key and value whose key is one of the three search keys in any case |
| AdviserController.QueryRefusedWithoutReason | src/app/modules/v1/advisers/controllers/adviser.controller.ts:196-208 | key "kraPin" with value "x" is refused with an empty error list |
| AdviserController.Refusals | src/app/modules/v1/advisers/controllers/adviser.controller.ts:196-208 | each message appears exactly when its cause holds; the list is empty exactly when the request would be forwarded |
| AdviserController.QueryPlatformAdviser | src/app/modules/v1/advisers/controllers/adviser.controller.ts:183-214 | same decision as written; a refusal always names its reasons |
| AdviserController.QueryCorrectionKeepsDecision | src/app/modules/v1/advisers/controllers/adviser.controller.ts:183-214 | the correction forwards the same requests, with the same key and value |
| AdviserController.SignInHandler | src/app/modules/v1/advisers/controllers/adviser.controller.ts:238-289 | logged in exactly for non-blank user_id and password that sign in; the header is the token for that user_id; otherwise 400 |
| AdminController.OrDefault | src/app/modules/admin/controllers/admin.controller.ts:307-309 | `parseInt(x) \|\| d`: the number unless NaN or 0, else the default |
| AdminController.ConfiguredPageSize | src/app/modules/admin/controllers/admin.controller.ts:307 | the configured page size, 25 when unset or 0; never 0 |
| AdminController.NormalisePage | src/app/modules/admin/controllers/admin.controller.ts:312 | at least 1: the requested page if positive, else 1 |
| AdminController.NormaliseLimit | src/app/modules/admin/controllers/admin.controller.ts:313 | for a positive configured size, between 1 and it: the requested limit if strictly inside, else the configured size; for a configured size of 0 or less (`parseInt` of the setting), that size itself |
| AdminController.Normalise | src/app/modules/admin/controllers/admin.controller.ts:307-313 | page at least 1; limit within the configured size |
| AdminController.NormaliseIdempotent | src/app/modules/admin/controllers/admin.controller.ts:307-313 | normalising normalised values changes nothing |
| AdminController.NormalisedWindow | src/app/modules/admin/controllers/admin.controller.ts:357-363 | the queried window never starts before row 0, starts at 0 for the first page, and consecutive pages tile |
| AdminController.SecretBody | src/app/modules/admin/controllers/admin.controller.ts:29-32 | the validated body holds at most the secret |
| AdminController.RootSignInReply | src/app/modules/admin/controllers/admin.controller.ts:59-94 | Ok exactly for the configured secret, with the root token as the header; otherwise 400 "Sign In failed" |
| AdminController.RootSignInNeverPasses | src/app/modules/admin/controllers/admin.controller.ts:29-58 | every root sign-in, the right secret included, is refused 400 with "user_id is required" |
| AdminController.RootSignInHandler | src/app/modules/admin/controllers/admin.controller.ts:28-96 | Ok exactly for a non-blank string secret equal to the configured one; otherwise 400 |
| AdminController.CreateAdminRequest | src/app/modules/admin/controllers/admin.controller.ts:129-152 | Ok exactly for a valid request with a new user_id and nothing throwing, storing what `AddAdmin` stores; every error leaves the database unchanged |
| AdminController.ExistingAdminRefused | src/app/modules/admin/controllers/admin.controller.ts:136-141 | an existing user_id is refused 400 with "Admin with user_id: [ … ] exists" |
| AdminController.CreateAdminHandler | src/app/modules/admin/controllers/admin.controller.ts:129-152 | the handler in place has exactly the effect and reply `CreateAdminRequest` specifies |
| AdminController.Invite | src/app/modules/admin/controllers/admin.controller.ts:154-195 | invalid or existing: 400, nothing changed, no mail; an Ok always mails; a throwing send answers 500 with the rethrown error as data |
| AdminController.InviteOrder | src/app/modules/admin/controllers/admin.controller.ts:154-195 | mail only to a newly created admin after its code is saved, with the set-password link; a failed save is 500 and keeps the admin |
| AdminController.InvitedStatusIsDefault | src/app/modules/admin/controllers/admin.controller.ts:173-176 | an invited admin is stored with the default status, not 'Pending' |
| AdminController.InviteAdminHandler | src/app/modules/admin/controllers/admin.controller.ts:154-195 | the handler in place has exactly the effect, reply and mail `Invite` specifies |
| AdminController.SetAdminPasswordRequest | src/app/modules/admin/controllers/admin.controller.ts:197-220 | the password service is called exactly for a valid request whose code is found, for the code's owner; Ok exactly when it succeeds; errors are 400 |
| AdminController.PasswordEmailIgnored | src/app/modules/admin/controllers/admin.controller.ts:197-220 | the request's email has no effect |
| AdminController.SetStatus | src/app/modules/admin/services/admin.services.ts:129-233 | succeeds exactly for non-empty arguments with nothing throwing; failures change nothing |
| AdminController.UpdateStatusRequest | src/app/modules/admin/controllers/admin.controller.ts:222-258 | Ok exactly when the body passes adminStatusUpdate and nothing throws, with an admin status, storing what the service stores and sending the whole service result as data; errors change nothing |
| AdminController.AdviserStatusNeedsAdminValue | src/app/modules/admin/controllers/admin.controller.ts:240-258 | the adviser status handler refuses "Approved" with 400 and changes nothing |
| AdminController.UpdateStatusHandler | src/app/modules/admin/controllers/admin.controller.ts:222-258 | the handler in place has exactly the effect and reply `UpdateStatusRequest` specifies |
| Flows.RegisteredAdviserLockedOutOfAdmin | src/app/modules/admin/routes/admin.routes.ts:108-372 | an adviser registered by any handler who sets a password signs in with the handler's credential type, and that token gets 403 on every admin route but the sign-ins |

## Left out

- Postgres itself is left out: connections, SQL text, `genQuery` and the `all_advisers` view. The database is in-memory tables, and the view is a join of a credential with its adviser row.
- Unique keys are not declared in the migrations shown. The model assumes a repeated user_id in a user_id-keyed table is an insert error.
- Argon2 and JWT are function values. The JWT signature, expiry and clock are not modelled. `Tokens.Sound` (verify accepts hash) is required only where a proof needs it.
- Mail transport is not modelled, nor the `storeEvent` audit log. A mail is returned as a value.
- The IPRS and partner-number lookups are not modelled, nor file upload and download (`saveFile`, `getFile`, `getApplicantFiles`, `createAdviserApplicationFile`) or the getAdviser, getEvent and search handlers. They are outside the identity core.
- Several names the handlers and services use are not defined in the files cited here. The model treats each of them as defined.
  - Schemas: `migratedAdviser`, `applicant` and `staff` are absent from the exported object at adviser.validation.ts:87-91. `adminCreate`, `inviteAdmin`, `setAdminPassword`, `pagingCheck` and `user_id` are absent from admin.validation.ts:48-53.
  - Services: `generateOTP` and `extractMiddleNames` are absent from `UtilServices` (util.services.ts:74-78). `getAdminsWithCondition`, `generateVerificationCode`, `saveVerificationCode`, `checkAdminByCode` and `setAdminPassword` are absent from `AdminServices` (admin.services.ts:288-300).
  - Constant: `AdminStatus`, imported at adviser.services.ts:9, is absent from constants.ts.
- As written, the code above therefore fails at runtime:
  - every registration handler throws at its first line (adviser.controller.ts:21, 69, 117) and answers 500 from its `catch`;
  - past that, `generateOTP` (adviser.services.ts:99) would throw and roll back;
  - `AdminStatus.Active` (adviser.services.ts:202) throws inside the notification's `try`, so no application mail is sent;
  - `createAdmin` (admin.controller.ts:130) and `setAdminPassword` (admin.controller.ts:199) throw outside any `try`;
  - `inviteAdmin` (admin.controller.ts:157) answers 500 "Internal Server Error".
- The model describes the code as if those names existed:
  - the schemas' issues are an input list, assumed to require `primary_email` (or `email` for invitations);
  - the services are parameters or function values;
  - `AdminStatus.Active` is the admins' status filter.

  None of the failures above is modelled, and the verification-code table is not modelled.
- Concurrency is not modelled. Each request runs alone, so the race between `checkIfAdviserExists` and the INSERT is not modelled.
- Express plumbing is not modelled beyond status, message and error list, including a second `send` after an error has been answered. `res.status(undefined)` in the admin handlers is a `None` status.
- The non-person registration date is a `now` parameter, and the non-person name is a constant.
- The listing handlers' service queries, row order and the adviser/admin/event rows they return are left out. Only the page normalisation and the offset window are modelled.
- Case mapping covers ASCII letters only.
- A non-string `key` or `value` in queryPlatformAdviser is left out. There `toUpperCase` throws, giving 500.
- adminSignIn's handler is not modelled. Its service, `AdminServices.AdminSignIn`, is.
- Error data objects are strings.
- AdviserServices.CheckIfAdviserExists: its own contract gives only one direction. The converse needs consistent tables and is `AdviserServices.AdviserExistsIffCredential`.
- `genQuery` is not part of this model, and its callers read its result in two shapes. The adviser lookups (adviser.services.ts:58, 327, 339-341, 436) take `data` as the row itself. `getAdminCredentials` (admin.services.ts:61) takes `data.rows[0]`. No single `genQuery` satisfies both. The model gives each call site the row it expects, so `Database.GetCredentials`, `Database.GetAdviser` and `Database.GetAdminCredentials` all return the matching row. Under the row shape, `getAdminCredentials` would throw, so admin sign-in and `checkIfAdminExists` could never succeed. Under the pg-result shape, every staff parent would be "Not an adviser admin", and adviser sign-in would verify against an empty digest. The failure data is assumed to be "No records found" for the adviser lookups. For `getAdminCredentials` it is assumed falsy, so that handler's own "Unknown error occurred @getAdminCredentials …" text is reported.
- The forwarding branch of `queryPlatformAdviser` (adviser.controller.ts:190) calls `AdviserServices.queryPlatformAdviser`, which the service's exported object (adviser.services.ts:449-459) does not define. As written, that branch throws and is answered 500 "Adviser lookup failed!" (adviser.controller.ts:209-212). The model's `Forwarded` reply stands for a platform lookup that is not part of this model; the lookup, its event and the 500 answer are left out.
- The route `/register-adviser` (adviser.routes.ts:43) names `AdviserController.registerAdviser`, which the controller does not export (adviser.controller.ts:291-299). The three registration handlers it does export are not routed. `AdviserRoutes.RouteOf` keeps the route as registered, and `AdviserController.Handle` models the three handlers as if each were reachable.
- AdviserController.Refusals: the corrected reasons treat only a falsy key as missing. A key spelled `__noKeyFound` is reported as invalid instead of missing.

## Findings

| source | as written | input that shows it | evidently intended | confidence | as-written member | corrected member |
|---|---|---|---|---|---|---|
| src/app/modules/v1/advisers/services/adviser.services.ts:440-443 | `errors.push[...]` indexes the method instead of calling it, so nothing is pushed | getProfile("x") on an empty database: failure with an empty error list | the lookups' error data is reported | not executed | AdviserServices.ProfileErrorsDroppedExample | AdviserServices.GetProfile |
| src/app/modules/admin/controllers/admin.controller.ts:29-58 | the body `{ secret }` is validated against a schema that also requires `user_id` | the configured secret without a user_id: 400 "Validation failed" | only the secret is validated, so the right secret signs in | not executed | AdminController.RootSignInNeverPasses | AdminController.RootSignInHandler |
| src/app/modules/v1/advisers/controllers/adviser.controller.ts:196-208 | the refusal branch compares the key against camelCase names, but the accept test upper-cases the key | key "kraPin", value "x": 400 with an empty error list | a refusal names why the key was refused | not executed | AdviserController.QueryRefusedWithoutReason | AdviserController.QueryPlatformAdviser |
