/**
 * src/app/modules/v1/advisers/controllers/adviser.controller.ts: the three
 * registration handlers (`migrateAdviser`, `newAdviserApplication`,
 * `newStaffUser`), the key check of `queryPlatformAdviser` and the `signIn`
 * response.
 *
 * A handler answers with a `Response`: `Ok` is HTTP 200 with its data,
 * `Error` any other status with the message and the `errorData` list.
 */
module AdviserController {
  import opened Wrappers
  import opened Strings
  import opened Constants
  import opened Results
  import opened Dto
  import opened Database
  import opened Tokens
  import opened AdviserServices
  import opened Validation

  datatype Response<+T> = Ok(data: T) | Error(status: int, message: string, errors: seq<string>)

  /** JavaScript's rendering of a possibly undefined value inside a template string. */
  function Text(o: Option<string>): string {
    if o.Some? then o.value else "undefined"
  }

  /** JavaScript truthiness of a possibly undefined string. */
  predicate Truthy(o: Option<string>) {
    o.Some? && o.value != ""
  }

  // ---------------------------------------------------------------------------
  // Registration handlers
  // ---------------------------------------------------------------------------

  /** The three registration handlers. */
  datatype RegHandler = MigrateAdviser | NewAdviserApplication | NewStaffUser

  /**
   * The attribute tuple each handler passes to `createAdviser`. Everyone is
   * a registered person with an adviser role; only applicants wait for
   * approval, and only migrated advisers become adviser admins.
   */
  function KindAttrs(k: RegHandler): (a: RegAttrs)
    ensures a.legal_entity_type == person && a.rbac == RBAC.Registered
    ensures IsAdviserRole(a.credential_type)
    ensures a.status == Pending_Approval <==> k == NewAdviserApplication
    ensures a.status == Pending_Approval || a.status == Approved
    ensures a.credential_type == adviser_admin <==> k == MigrateAdviser
    ensures a.credential_type == adviser_applicant <==> k == NewAdviserApplication
    ensures a.intermediary_type == IntermediaryType.Applicant <==> k == NewAdviserApplication
    ensures k != NewAdviserApplication ==> a.intermediary_type == IntermediaryType.TBD
  {
    match k
    case MigrateAdviser =>
      RegAttrs(Approved, person, IntermediaryType.TBD, adviser_admin, RBAC.Registered)
    case NewAdviserApplication =>
      RegAttrs(Pending_Approval, person, IntermediaryType.Applicant, adviser_applicant, RBAC.Registered)
    case NewStaffUser =>
      RegAttrs(Approved, person, IntermediaryType.TBD, adviser_user, RBAC.Registered)
  }

  /** The `reg_type` each handler sets; only staff carry the body's `adviser_user_id`. */
  function KindOf(k: RegHandler, body: AdviserBody): (r: RegKind)
    ensures r.Staff? <==> k == NewStaffUser
    ensures r.Staff? ==> r.adviser_user_id == body.adviser_user_id
  {
    match k
    case MigrateAdviser => RegKind.Migrated
    case NewAdviserApplication => RegKind.Applicant
    case NewStaffUser => Staff(body.adviser_user_id)
  }

  /**
   * The registration a handler builds from a validated body: the user_id is
   * the primary email and no password is passed on.
   */
  function DtoFor(k: RegHandler, body: AdviserBody, other_names: string): (d: RegistrationDto)
    requires body.primary_email.Some?
    ensures d.user_id == body.primary_email.value && d.adviser == body
    ensures !d.HasPassword()
    ensures d.reg_type == KindOf(k, body)
  {
    RegistrationDto(KindOf(k, body), body.primary_email.value, other_names, None, body)
  }

  function ValidationMessage(k: RegHandler): string {
    if k == NewStaffUser then "Validation (Staff) failed" else "Validation failed"
  }

  function ExistsMessage(k: RegHandler, body: AdviserBody): string {
    match k
    case MigrateAdviser =>
      "Adviser with details " + Text(body.first_name) + " " + Text(body.last_name)
      + " - KRA PIN " + Text(body.kra_pin) + " already exists"
    case NewAdviserApplication =>
      "Applicant with details " + Text(body.first_name) + " " + Text(body.last_name)
      + "," + Text(body.primary_email) + " already exists"
    case NewStaffUser =>
      "Staff with details " + Text(body.first_name) + " " + Text(body.last_name)
      + " - User ID " + Text(body.user_id) + " already exists"
  }

  function FailedMessage(k: RegHandler): string {
    match k
    case MigrateAdviser => "Migration failed"
    case NewAdviserApplication => "Creation (New Applicant) failed"
    case NewStaffUser => "Creation (Staff) failed"
  }

  /** The tables after a request, and the response sent. */
  datatype Handled<+T> = Handled(tables: Tables, response: Response<T>)

  /**
   * One registration request. `issues` are the messages of the handler's
   * request schema (empty when the body passes); those schemas require
   * `primary_email`.
   */
  function Handle(t: Tables, h: Hasher, k: RegHandler, body: AdviserBody, other_names: string,
                  issues: seq<string>, env: RegEnv): (r: Handled<Created>)
    requires issues == [] ==> body.primary_email.Some?
    ensures issues != [] ==> r.tables == t && r.response == Error(400, ValidationMessage(k), issues)
    ensures r.response.Error? ==> r.response.status == 400 || r.response.status == 500
  {
    if issues != [] then Handled(t, Error(400, ValidationMessage(k), issues))
    else
      var regDto := DtoFor(k, body, other_names);
      if CheckIfAdviserExists(t, regDto.user_id) then Handled(t, Error(400, ExistsMessage(k, body), []))
      else
        var o := Register(t, h, regDto, KindAttrs(k), env);
        match o.result
        case Success(_, data) => Handled(o.tables, Response.Ok(data))
        case Failure(_, _, e) => Handled(o.tables, Error(500, FailedMessage(k), [e]))
  }

  /**
   * An adviser that already exists is turned away with 400 before
   * `createAdviser` runs: the tables, the id sequence included, are as they were.
   */
  lemma DuplicateGate(t: Tables, h: Hasher, k: RegHandler, body: AdviserBody, other_names: string, env: RegEnv)
    requires body.primary_email.Some? && CheckIfAdviserExists(t, body.primary_email.value)
    ensures var r := Handle(t, h, k, body, other_names, [], env);
      && r.tables == t
      && r.response == Error(400, ExistsMessage(k, body), [])
  {
  }

  /** Whatever code `createAdviser` fails with, the handler answers 500. */
  lemma FailuresAre500(t: Tables, h: Hasher, k: RegHandler, body: AdviserBody, other_names: string, env: RegEnv)
    requires body.primary_email.Some? && !CheckIfAdviserExists(t, body.primary_email.value)
    requires Register(t, h, DtoFor(k, body, other_names), KindAttrs(k), env).result.Failure?
    ensures var r := Handle(t, h, k, body, other_names, [], env);
      && r.response.Error? && r.response.status == 500 && r.response.message == FailedMessage(k)
      && r.tables.SameRows(t)
  {
  }

  /**
   * A request that gets 200 has registered its primary email as the user_id,
   * with the handler's credential type (an adviser role), status `Not_Set`,
   * and the digest of the two generated one-time passwords.
   */
  lemma RegisteredAsPrimaryEmail(t: Tables, h: Hasher, k: RegHandler, body: AdviserBody, other_names: string,
                                 issues: seq<string>, env: RegEnv)
    requires issues == [] ==> body.primary_email.Some?
    requires Handle(t, h, k, body, other_names, issues, env).response.Ok?
    ensures var r := Handle(t, h, k, body, other_names, issues, env); var u := body.primary_email.value;
      && issues == [] && u !in t.credentials
      && r.tables.credentials.Keys == t.credentials.Keys + {u}
      && r.tables.credentials[u].credential_type == KindAttrs(k).credential_type
      && IsAdviserRole(r.tables.credentials[u].credential_type)
      && r.tables.credentials[u].status == CredentialStatus.Not_Set.Name()
      && r.tables.credentials[u].digest == h.hash(env.otp1 + env.otp2)
  {
    var regDto := DtoFor(k, body, other_names);
    RegisterWrites(t, h, regDto, KindAttrs(k), env);
  }

  /**
   * On a consistent database with nothing throwing, a valid request is
   * answered 200 exactly when its primary email is not registered yet and,
   * for staff, the body names an adviser admin other than the user.
   */
  lemma HandleSucceedsIff(t: Tables, h: Hasher, k: RegHandler, body: AdviserBody, other_names: string, env: RegEnv)
    requires t.Valid() && env.fault.None? && body.primary_email.Some?
    ensures var u := body.primary_email.value; var parent := body.adviser_user_id;
      Handle(t, h, k, body, other_names, [], env).response.Ok? <==>
        && u !in t.credentials
        && (k == NewStaffUser ==>
              && parent.Some? && ToLower(parent.value) != ToLower(u)
              && parent.value in t.credentials
              && t.credentials[parent.value].credential_type == adviser_admin)
  {
    var regDto := DtoFor(k, body, other_names);
    AdviserExistsIffCredential(t, regDto.user_id);
    RegisterSucceedsIff(t, h, regDto, KindAttrs(k), env);
  }

  /** A registration request keeps the database consistent. */
  lemma HandlePreservesValid(t: Tables, h: Hasher, k: RegHandler, body: AdviserBody, other_names: string,
                             issues: seq<string>, env: RegEnv)
    requires t.Valid() && (issues == [] ==> body.primary_email.Some?)
    ensures Handle(t, h, k, body, other_names, issues, env).tables.Valid()
  {
    if issues == [] && !CheckIfAdviserExists(t, body.primary_email.value) {
      RegisterPreservesValid(t, h, DtoFor(k, body, other_names), KindAttrs(k), env);
    }
  }

  /** Only a new application can make `createAdviser` mail the admins. */
  lemma OnlyApplicationsNotify(k: RegHandler, n: NotifyEnv)
    requires Notification(KindAttrs(k).status, true, n).Some?
    ensures k == NewAdviserApplication
  {
  }

  /**
   * A registration handler: validate, check for an existing adviser, then
   * call `createAdviser` and map its result to 200 or 500.
   */
  method RegisterAdviser(db: Store, h: Hasher, k: RegHandler, body: AdviserBody, other_names: string,
                         issues: seq<string>, env: RegEnv, notify: NotifyEnv)
    returns (res: Response<Created>, mail: Option<Mail>)
    requires issues == [] ==> body.primary_email.Some?
    modifies db
    ensures db.Snapshot() == Handle(old(db.Snapshot()), h, k, body, other_names, issues, env).tables
    ensures res == Handle(old(db.Snapshot()), h, k, body, other_names, issues, env).response
    ensures mail.Some? ==> res.Ok? && k == NewAdviserApplication
    ensures mail == (if issues == [] && !CheckIfAdviserExists(old(db.Snapshot()), body.primary_email.value)
                     then Notification(KindAttrs(k).status, res.Ok?, notify) else None)
  {
    if issues != [] {
      res, mail := Error(400, ValidationMessage(k), issues), None;
      return;
    }
    var regDto := DtoFor(k, body, other_names);
    var foundResults := CheckIfAdviserExists(db.Snapshot(), regDto.user_id);
    if foundResults {
      res, mail := Error(400, ExistsMessage(k, body), []), None;
      return;
    }
    var createResult;
    createResult, mail := CreateAdviser(db, h, regDto, KindAttrs(k), env, notify);
    if createResult.Success? {
      res := Response.Ok(createResult.data);
    } else {
      res := Error(500, FailedMessage(k), [createResult.errorData]);
    }
  }

  // ---------------------------------------------------------------------------
  // queryPlatformAdviser
  // ---------------------------------------------------------------------------

  /** The answer to a query: passed on to the platform lookup, or refused with 400 and its reasons. */
  datatype QueryReply = Forwarded(key: string, value: string) | Refused(errors: seq<string>)

  const KeyMissingMessage := "[" + " key ] field not found. A key field with a value of either kraPin, mobileNo or idNumber is required"
  const ValueMissingMessage := "[ value ] field not found"
  const NoKeySentinel := "__noKeyFound"

  function KeyInvalidMessage(key: string): string {
    "Key [ " + key + " ] is not valid. Must be kraPin, mobileNo or idNumber"
  }

  /** The keys the lookup is run for, in any letter case. */
  predicate SearchKey(key: string) {
    var u := ToUpper(key);
    u == "KRA_PIN" || u == "MOBILE_NO" || u == "ID_NUMBER"
  }

  /** The keys the refusal branch treats as valid: the camel-case spellings. */
  predicate CamelCaseKey(key: string) {
    var u := ToUpper(key);
    u == "KRAPIN" || u == "MOBILENO" || u == "IDNUMBER"
  }

  /** The reasons the refusal branch lists, with its own test of the key. */
  function RefusalsAsWritten(key: Option<string>, value: Option<string>): (e: seq<string>)
    // a key spelled like the sentinel counts as missing
    ensures KeyMissingMessage in e <==> !Truthy(key) || key.value == NoKeySentinel
    ensures Truthy(key) && key.value != NoKeySentinel ==> (KeyInvalidMessage(key.value) in e <==> !CamelCaseKey(key.value))
    ensures ValueMissingMessage in e <==> !Truthy(value)
  {
    var newKey := if Truthy(key) then key.value else NoKeySentinel;
    var keyErrors :=
      if newKey == NoKeySentinel then [KeyMissingMessage]
      else if !CamelCaseKey(key.value) then
        assert KeyInvalidMessage(key.value)[0] == 'K' by {
          assert KeyInvalidMessage(key.value) == "Key [ " + (key.value + " ] is not valid. Must be kraPin, mobileNo or idNumber");
        }
        assert KeyMissingMessage[0] == '[';
        [KeyInvalidMessage(key.value)]
      else [];
    keyErrors + (if !Truthy(value) then [ValueMissingMessage] else [])
  }

  /** `queryPlatformAdviser` as written. */
  function QueryPlatformAdviserAsWritten(key: Option<string>, value: Option<string>): (r: QueryReply)
    ensures r.Forwarded? <==> Truthy(key) && Truthy(value) && SearchKey(key.value)
    ensures r.Forwarded? ==> r.key == key.value && r.value == value.value
  {
    if Truthy(key) && Truthy(value) && SearchKey(key.value) then Forwarded(key.value, value.value)
    else Refused(RefusalsAsWritten(key, value))
  }

  /**
   * As written, a camel-case key with a value is refused with no reason at
   * all: the refusal branch accepts the spellings the lookup branch does not.
   */
  lemma QueryRefusedWithoutReason()
    ensures QueryPlatformAdviserAsWritten(Some("kraPin"), Some("x")) == Refused([])
  {
    assert ToUpper("kraPin") == "KRAPIN";
  }

  /**
   * For every key the refusal branch takes as valid, a request with a value
   * is refused, and no reason is given.
   */
  lemma CamelCaseKeysRefusedSilently(key: Option<string>, value: Option<string>)
    requires Truthy(key) && Truthy(value) && CamelCaseKey(key.value)
    ensures QueryPlatformAdviserAsWritten(key, value) == Refused([])
  {
  }

  /** The reasons, tested against the same keys the lookup branch accepts. */
  function Refusals(key: Option<string>, value: Option<string>): (e: seq<string>)
    ensures KeyMissingMessage in e <==> !Truthy(key)
    ensures ValueMissingMessage in e <==> !Truthy(value)
    ensures Truthy(key) ==> (KeyInvalidMessage(key.value) in e <==> !SearchKey(key.value))
    ensures e == [] <==> Truthy(key) && Truthy(value) && SearchKey(key.value)
  {
    var keyErrors :=
      if !Truthy(key) then [KeyMissingMessage]
      else if !SearchKey(key.value) then
        assert KeyInvalidMessage(key.value)[0] == 'K' by {
          assert KeyInvalidMessage(key.value) == "Key [ " + (key.value + " ] is not valid. Must be kraPin, mobileNo or idNumber");
        }
        assert KeyMissingMessage[0] == '[';
        [KeyInvalidMessage(key.value)]
      else [];
    keyErrors + (if !Truthy(value) then [ValueMissingMessage] else [])
  }

  /** `queryPlatformAdviser` with the refusal branch checking the keys the lookup accepts. */
  function QueryPlatformAdviser(key: Option<string>, value: Option<string>): (r: QueryReply)
    ensures r.Forwarded? <==> Truthy(key) && Truthy(value) && SearchKey(key.value)
    ensures r.Forwarded? ==> r.key == key.value && r.value == value.value
    ensures r.Refused? ==> r.errors != [] && r.errors == Refusals(key, value)
  {
    if Truthy(key) && Truthy(value) && SearchKey(key.value) then Forwarded(key.value, value.value)
    else Refused(Refusals(key, value))
  }

  /** The correction changes only the reasons given, never which queries are forwarded. */
  lemma QueryCorrectionKeepsDecision(key: Option<string>, value: Option<string>)
    ensures QueryPlatformAdviser(key, value).Forwarded? == QueryPlatformAdviserAsWritten(key, value).Forwarded?
    ensures QueryPlatformAdviser(key, value).Forwarded? ==> QueryPlatformAdviser(key, value) == QueryPlatformAdviserAsWritten(key, value)
  {
  }

  // ---------------------------------------------------------------------------
  // signIn
  // ---------------------------------------------------------------------------

  datatype AccessToken = AccessToken(accessToken: Token, validity: string)

  /** The body of a successful sign-in. */
  datatype UserPayload = UserPayload(
    message: string,
    authenticated: bool,
    profileName: Option<string>,
    email: Option<string>,
    token: AccessToken)

  /** A sign-in answer: the `x-access-token` header and the body, or a refusal. */
  datatype SignInReply = LoggedIn(header: Token, data: UserPayload) | Denied(status: int, message: string, errors: seq<string>)

  const LoginMessage := "Login successful"
  const SignInFailedMessage := "Sign In failed"

  /** The `signIn` handler: validate `user_id` and `password`, then call the service. */
  function SignInHandler(t: Tables, h: Hasher, cfg: JwtConfig, body: Body): (r: SignInReply)
    ensures r.LoggedIn? ==> r.header == r.data.token.accessToken && r.data.authenticated
    ensures r.LoggedIn? <==>
      && NonBlankField(body, "user_id") && NonBlankField(body, "password")
      && SignIn(t, h, cfg, body["user_id"].s, body["password"].s).Success?
    ensures r.LoggedIn? ==> r.header.sub == body["user_id"].s && r.data.token.validity == cfg.validity
    ensures r.Denied? ==> r.status == 400
  {
    SignInIff(body);
    var issues := Validate(SignInSchema, body);
    if issues != [] then Denied(400, "Validation failed", Messages(issues))
    else
      var result := SignIn(t, h, cfg, body["user_id"].s, body["password"].s);
      if result.Success? then
        var token := result.data.token;
        LoggedIn(token, UserPayload(LoginMessage, true, result.data.names, result.data.email,
                                    AccessToken(token, cfg.validity)))
      else Denied(400, SignInFailedMessage, [result.errorData])
  }
}
