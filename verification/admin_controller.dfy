/**
 * src/app/modules/admin/controllers/admin.controller.ts: the page and limit
 * normalisation shared by the paged listings, and the request handlers
 * `rootSignIn`, `createAdmin`, `inviteAdmin`, `setAdminPassword`,
 * `updateAdminStatus` and `updateAdviserStatus`.
 *
 * A handler answers with a `Reply`: `Ok` is HTTP 200 with its data, `Error`
 * carries the status handed to `res.status`, which is `None` when the
 * handler forwards a service code that the admin services never set.
 */
module AdminController {
  import opened Wrappers
  import opened Strings
  import opened Results
  import opened Dto
  import opened Database
  import opened Tokens
  import opened AdminServices
  import opened Validation
  import AdviserServices

  datatype Reply<+T> = Ok(data: T) | Error(status: Option<int>, message: string, errors: seq<string>)

  /** The tables after a request, and the reply sent. */
  datatype Handled<+T> = Handled(tables: Tables, reply: Reply<T>)

  const ValidationFailedMessage := "Validation failed"

  /** A service message that may be `undefined`, as an `errorData` list. */
  function OptionalErrors(m: Option<string>): seq<string> {
    if m.Some? then [m.value] else []
  }

  // ---------------------------------------------------------------------------
  // Paging normalisation
  // ---------------------------------------------------------------------------

  /** What `parseInt` yields: `NaN`, or an integer. */
  datatype Parsed = NaN | Num(n: int)

  /** `parseInt(x) || d`: `NaN` and 0 are falsy. */
  function OrDefault(p: Parsed, d: int): (v: int)
    ensures p.Num? && p.n != 0 ==> v == p.n
    ensures p.NaN? || p.n == 0 ==> v == d
  {
    if p.Num? && p.n != 0 then p.n else d
  }

  /** `parseInt(config.page_size) || 25`. */
  function ConfiguredPageSize(raw: Parsed): (c: int)
    ensures c != 0
    ensures raw.NaN? || raw.n == 0 ==> c == 25
    ensures raw.Num? && raw.n != 0 ==> c == raw.n
  {
    OrDefault(raw, 25)
  }

  /** `vPage <= 0 ? 1 : vPage`, with `vPage = parseInt(page) || 0`. */
  function NormalisePage(page: Parsed): (p: int)
    ensures p >= 1
    ensures page.Num? && page.n >= 1 ==> p == page.n
    ensures page.NaN? || page.n <= 0 ==> p == 1
  {
    var vPage := OrDefault(page, 0);
    if vPage <= 0 then 1 else vPage
  }

  /** `vLimit <= 0 || vLimit >= cfg ? cfg : vLimit`, with `vLimit = parseInt(page_size) || 0`. */
  function NormaliseLimit(size: Parsed, cfg: int): (l: int)
    ensures cfg >= 1 ==> 1 <= l <= cfg
    ensures size.Num? && 0 < size.n < cfg ==> l == size.n
    ensures size.NaN? || size.n <= 0 || size.n >= cfg ==> l == cfg
  {
    var vLimit := OrDefault(size, 0);
    if vLimit <= 0 || vLimit >= cfg then cfg else vLimit
  }

  /** The page and limit a paged listing hands to its service. */
  datatype Paging = Paging(page: int, limit: int)

  /** The rule every paged listing applies to its `page` and `page_size` parameters. */
  function Normalise(page: Parsed, size: Parsed, cfgRaw: Parsed): (p: Paging)
    ensures p.page >= 1
    ensures 1 <= p.limit <= ConfiguredPageSize(cfgRaw) || p.limit == ConfiguredPageSize(cfgRaw) < 0
  {
    var cfg := ConfiguredPageSize(cfgRaw);
    Paging(NormalisePage(page), NormaliseLimit(size, cfg))
  }

  /** Normalising an already normalised page and limit changes nothing. */
  lemma NormaliseIdempotent(page: Parsed, size: Parsed, cfgRaw: Parsed)
    ensures var p := Normalise(page, size, cfgRaw);
      Normalise(Num(p.page), Num(p.limit), cfgRaw) == p
  {
  }

  /**
   * The window a normalised listing queries: it starts at row 0 on the
   * first page, never before row 0, and pages of the same size tile.
   */
  lemma NormalisedWindow(page: Parsed, size: Parsed, cfgRaw: Parsed)
    requires ConfiguredPageSize(cfgRaw) >= 1
    ensures var p := Normalise(page, size, cfgRaw); var w := PageWindow(p.page, p.limit);
      && w.page == p.page && w.limit == p.limit
      && w.offset >= 0
      && (page.NaN? || page.n <= 1 ==> w.offset == 0)
      && PageWindow(p.page + 1, p.limit).offset == w.offset + w.limit
  {
    var p := Normalise(page, size, cfgRaw);
    PagesTile(p.page, p.limit);
  }

  // ---------------------------------------------------------------------------
  // rootSignIn
  // ---------------------------------------------------------------------------

  /** The body of a successful sign-in, with the `x-access-token` header. */
  datatype SignedIn = SignedIn(header: Token, message: string, token: Token, validity: string)

  const SignInFailedMessage := "Sign In failed"

  /** The object the handler validates: `{ secret }`, the key absent when the request has none. */
  function SecretBody(secret: Option<Json>): (b: Body)
    ensures b.Keys <= {"secret"}
  {
    if secret.Some? then map["secret" := secret.value] else map[]
  }

  /** The handler's reply once validation has passed. */
  function RootSignInReply(cfg: JwtConfig, secret: string): (r: Reply<SignedIn>)
    ensures r.Ok? <==> secret == cfg.secret
    ensures r.Ok? ==> r.data.header == r.data.token && r.data.token.role == "root" && r.data.token.sub == "root"
    ensures r.Error? ==> r == Error(Some(400), SignInFailedMessage, [SecretInvalidMessage])
  {
    var result := RootSignIn(cfg, secret);
    if result.Success? then
      Ok(SignedIn(result.data, "Authenticated. Token valid for " + cfg.validity, result.data, cfg.validity))
    else Error(Some(400), result.message.GetOr(SignInFailedMessage), [result.errorData])
  }

  /** `rootSignIn` as written: `{ secret }` is checked against a schema that also requires `user_id`. */
  function RootSignInHandlerAsWritten(cfg: JwtConfig, secret: Option<Json>): Reply<SignedIn> {
    var issues := Validate(RootSignInSchema, SecretBody(secret));
    if issues != [] then Error(Some(400), ValidationFailedMessage, Messages(issues))
    else RootSignInReply(cfg, if secret.Some? && secret.value.JString? then secret.value.s else "")
  }

  /** As written, every root sign-in is refused by validation, the right secret included. */
  lemma RootSignInNeverPasses(cfg: JwtConfig, secret: Option<Json>)
    ensures var r := RootSignInHandlerAsWritten(cfg, secret);
      r.Error? && r.status == Some(400) && r.message == ValidationFailedMessage && "user_id is required" in r.errors
  {
    var body := SecretBody(secret);
    var issues := Validate(RootSignInSchema, body);
    assert "user_id" !in body;
    assert RuleIssues(RootSignInSchema[0], body) == [Issue("user_id", "user_id is required")];
    assert issues == RuleIssues(RootSignInSchema[0], body) + Validate(RootSignInSchema[1..], body);
    assert Messages(issues)[0] == "user_id is required";
  }

  /** The rule of `rootSignIn` that the handler's object can satisfy: a non-blank `secret`. */
  const RootSecretSchema: seq<Rule> := [RootSignInSchema[1]]

  /** `rootSignIn` validating only the secret it reads. */
  function RootSignInHandler(cfg: JwtConfig, secret: Option<Json>): (r: Reply<SignedIn>)
    ensures r.Ok? <==> secret.Some? && secret.value.JString? && NonBlank(secret.value.s) && secret.value.s == cfg.secret
    ensures r.Ok? ==> r.data.header == r.data.token && r.data.token.role == "root"
    ensures r.Error? ==> r.status == Some(400)
  {
    var body := SecretBody(secret);
    var issues := Validate(RootSecretSchema, body);
    assert issues == RuleIssues(RootSecretSchema[0], body) + Validate(RootSecretSchema[1..], body);
    if issues != [] then Error(Some(400), ValidationFailedMessage, Messages(issues))
    else RootSignInReply(cfg, secret.value.s)
  }

  // ---------------------------------------------------------------------------
  // createAdmin
  // ---------------------------------------------------------------------------

  const RegistrationFailedMessage := "Registration failed"

  function AdminExistsData(user_id: string): string {
    "Admin with user_id: [ " + user_id + " ] exists"
  }

  /**
   * One `createAdmin` request; `issues` are the messages of the `adminCreate`
   * schema. An existing user_id is refused before `createAdmin` runs.
   */
  function CreateAdminRequest(t: Tables, h: Hasher, issues: seq<string>, adminDto: AdminDto, fault: bool)
    : (r: Handled<AdminSummary>)
    ensures issues != [] ==> r == Handled(t, Error(Some(400), ValidationFailedMessage, issues))
    ensures r.reply.Ok? <==> issues == [] && adminDto.user_id !in t.admins && !fault
    ensures r.reply.Ok? ==> r.tables == AddAdmin(t, h, adminDto, fault).tables
    ensures r.reply.Error? ==> r.tables == t
  {
    if issues != [] then Handled(t, Error(Some(400), ValidationFailedMessage, issues))
    else if CheckIfAdminExists(t, adminDto.user_id) then
      Handled(t, Error(Some(400), RegistrationFailedMessage, [AdminExistsData(adminDto.user_id)]))
    else
      var o := AddAdmin(t, h, adminDto, fault);
      match o.result
      case Success(_, data) => Handled(o.tables, Ok(data))
      case Failure(code, message, e) => Handled(o.tables, Error(code, message.GetOr(RegistrationFailedMessage), [e]))
  }

  /** An existing admin gets 400 naming the user_id, and the tables are untouched. */
  lemma ExistingAdminRefused(t: Tables, h: Hasher, adminDto: AdminDto, fault: bool)
    requires adminDto.user_id in t.admins
    ensures CreateAdminRequest(t, h, [], adminDto, fault) ==
      Handled(t, Error(Some(400), RegistrationFailedMessage, [AdminExistsData(adminDto.user_id)]))
  {
  }

  method CreateAdminHandler(db: Store, h: Hasher, issues: seq<string>, adminDto: AdminDto, fault: bool)
    returns (reply: Reply<AdminSummary>)
    modifies db
    ensures db.Snapshot() == CreateAdminRequest(old(db.Snapshot()), h, issues, adminDto, fault).tables
    ensures reply == CreateAdminRequest(old(db.Snapshot()), h, issues, adminDto, fault).reply
  {
    if issues != [] {
      reply := Error(Some(400), ValidationFailedMessage, issues);
      return;
    }
    var adminExists := CheckIfAdminExists(db.Snapshot(), adminDto.user_id);
    if adminExists {
      reply := Error(Some(400), RegistrationFailedMessage, [AdminExistsData(adminDto.user_id)]);
      return;
    }
    var result := CreateAdmin(db, h, adminDto, fault);
    if result.Success? {
      reply := Ok(result.data);
    } else {
      reply := Error(result.code, result.message.GetOr(RegistrationFailedMessage), [result.errorData]);
    }
  }

  // ---------------------------------------------------------------------------
  // inviteAdmin
  // ---------------------------------------------------------------------------

  const InvitationFailedMessage := "Admin invitation failed"
  const SaveCodeFailedMessage := "Failed to save verification code."
  const InternalErrorMessage := "Internal Server Error"

  /**
   * What `inviteAdmin` draws from services outside this model: the
   * generated verification code, whether saving it succeeds (and the error
   * data if not), whether the mail API throws (and the error it rethrows),
   * and the client URL.
   */
  datatype InviteEnv = InviteEnv(code: string, saveOk: bool, saveError: string, sendThrows: bool, sendError: string, clientUrl: string)

  function SetPasswordLink(clientUrl: string, code: string): string {
    clientUrl + "/#/set-password/" + code
  }

  /** The tables after an invitation, the reply, and the mail handed to the mail API, if any. */
  datatype Invited = Invited(tables: Tables, reply: Reply<AdminSummary>, mail: Option<AdviserServices.Mail>)

  /**
   * One `inviteAdmin` request; `issues` are the messages of the `inviteAdmin`
   * schema, which requires the email. The admin is created first (the
   * `'Pending'` status the handler adds is not a column `createAdmin`
   * inserts), then the code is saved, then the link is mailed.
   */
  function Invite(t: Tables, h: Hasher, issues: seq<string>, adminDto: AdminDto, fault: bool, env: InviteEnv)
    : (r: Invited)
    requires issues == [] ==> adminDto.email.Some?
    ensures issues != [] || adminDto.user_id in t.admins ==>
      r.tables == t && r.mail.None? && r.reply.Error? && r.reply.status == Some(400)
    ensures r.reply.Ok? ==> r.mail.Some?
    // the error the mail API rethrows becomes the 500's error data
    ensures issues == [] && adminDto.user_id !in t.admins && AddAdmin(t, h, adminDto, fault).result.Success?
            && env.saveOk && env.sendThrows ==>
      r.reply == Error(Some(500), InternalErrorMessage, [env.sendError]) && r.mail.Some?
  {
    if issues != [] then Invited(t, Error(Some(400), InvitationFailedMessage, issues), None)
    else if CheckIfAdminExists(t, adminDto.user_id) then
      Invited(t, Error(Some(400), "Admin with user_id: [" + adminDto.user_id + "] exists", []), None)
    else
      var o := AddAdmin(t, h, adminDto, fault);
      if o.result.Failure? then
        Invited(o.tables, Error(Some(400), InvitationFailedMessage, OptionalErrors(o.result.message)), None)
      else if !env.saveOk then
        Invited(o.tables, Error(Some(500), SaveCodeFailedMessage, [env.saveError]), None)
      else
        var mail := AdviserServices.Mail(adminDto.email.value, SetPasswordLink(env.clientUrl, env.code));
        if env.sendThrows then Invited(o.tables, Error(Some(500), InternalErrorMessage, [env.sendError]), Some(mail))
        else Invited(o.tables, Ok(o.result.data), Some(mail))
  }

  /**
   * The link goes out only to a newly created admin, after its code is
   * saved, to the address in the request; a failed save answers 500 and
   * leaves the admin created.
   */
  lemma InviteOrder(t: Tables, h: Hasher, issues: seq<string>, adminDto: AdminDto, fault: bool, env: InviteEnv)
    requires issues == [] ==> adminDto.email.Some?
    ensures var r := Invite(t, h, issues, adminDto, fault, env); var o := AddAdmin(t, h, adminDto, fault);
      && (r.mail.Some? ==>
            && issues == [] && adminDto.user_id !in t.admins && o.result.Success? && env.saveOk
            && r.tables == o.tables
            && r.mail.value == AdviserServices.Mail(adminDto.email.value, SetPasswordLink(env.clientUrl, env.code)))
      && (issues == [] && adminDto.user_id !in t.admins && o.result.Success? && !env.saveOk ==>
            && r.reply == Error(Some(500), SaveCodeFailedMessage, [env.saveError])
            && r.tables == o.tables && adminDto.user_id in r.tables.admins)
  {
  }

  /** An invited admin is stored with the status column's default, not `'Pending'`. */
  lemma InvitedStatusIsDefault(t: Tables, h: Hasher, adminDto: AdminDto, fault: bool, env: InviteEnv)
    requires adminDto.email.Some?
    requires Invite(t, h, [], adminDto, fault, env).reply.Ok?
    ensures var r := Invite(t, h, [], adminDto, fault, env);
      adminDto.user_id in r.tables.admins && r.tables.admins[adminDto.user_id].status.None?
  {
  }

  method InviteAdminHandler(db: Store, h: Hasher, issues: seq<string>, adminDto: AdminDto, fault: bool, env: InviteEnv)
    returns (reply: Reply<AdminSummary>, mail: Option<AdviserServices.Mail>)
    requires issues == [] ==> adminDto.email.Some?
    modifies db
    ensures db.Snapshot() == Invite(old(db.Snapshot()), h, issues, adminDto, fault, env).tables
    ensures reply == Invite(old(db.Snapshot()), h, issues, adminDto, fault, env).reply
    ensures mail == Invite(old(db.Snapshot()), h, issues, adminDto, fault, env).mail
  {
    if issues != [] {
      reply, mail := Error(Some(400), InvitationFailedMessage, issues), None;
      return;
    }
    var adminExists := CheckIfAdminExists(db.Snapshot(), adminDto.user_id);
    if adminExists {
      reply, mail := Error(Some(400), "Admin with user_id: [" + adminDto.user_id + "] exists", []), None;
      return;
    }
    var result := CreateAdmin(db, h, adminDto, fault);
    if !result.Success? {
      reply, mail := Error(Some(400), InvitationFailedMessage, OptionalErrors(result.message)), None;
      return;
    }
    if !env.saveOk {
      reply, mail := Error(Some(500), SaveCodeFailedMessage, [env.saveError]), None;
      return;
    }
    mail := Some(AdviserServices.Mail(adminDto.email.value, SetPasswordLink(env.clientUrl, env.code)));
    if env.sendThrows {
      reply := Error(Some(500), InternalErrorMessage, [env.sendError]);
    } else {
      reply := Ok(result.data);
    }
  }

  // ---------------------------------------------------------------------------
  // setAdminPassword
  // ---------------------------------------------------------------------------

  /** What `checkAdminByCode` answers: the admin the code belongs to, or its error data. */
  datatype CodeLookup = CodeFound(user_id: string) | CodeNotFound(errorData: string)

  /** A call of the `setAdminPassword` service. */
  datatype PasswordCall = PasswordCall(user_id: string, password: string, code: string)

  /** What the `setAdminPassword` service answers: success or not, and its message. */
  datatype PasswordSet = PasswordSet(success: bool, message: Option<string>)

  /** The service call the handler made, if any, and the reply. */
  datatype PasswordRun = PasswordRun(call: Option<PasswordCall>, reply: Reply<Option<string>>)

  /**
   * One `setAdminPassword` request; `issues` are the messages of the
   * `setAdminPassword` schema. The two services it calls are not part of
   * this model and are passed in.
   */
  function SetAdminPasswordRequest(issues: seq<string>, code: string, password: string, email: string,
                                   checkAdminByCode: string -> CodeLookup,
                                   setAdminPassword: PasswordCall -> PasswordSet): (r: PasswordRun)
    ensures r.call.Some? <==> issues == [] && checkAdminByCode(code).CodeFound?
    ensures r.call.Some? ==> r.call.value == PasswordCall(checkAdminByCode(code).user_id, password, code)
    ensures r.reply.Ok? <==> r.call.Some? && setAdminPassword(r.call.value).success
    ensures r.reply.Error? ==> r.reply.status == Some(400)
  {
    if issues != [] then PasswordRun(None, Error(Some(400), "Admin set password failed", issues))
    else
      var result := checkAdminByCode(code);
      if result.CodeFound? then
        var call := PasswordCall(result.user_id, password, code);
        var updateResult := setAdminPassword(call);
        if updateResult.success then PasswordRun(Some(call), Ok(updateResult.message))
        else PasswordRun(Some(call), Error(Some(400), "Failed to set password", OptionalErrors(updateResult.message)))
      else PasswordRun(None, Error(Some(400), "Invalid verification code", [result.errorData]))
  }

  /** The email in the request plays no part: the password goes to the code's owner. */
  lemma PasswordEmailIgnored(issues: seq<string>, code: string, password: string, e1: string, e2: string,
                             checkAdminByCode: string -> CodeLookup, setAdminPassword: PasswordCall -> PasswordSet)
    ensures SetAdminPasswordRequest(issues, code, password, e1, checkAdminByCode, setAdminPassword)
         == SetAdminPasswordRequest(issues, code, password, e2, checkAdminByCode, setAdminPassword)
  {
  }

  // ---------------------------------------------------------------------------
  // updateAdminStatus and updateAdviserStatus
  // ---------------------------------------------------------------------------

  /** Which status column a request updates: `admins` or `credentials`. */
  datatype Accounts = AdminAccounts | AdviserAccounts

  function StatusFailedMessage(which: Accounts): string {
    if which == AdminAccounts then "update admin status" else "Updating adviser status failed"
  }

  /** The service call behind each handler. */
  function SetStatus(which: Accounts, t: Tables, user_id: string, status: string, fault: bool): (o: Outcome<string>)
    ensures o.result.Success? <==> user_id != "" && status != "" && !fault
    ensures o.result.Failure? ==> o.tables == t
  {
    if which == AdminAccounts then SetAdminStatus(t, user_id, status, fault)
    else SetAdviserStatus(t, user_id, status, fault)
  }

  /** A status-update request: both handlers validate against `adminStatusUpdate`. */
  function UpdateStatusRequest(which: Accounts, t: Tables, body: Body, fault: bool): (r: Handled<Result<string, string>>)
    ensures r.reply.Ok? <==> Validate(AdminStatusUpdateSchema, body) == [] && !fault
    // a 200 carries the whole service result, not only its data
    ensures r.reply.Ok? ==>
      && body["status"].s in AdminStatusValues
      && r.tables == SetStatus(which, t, body["user_id"].s, body["status"].s, false).tables
      && r.reply.data == SetStatus(which, t, body["user_id"].s, body["status"].s, false).result
    ensures r.reply.Error? ==> r.tables == t
  {
    var issues := Validate(AdminStatusUpdateSchema, body);
    AdminStatusUpdateIff(body);
    if issues != [] then Handled(t, Error(Some(400), ValidationFailedMessage, Messages(issues)))
    else
      var o := SetStatus(which, t, body["user_id"].s, body["status"].s, fault);
      if o.result.Success? then Handled(o.tables, Ok(o.result))
      else Handled(o.tables, Error(o.result.code, o.result.message.GetOr(StatusFailedMessage(which)), [o.result.errorData]))
  }

  /**
   * The adviser handler takes only the admin statuses: an adviser status
   * such as `Approved` is refused with 400 and nothing changes.
   */
  lemma AdviserStatusNeedsAdminValue(t: Tables, body: Body, fault: bool)
    requires "status" in body && body["status"] == JString("Approved")
    ensures var r := UpdateStatusRequest(AdviserAccounts, t, body, fault);
      r.reply.Error? && r.reply.status == Some(400) && r.tables == t
  {
    AdminStatusUpdateIff(body);
  }

  method UpdateStatusHandler(db: Store, which: Accounts, body: Body, fault: bool) returns (reply: Reply<Result<string, string>>)
    modifies db
    ensures db.Snapshot() == UpdateStatusRequest(which, old(db.Snapshot()), body, fault).tables
    ensures reply == UpdateStatusRequest(which, old(db.Snapshot()), body, fault).reply
  {
    var issues := Validate(AdminStatusUpdateSchema, body);
    if issues != [] {
      reply := Error(Some(400), ValidationFailedMessage, Messages(issues));
      return;
    }
    AdminStatusUpdateIff(body);
    var result;
    if which == AdminAccounts {
      result := UpdateAdminStatus(db, body["user_id"].s, body["status"].s, fault);
    } else {
      result := UpdateAdviserStatus(db, body["user_id"].s, body["status"].s, fault);
    }
    if result.Success? {
      reply := Ok(result);
    } else {
      reply := Error(result.code, result.message.GetOr(StatusFailedMessage(which)), [result.errorData]);
    }
  }
}
