/**
 * src/app/modules/admin/services/admin.services.ts: root and admin sign-in,
 * admin creation, the two status updates and the paging window of the
 * `get*WithPaging` queries. These services leave `code` out of their results.
 */
module AdminServices {
  import opened Wrappers
  import opened Results
  import opened Dto
  import opened Database
  import opened Tokens

  const SecretInvalidMessage := "Secret is invalid"
  const AdminPasswordInvalidMessage := "password is invalid"
  const AdminDigestErrorMessage := "Error computing digest"
  const RequestInvalidMessage := "Request data is invalid"
  const UpdatedMessage := "updated"
  const InsertErrorMessage := "database error"

  // ---------------------------------------------------------------------------
  // Sign-in
  // ---------------------------------------------------------------------------

  /** `rootSignIn`: the secret must be the JWT secret itself. */
  function RootSignIn(cfg: JwtConfig, secret: string): (r: Result<Token, string>)
    ensures r.Success? <==> secret == cfg.secret
    ensures r.Success? ==> r.data.sub == "root" && r.data.role == "root" && r.data.iss == cfg.issuer
    ensures r.Success? ==> r.data.claims == IdClaims("root", "root")
    ensures r.Failure? ==> r.errorData == SecretInvalidMessage && r.code.None?
  {
    if secret != cfg.secret then Failure(None, None, SecretInvalidMessage)
    else Success(None, Sign(IdClaims("root", "root"), "root", cfg))
  }

  /** `adminSignIn`: the password is checked against the admin's stored digest. */
  function AdminSignIn(t: Tables, h: Hasher, cfg: JwtConfig, user_id: string, password: string): (r: Result<Token, string>)
    ensures user_id !in t.admins ==> r == Failure(None, None, AdminDigestErrorMessage)
    ensures user_id in t.admins && !h.verify(t.admins[user_id].digest, password) ==>
      r == Failure(None, None, AdminPasswordInvalidMessage)
    ensures r.Success? <==> user_id in t.admins && h.verify(t.admins[user_id].digest, password)
    ensures r.Success? ==> r.data.sub == user_id && r.data.role == "admin" && r.data.iss == cfg.issuer
    ensures r.Success? ==> r.data.claims == IdClaims(user_id, "admin")
  {
    var result := GetAdminCredentials(t, user_id);
    if result.Success? then
      var storedDigest := result.data.digest;
      if h.verify(storedDigest, password) then Success(None, Sign(IdClaims(user_id, "admin"), user_id, cfg))
      else Failure(None, None, AdminPasswordInvalidMessage)
    else Failure(None, None, AdminDigestErrorMessage)
  }

  /** `checkIfAdminExists`: whether the admin lookup succeeds. */
  function CheckIfAdminExists(t: Tables, user_id: string): (b: bool)
    ensures b <==> user_id in t.admins
  {
    GetAdminCredentials(t, user_id).Success?
  }

  // ---------------------------------------------------------------------------
  // createAdmin
  // ---------------------------------------------------------------------------

  /** What `createAdmin` returns: never the password or its digest. */
  datatype AdminSummary = AdminSummary(user_id: string, email: Option<string>, mobile_no: Option<string>)

  /**
   * `createAdmin`: one INSERT of user_id, email, mobile number and the digest
   * of the password; `status` keeps the column default. An existing user_id
   * violates the key, and `fault` stands for argon2 or the INSERT throwing.
   */
  function AddAdmin(t: Tables, h: Hasher, adminDto: AdminDto, fault: bool): (o: Outcome<AdminSummary>)
    ensures o.result.Success? <==> !fault && adminDto.user_id !in t.admins
    ensures o.result.Failure? ==> o.tables == t && o.result.code.None?
    ensures o.result.Success? ==>
      && o.result.data == AdminSummary(adminDto.user_id, adminDto.email, adminDto.mobile_no)
      && o.tables.admins.Keys == t.admins.Keys + {adminDto.user_id}
      && o.tables.admins[adminDto.user_id].digest == h.hash(adminDto.password)
      && o.tables.admins[adminDto.user_id].status.None?
      && (forall u :: u in t.admins ==> o.tables.admins[u] == t.admins[u])
    ensures o.tables.(admins := t.admins) == t
  {
    if fault || adminDto.user_id in t.admins then
      Outcome(t, Failure(None, None, InsertErrorMessage))
    else
      var row := AdminRow(adminDto.user_id, adminDto.email, adminDto.mobile_no, h.hash(adminDto.password), None);
      Outcome(t.(admins := t.admins[adminDto.user_id := row]),
              Success(None, AdminSummary(adminDto.user_id, adminDto.email, adminDto.mobile_no)))
  }

  /** Creating an admin keeps the database consistent. */
  lemma AddAdminPreservesValid(t: Tables, h: Hasher, adminDto: AdminDto, fault: bool)
    requires t.Valid()
    ensures AddAdmin(t, h, adminDto, fault).tables.Valid()
  {
  }

  /** A freshly created admin signs in with the password it was created with. */
  lemma AddAdminThenSignIn(t: Tables, h: Hasher, cfg: JwtConfig, adminDto: AdminDto)
    requires Sound(h)
    requires AddAdmin(t, h, adminDto, false).result.Success?
    ensures AdminSignIn(AddAdmin(t, h, adminDto, false).tables, h, cfg, adminDto.user_id, adminDto.password).Success?
  {
    assert h.verify(h.hash(adminDto.password), adminDto.password);
  }

  method CreateAdmin(db: Store, h: Hasher, adminDto: AdminDto, fault: bool) returns (r: Result<AdminSummary, string>)
    modifies db
    ensures db.Snapshot() == AddAdmin(old(db.Snapshot()), h, adminDto, fault).tables
    ensures r == AddAdmin(old(db.Snapshot()), h, adminDto, fault).result
    ensures old(db.Valid()) ==> db.Valid()
  {
    if db.Valid() {
      AddAdminPreservesValid(db.Snapshot(), h, adminDto, fault);
    }
    if fault {
      r := Failure(None, None, InsertErrorMessage);
      return;
    }
    var digest := h.hash(adminDto.password);
    // INSERT INTO admins (user_id, email, mobile_no, digest)
    if adminDto.user_id in db.admins {
      r := Failure(None, None, InsertErrorMessage);
      return;
    }
    db.admins := db.admins[adminDto.user_id := AdminRow(adminDto.user_id, adminDto.email, adminDto.mobile_no, digest, None)];
    r := Success(None, AdminSummary(adminDto.user_id, adminDto.email, adminDto.mobile_no));
  }

  // ---------------------------------------------------------------------------
  // Status updates
  // ---------------------------------------------------------------------------

  /**
   * `updateAdminStatus`: empty arguments are refused without touching the
   * table; otherwise the UPDATE runs in a transaction and reports "updated"
   * whether or not a row matched. `fault` stands for the UPDATE or COMMIT
   * throwing, which rolls back.
   */
  function SetAdminStatus(t: Tables, user_id: string, status: string, fault: bool): (o: Outcome<string>)
    ensures user_id == "" || status == "" ==> o == Outcome(t, Failure(None, None, RequestInvalidMessage))
    ensures o.result.Success? <==> user_id != "" && status != "" && !fault
    ensures o.result.Success? ==> o.result.data == UpdatedMessage
    ensures o.result.Failure? ==> o.tables == t
    // only the status of the matching admin changes; a missing admin changes nothing
    ensures o.tables.(admins := t.admins) == t
    ensures o.tables.admins.Keys == t.admins.Keys
    ensures forall u :: u in t.admins && u != user_id ==> o.tables.admins[u] == t.admins[u]
    ensures user_id in t.admins ==>
      o.tables.admins[user_id] == (if o.result.Success? then t.admins[user_id].(status := Some(status)) else t.admins[user_id])
  {
    if user_id == "" || status == "" then Outcome(t, Failure(None, None, RequestInvalidMessage))
    else if fault then Outcome(t, Failure(None, None, InsertErrorMessage))
    else if user_id in t.admins then
      Outcome(t.(admins := t.admins[user_id := t.admins[user_id].(status := Some(status))]), Success(None, UpdatedMessage))
    else Outcome(t, Success(None, UpdatedMessage))
  }

  /** `updateAdviserStatus`: the same rule over the `status` column of `credentials`. */
  function SetAdviserStatus(t: Tables, user_id: string, status: string, fault: bool): (o: Outcome<string>)
    ensures user_id == "" || status == "" ==> o == Outcome(t, Failure(None, None, RequestInvalidMessage))
    ensures o.result.Success? <==> user_id != "" && status != "" && !fault
    ensures o.result.Success? ==> o.result.data == UpdatedMessage
    ensures o.result.Failure? ==> o.tables == t
    ensures o.tables.(credentials := t.credentials) == t
    ensures o.tables.credentials.Keys == t.credentials.Keys
    ensures forall u :: u in t.credentials && u != user_id ==> o.tables.credentials[u] == t.credentials[u]
    ensures user_id in t.credentials ==>
      o.tables.credentials[user_id] ==
        (if o.result.Success? then t.credentials[user_id].(status := status) else t.credentials[user_id])
  {
    if user_id == "" || status == "" then Outcome(t, Failure(None, None, RequestInvalidMessage))
    else if fault then Outcome(t, Failure(None, None, InsertErrorMessage))
    else if user_id in t.credentials then
      Outcome(t.(credentials := t.credentials[user_id := t.credentials[user_id].(status := status)]),
              Success(None, UpdatedMessage))
    else Outcome(t, Success(None, UpdatedMessage))
  }

  /** Success does not mean a row was updated: an unknown user_id also reports "updated", with nothing changed. */
  lemma UpdateOfUnknownUserSucceeds(t: Tables, user_id: string, status: string)
    requires user_id != "" && status != ""
    requires user_id !in t.admins && user_id !in t.credentials
    ensures SetAdminStatus(t, user_id, status, false) == Outcome(t, Success(None, UpdatedMessage))
    ensures SetAdviserStatus(t, user_id, status, false) == Outcome(t, Success(None, UpdatedMessage))
  {
  }

  /** Both status updates keep the database consistent. */
  lemma StatusUpdatesPreserveValid(t: Tables, user_id: string, status: string, fault: bool)
    requires t.Valid()
    ensures SetAdminStatus(t, user_id, status, fault).tables.Valid()
    ensures SetAdviserStatus(t, user_id, status, fault).tables.Valid()
  {
    var o := SetAdviserStatus(t, user_id, status, fault);
    assert forall u :: u in o.tables.credentials ==> o.tables.credentials[u].adviser_id == t.credentials[u].adviser_id;
  }

  method UpdateAdminStatus(db: Store, user_id: string, status: string, fault: bool) returns (r: Result<string, string>)
    modifies db
    ensures db.Snapshot() == SetAdminStatus(old(db.Snapshot()), user_id, status, fault).tables
    ensures r == SetAdminStatus(old(db.Snapshot()), user_id, status, fault).result
    ensures old(db.Valid()) ==> db.Valid()
  {
    if db.Valid() {
      StatusUpdatesPreserveValid(db.Snapshot(), user_id, status, fault);
    }
    if user_id != "" && status != "" {
      // BEGIN
      var saved := db.Snapshot();
      if user_id in db.admins {
        db.admins := db.admins[user_id := db.admins[user_id].(status := Some(status))];
      }
      if fault {
        // ROLLBACK
        db.Rollback(saved);
        r := Failure(None, None, InsertErrorMessage);
        return;
      }
      // COMMIT
      r := Success(None, UpdatedMessage);
    } else {
      r := Failure(None, None, RequestInvalidMessage);
    }
  }

  method UpdateAdviserStatus(db: Store, user_id: string, status: string, fault: bool) returns (r: Result<string, string>)
    modifies db
    ensures db.Snapshot() == SetAdviserStatus(old(db.Snapshot()), user_id, status, fault).tables
    ensures r == SetAdviserStatus(old(db.Snapshot()), user_id, status, fault).result
    ensures old(db.Valid()) ==> db.Valid()
  {
    if db.Valid() {
      StatusUpdatesPreserveValid(db.Snapshot(), user_id, status, fault);
    }
    if user_id != "" && status != "" {
      // BEGIN
      var saved := db.Snapshot();
      if user_id in db.credentials {
        db.credentials := db.credentials[user_id := db.credentials[user_id].(status := status)];
      }
      if fault {
        // ROLLBACK
        db.Rollback(saved);
        r := Failure(None, None, InsertErrorMessage);
        return;
      }
      // COMMIT
      r := Success(None, UpdatedMessage);
    } else {
      r := Failure(None, None, RequestInvalidMessage);
    }
  }

  // ---------------------------------------------------------------------------
  // Paging
  // ---------------------------------------------------------------------------

  /** The page, limit and offset a paged query runs with. */
  datatype Window = Window(page: int, limit: int, offset: int)

  /**
   * `page = vPage || 1` (the controllers pass a number, so only 0 is
   * falsy), `limit = pageSize`, `offset = (page - 1) * limit`.
   */
  function PageWindow(vPage: int, pageSize: int): (w: Window)
    ensures w.limit == pageSize
    ensures vPage != 0 ==> w.page == vPage
    ensures vPage == 0 ==> w.page == 1 && w.offset == 0
    ensures w.page == 1 ==> w.offset == 0
    ensures w.page >= 1 && pageSize >= 0 ==> w.offset >= 0
  {
    var page := if vPage == 0 then 1 else vPage;
    var limit := pageSize;
    Window(page, limit, (page - 1) * limit)
  }

  /** Consecutive pages sit side by side: page p + 1 starts where page p ends. */
  lemma PagesTile(p: int, pageSize: int)
    requires p >= 1
    ensures PageWindow(p + 1, pageSize).offset == PageWindow(p, pageSize).offset + pageSize
  {
  }
}
