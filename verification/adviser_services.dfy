/**
 * src/app/modules/v1/advisers/services/adviser.services.ts: registration
 * (`createAdviser`), `setPassword`, `signIn`, `getProfile` and
 * `checkIfAdviserExists`.
 *
 * `Register` states what one `createAdviser` call does to the tables and
 * what it returns; the method `CreateAdviser` performs the same steps one
 * insert at a time between BEGIN and COMMIT/ROLLBACK and is proved to end
 * in exactly that state.
 */
module AdviserServices {
  import opened Wrappers
  import opened Strings
  import opened Constants
  import opened Results
  import opened Dto
  import opened Database
  import opened Tokens

  /** The attribute tuple a controller fixes for a registration. */
  datatype RegAttrs = RegAttrs(
    status: AdviserStatus,
    legal_entity_type: LegalEntityType,
    intermediary_type: IntermediaryType,
    credential_type: CredentialType,
    rbac: RBAC)

  /** The points between BEGIN and COMMIT at which the database or argon2 can throw. */
  datatype Step = ParentLookup | AdviserInsert | Hashing | CredentialsInsert | ContactsInsert | EntityInsert | Commit

  /**
   * What `createAdviser` draws from outside the store: the two generated
   * one-time passwords, the clock reading used for a non-person's
   * incorporation date, and the step (if any) at which an error is thrown.
   */
  datatype RegEnv = RegEnv(otp1: string, otp2: string, now: string, fault: Option<Step>)

  /** An error thrown inside the transaction: the code and message the call reports. */
  datatype TxError = TxError(code: int, message: string)

  /** The staff parent check: the adviser id to reuse, or the error it throws. */
  datatype Checked = Ok(adviser_id: int) | Thrown(error: TxError)

  /** The rows one registration inserts. */
  datatype Bundle = Bundle(
    adviser: Option<AdviserRow>,
    credential: CredentialRow,
    contacts: Option<ContactsRow>,
    entity: Entity)

  /** The `credentials` part of the returned object: the digest is never returned. */
  datatype CredentialSummary = CredentialSummary(
    user_id: string,
    email: Option<string>,
    mobile_no: Option<string>,
    adviser_id: int,
    credential_type: CredentialType)

  /** The object a successful registration returns; `None` is the source's `{}`. */
  datatype Created = Created(
    adviser: Option<AdviserRow>,
    credentials: CredentialSummary,
    contacts: Option<ContactsRow>,
    entity: Entity)

  const DatabaseErrorMessage := "database error"
  const DuplicateKeyMessage := "duplicate key value violates unique constraint"
  const TypeErrorMessage := "Cannot read properties of undefined (reading 'toLowerCase')"
  /** The fixed name written for every non-person. */
  const NonPersonNames := "Big Bucks Agency"

  function SameValueMessage(adviser_user_id: string): string {
    "user_id ( " + adviser_user_id + " ) and adviser_user_id ( " + adviser_user_id + " ) have the same value"
  }

  function NotAdviserAdminMessage(adviser_user_id: string): string {
    adviser_user_id + ": Not an adviser admin"
  }

  /**
   * The staff checks: the self-reference guard (case-insensitive), then the
   * parent credential lookup, which must find an `adviser_admin`.
   */
  function StaffAdviserId(t: Tables, user_id: string, adviser_user_id: Option<string>, fault: Option<Step>): (c: Checked)
    ensures c.Ok? ==> adviser_user_id.Some? && adviser_user_id.value in t.credentials
    ensures c.Ok? ==> t.credentials[adviser_user_id.value].credential_type == adviser_admin
    ensures c.Ok? ==> c.adviser_id == t.credentials[adviser_user_id.value].adviser_id
    ensures c.Ok? ==> ToLower(adviser_user_id.value) != ToLower(user_id)
  {
    if adviser_user_id.None? then Thrown(TxError(500, TypeErrorMessage))
    else
      var aid := adviser_user_id.value;
      if ToLower(aid) == ToLower(user_id) then Thrown(TxError(400, SameValueMessage(aid)))
      else if fault == Some(ParentLookup) then Thrown(TxError(500, DatabaseErrorMessage))
      else
        var searchRes := GetCredentials(t, aid);
        if searchRes.Success? then
          if searchRes.data.credential_type != adviser_admin then Thrown(TxError(400, NotAdviserAdminMessage(aid)))
          else Ok(searchRes.data.adviser_id)
        else
          Thrown(TxError(if searchRes.code == Some(NoContent) then 404 else 500,
                         searchRes.message.GetOr("Error processing adviser")))
  }

  /** What is hashed: the supplied password, or two generated one-time passwords. */
  function DigestSource(regDto: RegistrationDto, env: RegEnv): string {
    if regDto.HasPassword() then regDto.password.value else env.otp1 + env.otp2
  }

  /** `body.country || "Kenya"` when the key is present. */
  function Country(body: AdviserBody): Option<string> {
    if body.country == Some("") then Some("Kenya") else body.country
  }

  function NewAdviserRow(id: int, body: AdviserBody, a: RegAttrs): AdviserRow {
    AdviserRow(id, body.kra_pin, body.account_no, body.partner_number,
               a.intermediary_type, a.legal_entity_type, Country(body), a.status)
  }

  function NewCredentialRow(regDto: RegistrationDto, adviser_id: int, digest: string, a: RegAttrs): CredentialRow {
    CredentialRow(regDto.user_id, regDto.adviser.primary_email, regDto.adviser.mobile_no, adviser_id,
                  digest, a.credential_type, CredentialStatus.Not_Set.Name(), a.rbac)
  }

  function NewContactsRow(adviser_id: int, body: AdviserBody): ContactsRow {
    ContactsRow(adviser_id, body.mobile_no, body.secondary_mobile, body.primary_email, body.secondary_email,
                body.primary_phone, body.secondary_phone, body.primary_address, body.secondary_address,
                body.city, body.secondary_city, Country(body))
  }

  function NewEntity(regDto: RegistrationDto, adviser_id: int, a: RegAttrs, now: string): Entity {
    var body := regDto.adviser;
    if a.legal_entity_type == person then
      PersonEntity(PersonRow(adviser_id, regDto.user_id, body.id_number, body.id_type, body.date_of_birth,
                             body.first_name, body.last_name, body.full_names, body.gender))
    else
      NonPersonEntity(NonPersonRow(adviser_id, regDto.user_id, body.id_number, body.id_type, now, NonPersonNames))
  }

  /** The rows a registration writes, given the adviser id it settled on. */
  function BundleFor(h: Hasher, regDto: RegistrationDto, a: RegAttrs, env: RegEnv, adviser_id: int): Bundle {
    var staff := regDto.reg_type.Staff?;
    Bundle(
      if staff then None else Some(NewAdviserRow(adviser_id, regDto.adviser, a)),
      NewCredentialRow(regDto, adviser_id, h.hash(DigestSource(regDto, env)), a),
      if staff then None else Some(NewContactsRow(adviser_id, regDto.adviser)),
      NewEntity(regDto, adviser_id, a, env.now))
  }

  /** The first of the remaining steps (hash, inserts, COMMIT) to throw, if any. */
  function InsertError(t: Tables, b: Bundle, fault: Option<Step>): Option<TxError> {
    var user_id := b.credential.user_id;
    if fault == Some(Hashing) then Some(TxError(500, DatabaseErrorMessage))
    else if fault == Some(CredentialsInsert) then Some(TxError(500, DatabaseErrorMessage))
    else if user_id in t.credentials then Some(TxError(500, DuplicateKeyMessage))
    else if b.contacts.Some? && fault == Some(ContactsInsert) then Some(TxError(500, DatabaseErrorMessage))
    else if fault == Some(EntityInsert) then Some(TxError(500, DatabaseErrorMessage))
    else if b.entity.PersonEntity? && user_id in t.person then Some(TxError(500, DuplicateKeyMessage))
    else if b.entity.NonPersonEntity? && user_id in t.nonperson then Some(TxError(500, DuplicateKeyMessage))
    else if fault == Some(Commit) then Some(TxError(500, DatabaseErrorMessage))
    else None
  }

  /** The tables with every row of the bundle inserted. */
  function Apply(t: Tables, b: Bundle): (r: Tables)
    ensures r.nextAdviserId == t.nextAdviserId && r.admins == t.admins
  {
    var user_id := b.credential.user_id;
    t.(credentials := t.credentials[user_id := b.credential],
       adviser := if b.adviser.Some? then t.adviser[b.adviser.value.id := b.adviser.value] else t.adviser,
       contacts := if b.contacts.Some? then t.contacts[b.contacts.value.adviser_id := b.contacts.value] else t.contacts,
       person := if b.entity.PersonEntity? then t.person[user_id := b.entity.person] else t.person,
       nonperson := if b.entity.NonPersonEntity? then t.nonperson[user_id := b.entity.nonperson] else t.nonperson)
  }

  function CreatedOf(b: Bundle): Created {
    var c := b.credential;
    Created(b.adviser, CredentialSummary(c.user_id, c.email, c.mobile_no, c.adviser_id, c.credential_type),
            b.contacts, b.entity)
  }

  function Abort(t: Tables, e: TxError): Outcome<Created> {
    Outcome(t, Failure(Some(e.code), Some(e.message), e.message))
  }

  /** The remaining steps after the adviser id is known: COMMIT everything, or ROLLBACK. */
  function Finish(t: Tables, b: Bundle, fault: Option<Step>): (o: Outcome<Created>)
    ensures o.result.Failure? ==> o.tables == t && o.result.code == Some(500)
    ensures o.result.Success? ==> o.tables == Apply(t, b) && o.result.data == CreatedOf(b)
    ensures o.result.Success? ==> b.credential.user_id !in t.credentials
    ensures o.result.Success? && b.entity.PersonEntity? ==> b.credential.user_id !in t.person
    ensures o.result.Success? && b.entity.NonPersonEntity? ==> b.credential.user_id !in t.nonperson
  {
    match InsertError(t, b, fault)
    case Some(e) => Abort(t, e)
    case None => Outcome(Apply(t, b), Success(Some(200), CreatedOf(b)))
  }

  /**
   * One `createAdviser` call. Staff resolve their parent's adviser id;
   * everyone else draws a fresh id from the sequence, which stays drawn even
   * if the transaction rolls back.
   */
  function Register(t: Tables, h: Hasher, regDto: RegistrationDto, a: RegAttrs, env: RegEnv): (o: Outcome<Created>)
    // the sequence moves for every non-staff call; the admins table is never touched
    ensures o.tables.nextAdviserId == t.nextAdviserId + (if regDto.reg_type.Staff? then 0 else 1)
    ensures o.tables.admins == t.admins
    // all or nothing: a failure leaves every row as it was
    ensures o.result.Failure? ==> o.tables.SameRows(t)
    ensures o.result.Failure? ==> o.result.code == Some(400) || o.result.code == Some(404) || o.result.code == Some(500)
    // a user_id that is already registered is never registered again
    ensures o.result.Success? ==> regDto.user_id !in t.credentials
    // staff may not name themselves as their own adviser admin, in any letter case
    ensures regDto.reg_type.Staff? && regDto.reg_type.adviser_user_id.Some?
            && ToLower(regDto.reg_type.adviser_user_id.value) == ToLower(regDto.user_id)
            ==> o.result.Failure? && o.result.code == Some(400)
  {
    match regDto.reg_type
    case Staff(adviser_user_id) =>
      (match StaffAdviserId(t, regDto.user_id, adviser_user_id, env.fault)
       case Thrown(e) => Abort(t, e)
       case Ok(id) => Finish(t, BundleFor(h, regDto, a, env, id), env.fault))
    case _ =>
      var id := t.nextAdviserId;
      var t1 := t.(nextAdviserId := id + 1);
      if env.fault == Some(AdviserInsert) then Abort(t1, TxError(500, DatabaseErrorMessage))
      else Finish(t1, BundleFor(h, regDto, a, env, id), env.fault)
  }

  /** What inserting a bundle does to each table. */
  lemma ApplyEffects(t: Tables, b: Bundle)
    ensures var r := Apply(t, b); var u := b.credential.user_id;
      && r.credentials.Keys == t.credentials.Keys + {u} && r.credentials[u] == b.credential
      && (forall v :: v in t.credentials && v != u ==> r.credentials[v] == t.credentials[v])
      && (b.adviser.None? ==> r.adviser == t.adviser)
      && (b.adviser.Some? ==> r.adviser == t.adviser[b.adviser.value.id := b.adviser.value])
      && (b.contacts.None? ==> r.contacts == t.contacts)
      && (b.contacts.Some? ==> r.contacts == t.contacts[b.contacts.value.adviser_id := b.contacts.value])
      && (b.entity.PersonEntity? ==> r.person == t.person[u := b.entity.person] && r.nonperson == t.nonperson)
      && (b.entity.NonPersonEntity? ==> r.nonperson == t.nonperson[u := b.entity.nonperson] && r.person == t.person)
  {
  }

  /** The id the adviser-id stage settles on, when it does not throw. */
  function ChosenId(t: Tables, regDto: RegistrationDto, env: RegEnv): int {
    match regDto.reg_type
    case Staff(adviser_user_id) =>
      var c := StaffAdviserId(t, regDto.user_id, adviser_user_id, env.fault);
      if c.Ok? then c.adviser_id else -1
    case _ => t.nextAdviserId
  }

  /** A successful registration is the bundle for the chosen id, inserted. */
  lemma RegisterIsApply(t: Tables, h: Hasher, regDto: RegistrationDto, a: RegAttrs, env: RegEnv)
    requires Register(t, h, regDto, a, env).result.Success?
    ensures var o := Register(t, h, regDto, a, env);
            var b := BundleFor(h, regDto, a, env, ChosenId(t, regDto, env));
            var t1 := t.(nextAdviserId := o.tables.nextAdviserId);
      && o.tables == Apply(t1, b) && o.result.data == CreatedOf(b)
      && regDto.user_id !in t.credentials
      && (b.entity.PersonEntity? ==> regDto.user_id !in t.person)
      && (b.entity.NonPersonEntity? ==> regDto.user_id !in t.nonperson)
  {
  }

  /**
   * A successful registration adds one credential, not yet set, with the
   * controller's type and the digest of its source; keeps every existing
   * credential; and adds one entity row in the table its legal entity type
   * names.
   */
  lemma RegisterWrites(t: Tables, h: Hasher, regDto: RegistrationDto, a: RegAttrs, env: RegEnv)
    requires Register(t, h, regDto, a, env).result.Success?
    ensures var o := Register(t, h, regDto, a, env); var u := regDto.user_id;
      && o.tables.credentials.Keys == t.credentials.Keys + {u}
      && (forall v :: v in t.credentials ==> o.tables.credentials[v] == t.credentials[v])
      && o.tables.credentials[u].status == CredentialStatus.Not_Set.Name()
      && o.tables.credentials[u].credential_type == a.credential_type
      && o.tables.credentials[u].rbac == a.rbac
      && o.tables.credentials[u].digest == h.hash(DigestSource(regDto, env))
      && o.tables.credentials[u].email == regDto.adviser.primary_email
      && o.result.data.credentials.user_id == u
      && o.result.data.credentials.adviser_id == o.tables.credentials[u].adviser_id
      && o.result.data.entity.PersonEntity? == (a.legal_entity_type == person)
      && o.tables.person.Keys == t.person.Keys + (if a.legal_entity_type == person then {u} else {})
      && o.tables.nonperson.Keys == t.nonperson.Keys + (if a.legal_entity_type == person then {} else {u})
  {
    var o := Register(t, h, regDto, a, env);
    var b := BundleFor(h, regDto, a, env, ChosenId(t, regDto, env));
    RegisterIsApply(t, h, regDto, a, env);
    ApplyEffects(t.(nextAdviserId := o.tables.nextAdviserId), b);
  }

  /**
   * A staff user is registered only under an existing adviser admin, shares
   * that admin's adviser id, and adds no adviser or contacts row.
   */
  lemma StaffJoinsParent(t: Tables, h: Hasher, regDto: RegistrationDto, a: RegAttrs, env: RegEnv)
    requires regDto.reg_type.Staff?
    requires Register(t, h, regDto, a, env).result.Success?
    ensures var o := Register(t, h, regDto, a, env); var parent := regDto.reg_type.adviser_user_id;
      && parent.Some? && parent.value in t.credentials
      && t.credentials[parent.value].credential_type == adviser_admin
      && ToLower(parent.value) != ToLower(regDto.user_id)
      && o.tables.credentials[regDto.user_id].adviser_id == t.credentials[parent.value].adviser_id
      && o.tables.adviser == t.adviser && o.tables.contacts == t.contacts
      && o.result.data.adviser.None? && o.result.data.contacts.None?
  {
    var o := Register(t, h, regDto, a, env);
    var b := BundleFor(h, regDto, a, env, ChosenId(t, regDto, env));
    RegisterIsApply(t, h, regDto, a, env);
    ApplyEffects(t.(nextAdviserId := o.tables.nextAdviserId), b);
  }

  /**
   * Every other registration takes the next id of the sequence, adds the
   * adviser row with the controller's status and adds its contacts row.
   */
  lemma FreshAdviser(t: Tables, h: Hasher, regDto: RegistrationDto, a: RegAttrs, env: RegEnv)
    requires !regDto.reg_type.Staff?
    requires Register(t, h, regDto, a, env).result.Success?
    ensures var o := Register(t, h, regDto, a, env); var id := t.nextAdviserId;
      && o.tables.credentials[regDto.user_id].adviser_id == id
      && o.tables.adviser.Keys == t.adviser.Keys + {id}
      && o.tables.adviser[id].status == a.status
      && o.tables.adviser[id].intermediary_type == a.intermediary_type
      && o.tables.adviser[id].legal_entity_type == a.legal_entity_type
      && (forall k :: k in t.adviser && k != id ==> o.tables.adviser[k] == t.adviser[k])
      && o.tables.contacts.Keys == t.contacts.Keys + {id}
      && o.result.data.adviser == Some(o.tables.adviser[id])
      && o.result.data.contacts == Some(o.tables.contacts[id])
  {
    var o := Register(t, h, regDto, a, env);
    var b := BundleFor(h, regDto, a, env, ChosenId(t, regDto, env));
    RegisterIsApply(t, h, regDto, a, env);
    ApplyEffects(t.(nextAdviserId := o.tables.nextAdviserId), b);
  }

  /**
   * On a consistent database with nothing throwing, a registration succeeds
   * exactly when the user_id is free and, for staff, the named adviser admin
   * exists, is one, and is not the user.
   */
  lemma RegisterSucceedsIff(t: Tables, h: Hasher, regDto: RegistrationDto, a: RegAttrs, env: RegEnv)
    requires t.Valid() && env.fault.None?
    ensures Register(t, h, regDto, a, env).result.Success? <==>
      && regDto.user_id !in t.credentials
      && (regDto.reg_type.Staff? ==>
            var parent := regDto.reg_type.adviser_user_id;
            && parent.Some? && ToLower(parent.value) != ToLower(regDto.user_id)
            && parent.value in t.credentials
            && t.credentials[parent.value].credential_type == adviser_admin)
  {
    var b := BundleFor(h, regDto, a, env, ChosenId(t, regDto, env));
    if regDto.user_id !in t.credentials {
      assert regDto.user_id !in t.person && regDto.user_id !in t.nonperson;
      if !regDto.reg_type.Staff? {
        assert InsertError(t.(nextAdviserId := t.nextAdviserId + 1), b, env.fault).None?;
      }
    }
  }

  /** Inserting a well-formed bundle for a free user_id keeps the database consistent. */
  lemma ApplyKeepsValid(t: Tables, b: Bundle)
    requires t.Valid()
    requires b.credential.user_id !in t.credentials
    requires b.adviser.Some? ==> 1 <= b.adviser.value.id < t.nextAdviserId
    requires b.contacts.Some? ==> b.adviser.Some? && b.contacts.value.adviser_id == b.adviser.value.id
    requires b.credential.adviser_id in t.adviser || (b.adviser.Some? && b.credential.adviser_id == b.adviser.value.id)
    requires b.entity.PersonEntity? ==> b.entity.person.user_id == b.credential.user_id
    requires b.entity.NonPersonEntity? ==> b.entity.nonperson.user_id == b.credential.user_id
    ensures Apply(t, b).Valid()
  {
    ApplyEffects(t, b);
  }

  /** A registration keeps the database consistent, whether it commits or rolls back. */
  lemma RegisterPreservesValid(t: Tables, h: Hasher, regDto: RegistrationDto, a: RegAttrs, env: RegEnv)
    requires t.Valid()
    ensures Register(t, h, regDto, a, env).tables.Valid()
  {
    var o := Register(t, h, regDto, a, env);
    var t1 := t.(nextAdviserId := o.tables.nextAdviserId);
    assert t1.Valid();
    if o.result.Success? {
      var b := BundleFor(h, regDto, a, env, ChosenId(t, regDto, env));
      RegisterIsApply(t, h, regDto, a, env);
      if regDto.reg_type.Staff? {
        StaffJoinsParent(t, h, regDto, a, env);
      }
      ApplyKeepsValid(t1, b);
    } else {
      assert o.tables == t1;
    }
  }

  // ---------------------------------------------------------------------------
  // Admin notification after COMMIT
  // ---------------------------------------------------------------------------

  /**
   * What the best-effort notification sees: the active admins' user_ids (or
   * `None` if that lookup fails), the verification code generated, whether
   * saving the code throws, and the client URL.
   */
  datatype NotifyEnv = NotifyEnv(activeAdmins: Option<seq<string>>, code: string, saveThrows: bool, clientUrl: string)

  /** A mail handed to the mail API: recipients and body. */
  datatype Mail = Mail(to: string, body: string)

  /**
   * The mail `createAdviser` sends after COMMIT. Any failure in here is
   * caught and logged, so it never changes the registration's result.
   */
  function Notification(status: AdviserStatus, committed: bool, n: NotifyEnv): (m: Option<Mail>)
    ensures m.Some? ==> committed && status == Pending_Approval
    ensures m.Some? ==> n.activeAdmins.Some? && m.value.to == Join(n.activeAdmins.value, ';')
    ensures m.Some? ==> m.value.body == n.clientUrl + "/set-password/" + n.code
  {
    if committed && status == Pending_Approval && n.activeAdmins.Some? && !n.saveThrows then
      Some(Mail(Join(n.activeAdmins.value, ';'), n.clientUrl + "/set-password/" + n.code))
    else None
  }

  /** The recipients can be read back out of the mail's `to` field. */
  lemma RecipientsRecoverable(status: AdviserStatus, n: NotifyEnv)
    requires Notification(status, true, n).Some?
    requires |n.activeAdmins.value| >= 1
    requires forall k, j :: 0 <= k < |n.activeAdmins.value| && 0 <= j < |n.activeAdmins.value[k]| ==> n.activeAdmins.value[k][j] != ';'
    ensures Split(Notification(status, true, n).value.to, ';') == n.activeAdmins.value
  {
    SplitJoin(n.activeAdmins.value, ';');
  }

  // ---------------------------------------------------------------------------
  // createAdviser
  // ---------------------------------------------------------------------------

  /**
   * The first stage of `createAdviser`: staff look up their parent adviser
   * admin; everyone else inserts the adviser row, drawing its id from the
   * sequence.
   */
  method ResolveAdviserId(db: Store, regDto: RegistrationDto, a: RegAttrs, env: RegEnv)
    returns (adviser_id: int, failed: Option<TxError>, result1: Option<AdviserRow>)
    modifies db
    ensures regDto.reg_type.Staff? ==>
      var c := StaffAdviserId(old(db.Snapshot()), regDto.user_id, regDto.reg_type.adviser_user_id, env.fault);
      && db.Snapshot() == old(db.Snapshot())
      && failed == (if c.Thrown? then Some(c.error) else None)
      && (c.Ok? ==> adviser_id == c.adviser_id)
      && result1.None?
    ensures !regDto.reg_type.Staff? ==>
      && adviser_id == old(db.nextAdviserId)
      && failed == (if env.fault == Some(AdviserInsert) then Some(TxError(500, DatabaseErrorMessage)) else None)
      && (failed.Some? ==> db.Snapshot() == old(db.Snapshot()).(nextAdviserId := adviser_id + 1))
      && (failed.None? ==> result1 == Some(NewAdviserRow(adviser_id, regDto.adviser, a)))
      && (failed.None? ==> db.Snapshot() == old(db.Snapshot()).(nextAdviserId := adviser_id + 1,
                                                                 adviser := old(db.adviser)[adviser_id := result1.value]))
  {
    adviser_id := -1; // canary value
    failed := None;
    result1 := None;
    if regDto.reg_type.Staff? {
      var parent := regDto.reg_type.adviser_user_id;
      if parent.None? {
        failed := Some(TxError(500, TypeErrorMessage));
      } else if ToLower(parent.value) == ToLower(regDto.user_id) {
        failed := Some(TxError(400, SameValueMessage(parent.value)));
      } else if env.fault == Some(ParentLookup) {
        failed := Some(TxError(500, DatabaseErrorMessage));
      } else {
        var searchRes := GetCredentials(db.Snapshot(), parent.value);
        if searchRes.Success? {
          if searchRes.data.credential_type != adviser_admin {
            failed := Some(TxError(400, NotAdviserAdminMessage(parent.value)));
          } else {
            adviser_id := searchRes.data.adviser_id;
          }
        } else {
          failed := Some(TxError(if searchRes.code == Some(NoContent) then 404 else 500,
                                 searchRes.message.GetOr("Error processing adviser")));
        }
      }
    } else {
      // INSERT INTO adviser: the id is drawn from the sequence first
      adviser_id := db.nextAdviserId;
      db.nextAdviserId := db.nextAdviserId + 1;
      if env.fault == Some(AdviserInsert) {
        failed := Some(TxError(500, DatabaseErrorMessage));
      } else {
        var row := NewAdviserRow(adviser_id, regDto.adviser, a);
        db.adviser := db.adviser[adviser_id := row];
        result1 := Some(row);
      }
    }
  }

  /**
   * The second stage of `createAdviser`, once the adviser id is known:
   * hash, insert the credential, the contacts (not for staff) and the
   * entity, and COMMIT.
   */
  method InsertRows(db: Store, h: Hasher, regDto: RegistrationDto, a: RegAttrs, env: RegEnv, adviser_id: int)
    returns (failed: Option<TxError>)
    modifies db
    ensures var b := BundleFor(h, regDto, a, env, adviser_id);
      && db.nextAdviserId == old(db.nextAdviserId)
      && failed == InsertError(old(db.Snapshot()), b, env.fault)
      && (failed.None? ==> db.Snapshot() == Apply(old(db.Snapshot()), b.(adviser := None)))
  {
    var user_id := regDto.user_id;
    var body := regDto.adviser;
    failed := None;

    var digest := "";
    if env.fault == Some(Hashing) {
      failed := Some(TxError(500, DatabaseErrorMessage));
      return;
    }
    digest := h.hash(DigestSource(regDto, env));

    // INSERT INTO credentials
    if env.fault == Some(CredentialsInsert) {
      failed := Some(TxError(500, DatabaseErrorMessage));
      return;
    } else if user_id in db.credentials {
      failed := Some(TxError(500, DuplicateKeyMessage));
      return;
    }
    db.credentials := db.credentials[user_id := NewCredentialRow(regDto, adviser_id, digest, a)];

    // INSERT INTO adviser_contacts, skipped for staff
    if !regDto.reg_type.Staff? {
      if env.fault == Some(ContactsInsert) {
        failed := Some(TxError(500, DatabaseErrorMessage));
        return;
      }
      db.contacts := db.contacts[adviser_id := NewContactsRow(adviser_id, body)];
    }

    // INSERT INTO adviser_person or adviser_nonperson
    var entity := NewEntity(regDto, adviser_id, a, env.now);
    if env.fault == Some(EntityInsert) {
      failed := Some(TxError(500, DatabaseErrorMessage));
      return;
    } else if entity.PersonEntity? {
      if user_id in db.person {
        failed := Some(TxError(500, DuplicateKeyMessage));
        return;
      }
      db.person := db.person[user_id := entity.person];
    } else {
      if user_id in db.nonperson {
        failed := Some(TxError(500, DuplicateKeyMessage));
        return;
      }
      db.nonperson := db.nonperson[user_id := entity.nonperson];
    }

    // COMMIT
    if env.fault == Some(Commit) {
      failed := Some(TxError(500, DatabaseErrorMessage));
    }
  }

  /**
   * `createAdviser`: BEGIN, the two stages, then COMMIT and the best-effort
   * admin notification, or ROLLBACK of every row (the sequence keeps the id
   * it handed out).
   */
  method CreateAdviser(db: Store, h: Hasher, regDto: RegistrationDto, a: RegAttrs, env: RegEnv, notify: NotifyEnv)
    returns (r: Result<Created, string>, mail: Option<Mail>)
    modifies db
    ensures db.Snapshot() == Register(old(db.Snapshot()), h, regDto, a, env).tables
    ensures r == Register(old(db.Snapshot()), h, regDto, a, env).result
    ensures mail == Notification(a.status, r.Success?, notify)
    ensures old(db.Valid()) ==> db.Valid()
  {
    // BEGIN
    var saved := db.Snapshot();
    var adviser_id, failed, result1 := ResolveAdviserId(db, regDto, a, env);
    ghost var b := BundleFor(h, regDto, a, env, adviser_id);
    ghost var t1 := saved.(nextAdviserId := db.nextAdviserId);
    if failed.None? {
      assert Apply(db.Snapshot(), b.(adviser := None)) == Apply(t1, b);
      failed := InsertRows(db, h, regDto, a, env, adviser_id);
    }

    if failed.Some? {
      // ROLLBACK
      db.Rollback(saved);
      r := Failure(Some(failed.value.code), Some(failed.value.message), failed.value.message);
      mail := None;
      RegisterKeepsStoreValid(saved, h, regDto, a, env);
      return;
    }

    // COMMIT done; then the best-effort notification
    mail := Notification(a.status, true, notify);
    var credentials := CredentialSummary(regDto.user_id, regDto.adviser.primary_email, regDto.adviser.mobile_no,
                                         adviser_id, a.credential_type);
    var result3 := if regDto.reg_type.Staff? then None else Some(NewContactsRow(adviser_id, regDto.adviser));
    r := Success(Some(200), Created(result1, credentials, result3, NewEntity(regDto, adviser_id, a, env.now)));
    RegisterKeepsStoreValid(saved, h, regDto, a, env);
  }

  /** RegisterPreservesValid, phrased for a store that may not have been valid. */
  lemma RegisterKeepsStoreValid(t: Tables, h: Hasher, regDto: RegistrationDto, a: RegAttrs, env: RegEnv)
    ensures t.Valid() ==> Register(t, h, regDto, a, env).tables.Valid()
  {
    if t.Valid() {
      RegisterPreservesValid(t, h, regDto, a, env);
    }
  }

  // ---------------------------------------------------------------------------
  // setPassword
  // ---------------------------------------------------------------------------

  function UpdateFailedMessage(user_id: string): string {
    "Update failed. No matching records with id " + user_id
  }

  /**
   * `setPassword`: the digest of `password` replaces the stored digest of
   * `user_id`. `fault` stands for argon2 or the UPDATE throwing.
   */
  function SetDigest(t: Tables, h: Hasher, user_id: string, password: string, fault: bool): (o: Outcome<int>)
    ensures o.result.Success? <==> !fault && user_id in t.credentials
    ensures o.result.Success? ==> o.result == Success(Some(200), 1)
    ensures o.result.Failure? ==> o.tables == t
    ensures o.result.Failure? && !fault ==> o.result.code == Some(400) && o.result.message == Some(UpdateFailedMessage(user_id))
    ensures o.result.Failure? && fault ==> o.result.code == Some(500)
    // only the digest of that one credential changes
    ensures o.tables.credentials.Keys == t.credentials.Keys
    ensures forall u :: u in t.credentials && u != user_id ==> o.tables.credentials[u] == t.credentials[u]
    ensures o.result.Success? ==> o.tables.credentials[user_id] == t.credentials[user_id].(digest := h.hash(password))
    ensures o.tables.(credentials := t.credentials) == t
  {
    if fault then Outcome(t, Failure(Some(500), Some(DatabaseErrorMessage), DatabaseErrorMessage))
    else if user_id in t.credentials then
      Outcome(t.(credentials := t.credentials[user_id := t.credentials[user_id].(digest := h.hash(password))]),
              Success(Some(200), 1))
    else Outcome(t, Failure(Some(400), Some(UpdateFailedMessage(user_id)), UpdateFailedMessage(user_id)))
  }

  /** Setting a password keeps the database consistent. */
  lemma SetDigestPreservesValid(t: Tables, h: Hasher, user_id: string, password: string, fault: bool)
    requires t.Valid()
    ensures SetDigest(t, h, user_id, password, fault).tables.Valid()
  {
    var o := SetDigest(t, h, user_id, password, fault);
    assert forall u :: u in o.tables.credentials ==> o.tables.credentials[u].adviser_id == t.credentials[u].adviser_id;
  }

  method SetPassword(db: Store, h: Hasher, user_id: string, password: string, fault: bool) returns (r: Result<int, string>)
    modifies db
    ensures db.Snapshot() == SetDigest(old(db.Snapshot()), h, user_id, password, fault).tables
    ensures r == SetDigest(old(db.Snapshot()), h, user_id, password, fault).result
    ensures old(db.Valid()) ==> db.Valid()
  {
    if db.Valid() {
      SetDigestPreservesValid(db.Snapshot(), h, user_id, password, fault);
    }
    if fault {
      r := Failure(Some(500), Some(DatabaseErrorMessage), DatabaseErrorMessage);
      return;
    }
    var digest := h.hash(password);
    // UPDATE credentials SET digest WHERE user_id: at most one row, the key
    var rowCount := 0;
    if user_id in db.credentials {
      db.credentials := db.credentials[user_id := db.credentials[user_id].(digest := digest)];
      rowCount := 1;
    }
    if rowCount > 0 {
      r := Success(Some(200), rowCount);
    } else {
      r := Failure(Some(400), Some(UpdateFailedMessage(user_id)), UpdateFailedMessage(user_id));
    }
  }

  // ---------------------------------------------------------------------------
  // getProfile, checkIfAdviserExists, signIn
  // ---------------------------------------------------------------------------

  /** A user's credential row and `all_advisers` row. */
  datatype Profile = Profile(credentials: CredentialRow, adviser: AdviserView)

  const ProfileErrorMessage := "An error occurred loading profiles"

  /** The error a failed lookup contributes: its `errorData`, when that is truthy. */
  function LookupErrors<T>(r: Result<T, string>): (e: seq<string>)
    ensures |e| <= 1
    ensures e != [] <==> r.Failure? && r.errorData != ""
  {
    if r.Failure? && r.errorData != "" then [r.errorData] else []
  }

  /**
   * `getProfile` as written: the errors are "pushed" with `errors.push[...]`,
   * a property read that never calls `push`, so the error list is always empty.
   */
  function GetProfileAsWritten(t: Tables, user_id: string): (r: Result<Profile, seq<string>>)
    ensures r.Success? <==> GetCredentials(t, user_id).Success? && GetAdviser(t, user_id).Success?
    ensures r.Failure? ==> r.errorData == []
  {
    var credentials := GetCredentials(t, user_id);
    var adviser := GetAdviser(t, user_id);
    if credentials.Success? && adviser.Success? then
      Success(Some(200), Profile(credentials.data, adviser.data))
    else
      Failure(Some(500), Some(ProfileErrorMessage), [])
  }

  /** `getProfile` with the lookups' errors collected, as the code evidently intends. */
  function GetProfile(t: Tables, user_id: string): (r: Result<Profile, seq<string>>)
    ensures r.Success? <==> user_id in t.credentials && t.credentials[user_id].adviser_id in t.adviser
    ensures r.Success? ==> r.data.credentials == t.credentials[user_id]
    ensures r.Success? ==> r.data.adviser.credentials == t.credentials[user_id]
    ensures r.Success? ==> r.data.adviser.adviser == t.adviser[t.credentials[user_id].adviser_id]
    ensures r.Failure? ==> r.code == Some(500) && 1 <= |r.errorData| <= 2
    ensures r.Failure? ==> (user_id in t.credentials <==> |r.errorData| == 1)
  {
    var credentials := GetCredentials(t, user_id);
    var adviser := GetAdviser(t, user_id);
    if credentials.Success? && adviser.Success? then
      Success(Some(200), Profile(credentials.data, adviser.data))
    else
      Failure(Some(500), Some(ProfileErrorMessage), LookupErrors(credentials) + LookupErrors(adviser))
  }

  /**
   * The two differ only in the error list: they succeed on the same users with
   * the same profile, and the written one reports no reason where the
   * corrected one reports at least one.
   */
  lemma ProfileErrorsDropped(t: Tables, user_id: string)
    ensures GetProfileAsWritten(t, user_id).Success? == GetProfile(t, user_id).Success?
    ensures GetProfile(t, user_id).Success? ==> GetProfileAsWritten(t, user_id) == GetProfile(t, user_id)
    ensures GetProfile(t, user_id).Failure? ==>
      GetProfileAsWritten(t, user_id).errorData == [] && GetProfile(t, user_id).errorData != []
  {
  }

  /** The unknown user "x" on the empty database: no reason as written, one per lookup corrected. */
  lemma ProfileErrorsDroppedExample()
    ensures GetProfileAsWritten(Empty(), "x").errorData == []
    ensures GetProfile(Empty(), "x").errorData == [NotFoundMessage, NotFoundMessage]
  {
  }

  /** `checkIfAdviserExists`: whether the `all_advisers` lookup succeeds. */
  function CheckIfAdviserExists(t: Tables, user_id: string): (b: bool)
    ensures b ==> user_id in t.credentials
  {
    GetAdviser(t, user_id).Success?
  }

  /** On a consistent database an adviser exists exactly when it has a credential. */
  lemma AdviserExistsIffCredential(t: Tables, user_id: string)
    requires t.Valid()
    ensures CheckIfAdviserExists(t, user_id) <==> user_id in t.credentials
  {
  }

  /** The `data` of a successful sign-in. */
  datatype SignInData = SignInData(token: Token, names: Option<string>, email: Option<string>)

  const PasswordInvalidMessage := "Password is invalid"
  const DigestErrorMessage := "Error computing digest"

  /**
   * `signIn`: the password is checked against the stored digest and, if it
   * matches, a token is signed whose subject is the user_id and whose role is
   * the credential type. `profile.data.adviser_user` is never set, so the
   * name and mobile number always come from the adviser row.
   */
  function SignIn(t: Tables, h: Hasher, cfg: JwtConfig, user_id: string, password: string): (r: Result<SignInData, string>)
    ensures r.Success? <==> GetProfile(t, user_id).Success? && h.verify(t.credentials[user_id].digest, password)
    ensures r.Failure? ==> (r.code == Some(403) <==> GetProfile(t, user_id).Success?)
    ensures r.Failure? ==> (r.code == Some(500) <==> GetProfile(t, user_id).Failure?)
    ensures r.Success? ==>
      && r.data.token.sub == user_id
      && r.data.token.iss == cfg.issuer
      && r.data.token.role == t.credentials[user_id].credential_type.Name()
      && r.data.email == t.credentials[user_id].email
  {
    var profile := GetProfileAsWritten(t, user_id);
    if profile.Success? then
      var storedDigest := profile.data.credentials.digest;
      if h.verify(storedDigest, password) then
        var credentials := profile.data.credentials;
        var adviser := profile.data.adviser;
        var payload := AdviserClaims(user_id, credentials.email, adviser.MobileNo(), adviser.Names(),
                                     credentials.credential_type.Name(), adviser);
        Success(Some(200), SignInData(Sign(payload, user_id, cfg), adviser.Names(), credentials.email))
      else Failure(Some(403), Some(PasswordInvalidMessage), PasswordInvalidMessage)
    else Failure(Some(500), Some(DigestErrorMessage), DigestErrorMessage)
  }

  /**
   * Register, set a password, sign in with it: on a consistent database with
   * argon2 sound, a registration that commits followed by a `setPassword`
   * that succeeds lets the user sign in, with a token for their role.
   */
  lemma RegisterThenSignIn(t: Tables, h: Hasher, cfg: JwtConfig, regDto: RegistrationDto, a: RegAttrs,
                                              env: RegEnv, password: string)
    requires t.Valid() && Sound(h)
    requires Register(t, h, regDto, a, env).result.Success?
    ensures var t1 := Register(t, h, regDto, a, env).tables;
            var t2 := SetDigest(t1, h, regDto.user_id, password, false).tables;
      && SetDigest(t1, h, regDto.user_id, password, false).result.Success?
      && SignIn(t2, h, cfg, regDto.user_id, password).Success?
      && SignIn(t2, h, cfg, regDto.user_id, password).data.token.role == a.credential_type.Name()
  {
    var t1 := Register(t, h, regDto, a, env).tables;
    RegisterPreservesValid(t, h, regDto, a, env);
    RegisterWrites(t, h, regDto, a, env);
    SetDigestPreservesValid(t1, h, regDto.user_id, password, false);
    var t2 := SetDigest(t1, h, regDto.user_id, password, false).tables;
    assert h.verify(h.hash(password), password);
    assert t2.credentials[regDto.user_id].adviser_id in t2.adviser;
  }

  /** A password supplied with the registration signs in straight away. */
  lemma RegisteredPasswordSignsIn(t: Tables, h: Hasher, cfg: JwtConfig, regDto: RegistrationDto,
                                                     a: RegAttrs, env: RegEnv)
    requires t.Valid() && Sound(h) && regDto.HasPassword()
    requires Register(t, h, regDto, a, env).result.Success?
    ensures SignIn(Register(t, h, regDto, a, env).tables, h, cfg, regDto.user_id, regDto.password.value).Success?
  {
    var t1 := Register(t, h, regDto, a, env).tables;
    RegisterPreservesValid(t, h, regDto, a, env);
    RegisterWrites(t, h, regDto, a, env);
    assert h.verify(h.hash(regDto.password.value), regDto.password.value);
    assert t1.credentials[regDto.user_id].adviser_id in t1.adviser;
  }
}
