/**
 * The relational store as in-memory tables. Rows mirror the columns the
 * services insert into `credentials`, `adviser`, `adviser_contacts`,
 * `adviser_person`, `adviser_nonperson` and `admins`. The tables keyed by
 * `user_id` treat a repeated key as an insert error, standing for a
 * uniqueness constraint; `adviser` rows get ids from a sequence that, as in
 * Postgres, is not rolled back.
 */
module Database {
  import opened Wrappers
  import opened Constants
  import opened Results

  datatype CredentialRow = CredentialRow(
    user_id: string,
    email: Option<string>,
    mobile_no: Option<string>,
    adviser_id: int,
    digest: string,
    credential_type: CredentialType,
    status: string,
    rbac: RBAC)

  datatype AdviserRow = AdviserRow(
    id: int,
    kra_pin: Option<string>,
    account_no: Option<string>,
    partner_number: Option<string>,
    intermediary_type: IntermediaryType,
    legal_entity_type: LegalEntityType,
    country: Option<string>,
    status: AdviserStatus)

  datatype ContactsRow = ContactsRow(
    adviser_id: int,
    mobile_no: Option<string>,
    secondary_mobile_no: Option<string>,
    primary_email: Option<string>,
    secondary_email: Option<string>,
    fixed_phone_no: Option<string>,
    secondary_fixed_phone_no: Option<string>,
    primary_address: Option<string>,
    secondary_address: Option<string>,
    city: Option<string>,
    secondary_city: Option<string>,
    country: Option<string>)

  datatype PersonRow = PersonRow(
    adviser_id: int,
    user_id: string,
    id_number: Option<string>,
    id_type: Option<string>,
    date_of_birth: Option<string>,
    first_name: Option<string>,
    last_name: Option<string>,
    full_names: Option<string>,
    gender: Option<string>)

  datatype NonPersonRow = NonPersonRow(
    adviser_id: int,
    user_id: string,
    id_number: Option<string>,
    id_type: Option<string>,
    date_of_incorporation: string,
    names: string)

  /** `status` is `None` while the column holds its default. */
  datatype AdminRow = AdminRow(
    user_id: string,
    email: Option<string>,
    mobile_no: Option<string>,
    digest: string,
    status: Option<string>)

  /** The one entity row of an adviser: a person or a non-person. */
  datatype Entity = PersonEntity(person: PersonRow) | NonPersonEntity(nonperson: NonPersonRow)

  /** A row of the `all_advisers` view: a credential joined with its adviser. */
  datatype AdviserView = AdviserView(
    credentials: CredentialRow,
    adviser: AdviserRow,
    contacts: Option<ContactsRow>,
    entity: Option<Entity>)
  {
    /** The display name: the person's full names or the non-person's name. */
    function Names(): Option<string> {
      match entity
      case Some(PersonEntity(p)) => p.full_names
      case Some(NonPersonEntity(n)) => Some(n.names)
      case None => None
    }

    function MobileNo(): Option<string> {
      if contacts.Some? then contacts.value.mobile_no else None
    }
  }

  /** A snapshot of every table, plus the next value of the adviser id sequence. */
  datatype Tables = Tables(
    credentials: map<string, CredentialRow>,
    adviser: map<int, AdviserRow>,
    contacts: map<int, ContactsRow>,
    person: map<string, PersonRow>,
    nonperson: map<string, NonPersonRow>,
    admins: map<string, AdminRow>,
    nextAdviserId: int)
  {
    /**
     * Keys agree with the rows' key columns, adviser ids come from the
     * sequence, credentials and contacts belong to advisers, and every entity
     * row belongs to exactly one credential.
     */
    ghost predicate Valid() {
      && nextAdviserId >= 1
      && (forall u :: u in credentials ==> credentials[u].user_id == u)
      && (forall u :: u in credentials ==> credentials[u].adviser_id in adviser)
      && (forall u :: u in person ==> person[u].user_id == u)
      && (forall u :: u in nonperson ==> nonperson[u].user_id == u)
      && (forall u :: u in admins ==> admins[u].user_id == u)
      && (forall k :: k in adviser ==> 1 <= k < nextAdviserId && adviser[k].id == k)
      && (forall k :: k in contacts ==> k in adviser && contacts[k].adviser_id == k)
      && person.Keys <= credentials.Keys
      && nonperson.Keys <= credentials.Keys
      && person.Keys !! nonperson.Keys
    }

    /** Every table holds the same rows as in `other` (the sequence may differ). */
    predicate SameRows(other: Tables) {
      && credentials == other.credentials
      && adviser == other.adviser
      && contacts == other.contacts
      && person == other.person
      && nonperson == other.nonperson
      && admins == other.admins
    }

    /** The entity row stored for `user_id`, if any. */
    function EntityOf(user_id: string): Option<Entity> {
      if user_id in person then Some(PersonEntity(person[user_id]))
      else if user_id in nonperson then Some(NonPersonEntity(nonperson[user_id]))
      else None
    }
  }

  /** The tables after one service call, and what the call returned. */
  datatype Outcome<+T> = Outcome(tables: Tables, result: Result<T, string>)

  /** The empty database, as the migrations leave it. */
  function Empty(): (t: Tables)
    ensures t.Valid()
  {
    Tables(map[], map[], map[], map[], map[], map[], 1)
  }

  /** The code a lookup answers with when no row matches. */
  const NoContent := 204
  const NotFoundMessage := "No records found"

  /** `getCredentials`: the credential row of `user_id`. */
  function GetCredentials(t: Tables, user_id: string): (r: Result<CredentialRow, string>)
    ensures r.Success? <==> user_id in t.credentials
    ensures r.Success? ==> r.data == t.credentials[user_id]
    ensures r.Failure? ==> r.code == Some(NoContent)
  {
    if user_id in t.credentials then Success(Some(200), t.credentials[user_id])
    else Failure(Some(NoContent), Some(NotFoundMessage), NotFoundMessage)
  }

  /** `getAdviser`: the `all_advisers` row of `user_id`. */
  function GetAdviser(t: Tables, user_id: string): (r: Result<AdviserView, string>)
    ensures r.Success? <==> user_id in t.credentials && t.credentials[user_id].adviser_id in t.adviser
    ensures r.Success? ==> r.data.credentials == t.credentials[user_id]
    ensures r.Success? ==> r.data.adviser == t.adviser[t.credentials[user_id].adviser_id]
  {
    if user_id in t.credentials && t.credentials[user_id].adviser_id in t.adviser then
      var c := t.credentials[user_id];
      var contacts := if c.adviser_id in t.contacts then Some(t.contacts[c.adviser_id]) else None;
      Success(Some(200), AdviserView(c, t.adviser[c.adviser_id], contacts, t.EntityOf(user_id)))
    else Failure(Some(NoContent), Some(NotFoundMessage), NotFoundMessage)
  }

  /** `getAdminCredentials`: the admin row of `user_id`. */
  function GetAdminCredentials(t: Tables, user_id: string): (r: Result<AdminRow, string>)
    ensures r.Success? <==> user_id in t.admins
    ensures r.Success? ==> r.data == t.admins[user_id]
  {
    if user_id in t.admins then Success(None, t.admins[user_id])
    else Failure(None, None, "Unknown error occurred @getAdminCredentials with user_id = " + user_id)
  }

  /** The database connection pool: one mutable set of tables. */
  class Store {
    var credentials: map<string, CredentialRow>
    var adviser: map<int, AdviserRow>
    var contacts: map<int, ContactsRow>
    var person: map<string, PersonRow>
    var nonperson: map<string, NonPersonRow>
    var admins: map<string, AdminRow>
    var nextAdviserId: int

    function Snapshot(): Tables
      reads this
    {
      Tables(credentials, adviser, contacts, person, nonperson, admins, nextAdviserId)
    }

    ghost predicate Valid()
      reads this
    {
      Snapshot().Valid()
    }

    constructor ()
      ensures Snapshot() == Empty()
    {
      credentials, adviser, contacts := map[], map[], map[];
      person, nonperson, admins := map[], map[], map[];
      nextAdviserId := 1;
    }

    /** ROLLBACK: put every table back as it was at BEGIN; the sequence keeps its value. */
    method Rollback(saved: Tables)
      modifies this
      ensures Snapshot() == saved.(nextAdviserId := old(nextAdviserId))
    {
      credentials, adviser, contacts := saved.credentials, saved.adviser, saved.contacts;
      person, nonperson, admins := saved.person, saved.nonperson, saved.admins;
    }
  }
}
