/**
 * The string enumerations of src/app/shared/constants.ts. Every member's
 * string value equals its identifier, so each enum has a `Name` (enum to
 * string) and a `Parse` (string to enum) that invert each other.
 */
module Constants {
  import opened Wrappers

  datatype CredentialType = root | admin | adviser_admin | adviser_user | adviser_applicant {
    function Name(): string {
      match this
      case root => "root"
      case admin => "admin"
      case adviser_admin => "adviser_admin"
      case adviser_user => "adviser_user"
      case adviser_applicant => "adviser_applicant"
    }

    static function Parse(s: string): (r: Option<CredentialType>)
      ensures r.Some? ==> r.value.Name() == s
      ensures r.Some? <==> s in {"root", "admin", "adviser_admin", "adviser_user", "adviser_applicant"}
    {
      if s == "root" then Some(root)
      else if s == "admin" then Some(admin)
      else if s == "adviser_admin" then Some(adviser_admin)
      else if s == "adviser_user" then Some(adviser_user)
      else if s == "adviser_applicant" then Some(adviser_applicant)
      else None
    }
  }

  datatype RBAC = Registered | TBD {
    function Name(): string {
      match this
      case Registered => "Registered"
      case TBD => "TBD"
    }

    static function Parse(s: string): (r: Option<RBAC>)
      ensures r.Some? ==> r.value.Name() == s
      ensures r.Some? <==> s in {"Registered", "TBD"}
    {
      if s == "Registered" then Some(Registered)
      else if s == "TBD" then Some(RBAC.TBD)
      else None
    }
  }

  datatype IntermediaryType = Applicant | Migrated | TBD {
    function Name(): string {
      match this
      case Applicant => "Applicant"
      case Migrated => "Migrated"
      case TBD => "TBD"
    }

    static function Parse(s: string): (r: Option<IntermediaryType>)
      ensures r.Some? ==> r.value.Name() == s
      ensures r.Some? <==> s in {"Applicant", "Migrated", "TBD"}
    {
      if s == "Applicant" then Some(Applicant)
      else if s == "Migrated" then Some(Migrated)
      else if s == "TBD" then Some(IntermediaryType.TBD)
      else None
    }
  }

  datatype LegalEntityType = person | non_person {
    function Name(): string {
      match this
      case person => "person"
      case non_person => "non_person"
    }

    static function Parse(s: string): (r: Option<LegalEntityType>)
      ensures r.Some? ==> r.value.Name() == s
      ensures r.Some? <==> s in {"person", "non_person"}
    {
      if s == "person" then Some(person)
      else if s == "non_person" then Some(non_person)
      else None
    }
  }

  datatype AdviserStatus = Pending_Approval | Active | Approved {
    function Name(): string {
      match this
      case Pending_Approval => "Pending_Approval"
      case Active => "Active"
      case Approved => "Approved"
    }

    static function Parse(s: string): (r: Option<AdviserStatus>)
      ensures r.Some? ==> r.value.Name() == s
      ensures r.Some? <==> s in {"Pending_Approval", "Active", "Approved"}
    {
      if s == "Pending_Approval" then Some(Pending_Approval)
      else if s == "Active" then Some(AdviserStatus.Active)
      else if s == "Approved" then Some(Approved)
      else None
    }
  }

  datatype CredentialStatus = Active | Expired | Invalid | Must_Reset | Not_Set {
    function Name(): string {
      match this
      case Active => "Active"
      case Expired => "Expired"
      case Invalid => "Invalid"
      case Must_Reset => "Must_Reset"
      case Not_Set => "Not_Set"
    }

    static function Parse(s: string): (r: Option<CredentialStatus>)
      ensures r.Some? ==> r.value.Name() == s
      ensures r.Some? <==> s in {"Active", "Expired", "Invalid", "Must_Reset", "Not_Set"}
    {
      if s == "Active" then Some(CredentialStatus.Active)
      else if s == "Expired" then Some(Expired)
      else if s == "Invalid" then Some(Invalid)
      else if s == "Must_Reset" then Some(Must_Reset)
      else if s == "Not_Set" then Some(Not_Set)
      else None
    }
  }

  /** enum -> string -> enum is the identity, for every enumeration. */
  lemma RoundTrips(c: CredentialType, b: RBAC, i: IntermediaryType, l: LegalEntityType,
                   a: AdviserStatus, s: CredentialStatus)
    ensures CredentialType.Parse(c.Name()) == Some(c)
    ensures RBAC.Parse(b.Name()) == Some(b)
    ensures IntermediaryType.Parse(i.Name()) == Some(i)
    ensures LegalEntityType.Parse(l.Name()) == Some(l)
    ensures AdviserStatus.Parse(a.Name()) == Some(a)
    ensures CredentialStatus.Parse(s.Name()) == Some(s)
  {
  }

  /** The adviser roles: every credential type except the two platform roles. */
  predicate IsAdviserRole(c: CredentialType) {
    c == adviser_admin || c == adviser_user || c == adviser_applicant
  }
}
