/**
 * Request shapes: the registration union of
 * src/app/modules/v1/advisers/dto/controllers/request/register.dto.ts, the
 * status update of src/app/shared/dto/update.dto.ts and the admin record
 * handed to `createAdmin`. A field that may be absent from the request body
 * is an `Option`: `None` is JavaScript's `undefined`.
 */
module Dto {
  import opened Wrappers

  /** The adviser part of a registration: the request body the controllers forward. */
  datatype AdviserBody = AdviserBody(
    kra_pin: Option<string>,
    account_no: Option<string>,
    partner_number: Option<string>,
    load_date: Option<string>,
    country: Option<string>,
    primary_email: Option<string>,
    mobile_no: Option<string>,
    secondary_mobile: Option<string>,
    secondary_email: Option<string>,
    primary_phone: Option<string>,
    secondary_phone: Option<string>,
    primary_address: Option<string>,
    secondary_address: Option<string>,
    city: Option<string>,
    secondary_city: Option<string>,
    id_number: Option<string>,
    id_type: Option<string>,
    date_of_birth: Option<string>,
    first_name: Option<string>,
    last_name: Option<string>,
    full_names: Option<string>,
    gender: Option<string>,
    adviser_user_id: Option<string>,
    // not a registration field, but the staff handler prints it from the body
    user_id: Option<string>)

  /** The `reg_type` tag and its variant data; only staff carries `adviser_user_id`. */
  datatype RegKind =
    | Migrated
    | Applicant
    | Staff(adviser_user_id: Option<string>)

  datatype RegistrationDto = RegistrationDto(
    reg_type: RegKind,
    user_id: string,
    other_names: string,
    password: Option<string>,
    adviser: AdviserBody)
  {
    /** JavaScript truthiness of `regDto.password`. */
    predicate HasPassword() {
      password.Some? && password.value != ""
    }
  }

  /** The status values the `UpdateDto` union admits. */
  datatype UpdateStatus = Active | Inactive {
    function Name(): string {
      match this
      case Active => "Active"
      case Inactive => "Inactive"
    }
  }

  datatype UpdateDto = UpdateDto(user_id: string, status: UpdateStatus)

  /** The admin record `createAdmin` receives. */
  datatype AdminDto = AdminDto(
    user_id: string,
    email: Option<string>,
    mobile_no: Option<string>,
    password: string)
}
