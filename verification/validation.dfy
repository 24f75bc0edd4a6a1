/**
 * The zod request schemas of src/app/modules/admin/model/admin.validation.ts
 * and src/app/modules/v1/advisers/model/adviser.validation.ts.
 *
 * A schema is a list of field rules. zod checks every field and reports one
 * issue per failing field, in schema order: a missing field gets its
 * "required" message, a present field that is not a string its "must be
 * string" message, and a string that fails `nonBlank` its refinement
 * message. Keys the schema does not name are ignored.
 */
module Validation {
  import opened Strings

  /** A request body value: a string, or any other JSON value (with the type name zod reports). */
  datatype Json = JString(s: string) | JOther(typeName: string)

  type Body = map<string, Json>

  /** A validation issue: the field it is about and its message. */
  datatype Issue = Issue(path: string, message: string)

  datatype Rule =
    | StringField(name: string, requiredMessage: string, typeMessage: string, blankMessage: string)
    | EnumField(name: string, allowed: seq<string>)

  /** zod's own message for a failed enum: the allowed values, quoted and separated by " | ". */
  function Expected(allowed: seq<string>): string {
    if allowed == [] then ""
    else if |allowed| == 1 then "'" + allowed[0] + "'"
    else "'" + allowed[0] + "' | " + Expected(allowed[1..])
  }

  /** The issue one rule raises on a body, if any. */
  function RuleIssues(r: Rule, body: Body): (e: seq<Issue>)
    ensures |e| <= 1
    ensures e != [] ==> e[0].path == r.name
  {
    match r
    case StringField(name, requiredMessage, typeMessage, blankMessage) =>
      if name !in body then [Issue(name, requiredMessage)]
      else if !body[name].JString? then [Issue(name, typeMessage)]
      else if !NonBlank(body[name].s) then [Issue(name, blankMessage)]
      else []
    case EnumField(name, allowed) =>
      if name !in body then [Issue(name, "Required")]
      else if !body[name].JString? then
        [Issue(name, "Expected " + Expected(allowed) + ", received " + body[name].typeName)]
      else if body[name].s !in allowed then
        [Issue(name, "Invalid enum value. Expected " + Expected(allowed) + ", received '" + body[name].s + "'")]
      else []
  }

  /** What a rule accepts, stated without the messages. */
  predicate Accepts(r: Rule, body: Body) {
    && r.name in body
    && body[r.name].JString?
    && (if r.StringField? then NonBlank(body[r.name].s) else body[r.name].s in r.allowed)
  }

  /** `schema.safeParse(body)`: every issue, in schema order. */
  function Validate(schema: seq<Rule>, body: Body): (e: seq<Issue>)
    ensures |e| <= |schema|
  {
    if schema == [] then [] else RuleIssues(schema[0], body) + Validate(schema[1..], body)
  }

  /** A rule raises no issue exactly when it accepts the body. */
  lemma RuleIssuesIff(r: Rule, body: Body)
    ensures RuleIssues(r, body) == [] <==> Accepts(r, body)
  {
  }

  /** The handlers' `issues.map(err => err.message)`. */
  function Messages(e: seq<Issue>): (m: seq<string>)
    ensures |m| == |e|
    ensures forall i :: 0 <= i < |e| ==> m[i] == e[i].message
  {
    if e == [] then [] else [e[0].message] + Messages(e[1..])
  }

  /** A schema passes exactly when every one of its rules accepts the body. */
  lemma {:induction false} ValidateIff(schema: seq<Rule>, body: Body)
    ensures Validate(schema, body) == [] <==> forall i :: 0 <= i < |schema| ==> Accepts(schema[i], body)
  {
    if schema != [] {
      RuleIssuesIff(schema[0], body);
      ValidateIff(schema[1..], body);
      if Validate(schema, body) == [] {
        forall i | 0 <= i < |schema| ensures Accepts(schema[i], body) {
          if i > 0 { assert schema[i] == schema[1..][i - 1]; }
        }
      } else if RuleIssues(schema[0], body) == [] {
        var j :| 0 <= j < |schema[1..]| && !Accepts(schema[1..][j], body);
        assert schema[j + 1] == schema[1..][j];
      }
    }
  }

  /** The field names of a schema, in order. */
  function Names(schema: seq<Rule>): (r: seq<string>)
    ensures |r| == |schema|
    ensures forall i :: 0 <= i < |schema| ==> r[i] == schema[i].name
  {
    if schema == [] then [] else [schema[0].name] + Names(schema[1..])
  }

  /** Every issue is about a field the schema names. */
  lemma {:induction false} IssuesNameFields(schema: seq<Rule>, body: Body)
    ensures forall k :: 0 <= k < |Validate(schema, body)| ==> Validate(schema, body)[k].path in Names(schema)
  {
    if schema != [] {
      IssuesNameFields(schema[1..], body);
      var head := RuleIssues(schema[0], body);
      var tail := Validate(schema[1..], body);
      assert Validate(schema, body) == head + tail;
      assert Names(schema) == [schema[0].name] + Names(schema[1..]);
    }
  }

  /** A schema of string fields only passes exactly when each of its fields is a non-blank string. */
  lemma StringSchemaIff(schema: seq<Rule>, body: Body)
    requires forall i :: 0 <= i < |schema| ==> schema[i].StringField?
    ensures Validate(schema, body) == [] <==> forall f :: f in Names(schema) ==> NonBlankField(body, f)
  {
    ValidateIff(schema, body);
    if Validate(schema, body) == [] {
      forall f | f in Names(schema) ensures NonBlankField(body, f) {
        var i :| 0 <= i < |schema| && Names(schema)[i] == f;
        assert Accepts(schema[i], body);
      }
    } else {
      var i :| 0 <= i < |schema| && !Accepts(schema[i], body);
      assert Names(schema)[i] in Names(schema);
    }
  }

  /** A present, non-blank string field. */
  predicate NonBlankField(body: Body, name: string) {
    name in body && body[name].JString? && NonBlank(body[name].s)
  }

  /** A string field whose messages follow the "<name> ... required / must be string" convention. */
  function Field(name: string, requiredMessage: string, blankMessage: string): Rule {
    StringField(name, requiredMessage, name + " must be string", blankMessage)
  }

  // admin.validation.ts

  const RootSignInSchema: seq<Rule> := [
    Field("user_id", "user_id is required", "user_id cannot be blank"),
    Field("secret", "secret required", "secret cannot be blank")
  ]

  const AdminSignInSchema: seq<Rule> := [
    Field("user_id", "user_id is required", "user_id cannot be blank"),
    Field("password", "password required", "password cannot be blank")
  ]

  const AdminStatusValues: seq<string> := ["Active", "Inactive", "PasswordReset"]

  const AdminStatusUpdateSchema: seq<Rule> := [
    Field("user_id", "user_id required", "user_id cannot be blank"),
    EnumField("status", AdminStatusValues)
  ]

  const DpAdviserStatusUpdateSchema: seq<Rule> := [
    Field("user_id", "user_id required", "user_id cannot be blank"),
    Field("status", "status required", "status cannot be blank")
  ]

  // adviser.validation.ts (the blank messages of intermediary_type, account_no
  // and primary_address are the source's own)

  const DpAdviserSchema: seq<Rule> := [
    Field("city", "city is required", "city cannot be blank"),
    Field("country", "country required", "country cannot be blank"),
    Field("date_of_birth", "date_of_birth required", "date_of_birth cannot be blank"),
    Field("full_names", "full_names required", "full_names cannot be blank"),
    Field("id_number", "id_number required", "id_number cannot be blank"),
    Field("id_type", "id_type required", "id_type cannot be blank"),
    Field("partner_number", "partner_number required", "partner_number cannot be blank"),
    Field("intermediary_type", "intermediary_type required", "status cannot be blank"),
    Field("kra_pin", "kra_pin required", "kra_pin cannot be blank"),
    Field("account_no", "account_no required", "status cannot be blank"),
    Field("primary_address", "primary_address required", "account_no cannot be blank"),
    Field("primary_email", "primary_email required", "primary_email cannot be blank"),
    Field("mobile_no", "mobile_no required", "mobile_no cannot be blank")
  ]

  const SignInSchema: seq<Rule> := [
    Field("user_id", "user_id required", "user_id cannot be blank"),
    Field("password", "password required", "password cannot be blank")
  ]

  const AdviserCreateCredsSchema: seq<Rule> := [
    Field("user_id", "user_id required", "user_id cannot be blank"),
    Field("password", "password required", "password cannot be blank"),
    Field("otp", "otp required", "otp cannot be blank")
  ]

  /** The thirteen fields `dpAdviser` requires. */
  const DpAdviserFields: seq<string> := [
    "city", "country", "date_of_birth", "full_names", "id_number", "id_type", "partner_number",
    "intermediary_type", "kra_pin", "account_no", "primary_address", "primary_email", "mobile_no"
  ]

  /** `dpAdviser` accepts exactly the bodies whose thirteen fields are all non-blank strings. */
  lemma DpAdviserIff(body: Body)
    ensures Validate(DpAdviserSchema, body) == [] <==> forall f :: f in DpAdviserFields ==> NonBlankField(body, f)
  {
    var schema := DpAdviserSchema;
    assert forall i | 0 <= i < |schema| :: schema[i].StringField? && schema[i].name == DpAdviserFields[i];
    assert Names(schema) == DpAdviserFields;
    StringSchemaIff(schema, body);
  }

  /** `rootSignIn` needs non-blank `user_id` and `secret`. */
  lemma RootSignInIff(body: Body)
    ensures Validate(RootSignInSchema, body) == [] <==> NonBlankField(body, "user_id") && NonBlankField(body, "secret")
  {
    assert Names(RootSignInSchema) == ["user_id", "secret"];
    StringSchemaIff(RootSignInSchema, body);
  }

  /** `adminSignIn` and the adviser `signIn` need non-blank `user_id` and `password`. */
  lemma SignInIff(body: Body)
    ensures Validate(AdminSignInSchema, body) == [] <==> NonBlankField(body, "user_id") && NonBlankField(body, "password")
    ensures Validate(SignInSchema, body) == [] <==> NonBlankField(body, "user_id") && NonBlankField(body, "password")
  {
    assert Names(AdminSignInSchema) == ["user_id", "password"];
    assert Names(SignInSchema) == ["user_id", "password"];
    StringSchemaIff(AdminSignInSchema, body);
    StringSchemaIff(SignInSchema, body);
  }

  /** `dpAdviserStatusUpdate` needs a non-blank `user_id` and any non-blank `status`. */
  lemma DpAdviserStatusUpdateIff(body: Body)
    ensures Validate(DpAdviserStatusUpdateSchema, body) == [] <==> NonBlankField(body, "user_id") && NonBlankField(body, "status")
  {
    assert Names(DpAdviserStatusUpdateSchema) == ["user_id", "status"];
    StringSchemaIff(DpAdviserStatusUpdateSchema, body);
  }

  /** `adviserCreateCreds` needs non-blank `user_id`, `password` and `otp`. */
  lemma AdviserCreateCredsIff(body: Body)
    ensures Validate(AdviserCreateCredsSchema, body) == [] <==>
      NonBlankField(body, "user_id") && NonBlankField(body, "password") && NonBlankField(body, "otp")
  {
    assert Names(AdviserCreateCredsSchema) == ["user_id", "password", "otp"];
    StringSchemaIff(AdviserCreateCredsSchema, body);
  }

  /** `adminStatusUpdate` takes a non-blank `user_id` and one of three statuses, spelled exactly. */
  lemma AdminStatusUpdateIff(body: Body)
    ensures Validate(AdminStatusUpdateSchema, body) == [] <==>
      && NonBlankField(body, "user_id")
      && "status" in body && body["status"].JString?
      && (body["status"].s == "Active" || body["status"].s == "Inactive" || body["status"].s == "PasswordReset")
  {
    var schema := AdminStatusUpdateSchema;
    assert Validate(schema, body) == RuleIssues(schema[0], body) + RuleIssues(schema[1], body) by {
      assert schema[1..][1..] == [];
    }
    RuleIssuesIff(schema[0], body);
    RuleIssuesIff(schema[1], body);
  }

  /** Whether a schema gives "missing" and "not a string" different messages for each string field. */
  predicate MessagesDistinct(schema: seq<Rule>) {
    forall i :: 0 <= i < |schema| && schema[i].StringField? ==> schema[i].requiredMessage != schema[i].typeMessage
  }

  /** A missing field and a field of the wrong type are told apart, in every schema. */
  lemma MissingAndWrongTypeDiffer(schema: seq<Rule>, i: int, typeName: string)
    requires schema in [RootSignInSchema, AdminSignInSchema, AdminStatusUpdateSchema, DpAdviserStatusUpdateSchema,
                        DpAdviserSchema, SignInSchema, AdviserCreateCredsSchema]
    requires 0 <= i < |schema|
    ensures RuleIssues(schema[i], map[]) != RuleIssues(schema[i], map[schema[i].name := JOther(typeName)])
  {
    assert MessagesDistinct(schema);
    var r := schema[i];
    if r.EnumField? {
      assert RuleIssues(r, map[r.name := JOther(typeName)])[0].message[..1] == "E";
    }
  }
}
