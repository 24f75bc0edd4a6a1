/**
 * src/app/middleware/authMiddleware.ts: bearer-token extraction and
 * verification (`verifyToken`), the `canAccess` guard and `getClaims`.
 * jsonwebtoken's `verify` under the configured secret is the parameter
 * `verify`.
 */
module AuthMiddleware {
  import opened Wrappers
  import opened Strings
  import opened Tokens
  import opened AdminMiddleware

  /** `authorization?.split(' ')[1]`: the second space-separated field, if there is one. */
  function BearerToken(authorization: Option<string>): (r: Option<string>)
    ensures r.Some? ==> authorization.Some? && |Split(authorization.value, ' ')| >= 2
    ensures r.Some? ==> r.value == Split(authorization.value, ' ')[1]
    ensures r.Some? ==> forall j :: 0 <= j < |r.value| ==> r.value[j] != ' '
  {
    if authorization.None? then None
    else
      var parts := Split(authorization.value, ' ');
      if |parts| >= 2 then Some(parts[1]) else None
  }

  /** The usual header: a scheme word, one space, and a token without spaces. */
  lemma {:induction false} BearerOfWellFormedHeader(scheme: string, token: string)
    requires forall j :: 0 <= j < |scheme| ==> scheme[j] != ' '
    requires forall j :: 0 <= j < |token| ==> token[j] != ' '
    ensures BearerToken(Some(scheme + " " + token)) == Some(token)
  {
    SplitFirstField(scheme, ' ', token);
    SplitNoSeparator(token, ' ');
    assert scheme + " " + token == scheme + [' '] + token;
  }

  /** A header without a space carries no token. */
  lemma {:induction false} NoSpaceNoToken(header: string)
    requires forall j :: 0 <= j < |header| ==> header[j] != ' '
    ensures BearerToken(Some(header)).None?
  {
    SplitNoSeparator(header, ' ');
  }

  /** What `verifyToken` does: answer 401 or 403, or attach the decoded token and call `next`. */
  datatype Verified =
    | Next(decoded: Token)
    | Reject(status: int, message: string, errorData: string)

  const UnauthorizedStatus := 401

  /** `${message || 'Unknown error'}` */
  function OrUnknown(message: string): string {
    if message == "" then "Unknown error" else message
  }

  function VerifyToken(authorization: Option<string>, verify: string -> VerifyResult): (v: Verified)
    // no token, or an empty one: 401, and `next` is not called
    ensures BearerToken(authorization).None? || BearerToken(authorization).value == "" <==>
      v == Reject(UnauthorizedStatus, "Unauthorized", "Invalid token")
    // a token that fails verification: 403 naming the error
    ensures v.Reject? && v.status == ForbiddenStatus <==>
      BearerToken(authorization).Some? && BearerToken(authorization).value != ""
      && verify(BearerToken(authorization).value).VerifyError?
    ensures v.Reject? && v.status == ForbiddenStatus ==>
      var e := verify(BearerToken(authorization).value);
      v.errorData == e.name + " - " + OrUnknown(e.message) && v.message == "Unauthorized: " + v.errorData
    // otherwise `next` with exactly what verification decoded
    ensures v.Next? <==>
      BearerToken(authorization).Some? && BearerToken(authorization).value != ""
      && verify(BearerToken(authorization).value).Decoded?
    ensures v.Next? ==> v.decoded == verify(BearerToken(authorization).value).token
  {
    var token := BearerToken(authorization);
    if token.None? || token.value == "" then Reject(UnauthorizedStatus, "Unauthorized", "Invalid token")
    else
      match verify(token.value)
      case VerifyError(name, message) =>
        var errorData := name + " - " + OrUnknown(message);
        Reject(ForbiddenStatus, "Unauthorized: " + errorData, errorData)
      case Decoded(decoded) => Next(decoded)
  }

  /** `canAccess(name, kind)`: the arguments are ignored and only root passes. */
  function CanAccess(name: string, kind: string, role: string): (g: Guarded)
    ensures g.Proceed? <==> role == "root"
  {
    if role != "root" then Refuse(ForbiddenStatus, ForbiddenMessage) else Proceed
  }

  /** `canAccess` admits exactly what `isRoot` admits, whatever its name and kind. */
  lemma CanAccessIsRoot(name: string, kind: string, role: string)
    ensures CanAccess(name, kind, role) == IsRoot(role)
  {
  }

  /** jsonwebtoken refuses the empty string as a token. */
  predicate RejectsEmpty(verify: string -> VerifyResult) {
    verify("").VerifyError?
  }

  /** `getClaims`: the decoded token, or `{}` (here `None`) if verification throws. */
  function GetClaims(authorization: Option<string>, verify: string -> VerifyResult): (c: Option<Token>)
    ensures c.Some? ==> verify(BearerToken(authorization).GetOr("")) == Decoded(c.value)
    ensures c.None? <==> verify(BearerToken(authorization).GetOr("")).VerifyError?
  {
    var token := BearerToken(authorization).GetOr("");
    match verify(token)
    case Decoded(decoded) => Some(decoded)
    case VerifyError(_, _) => None
  }

  /** `getClaims` agrees with `verifyToken`: it has claims exactly when `verifyToken` would call `next`. */
  lemma GetClaimsAgreesWithVerifyToken(authorization: Option<string>, verify: string -> VerifyResult)
    requires RejectsEmpty(verify)
    ensures GetClaims(authorization, verify).Some? <==> VerifyToken(authorization, verify).Next?
    ensures VerifyToken(authorization, verify).Next? ==>
      GetClaims(authorization, verify) == Some(VerifyToken(authorization, verify).decoded)
    ensures authorization.None? ==> GetClaims(authorization, verify).None?
  {
  }
}
