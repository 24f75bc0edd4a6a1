/**
 * The two libraries the services call but that are not part of this model:
 * argon2 (password digests) and jsonwebtoken (signed bearer tokens). Each
 * is a value the caller supplies; only the property the services rely on
 * is assumed, and only where it is needed.
 */
module Tokens {
  import opened Wrappers
  import opened Database

  /** argon2's `hash` and `verify`. */
  datatype Hasher = Hasher(hash: string -> string, verify: (string, string) -> bool)

  /** The one property assumed of argon2: a password verifies against its own digest. */
  ghost predicate Sound(h: Hasher) {
    forall p :: h.verify(h.hash(p), p)
  }

  /** JWT_SECRET, JWT_ISSUER and JWT_VALIDITY from the environment. */
  datatype JwtConfig = JwtConfig(secret: string, issuer: string, validity: string)

  /** The payloads the services sign. */
  datatype Claims =
    | IdClaims(id: string, role: string)
    | AdviserClaims(
        user_id: string,
        email: Option<string>,
        mobile_no: Option<string>,
        names: Option<string>,
        role: string,
        adviser: AdviserView)

  /** A signed token: its subject, role, issuer and payload (signature and expiry left out). */
  datatype Token = Token(sub: string, role: string, iss: string, claims: Claims)

  /** `jwt.sign(payload, JWT_SECRET, { issuer, subject, expiresIn })`. */
  function Sign(claims: Claims, subject: string, cfg: JwtConfig): Token {
    Token(subject, claims.role, cfg.issuer, claims)
  }

  /** What `jwt.verify` hands its callback: the decoded token, or an error's name and message. */
  datatype VerifyResult = Decoded(token: Token) | VerifyError(name: string, message: string)
}
