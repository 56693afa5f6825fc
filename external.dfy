/** The two libraries the core calls but does not implement, bcryptjs and jsonwebtoken,
    as records of functions that every operation using them receives as a parameter.
    Nothing is known about them beyond being functions of their arguments. */
module External {
  import opened Base

  /** `bcrypt.hash(plain, salt)` and `bcrypt.compare(plain, hash)`. */
  datatype Bcrypt = Bcrypt(hash: (string, string) -> string, compare: (string, string) -> bool)

  /** The payload of a JSON Web Token, as far as the core reads or writes it.
      `tokenType` is the claim the source calls `type`. */
  datatype Claims = Claims(
    userId: Option<string>,
    employeeId: Option<string>,
    id: Option<string>,
    role: Option<string>,
    tokenType: Option<string>)

  /** `jwt.sign(payload, secret, { expiresIn })` with the lifetime in seconds, and
      `jwt.verify(token, secret)`, which gives None for every failure it throws on
      (bad signature, malformed token, expired token). */
  datatype Jwt = Jwt(
    sign: (Claims, string, nat) -> string,
    verify: (string, string) -> Option<Claims>)
}
