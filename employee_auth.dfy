/** The employee login handler: look the employee up by employeeId, compare the
    password, and on success sign a token with the employee's identifier and role. It
    reads the employees collection and changes nothing. */
module EmployeeAuth {
  import opened Base
  import opened External
  import opened EmployeeModel
  import UserModel
  import AuthMiddleware

  const InvalidCredentialsMessage: string := "Invalid employee credentials"
  const LoginSuccessMessage: string := "Employee login successful"
  const LoginErrorMessage: string := "Error during employee login"

  /** `expiresIn: '8h'`, in seconds. */
  const TokenLifetime: nat := 8 * 60 * 60

  /** The employee fields the success response exposes. */
  datatype EmployeeSummary = EmployeeSummary(id: string, employeeId: string, fullName: string, role: string, department: string)

  datatype LoginResponse =
    | LoginOk(message: string, employee: EmployeeSummary, token: string)
    | LoginError(status: nat, message: string)

  function Summary(e: Employee): EmployeeSummary
  {
    EmployeeSummary(e.id, e.employeeId, e.fullName, e.role, e.department)
  }

  /** The payload signed for an employee: employeeId, role and type "employee", nothing else. */
  function EmployeeClaims(e: Employee): Claims
  {
    Claims(None, Some(e.employeeId), None, Some(e.role), Some("employee"))
  }

  /** `POST /login`. `password` is None when the body has none: bcrypt then throws and
      the catch answers 500. Signing with an unset or empty JWT_SECRET throws as well. */
  function Login(employees: seq<Employee>, employeeId: string, password: Option<string>,
                 bcrypt: Bcrypt, jwt: Jwt, env: Option<string>): (r: LoginResponse)
    ensures r.LoginError? ==> r.status in {400, 500}
  {
    match FindByEmployeeId(employees, employeeId)
    case None => LoginError(400, InvalidCredentialsMessage)
    case Some(e) =>
      if password.None? then LoginError(500, LoginErrorMessage)
      else if !e.MatchPassword(bcrypt, password.value) then LoginError(400, InvalidCredentialsMessage)
      else if !TruthyText(env) then LoginError(500, LoginErrorMessage)
      else LoginOk(LoginSuccessMessage, Summary(e), jwt.sign(EmployeeClaims(e), env.value, TokenLifetime))
  }

  /** An unknown employeeId and a wrong password for a known one get the identical
      response, so a caller cannot tell which identifiers exist. */
  lemma UnknownIdAndWrongPasswordIndistinguishable(
    employees: seq<Employee>, unknownId: string, knownId: string, anyPassword: Option<string>,
    wrongPassword: string, bcrypt: Bcrypt, jwt: Jwt, env: Option<string>)
    requires FindByEmployeeId(employees, unknownId).None?
    requires FindByEmployeeId(employees, knownId).Some?
    requires !FindByEmployeeId(employees, knownId).value.MatchPassword(bcrypt, wrongPassword)
    ensures Login(employees, unknownId, anyPassword, bcrypt, jwt, env)
            == Login(employees, knownId, Some(wrongPassword), bcrypt, jwt, env)
            == LoginError(400, InvalidCredentialsMessage)
  {
  }

  /** The password is compared only after an employee was found: for an unknown
      employeeId the answer does not depend on bcrypt, the token library or the secret. */
  lemma NoCompareWithoutEmployee(employees: seq<Employee>, employeeId: string, password: Option<string>,
                                 b1: Bcrypt, b2: Bcrypt, j1: Jwt, j2: Jwt, env1: Option<string>, env2: Option<string>)
    requires !HasKey(employees, (x: Employee) => x.employeeId, employeeId)
    ensures Login(employees, employeeId, password, b1, j1, env1) == Login(employees, employeeId, password, b2, j2, env2)
  {
  }

  /** A successful login is for the stored employee with that identifier, whose hash
      matches the password; the token carries exactly that employee's identifier, role
      and type "employee", for eight hours; the response shows the five summary fields. */
  lemma SuccessfulLogin(employees: seq<Employee>, employeeId: string, password: Option<string>,
                        bcrypt: Bcrypt, jwt: Jwt, env: Option<string>)
    requires Login(employees, employeeId, password, bcrypt, jwt, env).LoginOk?
    ensures var r := Login(employees, employeeId, password, bcrypt, jwt, env);
      exists e :: e in employees && e.employeeId == employeeId
        && password.Some? && bcrypt.compare(password.value, e.password)
        && TruthyText(env)
        && r.token == jwt.sign(Claims(None, Some(employeeId), None, Some(e.role), Some("employee")), env.value, 28800)
        && r.employee == EmployeeSummary(e.id, employeeId, e.fullName, e.role, e.department)
  {
    var e := FindByEmployeeId(employees, employeeId).value;
    assert e in employees;
  }

  /** A login succeeds exactly for a stored employeeId, a password that matches that
      employee's hash, and a set JWT_SECRET. */
  lemma LoginOkExactlyWhen(employees: seq<Employee>, employeeId: string, password: Option<string>,
                           bcrypt: Bcrypt, jwt: Jwt, env: Option<string>)
    ensures Login(employees, employeeId, password, bcrypt, jwt, env).LoginOk?
            <==> && FindByEmployeeId(employees, employeeId).Some?
                 && password.Some?
                 && FindByEmployeeId(employees, employeeId).value.MatchPassword(bcrypt, password.value)
                 && TruthyText(env)
  {
  }

  /** A token issued by a successful login, sent back as "Bearer <token>" and read
      back by the token library, passes the middleware as the same employee, and that
      principal passes the employee guard by its employeeId. A stored employee always
      has a non-empty employeeId, so requiring one excludes no valid store. */
  lemma LoginTokenAuthenticatesEmployee(employees: seq<Employee>, customers: seq<UserModel.Customer>,
                                        employeeId: string, password: Option<string>,
                                        bcrypt: Bcrypt, jwt: Jwt, env: Option<string>)
    requires Login(employees, employeeId, password, bcrypt, jwt, env).LoginOk?
    requires employeeId != ""
    requires Login(employees, employeeId, password, bcrypt, jwt, env).token != ""
    requires var r := Login(employees, employeeId, password, bcrypt, jwt, env);
      jwt.verify(r.token, env.value) == Some(Claims(None, Some(employeeId), None, Some(r.employee.role), Some("employee")))
    ensures var r := Login(employees, employeeId, password, bcrypt, jwt, env);
      var a := AuthMiddleware.Authenticate(Some("Bearer " + r.token), customers, employees, jwt, env);
      && a.Authenticated?
      && a.principal.EmployeeUser?
      && a.principal.employeeId == r.employee.employeeId
      && a.principal.id == r.employee.id
      && AuthMiddleware.RequireEmployee(a.principal).Next?
  {
    var r := Login(employees, employeeId, password, bcrypt, jwt, env);
    var e := FindByEmployeeId(employees, employeeId).value;
    AuthMiddleware.BearerHeaderGivesToken(r.token);
    assert AuthMiddleware.SecretFor(env) == env.value;
    var claims := Claims(None, Some(employeeId), None, Some(r.employee.role), Some("employee"));
    assert AuthMiddleware.Dispatch(claims) == AuthMiddleware.EmployeeByEmployeeId(employeeId);
  }
}
