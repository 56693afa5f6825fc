/** The authentication middleware and the two role guards: the token is taken from
    the Authorization header, verified, its claims dispatched in priority order to a
    customer or an employee lookup, and the principal found (without its password)
    attached to the request. */
module AuthMiddleware {
  import opened Base
  import opened Text
  import opened External
  import opened Documents
  import UserModel
  import EmployeeModel

  /** The secret used when the environment leaves JWT_SECRET unset or empty. */
  const FallbackSecret: string := "apds7311_secure_jwt_key_$%^&*@!12345_CUSTOMER_PORTAL_2025"

  const NoTokenMessage: string := "No token provided, access denied"
  const InvalidTokenMessage: string := "Token is not valid"
  const InvalidFormatMessage: string := "Invalid token format"
  const UserNotFoundMessage: string := "Token is not valid, user not found"
  const EmployeeRequiredMessage: string := "Access denied. Employee role required."
  const CustomerOnlyMessage: string := "Access denied. Customer access only."

  /** An authenticated principal as `req.user` holds it: the stored document selected
      without its password. */
  datatype Principal =
    | CustomerUser(id: string, fullName: string, idNumber: string, username: string, accountNumber: string)
    | EmployeeUser(id: string, employeeId: string, fullName: string, email: string, role: string, department: string)
  {
    /** `req.user.employeeId`: undefined on a customer document. */
    function EmployeeIdField(): Option<string>
    {
      if EmployeeUser? then Some(employeeId) else None
    }

    /** `req.user.role`: undefined on a customer document. */
    function RoleField(): Option<string>
    {
      if EmployeeUser? then Some(role) else None
    }
  }

  /** `User.findById(...).select('-password')` */
  function FromCustomer(c: UserModel.Customer): Principal
  {
    CustomerUser(c.id, c.fullName, c.idNumber, c.username, c.accountNumber)
  }

  /** `Employee.findOne(...).select('-password')` */
  function FromEmployee(e: EmployeeModel.Employee): Principal
  {
    EmployeeUser(e.id, e.employeeId, e.fullName, e.email, e.role, e.department)
  }

  /** What the middleware does with the request: call `next()`, or answer with a status. */
  datatype Outcome = Next | Reject(status: nat, message: string)

  /** The result of authentication as a value. */
  datatype AuthResult = Authenticated(principal: Principal) | Denied(status: nat, message: string)

  function SecretFor(env: Option<string>): string
  {
    if TruthyText(env) then env.value else FallbackSecret
  }

  /** `req.header('Authorization')?.replace('Bearer ', '')`: the first occurrence of
      "Bearer " anywhere in the header is removed. */
  function ExtractToken(header: Option<string>): Option<string>
  {
    if header.None? then None else Some(ReplaceFirst(header.value, "Bearer ", ""))
  }

  /** A header of the documented form gives back exactly the token after the scheme. */
  lemma BearerHeaderGivesToken(t: string)
    ensures ExtractToken(Some("Bearer " + t)) == Some(t)
  {
    var s := "Bearer " + t;
    assert s[..7] == "Bearer ";
    assert MatchesAt(s, "Bearer ", 0);
    assert IndexOf(s, "Bearer ") == Some(0);
    assert ReplaceFirst(s, "Bearer ", "") == s[..0] + "" + s[7..];
    assert s[..0] + "" + s[7..] == t;
  }

  /** "Bearer " is removed where it first occurs, which need not be the start of the
      header; the text on both sides of it is kept. */
  lemma BearerRemovedAnywhere(h: string, k: nat)
    requires MatchesAt(h, "Bearer ", k)
    requires forall j: nat :: j < k ==> !MatchesAt(h, "Bearer ", j)
    ensures ExtractToken(Some(h)) == Some(h[..k] + h[k + 7..])
  {
    var i := IndexOf(h, "Bearer ");
    assert Contains(h, "Bearer ");
    assert i == Some(k);
    assert |"Bearer "| == 7;
    assert ReplaceFirst(h, "Bearer ", "") == h[..k] + "" + h[k + 7..];
    assert h[..k] + "" + h[k + 7..] == h[..k] + h[k + 7..];
  }

  /** A header with text before "Bearer " keeps that text in the token. */
  lemma BearerRemovedAnywhereExample()
    ensures ExtractToken(Some("xBearer y")) == Some("xy")
  {
    var s := "xBearer y";
    MatchStartsWith(s, "Bearer ", 0);
    assert !MatchesAt(s, "Bearer ", 0);
    assert s[1..8] == "Bearer ";
    assert MatchesAt(s, "Bearer ", 1);
    assert IndexOf(s, "Bearer ") == Some(1);
    assert s[..1] + "" + s[8..] == "xy";
  }

  /** Which lookup the claims select. */
  datatype Lookup = CustomerById(key: string) | EmployeeByEmployeeId(key: string) | BadFormat

  /** The claims are tried in order userId, employeeId, id; the first truthy one decides. */
  function Dispatch(claims: Claims): (r: Lookup)
    ensures r.BadFormat? <==> !TruthyText(claims.userId) && !TruthyText(claims.employeeId) && !TruthyText(claims.id)
    ensures r.EmployeeByEmployeeId? ==> !TruthyText(claims.userId) && claims.employeeId == Some(r.key)
    ensures r.CustomerById? ==> r.key != "" && (claims.userId == Some(r.key) || (!TruthyText(claims.employeeId) && claims.id == Some(r.key)))
  {
    if TruthyText(claims.userId) then CustomerById(claims.userId.value)
    else if TruthyText(claims.employeeId) then EmployeeByEmployeeId(claims.employeeId.value)
    else if TruthyText(claims.id) then CustomerById(claims.id.value)
    else BadFormat
  }

  /** The whole middleware as a function of the header, the stores, the token library
      and the environment's JWT_SECRET. A key that does not cast to an ObjectId throws
      inside the lookup and lands in the catch branch. */
  function Authenticate(header: Option<string>, customers: seq<UserModel.Customer>,
                        employees: seq<EmployeeModel.Employee>, jwt: Jwt, env: Option<string>): (r: AuthResult)
    ensures r.Denied? ==> r.status == 401
  {
    var token := ExtractToken(header);
    if !TruthyText(token) then Denied(401, NoTokenMessage)
    else match jwt.verify(token.value, SecretFor(env))
      case None => Denied(401, InvalidTokenMessage)
      case Some(claims) =>
        match Dispatch(claims)
        case BadFormat => Denied(401, InvalidFormatMessage)
        case CustomerById(key) =>
          (match Cast(key)
           case None => Denied(401, InvalidTokenMessage)
           case Some(id) =>
             match UserModel.FindById(customers, id)
             case None => Denied(401, UserNotFoundMessage)
             case Some(c) => Authenticated(FromCustomer(c)))
        case EmployeeByEmployeeId(key) =>
          match EmployeeModel.FindByEmployeeId(employees, key)
          case None => Denied(401, UserNotFoundMessage)
          case Some(e) => Authenticated(FromEmployee(e))
  }

  /** An absent header, or one that is empty once "Bearer " is removed, is answered with
      the no-token message, and only such a header is. */
  lemma NoTokenIffEmpty(header: Option<string>, customers: seq<UserModel.Customer>,
                        employees: seq<EmployeeModel.Employee>, jwt: Jwt, env: Option<string>)
    ensures Authenticate(header, customers, employees, jwt, env) == Denied(401, NoTokenMessage)
            <==> !TruthyText(ExtractToken(header))
  {
  }

  /** A token the library refuses is answered with 401 "Token is not valid". */
  lemma RefusedTokenIsInvalid(header: Option<string>, customers: seq<UserModel.Customer>,
                              employees: seq<EmployeeModel.Employee>, jwt: Jwt, env: Option<string>)
    requires TruthyText(ExtractToken(header))
    requires jwt.verify(ExtractToken(header).value, SecretFor(env)).None?
    ensures Authenticate(header, customers, employees, jwt, env) == Denied(401, InvalidTokenMessage)
  {
  }

  /** On success the principal is a stored customer or a stored employee, without its
      password, and it was found under the key the claims selected. */
  lemma AuthenticatedIsStored(header: Option<string>, customers: seq<UserModel.Customer>,
                              employees: seq<EmployeeModel.Employee>, jwt: Jwt, env: Option<string>)
    requires Authenticate(header, customers, employees, jwt, env).Authenticated?
    ensures var p := Authenticate(header, customers, employees, jwt, env).principal;
      && TruthyText(ExtractToken(header))
      && jwt.verify(ExtractToken(header).value, SecretFor(env)).Some?
      && (p.CustomerUser? ==> exists c :: c in customers && FromCustomer(c) == p
                                && Dispatch(jwt.verify(ExtractToken(header).value, SecretFor(env)).value).CustomerById?)
      && (p.EmployeeUser? ==> exists e :: e in employees && FromEmployee(e) == p
                                && Dispatch(jwt.verify(ExtractToken(header).value, SecretFor(env)).value).EmployeeByEmployeeId?)
  {
    var claims := jwt.verify(ExtractToken(header).value, SecretFor(env)).value;
    var p := Authenticate(header, customers, employees, jwt, env).principal;
    match Dispatch(claims)
    case CustomerById(key) =>
      var c := UserModel.FindById(customers, Cast(key).value).value;
      assert FromCustomer(c) == p;
    case EmployeeByEmployeeId(key) =>
      var e := EmployeeModel.FindByEmployeeId(employees, key).value;
      assert FromEmployee(e) == p;
  }

  /** A verified token whose claims select a stored customer's id is admitted as that
      customer. */
  lemma StoredCustomerAdmitted(header: Option<string>, customers: seq<UserModel.Customer>,
                               employees: seq<EmployeeModel.Employee>, jwt: Jwt, env: Option<string>,
                               c: UserModel.Customer)
    requires TruthyText(ExtractToken(header))
    requires var claims := jwt.verify(ExtractToken(header).value, SecretFor(env));
      claims.Some? && Dispatch(claims.value).CustomerById? && Cast(Dispatch(claims.value).key) == Some(c.id)
    requires c in customers
    ensures var r := Authenticate(header, customers, employees, jwt, env);
      r.Authenticated? && r.principal.CustomerUser? && r.principal.id == c.id
  {
    assert UserModel.HasKey(customers, (x: UserModel.Customer) => x.id, c.id) by {
      var i :| 0 <= i < |customers| && customers[i] == c;
    }
  }

  /** A verified token whose claims select a stored employee's employeeId is admitted
      as that employee. */
  lemma StoredEmployeeAdmitted(header: Option<string>, customers: seq<UserModel.Customer>,
                               employees: seq<EmployeeModel.Employee>, jwt: Jwt, env: Option<string>,
                               e: EmployeeModel.Employee)
    requires TruthyText(ExtractToken(header))
    requires var claims := jwt.verify(ExtractToken(header).value, SecretFor(env));
      claims.Some? && Dispatch(claims.value) == EmployeeByEmployeeId(e.employeeId)
    requires e in employees
    ensures var r := Authenticate(header, customers, employees, jwt, env);
      r.Authenticated? && r.principal.EmployeeUser? && r.principal.employeeId == e.employeeId
  {
    assert EmployeeModel.HasKey(employees, (x: EmployeeModel.Employee) => x.employeeId, e.employeeId) by {
      var i :| 0 <= i < |employees| && employees[i] == e;
    }
  }

  /** A token carrying both a userId and an employeeId resolves as a customer (or not at
      all): the employee lookup is never made for it. */
  lemma UserIdClaimTakesPriority(header: Option<string>, customers: seq<UserModel.Customer>,
                                 employees: seq<EmployeeModel.Employee>, jwt: Jwt, env: Option<string>)
    requires TruthyText(ExtractToken(header))
    requires var claims := jwt.verify(ExtractToken(header).value, SecretFor(env));
      claims.Some? && TruthyText(claims.value.userId) && TruthyText(claims.value.employeeId)
    ensures !Authenticate(header, customers, employees, jwt, env).Authenticated?
            || Authenticate(header, customers, employees, jwt, env).principal.CustomerUser?
  {
  }

  /** The request as the middleware sees it: the Authorization header, and `req.user`,
      which the middleware writes. */
  class Request {
    const authorization: Option<string>
    var user: Option<Principal>

    constructor (authorization: Option<string>)
      ensures this.authorization == authorization && user.None?
    {
      this.authorization := authorization;
      user := None;
    }
  }

  /** `auth(req, res, next)`: on success `req.user` is set and `next()` is called once;
      on every other path the request is answered and `req.user` is left alone. */
  method Auth(req: Request, customers: seq<UserModel.Customer>, employees: seq<EmployeeModel.Employee>,
              jwt: Jwt, env: Option<string>) returns (out: Outcome)
    modifies req`user
    ensures var r := Authenticate(req.authorization, customers, employees, jwt, env);
      && (out.Next? <==> r.Authenticated?)
      && (r.Authenticated? ==> req.user == Some(r.principal))
      && (r.Denied? ==> out == Reject(r.status, r.message) && req.user == old(req.user))
  {
    var token := ExtractToken(req.authorization);
    if !TruthyText(token) {
      return Reject(401, NoTokenMessage);
    }
    var decoded := jwt.verify(token.value, SecretFor(env));
    if decoded.None? {
      return Reject(401, InvalidTokenMessage);
    }
    var claims := decoded.value;
    var user: Option<Principal>;
    if TruthyText(claims.userId) {
      var id := Cast(claims.userId.value);
      if id.None? {
        return Reject(401, InvalidTokenMessage);
      }
      var found := UserModel.FindById(customers, id.value);
      user := if found.Some? then Some(FromCustomer(found.value)) else None;
    } else if TruthyText(claims.employeeId) {
      var found := EmployeeModel.FindByEmployeeId(employees, claims.employeeId.value);
      user := if found.Some? then Some(FromEmployee(found.value)) else None;
    } else if TruthyText(claims.id) {
      var id := Cast(claims.id.value);
      if id.None? {
        return Reject(401, InvalidTokenMessage);
      }
      var found := UserModel.FindById(customers, id.value);
      user := if found.Some? then Some(FromCustomer(found.value)) else None;
    } else {
      return Reject(401, InvalidFormatMessage);
    }
    if user.None? {
      return Reject(401, UserNotFoundMessage);
    }
    req.user := user;
    return Next;
  }

  /** `requireEmployee`: admits a principal with a truthy employeeId or the role
      "employee". */
  function RequireEmployee(p: Principal): Outcome
  {
    if !TruthyText(p.EmployeeIdField()) && p.RoleField() != Some("employee")
    then Reject(403, EmployeeRequiredMessage) else Next
  }

  /** `requireCustomer`: refuses a principal with a truthy employeeId or the role
      "employee". */
  function RequireCustomer(p: Principal): Outcome
  {
    if TruthyText(p.EmployeeIdField()) || p.RoleField() == Some("employee")
    then Reject(403, CustomerOnlyMessage) else Next
  }

  /** The two guards are complements: each principal passes exactly one of them. */
  lemma GuardsAreComplements(p: Principal)
    ensures RequireCustomer(p).Next? <==> !RequireEmployee(p).Next?
    ensures RequireEmployee(p).Reject? ==> RequireEmployee(p).status == 403
    ensures RequireCustomer(p).Reject? ==> RequireCustomer(p).status == 403
  {
  }

  /** For principals read from the stores, the employee guard admits exactly the
      employees: a stored employee's employeeId is required (so truthy) and no role in
      the enum is "employee"; a customer has neither field. */
  lemma EmployeeGuardAdmitsExactlyEmployees(header: Option<string>, customers: seq<UserModel.Customer>,
                                            employees: seq<EmployeeModel.Employee>, jwt: Jwt, env: Option<string>)
    requires forall e :: e in employees ==> e.role in EmployeeModel.Roles
    requires Authenticate(header, customers, employees, jwt, env).Authenticated?
    ensures var p := Authenticate(header, customers, employees, jwt, env).principal;
      && (RequireEmployee(p).Next? <==> p.EmployeeUser?)
      && (RequireCustomer(p).Next? <==> p.CustomerUser?)
      && (p.EmployeeUser? ==> p.role != "employee")
  {
    AuthenticatedIsStored(header, customers, employees, jwt, env);
    var p := Authenticate(header, customers, employees, jwt, env).principal;
    if p.EmployeeUser? {
      var e :| e in employees && FromEmployee(e) == p;
      EmployeeModel.NoRoleIsEmployee(e.role);
    }
  }
}
