/** The employee model: four required paths, employeeId and email unique, a role enum
    with a default, a department default, the pre-save hook that hashes the password
    only when it was modified, and `matchPassword`. */
module EmployeeModel {
  import opened Base
  import opened Text
  import opened External
  import opened Documents

  const Roles: seq<string> := ["teller", "manager", "admin"]

  const DefaultRole: string := "teller"

  const DefaultDepartment: string := "customer service"

  datatype Employee = Employee(
    id: string,
    employeeId: string,
    fullName: string,
    email: string,
    password: string,
    role: string,
    department: string)
  {
    /** `matchPassword(entered)`: bcrypt's comparison of the entered password with the stored hash. */
    function MatchPassword(bcrypt: Bcrypt, entered: string): bool
    {
      bcrypt.compare(entered, password)
    }
  }

  /** A path left undefined takes its default. */
  function OrDefault(given: Option<string>, default: string): string
  {
    if given.Some? then given.value else default
  }

  /** Schema validation: required paths non-empty and the role in its enum. */
  predicate SchemaValid(e: Employee)
  {
    && e.employeeId != ""
    && e.fullName != ""
    && e.email != ""
    && e.password != ""
    && e.role in Roles
  }

  /** No valid employee has the role "employee": the role enum does not contain it. */
  lemma NoEmployeeRole(e: Employee)
    requires SchemaValid(e)
    ensures e.role != "employee"
  {
    NoRoleIsEmployee(e.role);
  }

  lemma NoRoleIsEmployee(role: string)
    requires role in Roles
    ensures role != "employee"
  {
  }

  /** A role left out becomes "teller" and passes the enum; the department becomes
      "customer service". */
  lemma DefaultsApply(id: string, employeeId: string, fullName: string, email: string, password: string)
    requires employeeId != "" && fullName != "" && email != "" && password != ""
    ensures var e := Employee(id, employeeId, fullName, email, password,
                              OrDefault(None, DefaultRole), OrDefault(None, DefaultDepartment));
      SchemaValid(e) && e.role == "teller" && e.department == "customer service"
  {
  }

  predicate HasKey(s: seq<Employee>, key: Employee -> string, value: string)
  {
    exists i :: 0 <= i < |s| && key(s[i]) == value
  }

  /** `_id`, employeeId and email are each unique. */
  predicate KeysUnique(s: seq<Employee>)
  {
    forall i, j :: 0 <= i < j < |s| ==>
      s[i].id != s[j].id && s[i].employeeId != s[j].employeeId && s[i].email != s[j].email
  }

  /** The outcome of saving a new employee document whose record (before hashing) is `e`. */
  function SaveCheck(s: seq<Employee>, e: Employee): Option<SaveError>
  {
    if !SchemaValid(e) || !IsCanonical(e.id) then Some(ValidationError)
    else if HasKey(s, (x: Employee) => x.id, e.id) then Some(DuplicateKey("_id"))
    else if HasKey(s, (x: Employee) => x.employeeId, e.employeeId) then Some(DuplicateKey("employeeId"))
    else if HasKey(s, (x: Employee) => x.email, e.email) then Some(DuplicateKey("email"))
    else None
  }

  /** An accepted save keeps every key unique. */
  lemma SaveKeepsKeysUnique(s: seq<Employee>, e: Employee, hashed: string)
    requires KeysUnique(s)
    requires SaveCheck(s, e).None?
    ensures KeysUnique(s + [e.(password := hashed)])
  {
    var t := s + [e.(password := hashed)];
    forall i, j | 0 <= i < j < |t|
      ensures t[i].id != t[j].id && t[i].employeeId != t[j].employeeId && t[i].email != t[j].email
    {
      if j == |s| {
        assert t[i] == s[i];
        assert !HasKey(s, (x: Employee) => x.id, e.id);
        assert !HasKey(s, (x: Employee) => x.employeeId, e.employeeId);
        assert !HasKey(s, (x: Employee) => x.email, e.email);
      }
    }
  }

  /** `Employee.findOne({ employeeId })`: the first employee with that identifier. */
  function FindByEmployeeId(s: seq<Employee>, employeeId: string): (r: Option<Employee>)
    ensures r.Some? <==> HasKey(s, (x: Employee) => x.employeeId, employeeId)
    ensures r.Some? ==> r.value in s && r.value.employeeId == employeeId
  {
    if s == [] then None
    else if s[0].employeeId == employeeId then Some(s[0])
    else FindByEmployeeId(s[1..], employeeId)
  }

  /** An employee document; the pre-save hook overwrites `password` in place when it
      was modified. */
  class EmployeeDocument {
    const id: string
    const employeeId: string
    const fullName: string
    const email: string
    const role: string
    const department: string
    var password: string
    var passwordModified: bool

    /** `new Employee({ ... })`: undefined role and department take their defaults. */
    constructor (id: string, employeeId: string, fullName: string, email: string, password: string,
                 role: Option<string>, department: Option<string>)
      ensures Record() == Employee(id, employeeId, fullName, email, password,
                                   OrDefault(role, DefaultRole), OrDefault(department, DefaultDepartment))
      ensures passwordModified
    {
      this.id := id;
      this.employeeId := employeeId;
      this.fullName := fullName;
      this.email := email;
      this.password := password;
      this.role := OrDefault(role, DefaultRole);
      this.department := OrDefault(department, DefaultDepartment);
      this.passwordModified := true;
    }

    /** A document hydrated from a stored record: its password is not modified. */
    constructor Load(e: Employee)
      ensures Record() == e && !passwordModified
    {
      id := e.id;
      employeeId := e.employeeId;
      fullName := e.fullName;
      email := e.email;
      role := e.role;
      department := e.department;
      password := e.password;
      passwordModified := false;
    }

    function Record(): Employee
      reads this
    {
      Employee(id, employeeId, fullName, email, password, role, department)
    }

    /** `pre('save')`: hash the password only when it was modified; otherwise leave it. */
    method PreSave(bcrypt: Bcrypt, salt: string)
      modifies this`password
      ensures password == if passwordModified then bcrypt.hash(old(password), salt) else old(password)
    {
      if !passwordModified {
        return;
      }
      password := bcrypt.hash(password, salt);
    }
  }

  /** The employees collection (filled by the seeding script). */
  class EmployeeCollection {
    var records: seq<Employee>

    ghost predicate Valid()
      reads this
    {
      KeysUnique(records) && forall i :: 0 <= i < |records| ==> IsCanonical(records[i].id) && SchemaValid(records[i].(password := "x"))
    }

    constructor ()
      ensures Valid() && records == []
    {
      records := [];
    }

    /** `save()` on a new document: validation, then the pre-save hook, then the insert
        under the unique indexes. */
    method Save(doc: EmployeeDocument, bcrypt: Bcrypt, salt: string) returns (err: Option<SaveError>)
      requires Valid()
      modifies this, doc`password
      ensures Valid()
      ensures err == SaveCheck(old(records), old(doc.Record()))
      ensures doc.password == if err == Some(ValidationError) || !doc.passwordModified then old(doc.password)
                              else bcrypt.hash(old(doc.password), salt)
      ensures records == if err.None? then old(records) + [doc.Record()] else old(records)
    {
      var e := doc.Record();
      if !SchemaValid(e) || !IsCanonical(e.id) {
        return Some(ValidationError);
      }
      doc.PreSave(bcrypt, salt);
      err := SaveCheck(records, e);
      if err.None? {
        SaveKeepsKeysUnique(records, e, doc.password);
        records := records + [doc.Record()];
      }
    }
  }
}
