/** The customer model (`User`): five required paths, trim/lowercase setters, three
    unique keys besides `_id`, the pre-save hook that hashes the password, and
    `matchPassword`. */
module UserModel {
  import opened Base
  import opened Text
  import opened External
  import opened Documents

  datatype Customer = Customer(
    id: string,
    fullName: string,
    idNumber: string,
    username: string,
    accountNumber: string,
    password: string)
  {
    /** `matchPassword(entered)`: bcrypt's comparison of the entered password with the stored hash. */
    function MatchPassword(bcrypt: Bcrypt, entered: string): bool
    {
      bcrypt.compare(entered, password)
    }
  }

  /** The record the schema's setters make of the given values: fullName, idNumber and
      accountNumber trimmed, username trimmed and lower-cased, password as given. */
  function Normalize(id: string, fullName: string, idNumber: string, username: string,
                     accountNumber: string, password: string): (c: Customer)
    ensures NormalForm(c)
    ensures c.id == id && c.password == password
    ensures c.fullName == Trim(fullName) && c.idNumber == Trim(idNumber) && c.accountNumber == Trim(accountNumber)
    ensures c.username == ToLower(Trim(username))
  {
    var c := Customer(id, Trim(fullName), Trim(idNumber), ToLower(Trim(username)), Trim(accountNumber), password);
    SettersGiveNormalForm(c, username);
    c
  }

  /** Trimmed keys and a lower-cased trimmed username are in normal form. */
  lemma SettersGiveNormalForm(c: Customer, username: string)
    requires NoSurroundingWhitespace(c.fullName) && NoSurroundingWhitespace(c.idNumber)
    requires NoSurroundingWhitespace(c.accountNumber)
    requires c.username == ToLower(Trim(username))
    ensures NormalForm(c)
  {
    LowerKeepsEnds(Trim(username));
    LowerIsIdempotent(Trim(username));
  }

  predicate NoSurroundingWhitespace(s: string)
  {
    s == [] || (!IsWhitespace(s[0]) && !IsWhitespace(s[|s| - 1]))
  }

  /** How a stored customer's keys look: no surrounding whitespace, no upper-case
      letter in the username. */
  predicate NormalForm(c: Customer)
  {
    && NoSurroundingWhitespace(c.fullName)
    && NoSurroundingWhitespace(c.idNumber)
    && NoSurroundingWhitespace(c.username)
    && NoSurroundingWhitespace(c.accountNumber)
    && forall i :: 0 <= i < |c.username| ==> !IsUpper(c.username[i])
  }

  /** Normalising a stored username again gives it back: the key the unique index sees
      for a raw username is its trimmed, lower-cased form, whatever case and padding
      were typed. */
  lemma UsernameNormalizationIdempotent(u: string)
    ensures Normalize("", "", "", u, "", "").username == Normalize("", "", "", ToLower(Trim(u)), "", "").username
  {
    var t := ToLower(Trim(u));
    LowerKeepsEnds(Trim(u));
    assert Trim(t) == t;
    LowerIsIdempotent(Trim(u));
  }

  /** The required rule on every path: present and non-empty after the setters. */
  predicate RequiredPresent(c: Customer)
  {
    c.fullName != "" && c.idNumber != "" && c.username != "" && c.accountNumber != "" && c.password != ""
  }

  predicate HasKey(s: seq<Customer>, key: Customer -> string, value: string)
  {
    exists i :: 0 <= i < |s| && key(s[i]) == value
  }

  /** `_id`, idNumber, username and accountNumber are each unique. */
  predicate KeysUnique(s: seq<Customer>)
  {
    forall i, j :: 0 <= i < j < |s| ==>
      && s[i].id != s[j].id
      && s[i].idNumber != s[j].idNumber
      && s[i].username != s[j].username
      && s[i].accountNumber != s[j].accountNumber
  }

  /** The outcome of saving a new customer document whose record (before hashing) is `c`:
      validation first, then each unique index. */
  function SaveCheck(s: seq<Customer>, c: Customer): Option<SaveError>
  {
    if !RequiredPresent(c) || !IsCanonical(c.id) then Some(ValidationError)
    else if HasKey(s, (x: Customer) => x.id, c.id) then Some(DuplicateKey("_id"))
    else if HasKey(s, (x: Customer) => x.idNumber, c.idNumber) then Some(DuplicateKey("idNumber"))
    else if HasKey(s, (x: Customer) => x.username, c.username) then Some(DuplicateKey("username"))
    else if HasKey(s, (x: Customer) => x.accountNumber, c.accountNumber) then Some(DuplicateKey("accountNumber"))
    else None
  }

  /** An accepted save keeps every key unique. */
  lemma SaveKeepsKeysUnique(s: seq<Customer>, c: Customer, hashed: string)
    requires KeysUnique(s)
    requires SaveCheck(s, c).None?
    ensures KeysUnique(s + [c.(password := hashed)])
  {
    var t := s + [c.(password := hashed)];
    forall i, j | 0 <= i < j < |t|
      ensures t[i].id != t[j].id && t[i].idNumber != t[j].idNumber
      ensures t[i].username != t[j].username && t[i].accountNumber != t[j].accountNumber
    {
      if j == |s| {
        assert t[i] == s[i];
        assert !HasKey(s, (x: Customer) => x.id, c.id);
        assert !HasKey(s, (x: Customer) => x.idNumber, c.idNumber);
        assert !HasKey(s, (x: Customer) => x.username, c.username);
        assert !HasKey(s, (x: Customer) => x.accountNumber, c.accountNumber);
      }
    }
  }

  /** `User.findById(id)` after the cast succeeded. */
  function FindById(s: seq<Customer>, id: string): (r: Option<Customer>)
    ensures r.Some? <==> HasKey(s, (x: Customer) => x.id, id)
    ensures r.Some? ==> r.value in s && r.value.id == id
  {
    if s == [] then None
    else if s[0].id == id then Some(s[0])
    else FindById(s[1..], id)
  }

  /** A customer document: the setters run when it is constructed; the pre-save hook
      overwrites `password` in place. */
  class CustomerDocument {
    const id: string
    const fullName: string
    const idNumber: string
    const username: string
    const accountNumber: string
    var password: string
    var passwordModified: bool

    /** `new User({ ... })` */
    constructor (id: string, fullName: string, idNumber: string, username: string,
                 accountNumber: string, password: string)
      ensures Record() == Normalize(id, fullName, idNumber, username, accountNumber, password)
      ensures passwordModified
    {
      var c := Normalize(id, fullName, idNumber, username, accountNumber, password);
      this.id := c.id;
      this.fullName := c.fullName;
      this.idNumber := c.idNumber;
      this.username := c.username;
      this.accountNumber := c.accountNumber;
      this.password := c.password;
      this.passwordModified := true;
    }

    /** A document hydrated from a stored record: its password is not modified. */
    constructor Load(c: Customer)
      ensures Record() == c && !passwordModified
    {
      id := c.id;
      fullName := c.fullName;
      idNumber := c.idNumber;
      username := c.username;
      accountNumber := c.accountNumber;
      password := c.password;
      passwordModified := false;
    }

    function Record(): Customer
      reads this
    {
      Customer(id, fullName, idNumber, username, accountNumber, password)
    }

    /** `pre('save')`: when the password is not modified the hook calls `next()` but does
        not return, so the password is hashed with a fresh salt on every save. */
    method PreSave(bcrypt: Bcrypt, salt: string)
      modifies this`password
      ensures password == bcrypt.hash(old(password), salt)
    {
      if !passwordModified {
        // next() is called here and the hook carries on
      }
      password := bcrypt.hash(password, salt);
    }
  }

  /** The customers collection. */
  class CustomerCollection {
    var records: seq<Customer>

    ghost predicate Valid()
      reads this
    {
      KeysUnique(records) && forall i :: 0 <= i < |records| ==> IsCanonical(records[i].id) && NormalForm(records[i])
    }

    constructor ()
      ensures Valid() && records == []
    {
      records := [];
    }

    /** `save()` on a new document: validation, then the pre-save hook, then the insert
        under the unique indexes. A validation failure stops before the hook. */
    method Save(doc: CustomerDocument, bcrypt: Bcrypt, salt: string) returns (err: Option<SaveError>)
      requires Valid()
      requires NormalForm(doc.Record())
      modifies this, doc`password
      ensures Valid()
      ensures err == SaveCheck(old(records), old(doc.Record()))
      ensures doc.password == if err == Some(ValidationError) then old(doc.password)
                              else bcrypt.hash(old(doc.password), salt)
      ensures records == if err.None? then old(records) + [doc.Record()] else old(records)
      ensures err.None? ==> records[|records| - 1] == old(doc.Record()).(password := bcrypt.hash(old(doc.password), salt))
    {
      var c := doc.Record();
      if !RequiredPresent(c) || !IsCanonical(c.id) {
        return Some(ValidationError);
      }
      doc.PreSave(bcrypt, salt);
      err := SaveCheck(records, c);
      if err.None? {
        SaveKeepsKeysUnique(records, c, doc.password);
        records := records + [doc.Record()];
      }
    }
  }
}
