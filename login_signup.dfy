/** The customer login / sign-up form: the field patterns, the check while typing, the
    check on submit (five fields on sign-up, three on login), where a rejected
    request's messages land, and the reset on a mode switch. */
module LoginSignup {
  import opened Base
  import opened Text
  import Patterns
  import FormErrors

  const FullNameKey: string := "fullName"
  const IdNumberKey: string := "idNumber"
  const UsernameKey: string := "username"
  const AccountKey: string := "accountNumber"
  const PasswordKey: string := "password"

  /** The keys of the form data, in the order `Object.keys` lists them. */
  const Keys: seq<string> := [FullNameKey, IdNumberKey, UsernameKey, AccountKey, PasswordKey]

  const SignUpAction: string := "Sign Up"
  const LoginAction: string := "Login"

  const SignUpSuccessMessage: string := "Account created successfully!"

  // ---------------------------------------------------------------------------
  // patterns and validateField

  /** `/^[a-zA-Z\s]{2,50}$/` */
  predicate IsFullName(s: string)
  {
    2 <= |s| <= 50 && forall i :: 0 <= i < |s| ==> IsLetter(s[i]) || IsWhitespace(s[i])
  }

  /** `/^\d{13}$/` */
  predicate IsIdNumber(s: string)
  {
    |s| == 13 && AllDigits(s)
  }

  /** `/^[a-zA-Z0-9_]{3,20}$/` */
  predicate IsUsername(s: string)
  {
    3 <= |s| <= 20 && forall i :: 0 <= i < |s| ==> IsWordChar(s[i])
  }

  /** `[@$!%*?&]` */
  predicate IsSpecial(c: char)
  {
    c == '@' || c == '$' || c == '!' || c == '%' || c == '*' || c == '?' || c == '&'
  }

  /** The password pattern: 8-20 characters drawn from letters, digits and `@$!%*?&`,
      with at least one lower-case letter, one upper-case letter, one digit and one
      special character (the four look-aheads). */
  predicate IsPassword(s: string)
  {
    && 8 <= |s| <= 20
    && (forall i :: 0 <= i < |s| ==> IsLetter(s[i]) || IsDigit(s[i]) || IsSpecial(s[i]))
    && (exists i :: 0 <= i < |s| && IsLower(s[i]))
    && (exists i :: 0 <= i < |s| && IsUpper(s[i]))
    && (exists i :: 0 <= i < |s| && IsDigit(s[i]))
    && (exists i :: 0 <= i < |s| && IsSpecial(s[i]))
  }

  /** `validateField`: the field's pattern, or true for a name without one. */
  function ValidateField(name: string, value: string): bool
  {
    if name == FullNameKey then IsFullName(value)
    else if name == IdNumberKey then IsIdNumber(value)
    else if name == UsernameKey then IsUsername(value)
    else if name == AccountKey then Patterns.IsAccountNumber(value)
    else if name == PasswordKey then IsPassword(value)
    else true
  }

  /** A name without a pattern always validates, and no pattern accepts the empty text. */
  lemma ValidateFieldSpec(name: string, value: string)
    ensures name !in Keys ==> ValidateField(name, value)
    ensures value == "" ==> (ValidateField(name, value) <==> name !in Keys)
  {
  }

  /** A password with a letter of each case, a digit and a special character passes
      at 9 and at 20 characters. */
  lemma PasswordAccepted(p: string, q: string)
    requires p == "Passw0rd!" && q == "Passw0rd!Passw0rd!Pa"
    ensures IsPassword(p) && IsPassword(q)
  {
    assert IsLower(p[1]) && IsUpper(p[0]) && IsDigit(p[5]) && IsSpecial(p[8]);
    assert IsLower(q[1]) && IsUpper(q[0]) && IsDigit(q[5]) && IsSpecial(q[8]);
  }

  /** Without an upper-case letter, with a space, or at 21 characters a password fails. */
  lemma PasswordRefused(p: string, q: string, r: string)
    requires p == "passw0rd!" && q == "Pass w0rd!" && r == "Passw0rd!Passw0rd!Pas"
    ensures !IsPassword(p) && !IsPassword(q) && !IsPassword(r)
  {
    assert forall i :: 0 <= i < |p| ==> !IsUpper(p[i]);
    assert !(IsLetter(q[4]) || IsDigit(q[4]) || IsSpecial(q[4]));
  }

  function ValidationMessage(name: string): string
    requires name in Keys
  {
    if name == FullNameKey then "Full name must be 2-50 characters, letters and spaces only"
    else if name == IdNumberKey then "ID number must be exactly 13 digits"
    else if name == UsernameKey then "Username must be 3-20 characters, alphanumeric and underscore only"
    else if name == AccountKey then "Account number must be 10-12 digits"
    else "Password must be 8-20 characters with uppercase, lowercase, digit, and special character"
  }

  /** `${key.charAt(0).toUpperCase() + key.slice(1)} is required` */
  function RequiredMessage(key: string): string
    requires key != ""
  {
    [UpperChar(key[0])] + key[1..] + " is required"
  }

  /** The key is shown as written, with only its first letter raised. */
  lemma RequiredMessages()
    ensures RequiredMessage(FullNameKey) == "FullName is required"
    ensures RequiredMessage(IdNumberKey) == "IdNumber is required"
    ensures RequiredMessage(AccountKey) == "AccountNumber is required"
  {
    FullNameRequired();
    IdNumberRequired();
    AccountRequired();
  }

  lemma FullNameRequired()
    ensures RequiredMessage(FullNameKey) == "FullName is required"
  {
  }

  lemma IdNumberRequired()
    ensures RequiredMessage(IdNumberKey) == "IdNumber is required"
  {
  }

  lemma AccountRequired()
    ensures RequiredMessage(AccountKey) == "AccountNumber is required"
  {
  }

  // ---------------------------------------------------------------------------
  // validateForm

  /** Sign-up checks every key; login skips fullName and idNumber. */
  predicate Checked(action: string, key: string)
  {
    action == SignUpAction || (key != FullNameKey && key != IdNumberKey)
  }

  /** The message `validateForm` sets on `key`, if any. */
  function FieldError(action: string, data: map<string, string>, key: string): Option<string>
    requires key in Keys && key in data
  {
    if !Checked(action, key) then None
    else if data[key] == "" then Some(RequiredMessage(key))
    else if !ValidateField(key, data[key]) then Some(ValidationMessage(key))
    else None
  }

  /** The error object after checking `keys` in order. */
  function ErrorsOver(action: string, data: map<string, string>, keys: seq<string>): map<string, string>
    requires forall k :: k in keys ==> k in Keys && k in data
  {
    if keys == [] then map[]
    else
      var m := ErrorsOver(action, data, keys[..|keys| - 1]);
      var key := keys[|keys| - 1];
      match FieldError(action, data, key)
      case None => m
      case Some(e) => m[key := e]
  }

  /** A key has an entry exactly when it was checked and its value is empty or fails its
      pattern; the entry is the "required" message for an empty value and the field's
      message otherwise. */
  lemma {:induction false} ErrorsOverSpec(action: string, data: map<string, string>, keys: seq<string>)
    requires forall k :: k in keys ==> k in Keys && k in data
    ensures forall k :: k in ErrorsOver(action, data, keys) <==>
      k in keys && Checked(action, k) && (data[k] == "" || !ValidateField(k, data[k]))
    ensures forall k :: k in ErrorsOver(action, data, keys) ==>
      ErrorsOver(action, data, keys)[k] == if data[k] == "" then RequiredMessage(k) else ValidationMessage(k)
  {
    if keys != [] {
      var front := keys[..|keys| - 1];
      assert forall k :: k in keys <==> k in front || k == keys[|keys| - 1];
      ErrorsOverSpec(action, data, front);
    }
  }

  /** `validateForm`: in sign-up mode every field is checked; in login mode fullName
      and idNumber never get an entry while username, accountNumber and password are
      checked as on sign-up. */
  lemma ValidateFormSpec(action: string, data: map<string, string>)
    requires forall k :: k in Keys ==> k in data
    ensures var e := ErrorsOver(action, data, Keys);
      && (forall k :: k in e <==> k in Keys && Checked(action, k) && !ValidateField(k, data[k]))
      && (action == SignUpAction ==> forall k :: k in Keys ==> (k in e <==> !ValidateField(k, data[k])))
      && (action != SignUpAction ==> FullNameKey !in e && IdNumberKey !in e)
      && (e == map[] <==> forall k :: k in Keys && Checked(action, k) ==> ValidateField(k, data[k]))
  {
    ErrorsOverSpec(action, data, Keys);
    forall k | k in Keys ensures (data[k] == "" || !ValidateField(k, data[k])) <==> !ValidateField(k, data[k]) {
      ValidateFieldSpec(k, data[k]);
    }
    var e := ErrorsOver(action, data, Keys);
    if e != map[] {
      var k :| k in e;
      assert k in Keys && Checked(action, k) && !ValidateField(k, data[k]);
    }
  }

  /** Checking one more key adds its message, if it has one. */
  lemma ErrorsOverStep(action: string, data: map<string, string>, keys: seq<string>, i: nat)
    requires i < |keys|
    requires forall k :: k in keys ==> k in Keys && k in data
    ensures var m := ErrorsOver(action, data, keys[..i]);
      ErrorsOver(action, data, keys[..i + 1])
      == match FieldError(action, data, keys[i]) case None => m case Some(e) => m[keys[i] := e]
  {
    assert keys[..i + 1][..i] == keys[..i];
  }

  /** `validateForm`: the `forEach` over the form's keys. */
  method ValidateForm(action: string, data: map<string, string>) returns (newErrors: map<string, string>)
    requires forall k :: k in Keys ==> k in data
    ensures newErrors == ErrorsOver(action, data, Keys)
  {
    newErrors := map[];
    for i := 0 to |Keys|
      invariant newErrors == ErrorsOver(action, data, Keys[..i])
    {
      var key := Keys[i];
      ErrorsOverStep(action, data, Keys, i);
      if action == SignUpAction || (key != FullNameKey && key != IdNumberKey) {
        if data[key] == "" {
          newErrors := newErrors[key := RequiredMessage(key)];
        } else if !ValidateField(key, data[key]) {
          newErrors := newErrors[key := ValidationMessage(key)];
        }
      }
    }
    assert Keys[..|Keys|] == Keys;
  }

  // ---------------------------------------------------------------------------
  // handleInputChange

  /** The error object after `value` is typed into `name`. */
  function InputChanged(errors: map<string, string>, name: string, value: string): map<string, string>
    requires name in Keys
  {
    if value != "" && !ValidateField(name, value) then errors[name := ValidationMessage(name)]
    else errors - {name}
  }

  /** The field's entry is set exactly when the value is non-empty and fails its
      pattern, and removed otherwise; every other entry is untouched. The live check
      agrees with the submit check on a non-empty value of a checked field. */
  lemma InputChangedSpec(errors: map<string, string>, name: string, value: string, action: string, data: map<string, string>)
    requires name in Keys
    requires forall k :: k in Keys ==> k in data
    ensures var e := InputChanged(errors, name, value);
      && (name in e <==> value != "" && !ValidateField(name, value))
      && (forall k :: k != name ==> (k in e <==> k in errors) && (k in errors ==> e[k] == errors[k]))
      && (value != "" && Checked(action, name) ==> (name in e <==> name in ErrorsOver(action, data[name := value], Keys)))
  {
    ErrorsOverSpec(action, data[name := value], Keys);
  }

  // ---------------------------------------------------------------------------
  // The server's messages on the form

  /** Which field a server message belongs to: case-sensitive `includes`, first match
      wins. */
  function ClassifyLoginError(err: string): (f: Option<string>)
    ensures f.Some? ==> f.value in Keys
  {
    if Contains(err, "name") then Some(FullNameKey)
    else if Contains(err, "ID") then Some(IdNumberKey)
    else if Contains(err, "Username") then Some(UsernameKey)
    else if Contains(err, "Account") then Some(AccountKey)
    else if Contains(err, "Password") then Some(PasswordKey)
    else None
  }

  /** Every message containing "Username" also contains "name" and lands on fullName:
      no message ever lands on username. */
  lemma UsernameBranchUnreachable(err: string)
    ensures ClassifyLoginError(err) != Some(UsernameKey)
    ensures Contains(err, "Username") ==> ClassifyLoginError(err) == Some(FullNameKey)
  {
    if Contains(err, "Username") {
      ContainsPiece(err, "Username", 4, "name");
    }
  }

  // ---------------------------------------------------------------------------
  // The form

  /** The form data as first shown and after a reset. */
  const EmptyForm: map<string, string> :=
    map[FullNameKey := "", IdNumberKey := "", UsernameKey := "", AccountKey := "", PasswordKey := ""]

  function Endpoint(action: string): string
  {
    if action == SignUpAction then "/auth/signup" else "/auth/login"
  }

  class LoginSignupForm {
    var action: string
    var formData: map<string, string>
    var errors: map<string, string>
    var successMessage: string

    /** The form data always has exactly the five keys. */
    ghost predicate Valid()
      reads this
    {
      formData.Keys == EmptyForm.Keys
    }

    constructor (initialAction: string)
      ensures Valid()
      ensures action == initialAction && formData == EmptyForm && errors == map[] && successMessage == ""
    {
      action := initialAction;
      formData := EmptyForm;
      errors := map[];
      successMessage := "";
    }

    /** `handleInputChange` for input `name`. */
    method HandleInputChange(name: string, value: string)
      requires Valid() && name in Keys
      modifies this`formData, this`errors
      ensures Valid()
      ensures formData == old(formData)[name := value]
      ensures errors == InputChanged(old(errors), name, value)
    {
      formData := formData[name := value];
      if value != "" && !ValidateField(name, value) {
        errors := errors[name := ValidationMessage(name)];
      } else {
        errors := errors - {name};
      }
    }

    /** `handleSubmit` up to the request: any validation error is shown and nothing is
        sent; otherwise errors and success message are cleared and the form data is
        posted to the endpoint of the current mode. */
    method Submit() returns (request: Option<(string, map<string, string>)>)
      requires Valid()
      modifies this`errors, this`successMessage
      ensures var v := ErrorsOver(action, formData, Keys);
        && (request.None? <==> v != map[])
        && (request.None? ==> errors == v && successMessage == old(successMessage))
        && (request.Some? ==> request.value == (Endpoint(action), formData) && errors == map[] && successMessage == "")
    {
      var validationErrors := ValidateForm(action, formData);
      if validationErrors != map[] {
        errors := validationErrors;
        return None;
      }
      errors := map[];
      successMessage := "";
      request := Some((Endpoint(action), formData));
    }

    /** A 200/201 answer: a sign-up shows its success message and empties the form (a
        login leaves the form for the next page). */
    method Succeeded()
      requires Valid()
      modifies this`successMessage, this`formData
      ensures Valid()
      ensures action == SignUpAction ==> successMessage == SignUpSuccessMessage && formData == EmptyForm
      ensures action != SignUpAction ==> successMessage == old(successMessage) && formData == old(formData)
    {
      if action == SignUpAction {
        successMessage := SignUpSuccessMessage;
        formData := EmptyForm;
      }
    }

    /** A rejected request whose body lists `errors`: they replace the form's errors. */
    method Rejected(serverErrors: seq<string>)
      modifies this`errors
      ensures errors == FormErrors.FieldErrors(serverErrors, ClassifyLoginError)
      ensures UsernameKey !in errors
    {
      errors := FormErrors.MapServerErrors(serverErrors, ClassifyLoginError);
      FormErrors.FieldErrorsSpec(serverErrors, ClassifyLoginError);
      forall i | 0 <= i < |serverErrors| ensures ClassifyLoginError(serverErrors[i]) != Some(UsernameKey) {
        UsernameBranchUnreachable(serverErrors[i]);
      }
    }

    /** `handleModeSwitch`: the new mode, with no errors, no success message and an
        empty form. */
    method HandleModeSwitch(newAction: string)
      modifies this
      ensures Valid()
      ensures action == newAction && errors == map[] && successMessage == "" && formData == EmptyForm
    {
      action := newAction;
      errors := map[];
      successMessage := "";
      formData := EmptyForm;
    }
  }
}
