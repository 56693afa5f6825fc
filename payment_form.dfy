/** The customer's payment page: the form's checks while typing and on submit, the
    request it sends, how a response is shown on the form, and the history filter.
    Amounts are read as whole cents; the amount pattern admits no other text. */
module PaymentForm {
  import opened Base
  import opened Text
  import opened Patterns
  import opened PaymentSchema
  import FormErrors
  import StatusFilter
  import UserModel
  import PaymentRoutes

  const AccountField: string := "payeeAccountNumber"
  const AmountField: string := "amount"
  const CurrencyField: string := "currency"
  const ProviderField: string := "provider"
  const SwiftField: string := "swiftCode"

  /** The names of the form's inputs. */
  const Fields: seq<string> := [AccountField, AmountField, CurrencyField, ProviderField, SwiftField]

  const AccountRequiredMessage: string := "Payee account number is required"
  const AccountFormatMessage: string := "Account number must be 10-12 digits"
  const AmountRequiredMessage: string := "Amount is required"
  const AmountRangeMessage: string := "Amount must be between 0.01 and 1,000,000"
  const SwiftRequiredMessage: string := "SWIFT code is required for SWIFT payments"
  const SwiftFormatMessage: string := "Invalid SWIFT code format"
  const SwiftLiveMessage: string := "Invalid SWIFT code format (e.g., ABSAZAJJ)"

  /** The options of the currency select. */
  const CurrencyOptions: seq<string> := ["ZAR", "USD", "EUR", "GBP", "AUD", "CAD", "JPY", "CNY"]

  /** The options of the provider select. */
  const ProviderOptions: seq<string> := ["SWIFT", "Local Bank Transfer", "PayPal", "Wire Transfer"]

  /** 1,000,000 in cents. */
  const MaxCents: nat := 100000000

  /** The selects offer exactly the schema's enums. */
  lemma OptionsAreTheSchemaEnums()
    ensures CurrencyOptions == Currencies && ProviderOptions == Providers
  {
  }

  /** The amount check: the two-decimals pattern, then `parseFloat(value) > 0` and
      `<= 1000000`, which on a text of that pattern compare its cents exactly. */
  predicate AmountAccepted(s: string)
  {
    AmountCents(s).Some? && 0 < AmountCents(s).value <= MaxCents
  }

  /** "0.01" and "1000000.00" are the extremes the form accepts; "0" and "1000000.01"
      are refused. */
  lemma AmountBoundaries()
    ensures AmountAccepted("0.01") && AmountAccepted("1000000.00")
    ensures !AmountAccepted("0") && !AmountAccepted("1000000.01")
  {
    SmallestAmount();
    LargestAmount();
    JustAboveLargestAmount();
    AmountShapes();
  }

  datatype FormData = FormData(
    payeeAccountNumber: string,
    amount: string,
    currency: string,
    provider: string,
    swiftCode: string)

  /** The form as first shown and after a successful payment. */
  const InitialData: FormData := FormData("", "", "ZAR", "SWIFT", "")

  function Get(d: FormData, name: string): string
    requires name in Fields
  {
    if name == AccountField then d.payeeAccountNumber
    else if name == AmountField then d.amount
    else if name == CurrencyField then d.currency
    else if name == ProviderField then d.provider
    else d.swiftCode
  }

  /** `{ ...prev, [name]: value }` */
  function Set(d: FormData, name: string, value: string): (r: FormData)
    requires name in Fields
    ensures Get(r, name) == value
    ensures forall other :: other in Fields && other != name ==> Get(r, other) == Get(d, other)
  {
    if name == AccountField then d.(payeeAccountNumber := value)
    else if name == AmountField then d.(amount := value)
    else if name == CurrencyField then d.(currency := value)
    else if name == ProviderField then d.(provider := value)
    else d.(swiftCode := value)
  }

  // ---------------------------------------------------------------------------
  // validateForm

  function AccountError(s: string): Option<string>
  {
    if s == "" then Some(AccountRequiredMessage)
    else if !IsAccountNumber(s) then Some(AccountFormatMessage)
    else None
  }

  function AmountError(s: string): Option<string>
  {
    if s == "" then Some(AmountRequiredMessage)
    else if !AmountAccepted(s) then Some(AmountRangeMessage)
    else None
  }

  /** The SWIFT code is checked only while the provider is SWIFT. */
  function SwiftError(provider: string, s: string): Option<string>
  {
    if provider != "SWIFT" then None
    else if s == "" then Some(SwiftRequiredMessage)
    else if !IsSwiftCode(s) then Some(SwiftFormatMessage)
    else None
  }

  /** An error object with `key` set when there is a message for it. */
  function Put(m: map<string, string>, key: string, e: Option<string>): map<string, string>
  {
    if e.Some? then m[key := e.value] else m
  }

  /** The object `validateForm` returns. */
  function ValidationErrors(d: FormData): map<string, string>
  {
    var m := Put(map[], AccountField, AccountError(d.payeeAccountNumber));
    var m := Put(m, AmountField, AmountError(d.amount));
    Put(m, SwiftField, SwiftError(d.provider, d.swiftCode))
  }

  /** The form passes exactly when the account has 10-12 digits, the amount is a
      two-decimals number in (0, 1,000,000], and, for SWIFT payments only, the SWIFT
      code matches its pattern. An empty field gets its "required" message, any other
      failing field its format message, one message per field; currency and provider
      never get one. */
  lemma ValidationErrorsSpec(d: FormData)
    ensures var v := ValidationErrors(d);
      && (v == map[] <==> IsAccountNumber(d.payeeAccountNumber) && AmountAccepted(d.amount)
                          && (d.provider == "SWIFT" ==> IsSwiftCode(d.swiftCode)))
      && (AccountField in v <==> !IsAccountNumber(d.payeeAccountNumber))
      && (AccountField in v ==> v[AccountField] == if d.payeeAccountNumber == "" then AccountRequiredMessage else AccountFormatMessage)
      && (AmountField in v <==> !AmountAccepted(d.amount))
      && (AmountField in v ==> v[AmountField] == if d.amount == "" then AmountRequiredMessage else AmountRangeMessage)
      && (SwiftField in v <==> d.provider == "SWIFT" && !IsSwiftCode(d.swiftCode))
      && (SwiftField in v ==> v[SwiftField] == if d.swiftCode == "" then SwiftRequiredMessage else SwiftFormatMessage)
      && v.Keys <= {AccountField, AmountField, SwiftField}
  {
    var v := ValidationErrors(d);
    if IsAccountNumber(d.payeeAccountNumber) && AmountAccepted(d.amount) && (d.provider == "SWIFT" ==> IsSwiftCode(d.swiftCode)) {
      assert v == map[];
    } else {
      assert AccountField in v || AmountField in v || SwiftField in v;
    }
  }

  /** `validateForm`: each field's check in turn. */
  method ValidateForm(d: FormData) returns (newErrors: map<string, string>)
    ensures newErrors == ValidationErrors(d)
  {
    newErrors := map[];
    if d.payeeAccountNumber == "" {
      newErrors := newErrors[AccountField := AccountRequiredMessage];
    } else if !IsAccountNumber(d.payeeAccountNumber) {
      newErrors := newErrors[AccountField := AccountFormatMessage];
    }
    ghost var afterAccount := Put(map[], AccountField, AccountError(d.payeeAccountNumber));
    assert newErrors == afterAccount;
    if d.amount == "" {
      newErrors := newErrors[AmountField := AmountRequiredMessage];
    } else if !AmountAccepted(d.amount) {
      newErrors := newErrors[AmountField := AmountRangeMessage];
    }
    ghost var afterAmount := Put(afterAccount, AmountField, AmountError(d.amount));
    assert newErrors == afterAmount;
    if d.provider == "SWIFT" {
      if d.swiftCode == "" {
        newErrors := newErrors[SwiftField := SwiftRequiredMessage];
      } else if !IsSwiftCode(d.swiftCode) {
        newErrors := newErrors[SwiftField := SwiftFormatMessage];
      }
    }
    assert newErrors == Put(afterAmount, SwiftField, SwiftError(d.provider, d.swiftCode));
  }

  // ---------------------------------------------------------------------------
  // handleChange

  /** What is stored for `value` typed into `name`: the SWIFT code is upper-cased
      while the provider is SWIFT, every other value is kept as typed. */
  function StoredValue(name: string, value: string, provider: string): string
  {
    if name == SwiftField && provider == "SWIFT" then ToUpper(value) else value
  }

  /** The message the live check sets on `name`, if any. Empty values are never
      flagged; the SWIFT code is checked upper-cased and only under the SWIFT provider. */
  function LiveError(name: string, value: string, provider: string): Option<string>
  {
    if name == AccountField && value != "" && !IsAccountNumber(value) then Some(AccountFormatMessage)
    else if name == AmountField && value != "" && !AmountAccepted(value) then Some(AmountRangeMessage)
    else if name == SwiftField && provider == "SWIFT" && value != "" && !IsSwiftCode(ToUpper(value)) then Some(SwiftLiveMessage)
    else None
  }

  /** The form data and errors after `value` is typed into `name`: that field's error
      is cleared, the value stored, and the live check may set the error again. */
  function AfterChange(d: FormData, errors: map<string, string>, name: string, value: string): (FormData, map<string, string>)
    requires name in Fields
  {
    (Set(d, name, StoredValue(name, value, d.provider)), Put(errors - {name}, name, LiveError(name, value, d.provider)))
  }

  /** A change touches only its own field and that field's error; the error is set
      exactly when the live check fails. */
  lemma ChangeIsLocal(d: FormData, errors: map<string, string>, name: string, value: string)
    requires name in Fields
    ensures var (d', errors') := AfterChange(d, errors, name, value);
      && Get(d', name) == StoredValue(name, value, d.provider)
      && (forall other :: other in Fields && other != name ==> Get(d', other) == Get(d, other))
      && (name in errors' <==> LiveError(name, value, d.provider).Some?)
      && (forall k :: k != name ==> (k in errors' <==> k in errors))
      && (forall k :: k != name && k in errors ==> errors'[k] == errors[k])
  {
  }

  /** The live check and the submit check agree on a non-empty account or amount, and
      on a non-empty SWIFT code under the SWIFT provider once it is upper-cased: a
      field the live check leaves clean passes on submit unless it is empty. Currency
      and provider changes are never flagged. */
  lemma LiveCheckAgreesWithSubmit(d: FormData, errors: map<string, string>, name: string, value: string)
    requires name in Fields && value != ""
    ensures var (d', errors') := AfterChange(d, errors, name, value);
      && (name in {AccountField, AmountField} ==> (name in errors' <==> name in ValidationErrors(d')))
      && (name == SwiftField && d.provider == "SWIFT" ==> (name in errors' <==> name in ValidationErrors(d')))
      && (name in {CurrencyField, ProviderField} ==> name !in errors')
  {
    var (d', errors') := AfterChange(d, errors, name, value);
    ValidationErrorsSpec(d');
  }

  /** Under the SWIFT provider a typed code is stored upper-cased and flagged exactly
      when it is non-empty and its upper-cased form is not a BIC, so a lower-case
      spelling of a valid code is accepted; under another provider it is stored as
      typed and never flagged. */
  lemma SwiftUppercasedOnlyUnderSwift(d: FormData, errors: map<string, string>, code: string, provider: string)
    ensures var (d', errors') := AfterChange(d.(provider := "SWIFT"), errors, SwiftField, code);
      && d'.swiftCode == ToUpper(code)
      && (SwiftField in errors' <==> code != "" && !IsSwiftCode(ToUpper(code)))
    ensures provider != "SWIFT" ==>
      var (d', errors') := AfterChange(d.(provider := provider), errors, SwiftField, code);
      d'.swiftCode == code && SwiftField !in errors'
  {
  }

  /** The lower-case code "absazajj" as an instance. */
  lemma SwiftUppercasedExample(d: FormData, errors: map<string, string>)
    ensures var (d', errors') := AfterChange(d.(provider := "SWIFT"), errors, SwiftField, "absazajj");
      d'.swiftCode == "ABSAZAJJ" && SwiftField !in errors'
    ensures var (d', errors') := AfterChange(d.(provider := "PayPal"), errors, SwiftField, "absazajj");
      d'.swiftCode == "absazajj" && SwiftField !in errors'
  {
    assert ToUpper("absazajj") == "ABSAZAJJ";
    SwiftExamples();
  }

  // ---------------------------------------------------------------------------
  // The request, and the response on the form

  /** `JSON.stringify(formData)`: the five fields and no user id; the server takes the
      owner from the token. */
  function RequestBody(d: FormData): PaymentRoutes.PaymentBody
  {
    PaymentRoutes.PaymentBody(Str(d.payeeAccountNumber), Str(d.amount), Str(d.currency), Str(d.provider), Str(d.swiftCode))
  }

  /** Which field a server message belongs to: case-sensitive `includes`, first match
      wins. */
  function ClassifyPaymentError(err: string): (f: Option<string>)
    ensures f.Some? ==> f.value in {AccountField, AmountField, SwiftField}
  {
    if Contains(err, "account") then Some(AccountField)
    else if Contains(err, "amount") then Some(AmountField)
    else if Contains(err, "SWIFT") then Some(SwiftField)
    else None
  }

  /** The account message of the route lands on the account field. */
  lemma AccountMessageOnAccount()
    ensures ClassifyPaymentError(PaymentRoutes.Message(PaymentRoutes.AccountRule)) == Some(AccountField)
  {
    ContainsAt(PaymentRoutes.Message(PaymentRoutes.AccountRule), "account", 14);
  }

  lemma SwiftMessagePairs(m: string)
    requires m == "Valid SWIFT code required for SWIFT payments"
    ensures forall j :: 0 <= j < |m| - 1 ==> !(m[j] == 'a' && m[j + 1] == 'c')
    ensures forall j :: 0 <= j < |m| - 1 ==> !(m[j] == 'a' && m[j + 1] == 'm')
  {
  }

  /** The SWIFT message of the route lands on the SWIFT field. */
  lemma SwiftMessageOnSwift()
    ensures ClassifyPaymentError(PaymentRoutes.Message(PaymentRoutes.SwiftRule)) == Some(SwiftField)
  {
    var m := PaymentRoutes.Message(PaymentRoutes.SwiftRule);
    SwiftMessagePairs(m);
    NotContainsByPair(m, "account");
    NotContainsByPair(m, "amount");
    ContainsAt(m, "SWIFT", 6);
  }

  lemma AmountMessagePairs(m: string)
    requires m == "Amount must be between 0.01 and 1,000,000"
    ensures forall j :: 0 <= j < |m| - 1 ==> !(m[j] == 'a' && m[j + 1] == 'c')
    ensures forall j :: 0 <= j < |m| - 1 ==> !(m[j] == 'a' && m[j + 1] == 'm')
    ensures forall j :: 0 <= j < |m| - 1 ==> !(m[j] == 'S' && m[j + 1] == 'W')
  {
  }

  /** The amount message starts with a capital "A": it contains neither "account" nor
      "amount" nor "SWIFT" and lands nowhere. */
  lemma AmountMessageDropped()
    ensures ClassifyPaymentError(PaymentRoutes.Message(PaymentRoutes.AmountRule)) == None
  {
    var m := PaymentRoutes.Message(PaymentRoutes.AmountRule);
    AmountMessagePairs(m);
    NotContainsByPair(m, "account");
    NotContainsByPair(m, "amount");
    NotContainsByPair(m, "SWIFT");
  }

  lemma CurrencyMessageDropped()
    ensures ClassifyPaymentError(PaymentRoutes.Message(PaymentRoutes.CurrencyRule)) == None
  {
    var m := PaymentRoutes.Message(PaymentRoutes.CurrencyRule);
    NotContainsByPair(m, "account");
    NotContainsByPair(m, "amount");
    NotContainsByPair(m, "SWIFT");
  }

  lemma ProviderMessageDropped()
    ensures ClassifyPaymentError(PaymentRoutes.Message(PaymentRoutes.ProviderRule)) == None
  {
    var m := PaymentRoutes.Message(PaymentRoutes.ProviderRule);
    NotContainsByPair(m, "account");
    NotContainsByPair(m, "amount");
    NotContainsByPair(m, "SWIFT");
  }

  /** Where a message of the route lands: only the account message on the account
      field, only the SWIFT message on the SWIFT field, and no message anywhere else. */
  lemma RouteMessageLands(r: PaymentRoutes.Rule)
    ensures var f := ClassifyPaymentError(PaymentRoutes.Message(r));
      && (f == Some(AccountField) <==> r == PaymentRoutes.AccountRule)
      && (f == Some(SwiftField) <==> r == PaymentRoutes.SwiftRule)
      && (f.Some? ==> f.value in {AccountField, SwiftField})
  {
    match r
    case AccountRule => AccountMessageOnAccount();
    case AmountRule => AmountMessageDropped();
    case CurrencyRule => CurrencyMessageDropped();
    case ProviderRule => ProviderMessageDropped();
    case SwiftRule => SwiftMessageOnSwift();
  }

  /** Every message in the route's list is the message of a rule. */
  lemma {:induction false} CollectedAreRuleMessages(rules: seq<PaymentRoutes.Rule>, input: PaymentRoutes.PaymentInput)
    ensures forall i :: 0 <= i < |PaymentRoutes.Collect(rules, input)| ==>
      exists r :: r in rules && PaymentRoutes.Collect(rules, input)[i] == PaymentRoutes.Message(r)
  {
    if rules != [] {
      CollectedAreRuleMessages(rules[1..], input);
      var head := PaymentRoutes.Pushed(input, rules[0]);
      var rest := PaymentRoutes.Collect(rules[1..], input);
      var c := PaymentRoutes.Collect(rules, input);
      assert c == head + rest;
      assert rules[0] in rules;
      assert forall r :: r in rules[1..] ==> r in rules;
      forall i | 0 <= i < |c|
        ensures exists r :: r in rules && c[i] == PaymentRoutes.Message(r)
      {
        if i < |head| {
          assert c[i] == PaymentRoutes.Message(rules[0]);
        } else {
          assert c[i] == rest[i - |head|];
          var r :| r in rules[1..] && rest[i - |head|] == PaymentRoutes.Message(r);
          assert r in rules;
        }
      }
    } else {
      assert PaymentRoutes.Collect(rules, input) == [];
    }
  }

  /** Where each message of the route's list lands. */
  lemma ViolationMessagesLand(input: PaymentRoutes.PaymentInput)
    ensures var msgs := PaymentRoutes.ViolationMessages(input);
      forall i :: 0 <= i < |msgs| ==>
        var f := ClassifyPaymentError(msgs[i]);
        && (f == Some(AccountField) <==> msgs[i] == PaymentRoutes.Message(PaymentRoutes.AccountRule))
        && (f == Some(SwiftField) <==> msgs[i] == PaymentRoutes.Message(PaymentRoutes.SwiftRule))
        && (f.Some? ==> f.value in {AccountField, SwiftField})
  {
    var msgs := PaymentRoutes.ViolationMessages(input);
    CollectedAreRuleMessages(PaymentRoutes.RuleOrder, input);
    forall i | 0 <= i < |msgs|
      ensures var f := ClassifyPaymentError(msgs[i]);
        && (f == Some(AccountField) <==> msgs[i] == PaymentRoutes.Message(PaymentRoutes.AccountRule))
        && (f == Some(SwiftField) <==> msgs[i] == PaymentRoutes.Message(PaymentRoutes.SwiftRule))
        && (f.Some? ==> f.value in {AccountField, SwiftField})
    {
      var r :| r in PaymentRoutes.RuleOrder && msgs[i] == PaymentRoutes.Message(r);
      RouteMessageLands(r);
      PaymentRoutes.MessagesDistinct(r, PaymentRoutes.AccountRule);
      PaymentRoutes.MessagesDistinct(r, PaymentRoutes.SwiftRule);
    }
  }

  /** A 400 from the route puts the account message on the account field exactly when
      the account rule was broken and the SWIFT message on the SWIFT field exactly when
      the SWIFT rule was; no other field ever gets a server message, so a refused amount
      shows none. */
  lemma RouteErrorsOnTheForm(input: PaymentRoutes.PaymentInput)
    ensures var m := FormErrors.FieldErrors(PaymentRoutes.ViolationMessages(input), ClassifyPaymentError);
      && (AccountField in m <==> PaymentRoutes.Violates(input, PaymentRoutes.AccountRule))
      && (SwiftField in m <==> PaymentRoutes.Violates(input, PaymentRoutes.SwiftRule))
      && m.Keys <= {AccountField, SwiftField}
  {
    var msgs := PaymentRoutes.ViolationMessages(input);
    var m := FormErrors.FieldErrors(msgs, ClassifyPaymentError);
    FormErrors.FieldErrorsSpec(msgs, ClassifyPaymentError);
    ViolationMessagesLand(input);
    var acc := PaymentRoutes.Message(PaymentRoutes.AccountRule);
    var swift := PaymentRoutes.Message(PaymentRoutes.SwiftRule);
    assert acc in msgs <==> PaymentRoutes.Violates(input, PaymentRoutes.AccountRule) by {
      PaymentRoutes.ViolationMessagesAreTheBrokenRules(input);
    }
    assert swift in msgs <==> PaymentRoutes.Violates(input, PaymentRoutes.SwiftRule) by {
      PaymentRoutes.ViolationMessagesAreTheBrokenRules(input);
    }
    assert AccountField in m <==> acc in msgs;
    assert SwiftField in m <==> swift in msgs;
  }

  // ---------------------------------------------------------------------------
  // A form the page lets through passes the route's rules

  lemma UpperUnchanged(s: string)
    requires forall i :: 0 <= i < |s| ==> IsUpperOrDigit(s[i])
    ensures ToUpper(s) == s
  {
  }

  /** A text of letters, digits, points and inner spaces is left as it is by
      sanitising. */
  lemma PlainTextSurvivesSanitizing(s: string)
    requires forall i :: 0 <= i < |s| ==> IsLetter(s[i]) || IsDigit(s[i]) || s[i] == '.' || s[i] == ' '
    requires s != [] ==> s[0] != ' ' && s[|s| - 1] != ' '
    ensures PaymentRoutes.SanitizeInput(Str(s)) == s
  {
    assert NoAngleBrackets(s);
    assert UserModel.NoSurroundingWhitespace(s) by {
      if s != [] {
        assert !IsWhitespace(s[0]) && !IsWhitespace(s[|s| - 1]);
      }
    }
  }

  /** Every character of an amount text is a digit or the point, and it starts and
      ends with a digit. */
  lemma AmountTextSurvivesSanitizing(s: string)
    requires IsAmountText(s)
    ensures PaymentRoutes.SanitizeInput(Str(s)) == s
  {
    if !(s != [] && AllDigits(s)) {
      var k :| 0 < k < |s| && s[k] == '.' && AllDigits(s[..k]) && 1 <= |s| - k - 1 <= 2 && AllDigits(s[k + 1..]);
      assert forall i :: 0 <= i < k ==> s[..k][i] == s[i];
      assert forall i :: k < i < |s| ==> s[k + 1..][i - k - 1] == s[i];
    }
    PlainTextSurvivesSanitizing(s);
  }

  lemma CurrencyOptionSurvives(c: string)
    requires c in CurrencyOptions
    ensures PaymentRoutes.SanitizeInput(Str(c)) == c && ToUpper(c) == c && IsCurrencyCode(c)
  {
    assert |c| == 3 && forall i :: 0 <= i < 3 ==> IsUpper(c[i]);
    UpperUnchanged(c);
    PlainTextSurvivesSanitizing(c);
  }

  lemma ProviderOptionSurvives(p: string)
    requires p in ProviderOptions
    ensures PaymentRoutes.SanitizeInput(Str(p)) == p
  {
    assert forall i :: 0 <= i < |p| ==> IsLetter(p[i]) || p[i] == ' ';
    PlainTextSurvivesSanitizing(p);
  }

  /** How the route reads the body of a form that passed the page's checks: every
      field as typed, the amount as its value. */
  lemma ReadAccount(d: FormData, parseFloat: string -> Option<real>)
    requires IsAccountNumber(d.payeeAccountNumber)
    ensures PaymentRoutes.ReadBody(RequestBody(d), parseFloat).payeeAccountNumber == d.payeeAccountNumber
  {
    PlainTextSurvivesSanitizing(d.payeeAccountNumber);
  }

  lemma ReadAmount(d: FormData, parseFloat: string -> Option<real>)
    requires AmountAccepted(d.amount)
    requires parseFloat(d.amount) == Some(AmountCents(d.amount).value as real / 100.0)
    ensures PaymentRoutes.ReadBody(RequestBody(d), parseFloat).amount == Some(AmountCents(d.amount).value as real / 100.0)
  {
    assert IsAmountText(d.amount);
    AmountTextSurvivesSanitizing(d.amount);
  }

  lemma ReadCurrency(d: FormData, parseFloat: string -> Option<real>)
    requires d.currency in CurrencyOptions
    ensures PaymentRoutes.ReadBody(RequestBody(d), parseFloat).currency == d.currency
  {
    CurrencyOptionSurvives(d.currency);
  }

  lemma ReadProvider(d: FormData, parseFloat: string -> Option<real>)
    requires d.provider in ProviderOptions
    ensures PaymentRoutes.ReadBody(RequestBody(d), parseFloat).provider == d.provider
  {
    ProviderOptionSurvives(d.provider);
  }

  lemma ReadSwiftCode(d: FormData, parseFloat: string -> Option<real>)
    requires IsSwiftCode(d.swiftCode)
    ensures PaymentRoutes.ReadBody(RequestBody(d), parseFloat).swiftCode == Some(d.swiftCode)
  {
    UpperUnchanged(d.swiftCode);
    PlainTextSurvivesSanitizing(d.swiftCode);
  }

  lemma AcceptedFields(d: FormData)
    requires ValidationErrors(d) == map[]
    ensures IsAccountNumber(d.payeeAccountNumber) && AmountAccepted(d.amount)
    ensures d.provider == "SWIFT" ==> IsSwiftCode(d.swiftCode)
  {
    ValidationErrorsSpec(d);
  }

  /** A form that passes the page's checks, with the currency and provider chosen from
      the selects, passes every rule of the route, given a `parseFloat` that reads the
      form's two-decimals amount as its value: the page's checks are at least as strict. */
  lemma AcceptedFormPassesRoute(d: FormData, parseFloat: string -> Option<real>)
    requires ValidationErrors(d) == map[]
    requires d.currency in CurrencyOptions && d.provider in ProviderOptions
    requires AmountCents(d.amount).Some? ==> parseFloat(d.amount) == Some(AmountCents(d.amount).value as real / 100.0)
    ensures PaymentRoutes.ViolationMessages(PaymentRoutes.ReadBody(RequestBody(d), parseFloat)) == []
  {
    AcceptedFields(d);
    ReadAccount(d, parseFloat);
    ReadAmount(d, parseFloat);
    ReadCurrency(d, parseFloat);
    ReadProvider(d, parseFloat);
    if d.provider == "SWIFT" {
      ReadSwiftCode(d, parseFloat);
    }
    CurrencyOptionSurvives(d.currency);
    var input := PaymentRoutes.ReadBody(RequestBody(d), parseFloat);
    var cents := AmountCents(d.amount).value;
    assert 0.0 < cents as real / 100.0 <= 1000000.0;
    OptionsAreTheSchemaEnums();
    PaymentRoutes.PassesEveryRule(input);
  }

  // ---------------------------------------------------------------------------
  // The page

  /** The payment page's form state. The selects keep currency and provider among
      their options. */
  class PaymentPage {
    var data: FormData
    var errors: map<string, string>

    ghost predicate Valid()
      reads this
    {
      data.currency in CurrencyOptions && data.provider in ProviderOptions
    }

    constructor ()
      ensures Valid() && data == InitialData && errors == map[]
    {
      data := InitialData;
      errors := map[];
    }

    /** `handleChange` for input `name`. A select only offers its options. */
    method HandleChange(name: string, value: string)
      requires Valid()
      requires name in Fields
      requires name == CurrencyField ==> value in CurrencyOptions
      requires name == ProviderField ==> value in ProviderOptions
      modifies this
      ensures Valid()
      ensures (data, errors) == AfterChange(old(data), old(errors), name, value)
    {
      ghost var cleared := errors - {name};
      if name in errors {
        errors := errors - {name};
      }
      assert errors == cleared;
      var provider := data.provider;
      data := Set(data, name, value);
      if name == AccountField && value != "" && !IsAccountNumber(value) {
        errors := errors[AccountField := AccountFormatMessage];
      }
      if name == AmountField {
        if value != "" && !AmountAccepted(value) {
          errors := errors[AmountField := AmountRangeMessage];
        }
      }
      if name == SwiftField && provider == "SWIFT" {
        var upperValue := ToUpper(value);
        data := data.(swiftCode := upperValue);
        if value != "" && !IsSwiftCode(upperValue) {
          errors := errors[SwiftField := SwiftLiveMessage];
        }
      }
      assert data == Set(old(data), name, StoredValue(name, value, provider));
      assert errors == Put(cleared, name, LiveError(name, value, provider));
    }

    /** `handleSubmit` up to the request: any validation error is shown and nothing is
        sent; otherwise the errors are cleared and the body is sent. */
    method Submit() returns (request: Option<PaymentRoutes.PaymentBody>)
      modifies this`errors
      ensures request.None? <==> ValidationErrors(data) != map[]
      ensures request.None? ==> errors == ValidationErrors(data)
      ensures request.Some? ==> request.value == RequestBody(data) && errors == map[]
    {
      var validationErrors := ValidateForm(data);
      if validationErrors != map[] {
        errors := validationErrors;
        return None;
      }
      errors := map[];
      request := Some(RequestBody(data));
    }

    /** The response of `/create`: a created payment resets the form; a 400 places its
        messages on the fields; any other failure is only alerted. */
    method Receive(response: PaymentRoutes.CreateResponse)
      requires Valid()
      modifies this
      ensures Valid()
      ensures response.Created? ==> data == InitialData && errors == old(errors)
      ensures response.ValidationFailed? ==>
                data == old(data) && errors == FormErrors.FieldErrors(response.errors, ClassifyPaymentError)
      ensures response.CreateFailed? ==> data == old(data) && errors == old(errors)
    {
      match response
      case Created(_, _) =>
        data := InitialData;
      case ValidationFailed(_, serverErrors) =>
        errors := FormErrors.MapServerErrors(serverErrors, ClassifyPaymentError);
      case CreateFailed(_) =>
    }
  }

  /** The history list for the selected filter. */
  function FilteredHistory(history: seq<Payment>, filter: string): seq<Payment>
  {
    StatusFilter.Filtered(history, (p: Payment) => p.status, filter)
  }

  /** "all" shows the whole history; any other filter shows exactly the payments whose
      status it names, each as often as in the history; a filter naming no status
      shows nothing. */
  lemma FilteredHistorySpec(history: seq<Payment>, filter: string)
    ensures filter == StatusFilter.AllFilter ==> FilteredHistory(history, filter) == history
    ensures filter != StatusFilter.AllFilter ==>
      forall p :: multiset(FilteredHistory(history, filter))[p] == if p.status.Name() == filter then multiset(history)[p] else 0
    ensures filter !in {"all", "pending", "processing", "completed", "failed"} ==> FilteredHistory(history, filter) == []
  {
    StatusFilter.FilteredSpec(history, (p: Payment) => p.status, filter);
  }
}
