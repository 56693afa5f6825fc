/** The payment routes: `sanitizeInput`, `POST /create` (validation collecting every
    violated rule, then construction and save), `GET /user/:userId`, `GET /` and
    `POST /verify/:paymentId`. The principal is the one the middleware attached; the
    employee-only routes run the employee guard first. */
module PaymentRoutes {
  import opened Base
  import opened Text
  import opened Documents
  import opened Patterns
  import opened PaymentSchema
  import opened PaymentStore
  import UserModel
  import opened AuthMiddleware

  // ---------------------------------------------------------------------------
  // sanitizeInput

  /** A string is trimmed and then loses every `<` and `>`; any other value becomes
      `String(input || '')`. */
  function SanitizeInput(v: JsValue): (r: string)
    ensures v.Str? ==> r == RemoveAngleBrackets(Trim(v.s))
    ensures v.Str? ==> NoAngleBrackets(r)
    ensures v.Str? && NoAngleBrackets(v.s) && UserModel.NoSurroundingWhitespace(v.s) ==> r == v.s
    ensures !v.Str? && !v.Truthy() ==> r == ""
  {
    match v
    case Str(s) => RemoveAngleBrackets(Trim(s))
    case Undefined => ""
    case Null => ""
    case Bool(b) => if b then "true" else ""
    case NonString(truthy, text) => if truthy then text else ""
  }

  /** Trimming runs before the brackets are removed, so removing a bracket can expose
      whitespace that a second pass would trim: sanitising is not idempotent. */
  lemma SanitizeIsNotIdempotent()
    ensures SanitizeInput(Str("a <")) == "a "
    ensures SanitizeInput(Str("a ")) == "a"
  {
    assert "a <" == ['a', ' ', '<'] && "a " == ['a', ' '] && "a" == ['a'];
    TrailingBracketDropped('a', ' ');
    TrailingSpaceTrimmed('a');
  }

  lemma TrailingBracketDropped(c: char, d: char)
    requires !IsWhitespace(c) && c != '<' && c != '>' && d != '<' && d != '>'
    ensures SanitizeInput(Str([c, d, '<'])) == [c, d]
  {
    var s := [c, d, '<'];
    BracketRemoved(c, d);
    assert Trim(s) == s by {
      assert !IsWhitespace(s[0]) && !IsWhitespace(s[|s| - 1]);
    }
    assert SanitizeInput(Str(s)) == RemoveAngleBrackets(Trim(s));
  }

  lemma BracketRemoved(c: char, d: char)
    requires c != '<' && c != '>' && d != '<' && d != '>'
    ensures RemoveAngleBrackets([c, d, '<']) == [c, d]
  {
    assert ['<'][1..] == [];
    assert RemoveAngleBrackets(['<']) == [];
    assert [d, '<'][1..] == ['<'];
    assert RemoveAngleBrackets([d, '<']) == [d];
    assert [c, d, '<'][1..] == [d, '<'];
  }

  lemma TrailingSpaceTrimmed(c: char)
    requires !IsWhitespace(c) && c != '<' && c != '>'
    ensures SanitizeInput(Str([c, ' '])) == [c]
  {
    var t := [c, ' '];
    assert TrimStart(t) == t;
    assert t[..1] == [c] && TrimEnd([c]) == [c];
  }

  /** Only strings lose their brackets: a truthy number, array or object is turned into
      text as it is. */
  lemma NonStringKeepsBrackets(text: string)
    ensures SanitizeInput(NonString(true, text)) == text
  {
  }

  // ---------------------------------------------------------------------------
  // POST /create: reading and validating the body

  /** The request body fields `/create` reads. */
  datatype PaymentBody = PaymentBody(
    payeeAccountNumber: JsValue,
    amount: JsValue,
    currency: JsValue,
    provider: JsValue,
    swiftCode: JsValue)

  /** The body after sanitising. `amount` is what `parseFloat` gives (None for NaN);
      `swiftCode` is None when the body's swiftCode is falsy. */
  datatype PaymentInput = PaymentInput(
    payeeAccountNumber: string,
    amount: Option<real>,
    currency: string,
    provider: string,
    swiftCode: Option<string>)

  /** Sanitise each field, parse the amount, upper-case currency and swiftCode. */
  function ReadBody(body: PaymentBody, parseFloat: string -> Option<real>): (input: PaymentInput)
    ensures input.swiftCode.Some? <==> body.swiftCode.Truthy()
    ensures |input.currency| == |SanitizeInput(body.currency)|
  {
    PaymentInput(
      SanitizeInput(body.payeeAccountNumber),
      parseFloat(SanitizeInput(body.amount)),
      ToUpper(SanitizeInput(body.currency)),
      SanitizeInput(body.provider),
      if body.swiftCode.Truthy() then Some(ToUpper(SanitizeInput(body.swiftCode))) else None)
  }

  /** The five rules, in the order they are checked. */
  datatype Rule = AccountRule | AmountRule | CurrencyRule | ProviderRule | SwiftRule

  const RuleOrder: seq<Rule> := [AccountRule, AmountRule, CurrencyRule, ProviderRule, SwiftRule]

  function Message(r: Rule): string
  {
    match r
    case AccountRule => "Invalid payee account number format"
    case AmountRule => "Amount must be between 0.01 and 1,000,000"
    case CurrencyRule => "Invalid currency code"
    case ProviderRule => "Invalid payment provider"
    case SwiftRule => "Valid SWIFT code required for SWIFT payments"
  }

  /** Different rules have different messages (their lengths already differ). */
  lemma MessagesDistinct(r1: Rule, r2: Rule)
    ensures Message(r1) == Message(r2) ==> r1 == r2
  {
    assert |Message(AccountRule)| == 35 && |Message(AmountRule)| == 41 && |Message(CurrencyRule)| == 21;
    assert |Message(ProviderRule)| == 24 && |Message(SwiftRule)| == 44;
  }

  /** `!amount || amount <= 0 || amount > 1000000` fails: NaN and 0 are falsy. */
  predicate AmountInRange(amount: Option<real>)
  {
    amount.Some? && 0.0 < amount.value <= 1000000.0
  }

  /** Whether `input` breaks rule `r`. The provider list of the route is the same as
      the schema's. */
  predicate Violates(input: PaymentInput, r: Rule)
  {
    match r
    case AccountRule => !IsAccountNumber(input.payeeAccountNumber)
    case AmountRule => !AmountInRange(input.amount)
    case CurrencyRule => !IsCurrencyCode(input.currency)
    case ProviderRule => input.provider !in Providers
    case SwiftRule => input.provider == "SWIFT" && (!TruthyText(input.swiftCode) || !IsSwiftCode(input.swiftCode.value))
  }

  /** What checking one rule pushes onto the list. */
  function Pushed(input: PaymentInput, r: Rule): seq<string>
  {
    if Violates(input, r) then [Message(r)] else []
  }

  /** The messages of the rules in `rules` that `input` breaks, in the order of `rules`. */
  function Collect(rules: seq<Rule>, input: PaymentInput): seq<string>
  {
    if rules == [] then [] else Pushed(input, rules[0]) + Collect(rules[1..], input)
  }

  /** The `validationErrors` list of `/create`. */
  function ViolationMessages(input: PaymentInput): seq<string>
  {
    Collect(RuleOrder, input)
  }

  /** Nothing is collected exactly when no rule is broken. */
  lemma {:induction false} CollectEmptyIff(rules: seq<Rule>, input: PaymentInput)
    ensures Collect(rules, input) == [] <==> forall i :: 0 <= i < |rules| ==> !Violates(input, rules[i])
  {
    if rules != [] {
      CollectEmptyIff(rules[1..], input);
      assert forall i :: 1 <= i < |rules| ==> rules[i] == rules[1..][i - 1];
    }
  }

  /** A rule's message is collected exactly when the rule is listed and broken. */
  lemma {:induction false} CollectHasMessageIff(rules: seq<Rule>, input: PaymentInput, r: Rule)
    ensures Message(r) in Collect(rules, input) <==> r in rules && Violates(input, r)
  {
    if rules != [] {
      CollectHasMessageIff(rules[1..], input, r);
      assert rules == [rules[0]] + rules[1..];
      MessagesDistinct(rules[0], r);
    }
  }

  lemma CollectStep(rs: seq<Rule>, input: PaymentInput)
    requires rs != []
    ensures Collect(rs, input) == Pushed(input, rs[0]) + Collect(rs[1..], input)
  {
  }

  lemma CollectFive(rs: seq<Rule>, input: PaymentInput)
    requires |rs| == 5
    ensures Collect(rs, input)
            == Pushed(input, rs[0]) + (Pushed(input, rs[1]) + (Pushed(input, rs[2]) + (Pushed(input, rs[3]) + Pushed(input, rs[4]))))
  {
    var r1 := rs[1..];
    var r2 := r1[1..];
    var r3 := r2[1..];
    var r4 := r3[1..];
    assert r1[0] == rs[1] && r2[0] == rs[2] && r3[0] == rs[3] && r4[0] == rs[4] && r4[1..] == [];
    CollectStep(r4, input);
    CollectStep(r3, input);
    CollectStep(r2, input);
    CollectStep(r1, input);
    CollectStep(rs, input);
  }

  lemma AppendFive<T>(p: seq<T>, q: seq<T>, r: seq<T>, s: seq<T>, t: seq<T>)
    ensures p + (q + (r + (s + t))) == p + q + r + s + t
  {
  }

  /** The list written out rule by rule. */
  lemma ViolationMessagesUnrolled(input: PaymentInput)
    ensures ViolationMessages(input)
            == Pushed(input, AccountRule) + Pushed(input, AmountRule) + Pushed(input, CurrencyRule)
               + Pushed(input, ProviderRule) + Pushed(input, SwiftRule)
  {
    CollectFive(RuleOrder, input);
    AppendFive(Pushed(input, AccountRule), Pushed(input, AmountRule), Pushed(input, CurrencyRule),
               Pushed(input, ProviderRule), Pushed(input, SwiftRule));
  }

  lemma EveryRuleIsChecked(r: Rule)
    ensures r in RuleOrder
  {
    match r
    case AccountRule => assert RuleOrder[0] == r;
    case AmountRule => assert RuleOrder[1] == r;
    case CurrencyRule => assert RuleOrder[2] == r;
    case ProviderRule => assert RuleOrder[3] == r;
    case SwiftRule => assert RuleOrder[4] == r;
  }

  /** The list is empty exactly when all five rules pass, and it names exactly the
      broken rules; the account message, when present, comes first and the SWIFT
      message, when present, comes last. */
  lemma ViolationMessagesAreTheBrokenRules(input: PaymentInput)
    ensures ViolationMessages(input) == [] <==> forall r: Rule :: !Violates(input, r)
    ensures forall r: Rule :: Message(r) in ViolationMessages(input) <==> Violates(input, r)
    ensures Violates(input, AccountRule) ==> ViolationMessages(input)[0] == Message(AccountRule)
    ensures Violates(input, SwiftRule) ==> ViolationMessages(input)[|ViolationMessages(input)| - 1] == Message(SwiftRule)
  {
    CollectEmptyIff(RuleOrder, input);
    forall r: Rule ensures Message(r) in ViolationMessages(input) <==> Violates(input, r) {
      CollectHasMessageIff(RuleOrder, input, r);
      EveryRuleIsChecked(r);
    }
    forall r: Rule ensures (forall i :: 0 <= i < |RuleOrder| ==> !Violates(input, RuleOrder[i])) ==> !Violates(input, r) {
      EveryRuleIsChecked(r);
    }
    ViolationMessagesUnrolled(input);
  }

  /** The amount rule is about the parsed number only: the two-decimals pattern is never
      applied, so 0.001 passes; 1,000,000 passes and anything above it fails. */
  lemma AmountRuleBounds(input: PaymentInput)
    ensures !Violates(input.(amount := Some(1000000.0)), AmountRule)
    ensures !Violates(input.(amount := Some(0.001)), AmountRule)
    ensures Violates(input.(amount := Some(1000000.01)), AmountRule)
    ensures Violates(input.(amount := Some(0.0)), AmountRule)
    ensures Violates(input.(amount := None), AmountRule)
  {
  }

  /** `validationErrors`: one push per broken rule, in rule order. */
  method ValidatePayment(input: PaymentInput) returns (errors: seq<string>)
    ensures errors == ViolationMessages(input)
  {
    errors := [];
    if !IsAccountNumber(input.payeeAccountNumber) {
      errors := errors + [Message(AccountRule)];
    }
    assert errors == Pushed(input, AccountRule);
    if !AmountInRange(input.amount) {
      errors := errors + [Message(AmountRule)];
    }
    assert errors == Pushed(input, AccountRule) + Pushed(input, AmountRule);
    if !IsCurrencyCode(input.currency) {
      errors := errors + [Message(CurrencyRule)];
    }
    assert errors == Pushed(input, AccountRule) + Pushed(input, AmountRule) + Pushed(input, CurrencyRule);
    if input.provider !in Providers {
      errors := errors + [Message(ProviderRule)];
    }
    assert errors == Pushed(input, AccountRule) + Pushed(input, AmountRule) + Pushed(input, CurrencyRule)
                     + Pushed(input, ProviderRule);
    if input.provider == "SWIFT" && (!TruthyText(input.swiftCode) || !IsSwiftCode(input.swiftCode.value)) {
      errors := errors + [Message(SwiftRule)];
    }
    ViolationMessagesUnrolled(input);
  }

  // ---------------------------------------------------------------------------
  // POST /create: construction and save

  /** The fields of the 201 response. */
  datatype PaymentSummary = PaymentSummary(
    id: string,
    transactionReference: Option<string>,
    amount: real,
    currency: string,
    status: Status,
    createdAt: int)

  datatype CreateResponse =
    | Created(message: string, payment: PaymentSummary)
    | ValidationFailed(message: string, errors: seq<string>)
    | CreateFailed(message: string)

  function SummaryOf(p: Payment): PaymentSummary
  {
    PaymentSummary(p.id, p.transactionReference, p.amount, p.currency, p.status, p.createdAt)
  }

  /** `new Payment({ ... })`: the owner is the caller; swiftCode is kept only for SWIFT. */
  function Constructed(id: string, owner: string, input: PaymentInput, amount: real): Payment
  {
    Payment(id, owner, input.payeeAccountNumber, amount, input.currency, input.provider,
            if input.provider == "SWIFT" then input.swiftCode else None, DefaultStatus, None, 0)
  }

  /** The constructed document after its pre-validate hook and the timestamp: the
      record `/create` tries to store. */
  function NewPayment(newId: string, owner: string, input: PaymentInput, now: nat, random: nat): Payment
    requires input.amount.Some? && random < 10000
  {
    Constructed(newId, owner, input, input.amount.value)
      .(transactionReference := EnsureReference(None, now, random), createdAt := now)
  }

  /** `/create` on the stored records: the response and the records afterwards. `newId`
      is the `_id` the document receives, `now` the clock, `random` the random number. */
  function Create(records: seq<Payment>, owner: string, input: PaymentInput,
                  newId: string, now: nat, random: nat): (r: (CreateResponse, seq<Payment>))
    requires random < 10000
    ensures !r.0.Created? ==> r.1 == records
  {
    var errors := ViolationMessages(input);
    if errors != [] then (ValidationFailed("Validation failed", errors), records)
    else
      EmptyListHasAmount(input);
      var p := NewPayment(newId, owner, input, now, random);
      if InsertCheck(records, p).Some? then (CreateFailed("Error creating payment"), records)
      else (Created("Payment initiated successfully", SummaryOf(p)), records + [p])
  }

  /** A 400 answer lists every broken rule and nothing is stored; a 201 answer stores
      one new payment whose owner is the caller (whatever the body says), whose status
      is the default, whose swiftCode is the sent one only for SWIFT, and which holds a
      reference; the response reports that payment. */
  lemma CreateOutcomes(records: seq<Payment>, owner: string, input: PaymentInput,
                       newId: string, now: nat, random: nat)
    requires random < 10000
    ensures var (resp, after) := Create(records, owner, input, newId, now, random);
      && (resp.ValidationFailed? <==> exists r: Rule :: Violates(input, r))
      && (resp.ValidationFailed? ==> resp.errors == ViolationMessages(input) && after == records)
      && (resp.Created? ==>
            && |after| == |records| + 1 && after[..|records|] == records
            && var p := after[|records|];
            && p.id == newId && p.userId == owner
            && p.status == Pending
            && p.payeeAccountNumber == input.payeeAccountNumber
            && input.amount == Some(p.amount)
            && p.currency == input.currency && p.provider == input.provider
            && p.swiftCode == (if input.provider == "SWIFT" then input.swiftCode else None)
            && TruthyText(p.transactionReference) && p.createdAt == now
            && resp.payment == PaymentSummary(p.id, p.transactionReference, p.amount, p.currency, p.status, now)
            && WellFormed(p) == IsCanonical(newId))
  {
    ViolationMessagesAreTheBrokenRules(input);
    var (resp, after) := Create(records, owner, input, newId, now, random);
    if resp.Created? {
      assert !Violates(input, AmountRule);
      assert after == records + [after[|records|]];
      var p := after[|records|];
      assert SchemaValid(p) && IsCanonical(p.id);
    }
  }

  /** 201 is answered exactly when every rule passes and the collection accepts the
      new document. */
  lemma CreatedExactlyWhen(records: seq<Payment>, owner: string, input: PaymentInput,
                           newId: string, now: nat, random: nat)
    requires random < 10000
    ensures Create(records, owner, input, newId, now, random).0.Created?
            <==> ViolationMessages(input) == [] && input.amount.Some?
                 && InsertCheck(records, NewPayment(newId, owner, input, now, random)).None?
  {
    if ViolationMessages(input) == [] {
      EmptyListHasAmount(input);
    }
  }

  /** An empty list means the amount rule passed, so the amount is a number. */
  lemma EmptyListHasAmount(input: PaymentInput)
    requires ViolationMessages(input) == []
    ensures AmountInRange(input.amount)
  {
    ViolationMessagesUnrolled(input);
    assert |Pushed(input, AmountRule)| == 0;
  }

  /** An input meeting all five rules gets an empty list. */
  lemma PassesEveryRule(input: PaymentInput)
    requires IsAccountNumber(input.payeeAccountNumber)
    requires AmountInRange(input.amount)
    requires IsCurrencyCode(input.currency) && input.provider in Providers
    requires input.provider == "SWIFT" ==> input.swiftCode.Some? && IsSwiftCode(input.swiftCode.value)
    ensures ViolationMessages(input) == []
  {
    ViolationMessagesUnrolled(input);
  }

  /** A body that passes every rule but builds a document the schema refuses is
      answered 500 and nothing is stored. */
  lemma SchemaRefusalGives500(records: seq<Payment>, owner: string, input: PaymentInput, newId: string,
                              now: nat, random: nat)
    requires random < 10000
    requires ViolationMessages(input) == [] && input.amount.Some?
    requires !SchemaValid(Constructed(newId, owner, input, input.amount.value))
    ensures Create(records, owner, input, newId, now, random) == (CreateFailed("Error creating payment"), records)
  {
  }

  /** A currency of the right shape but outside the enum passes the route's checks and
      fails at save, so it is answered 500 rather than 400. */
  lemma CurrencyOutsideEnumGives500(records: seq<Payment>, owner: string, input: PaymentInput,
                                    newId: string, now: nat, random: nat)
    requires random < 10000
    requires ViolationMessages(input) == [] && input.currency !in Currencies
    ensures Create(records, owner, input, newId, now, random) == (CreateFailed("Error creating payment"), records)
  {
    EmptyListHasAmount(input);
    CurrencyEnumIsClosed(Constructed(newId, owner, input, input.amount.value));
    SchemaRefusalGives500(records, owner, input, newId, now, random);
  }

  /** An amount above 0 but below the schema minimum 0.01 passes the route's amount rule
      and fails at save: 500, not 400. */
  lemma SubCentAmountGives500(records: seq<Payment>, owner: string, input: PaymentInput,
                              newId: string, now: nat, random: nat)
    requires random < 10000
    requires ViolationMessages(input) == [] && input.amount.Some? && input.amount.value < MinAmount
    ensures Create(records, owner, input, newId, now, random) == (CreateFailed("Error creating payment"), records)
  {
    SchemaRefusalGives500(records, owner, input, newId, now, random);
  }

  /** The account number both examples below send. */
  lemma ExampleAccount()
    ensures IsAccountNumber("1234567890")
  {
  }

  /** "XYZ" has the currency shape and passes every rule, though the enum lacks it. */
  lemma CurrencyOutsideEnumExample()
    ensures var input := PaymentInput("1234567890", Some(100.0), "XYZ", "PayPal", None);
      ViolationMessages(input) == [] && input.currency !in Currencies
  {
    var input := PaymentInput("1234567890", Some(100.0), "XYZ", "PayPal", None);
    ExampleAccount();
    assert IsCurrencyCode("XYZ");
    assert "PayPal" in Providers;
    PassesEveryRule(input);
    CurrencyEnumIsClosedExample();
  }

  /** The amount 0.005 passes every rule, though it is below the schema minimum. */
  lemma SubCentAmountExample()
    ensures var input := PaymentInput("1234567890", Some(0.005), "ZAR", "PayPal", None);
      ViolationMessages(input) == [] && input.amount.value < MinAmount
  {
    var input := PaymentInput("1234567890", Some(0.005), "ZAR", "PayPal", None);
    ExampleAccount();
    assert IsCurrencyCode("ZAR");
    assert "PayPal" in Providers;
    PassesEveryRule(input);
  }

  /** Every currency of the schema's enum has the route's three-upper-case-letter shape,
      so the currency rule never rejects one of them. */
  lemma EnumCurrenciesPassCurrencyRule(input: PaymentInput)
    requires input.currency in Currencies
    ensures !Violates(input, CurrencyRule)
  {
  }

  /** `POST /create` with the principal `caller`: read and validate the body; answer
      400 with every message; otherwise construct the document and save it, answering
      201 with its summary, or 500 when the save is refused. */
  method CreatePayment(store: PaymentCollection, caller: Principal, body: PaymentBody,
                       parseFloat: string -> Option<real>, newId: string, now: nat, random: nat)
    returns (resp: CreateResponse)
    requires store.Valid()
    requires random < 10000
    modifies store
    ensures store.Valid()
    ensures (resp, store.records) == Create(old(store.records), caller.id, ReadBody(body, parseFloat), newId, now, random)
  {
    var input := ReadBody(body, parseFloat);
    var errors := ValidatePayment(input);
    if |errors| > 0 {
      return ValidationFailed("Validation failed", errors);
    }
    EmptyListHasAmount(input);
    var doc := new PaymentDocument(newId, caller.id, input.payeeAccountNumber, input.amount.value,
                                   input.currency, input.provider,
                                   if input.provider == "SWIFT" then input.swiftCode else None);
    var err := store.Insert(doc, now, random);
    if err.Some? {
      return CreateFailed("Error creating payment");
    }
    return Created("Payment initiated successfully", SummaryOf(doc.Record()));
  }

  // ---------------------------------------------------------------------------
  // GET /user/:userId

  datatype ListResponse =
    | Listed(message: string, payments: seq<Payment>)
    | ListRejected(status: nat, message: string)

  /** The caller may list a user's payments when the sanitised parameter is its own id
      or it has an employeeId; the id is cast for the query (500 when it cannot be). */
  function ListUserPayments(records: seq<Payment>, caller: Principal, userIdParam: string): (r: ListResponse)
    ensures r.ListRejected? ==> r.status in {403, 500}
  {
    var userId := SanitizeInput(Str(userIdParam));
    if caller.id != userId && !TruthyText(caller.EmployeeIdField()) then ListRejected(403, "Access denied")
    else match Cast(userId)
      case None => ListRejected(500, "Error retrieving payments")
      case Some(owner) => Listed("Payments retrieved successfully", NewestFirst(OwnedBy(records, owner)))
  }

  /** 403 exactly when the caller is neither the named user nor an employee; otherwise
      the listing is exactly that owner's payments (each with its multiplicity), newest
      first. */
  lemma ListUserPaymentsSpec(records: seq<Payment>, caller: Principal, userIdParam: string)
    ensures var r := ListUserPayments(records, caller, userIdParam);
      var userId := SanitizeInput(Str(userIdParam));
      && (r == ListRejected(403, "Access denied") <==> caller.id != userId && !TruthyText(caller.EmployeeIdField()))
      && (r.Listed? <==> (caller.id == userId || TruthyText(caller.EmployeeIdField())) && Cast(userId).Some?)
      && (r.Listed? ==>
            && Cast(userId).Some?
            && SortedNewestFirst(r.payments)
            && forall p :: multiset(r.payments)[p] == if p.userId == Cast(userId).value then multiset(records)[p] else 0)
  {
  }

  /** A customer only ever sees its own payments. */
  lemma CustomerSeesOnlyOwnPayments(records: seq<Payment>, caller: Principal, userIdParam: string)
    requires caller.CustomerUser? && IsCanonical(caller.id)
    requires ListUserPayments(records, caller, userIdParam).Listed?
    ensures forall p :: p in ListUserPayments(records, caller, userIdParam).payments ==> p.userId == caller.id
  {
    CastCanonical(caller.id);
    var r := ListUserPayments(records, caller, userIdParam);
    forall p | p in r.payments ensures p.userId == caller.id {
      assert multiset(r.payments)[p] > 0;
    }
  }

  // ---------------------------------------------------------------------------
  // GET /

  /** The `userId` path as the client receives it: null when populate found no user,
      the bare id when it was not populated, or the selected fields of the user. */
  datatype Owner =
    | NoOwner
    | OwnerId(id: string)
    | OwnerDoc(fullName: Option<string>, accountNumber: Option<string>, username: Option<string>, idNumber: Option<string>)

  /** A payment with its `userId` path replaced by what populate gave. */
  datatype PopulatedPayment = PopulatedPayment(payment: Payment, owner: Owner)

  /** `populate({ path: 'userId', select: 'fullName accountNumber username idNumber' })` */
  function PopulateOwner(p: Payment, customers: seq<UserModel.Customer>): (o: Owner)
    ensures o.NoOwner? <==> !UserModel.HasKey(customers, (x: UserModel.Customer) => x.id, p.userId)
    ensures !o.OwnerId?
    ensures o.OwnerDoc? ==>
              exists c :: c in customers && c.id == p.userId && o == OwnerDoc(Some(c.fullName), Some(c.accountNumber), Some(c.username), Some(c.idNumber))
  {
    match UserModel.FindById(customers, p.userId)
    case None => NoOwner
    case Some(c) => OwnerDoc(Some(c.fullName), Some(c.accountNumber), Some(c.username), Some(c.idNumber))
  }

  datatype AllResponse =
    | AllListed(payments: seq<PopulatedPayment>)
    | AllRejected(status: nat, message: string)

  /** `GET /` behind the employee guard: every payment, populated, newest first. */
  function ListAllPayments(records: seq<Payment>, customers: seq<UserModel.Customer>, caller: Principal): (r: AllResponse)
  {
    if RequireEmployee(caller).Reject? then AllRejected(403, RequireEmployee(caller).message)
    else
      var sorted := NewestFirst(records);
      AllListed(seq(|sorted|, i requires 0 <= i < |sorted| => PopulatedPayment(sorted[i], PopulateOwner(sorted[i], customers))))
  }

  function PaymentsOf(ps: seq<PopulatedPayment>): seq<Payment>
  {
    seq(|ps|, i requires 0 <= i < |ps| => ps[i].payment)
  }

  /** Only callers the employee guard admits get the list; it holds every stored payment
      exactly once, newest first, each with the owner populate found. */
  lemma ListAllSpec(records: seq<Payment>, customers: seq<UserModel.Customer>, caller: Principal)
    ensures var r := ListAllPayments(records, customers, caller);
      && (r.AllListed? <==> RequireEmployee(caller).Next?)
      && (r.AllRejected? ==> r.status == 403)
      && (r.AllListed? ==>
            && multiset(PaymentsOf(r.payments)) == multiset(records)
            && SortedNewestFirst(PaymentsOf(r.payments))
            && forall i :: 0 <= i < |r.payments| ==> r.payments[i].owner == PopulateOwner(r.payments[i].payment, customers))
  {
    var r := ListAllPayments(records, customers, caller);
    if r.AllListed? {
      assert PaymentsOf(r.payments) == NewestFirst(records);
    }
  }

  // ---------------------------------------------------------------------------
  // POST /verify/:paymentId

  const InvalidActionMessage: string := "Invalid action. Must be \"complete\" or \"fail\""
  const NotFoundMessage: string := "Payment not found"
  const AlreadyProcessedMessage: string := "Payment has already been processed"
  const VerifyErrorMessage: string := "Error verifying payment"

  datatype VerifyResponse =
    | Verified(message: string, id: string, transactionReference: Option<string>, paymentStatus: Status)
    | VerifyRejected(status: nat, message: string)

  /** The status an accepted action sets. */
  function NewStatus(act: string): Status
  {
    if act == "complete" then Completed else Failed
  }

  function DoneMessage(act: string): string
  {
    if act == "complete" then "Payment completed successfully" else "Payment failed successfully"
  }

  /** From the payment found at position `k` on: the pending check, the status change
      and the save of the loaded document (whose pre-validate hook runs again). */
  function Transition(records: seq<Payment>, k: nat, act: string, now: nat, random: nat): (r: (VerifyResponse, seq<Payment>))
    requires k < |records| && random < 10000
    ensures r.0.VerifyRejected? ==> r.1 == records
  {
    if records[k].status != Pending then (VerifyRejected(400, AlreadyProcessedMessage), records)
    else
      var q := records[k].(status := NewStatus(act),
                           transactionReference := EnsureReference(records[k].transactionReference, now, random));
      if UpdateCheck(records, q).Some? then (VerifyRejected(500, VerifyErrorMessage), records)
      else (Verified(DoneMessage(act), q.id, q.transactionReference, q.status), records[k := q])
  }

  /** `/verify` on the stored records: the response and the records afterwards. The
      guard runs first; a bad action is refused before any lookup; an id that cannot be
      cast makes the lookup throw (500). */
  function Verify(records: seq<Payment>, caller: Principal, paymentIdParam: string, action: JsValue,
                  now: nat, random: nat): (r: (VerifyResponse, seq<Payment>))
    requires random < 10000
    ensures r.0.VerifyRejected? ==> r.1 == records
  {
    if RequireEmployee(caller).Reject? then (VerifyRejected(403, RequireEmployee(caller).message), records)
    else
      var act := SanitizeInput(action);
      if act != "complete" && act != "fail" then (VerifyRejected(400, InvalidActionMessage), records)
      else match Cast(SanitizeInput(Str(paymentIdParam)))
        case None => (VerifyRejected(500, VerifyErrorMessage), records)
        case Some(id) =>
          match IndexOfId(records, id)
          case None => (VerifyRejected(404, NotFoundMessage), records)
          case Some(k) => Transition(records, k, act, now, random)
  }

  /** With unique identifiers, the position of a record's id is that record's. */
  lemma IndexOfUniqueId(records: seq<Payment>, k: nat)
    requires UniqueKeys(records) && k < |records|
    ensures IndexOfId(records, records[k].id) == Some(k)
  {
    assert HasId(records, records[k].id);
    var r := IndexOfId(records, records[k].id).value;
    assert records[r].id == records[k].id;
  }

  /** With unique references, no other record holds the reference of record `k`. */
  lemma ReferenceFreeElsewhere(records: seq<Payment>, k: nat)
    requires UniqueKeys(records) && k < |records|
    ensures !ReferenceTakenElsewhere(records, k, records[k].transactionReference)
  {
    forall i | 0 <= i < |records| && i != k
      ensures records[i].transactionReference != records[k].transactionReference
    {
      assert i < k || k < i;
    }
  }

  /** Replacing a record by a well-formed one with the same id and reference keeps the
      collection valid. */
  lemma ReplaceKeepsValid(records: seq<Payment>, k: nat, q: Payment)
    requires ValidRecords(records) && k < |records|
    requires q.id == records[k].id && q.transactionReference == records[k].transactionReference && WellFormed(q)
    ensures ValidRecords(records[k := q])
  {
    var after := records[k := q];
    forall i, j | 0 <= i < j < |after|
      ensures after[i].id != after[j].id && after[i].transactionReference != after[j].transactionReference
    {
      assert records[i].id != records[j].id && records[i].transactionReference != records[j].transactionReference;
    }
    forall i | 0 <= i < |after| ensures WellFormed(after[i]) {
      assert WellFormed(records[i]);
    }
  }

  /** A pending stored payment is always verified: only its status changes, and the
      records stay valid. */
  lemma TransitionOfPending(records: seq<Payment>, k: nat, act: string, now: nat, random: nat)
    requires ValidRecords(records) && k < |records| && random < 10000
    requires records[k].status == Pending
    ensures var q := records[k].(status := NewStatus(act));
      && Transition(records, k, act, now, random)
         == (Verified(DoneMessage(act), q.id, q.transactionReference, NewStatus(act)), records[k := q])
      && ValidRecords(records[k := q])
  {
    assert WellFormed(records[k]);
    var q := records[k].(status := NewStatus(act));
    assert EnsureReference(records[k].transactionReference, now, random) == records[k].transactionReference;
    IndexOfUniqueId(records, k);
    ReferenceFreeElsewhere(records, k);
    assert UpdateCheck(records, q).None?;
    ReplaceKeepsValid(records, k, q);
  }

  /** The refusals: a caller the guard rejects gets 403; a bad action gets 400 before any
      lookup; an unknown id gets 404; a payment that is no longer pending gets 400. None
      of them changes anything. */
  lemma VerifyRefusals(records: seq<Payment>, caller: Principal, paymentIdParam: string, action: JsValue,
                       now: nat, random: nat)
    requires random < 10000
    ensures var r := Verify(records, caller, paymentIdParam, action, now, random);
      var act := SanitizeInput(action);
      var id := Cast(SanitizeInput(Str(paymentIdParam)));
      && (RequireEmployee(caller).Reject? ==> r.0 == VerifyRejected(403, EmployeeRequiredMessage))
      && ((RequireEmployee(caller).Next? && act != "complete" && act != "fail")
          ==> r.0 == VerifyRejected(400, InvalidActionMessage))
      && ((RequireEmployee(caller).Next? && (act == "complete" || act == "fail") && id.Some? && !HasId(records, id.value))
          ==> r.0 == VerifyRejected(404, NotFoundMessage))
      && ((RequireEmployee(caller).Next? && (act == "complete" || act == "fail") && id.Some? && HasId(records, id.value)
           && records[IndexOfId(records, id.value).value].status != Pending)
          ==> r.0 == VerifyRejected(400, AlreadyProcessedMessage))
      && (r.0.VerifyRejected? ==> r.1 == records)
  {
    var act := SanitizeInput(action);
    var id := Cast(SanitizeInput(Str(paymentIdParam)));
    if RequireEmployee(caller).Next? && (act == "complete" || act == "fail") && id.Some? && HasId(records, id.value) {
      var k := IndexOfId(records, id.value).value;
      assert Verify(records, caller, paymentIdParam, action, now, random) == Transition(records, k, act, now, random);
    }
  }

  /** On valid stored records, a verify of a pending payment by an employee with a valid
      action succeeds, sets the status to completed or failed and changes nothing else;
      the records stay valid. */
  lemma VerifyPendingSucceeds(records: seq<Payment>, caller: Principal, paymentIdParam: string, action: JsValue,
                              now: nat, random: nat)
    requires random < 10000
    requires ValidRecords(records)
    requires RequireEmployee(caller).Next?
    requires SanitizeInput(action) in ["complete", "fail"]
    requires Cast(SanitizeInput(Str(paymentIdParam))).Some?
    requires var id := Cast(SanitizeInput(Str(paymentIdParam))).value;
      IndexOfId(records, id).Some? && records[IndexOfId(records, id).value].status == Pending
    ensures var (resp, after) := Verify(records, caller, paymentIdParam, action, now, random);
      var k := IndexOfId(records, Cast(SanitizeInput(Str(paymentIdParam))).value).value;
      var newStatus := if SanitizeInput(action) == "complete" then Completed else Failed;
      && resp.Verified?
      && resp.paymentStatus == newStatus
      && after == records[k := records[k].(status := newStatus)]
      && ValidRecords(after)
  {
    var id := Cast(SanitizeInput(Str(paymentIdParam))).value;
    var k := IndexOfId(records, id).value;
    var act := SanitizeInput(action);
    assert act == "complete" || act == "fail";
    VerifyReachesTransition(records, caller, paymentIdParam, action, now, random, act, k);
    TransitionOfPending(records, k, act, now, random);
  }

  /** Past the guard, the action check and the lookup, `/verify` is the transition of
      the record found. */
  lemma VerifyReachesTransition(records: seq<Payment>, caller: Principal, paymentIdParam: string, action: JsValue,
                                now: nat, random: nat, act: string, k: nat)
    requires random < 10000
    requires RequireEmployee(caller).Next?
    requires act == SanitizeInput(action) && (act == "complete" || act == "fail")
    requires Cast(SanitizeInput(Str(paymentIdParam))).Some?
    requires IndexOfId(records, Cast(SanitizeInput(Str(paymentIdParam))).value) == Some(k)
    ensures Verify(records, caller, paymentIdParam, action, now, random) == Transition(records, k, act, now, random)
  {
  }

  /** A verify that succeeds leaves the payment stored under the same id with a status
      other than pending. */
  lemma VerifiedLeavesProcessed(records: seq<Payment>, caller: Principal, paymentIdParam: string, action: JsValue,
                                now: nat, random: nat)
    requires random < 10000
    requires ValidRecords(records)
    requires Verify(records, caller, paymentIdParam, action, now, random).0.Verified?
    ensures var id := Cast(SanitizeInput(Str(paymentIdParam)));
      var after := Verify(records, caller, paymentIdParam, action, now, random).1;
      && id.Some?
      && HasId(after, id.value)
      && after[IndexOfId(after, id.value).value].status != Pending
  {
    VerifiedWentThroughTransition(records, caller, paymentIdParam, action, now, random);
    var id := Cast(SanitizeInput(Str(paymentIdParam))).value;
    var k := IndexOfId(records, id).value;
    var act := SanitizeInput(action);
    TransitionOfPending(records, k, act, now, random);
    var after := records[k := records[k].(status := NewStatus(act))];
    IndexOfUniqueId(after, k);
    assert after[k].id == id && after[k].status != Pending;
  }

  /** A successful verify found a pending payment and ran the transition on it. */
  lemma VerifiedWentThroughTransition(records: seq<Payment>, caller: Principal, paymentIdParam: string,
                                      action: JsValue, now: nat, random: nat)
    requires random < 10000
    requires Verify(records, caller, paymentIdParam, action, now, random).0.Verified?
    ensures var id := Cast(SanitizeInput(Str(paymentIdParam)));
      && id.Some? && IndexOfId(records, id.value).Some?
      && records[IndexOfId(records, id.value).value].status == Pending
      && Verify(records, caller, paymentIdParam, action, now, random)
         == Transition(records, IndexOfId(records, id.value).value, SanitizeInput(action), now, random)
  {
    var act := SanitizeInput(action);
    var id := Cast(SanitizeInput(Str(paymentIdParam)));
    if RequireEmployee(caller).Reject? || (act != "complete" && act != "fail") || id.None?
       || IndexOfId(records, id.value).None? {
      assert false;
    } else {
      var k := IndexOfId(records, id.value).value;
      assert Verify(records, caller, paymentIdParam, action, now, random) == Transition(records, k, act, now, random);
    }
  }

  /** Once a payment has been verified, every later verify of it is refused and changes
      nothing, whoever asks and whatever the action. */
  lemma SecondVerifyRejected(records: seq<Payment>, caller: Principal, paymentIdParam: string, action: JsValue,
                             now: nat, random: nat, caller2: Principal, paymentIdParam2: string,
                             action2: JsValue, now2: nat, random2: nat)
    requires random < 10000 && random2 < 10000
    requires ValidRecords(records)
    requires Verify(records, caller, paymentIdParam, action, now, random).0.Verified?
    requires Cast(SanitizeInput(Str(paymentIdParam2))) == Cast(SanitizeInput(Str(paymentIdParam)))
    ensures var after := Verify(records, caller, paymentIdParam, action, now, random).1;
      var (resp2, after2) := Verify(after, caller2, paymentIdParam2, action2, now2, random2);
      resp2.VerifyRejected? && after2 == after
  {
    VerifiedLeavesProcessed(records, caller, paymentIdParam, action, now, random);
    var after := Verify(records, caller, paymentIdParam, action, now, random).1;
    VerifyRefusals(after, caller2, paymentIdParam2, action2, now2, random2);
  }

  /** `POST /verify/:paymentId` with the principal `caller`: the guard, the action
      check, the lookup, the pending check, then the status is set on the loaded
      document and it is saved. */
  method VerifyPayment(store: PaymentCollection, caller: Principal, paymentIdParam: string, action: JsValue,
                       now: nat, random: nat) returns (resp: VerifyResponse)
    requires store.Valid()
    requires random < 10000
    modifies store
    ensures store.Valid()
    ensures (resp, store.records) == Verify(old(store.records), caller, paymentIdParam, action, now, random)
  {
    var guard := RequireEmployee(caller);
    if guard.Reject? {
      return VerifyRejected(403, guard.message);
    }
    var paymentId := SanitizeInput(Str(paymentIdParam));
    var act := SanitizeInput(action);
    if act != "complete" && act != "fail" {
      return VerifyRejected(400, InvalidActionMessage);
    }
    var id := Cast(paymentId);
    if id.None? {
      return VerifyRejected(500, VerifyErrorMessage);
    }
    var found := FindById(store.records, id.value);
    if found.None? {
      return VerifyRejected(404, NotFoundMessage);
    }
    ghost var k := IndexOfId(store.records, id.value).value;
    assert found.value == store.records[k];
    resp := SetStatus(store, found.value, k, act, now, random);
  }

  /** The tail of `/verify` once the payment is found at position `k`: load it, refuse
      it unless pending, set the status and save the loaded document. */
  method SetStatus(store: PaymentCollection, found: Payment, ghost k: nat, act: string, now: nat, random: nat)
    returns (resp: VerifyResponse)
    requires store.Valid()
    requires random < 10000
    requires k < |store.records| && found == store.records[k] && IndexOfId(store.records, found.id) == Some(k)
    modifies store
    ensures store.Valid()
    ensures (resp, store.records) == Transition(old(store.records), k, act, now, random)
  {
    var payment := new PaymentDocument.Load(found);
    if payment.status != Pending {
      return VerifyRejected(400, AlreadyProcessedMessage);
    }
    payment.status := NewStatus(act);
    assert payment.Record() == store.records[k].(status := NewStatus(act));
    var err := store.Update(payment, now, random);
    if err.Some? {
      return VerifyRejected(500, VerifyErrorMessage);
    }
    return Verified(DoneMessage(act), payment.id, payment.transactionReference, payment.status);
  }
}
