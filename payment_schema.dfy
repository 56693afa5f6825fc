/** The Payment model: its fields, the schema's required/enum/min rules, the status
    default, and the pre-validate hook that issues a transaction reference. */
module PaymentSchema {
  import opened Base
  import opened Text

  /** The status enum; a document always holds one of these four. */
  datatype Status = Pending | Processing | Completed | Failed
  {
    function Name(): string
    {
      match this
      case Pending => "pending"
      case Processing => "processing"
      case Completed => "completed"
      case Failed => "failed"
    }
  }

  /** The status of a freshly constructed document. */
  const DefaultStatus: Status := Pending

  const Currencies: seq<string> := ["ZAR", "USD", "EUR", "GBP", "AUD", "CAD", "JPY", "CNY"]

  const Providers: seq<string> := ["SWIFT", "Local Bank Transfer", "PayPal", "Wire Transfer"]

  const MinAmount: real := 0.01

  /** A stored payment. `userId` and `id` are ObjectId strings; `transactionReference`
      is None until the pre-validate hook has run. */
  datatype Payment = Payment(
    id: string,
    userId: string,
    payeeAccountNumber: string,
    amount: real,
    currency: string,
    provider: string,
    swiftCode: Option<string>,
    status: Status,
    transactionReference: Option<string>,
    createdAt: int)

  /** The required function on the swiftCode path. */
  predicate SwiftCodeRequired(p: Payment)
  {
    p.provider == "SWIFT"
  }

  /** What schema validation accepts: every required String path present and non-empty,
      amount at least 0.01, currency and provider in their enums, and a swiftCode
      whenever the provider is SWIFT. */
  predicate SchemaValid(p: Payment)
  {
    && p.userId != ""
    && p.payeeAccountNumber != ""
    && p.amount >= MinAmount
    && p.currency in Currencies
    && p.provider in Providers
    && (SwiftCodeRequired(p) ==> TruthyText(p.swiftCode))
  }

  /** swiftCode is required exactly when the provider is SWIFT: with SWIFT a payment
      lacking one is invalid, with any other provider validity does not depend on it. */
  lemma SwiftCodeRequiredIffSwift(p: Payment, code: Option<string>)
    ensures p.provider == "SWIFT" ==> !SchemaValid(p.(swiftCode := None))
    ensures p.provider != "SWIFT" ==> (SchemaValid(p.(swiftCode := code)) <==> SchemaValid(p))
  {
  }

  /** Only the eight listed codes pass the currency enum: a payment with any other
      code is rejected, whatever its shape. */
  lemma CurrencyEnumIsClosed(p: Payment)
    requires p.currency !in Currencies
    ensures !SchemaValid(p)
  {
  }

  /** "XYZ" has the currency shape but is not one of the eight codes. */
  lemma CurrencyEnumIsClosedExample()
    ensures "XYZ" !in Currencies
  {
    assert Currencies[0] != "XYZ" && Currencies[1] != "XYZ" && Currencies[2] != "XYZ" && Currencies[3] != "XYZ";
    assert Currencies[4] != "XYZ" && Currencies[5] != "XYZ" && Currencies[6] != "XYZ" && Currencies[7] != "XYZ";
  }

  /** `TXN${timestamp}${random}`: both numbers in decimal without padding. */
  function GenerateReference(timestamp: nat, random: nat): (r: string)
    requires random < 10000
    ensures |r| >= 5 && r[..3] == "TXN" && AllDigits(r[3..])
    ensures r[3..] == NatToDecimal(timestamp) + NatToDecimal(random)
  {
    var t, d := NatToDecimal(timestamp), NatToDecimal(random);
    assert ("TXN" + t + d)[3..] == t + d;
    "TXN" + t + d
  }

  /** The pre-validate hook on the reference path: a falsy reference (absent or "") is
      replaced by a generated one, a truthy one is kept. */
  function EnsureReference(current: Option<string>, timestamp: nat, random: nat): Option<string>
    requires random < 10000
  {
    if TruthyText(current) then current else Some(GenerateReference(timestamp, random))
  }

  /** After the hook a reference is always set, and an existing one is never overwritten. */
  lemma ReferenceAssignedOnlyWhenAbsent(current: Option<string>, timestamp: nat, random: nat)
    requires random < 10000
    ensures TruthyText(EnsureReference(current, timestamp, random))
    ensures TruthyText(current) ==> EnsureReference(current, timestamp, random) == current
  {
  }

  /** Running the hook a second time, at any clock reading, changes nothing. */
  lemma ReferenceHookIdempotent(current: Option<string>, t1: nat, r1: nat, t2: nat, r2: nat)
    requires r1 < 10000 && r2 < 10000
    ensures EnsureReference(EnsureReference(current, t1, r1), t2, r2) == EnsureReference(current, t1, r1)
  {
  }

  /** Distinct (timestamp, random) pairs whose timestamps differ in length can give the
      same reference, because neither number is padded. */
  lemma GeneratedReferencesCollide()
    ensures GenerateReference(1, 23) == GenerateReference(12, 3) == "TXN123"
  {
    assert NatToDecimal(23) == NatToDecimal(2) + [DigitChar(3)];
    assert NatToDecimal(12) == NatToDecimal(1) + [DigitChar(2)];
  }

  /** With timestamps of the same number of digits (every millisecond clock reading
      from 2001 to 2286 has 13), the reference determines the pair: only an equal
      (timestamp, random) pair collides, and the unique index is what refuses it. */
  lemma EqualLengthTimestampsGiveDistinctReferences(t1: nat, r1: nat, t2: nat, r2: nat)
    requires r1 < 10000 && r2 < 10000
    requires |NatToDecimal(t1)| == |NatToDecimal(t2)|
    requires GenerateReference(t1, r1) == GenerateReference(t2, r2)
    ensures t1 == t2 && r1 == r2
  {
    var a1, b1 := NatToDecimal(t1), NatToDecimal(r1);
    var a2, b2 := NatToDecimal(t2), NatToDecimal(r2);
    var s := GenerateReference(t1, r1)[3..];
    assert s == a1 + b1 == a2 + b2;
    assert a1 == s[..|a1|] == a2;
    assert b1 == s[|a1|..] == b2;
    DecimalRoundTrip(t1);
    DecimalRoundTrip(t2);
    DecimalRoundTrip(r1);
    DecimalRoundTrip(r2);
  }

  /** A payment document (a Mongoose document: fields set at construction, `status`
      and `transactionReference` updated in place, `createdAt` stamped by save). */
  class PaymentDocument {
    const id: string
    const userId: string
    const payeeAccountNumber: string
    const amount: real
    const currency: string
    const provider: string
    const swiftCode: Option<string>
    var status: Status
    var transactionReference: Option<string>
    var createdAt: int

    /** `new Payment({ ... })`: the paths given, status at its default, no reference yet. */
    constructor (id: string, userId: string, payeeAccountNumber: string, amount: real,
                 currency: string, provider: string, swiftCode: Option<string>)
      ensures Record() == Payment(id, userId, payeeAccountNumber, amount, currency, provider,
                                  swiftCode, DefaultStatus, None, 0)
    {
      this.id := id;
      this.userId := userId;
      this.payeeAccountNumber := payeeAccountNumber;
      this.amount := amount;
      this.currency := currency;
      this.provider := provider;
      this.swiftCode := swiftCode;
      this.status := DefaultStatus;
      this.transactionReference := None;
      this.createdAt := 0;
    }

    /** A document hydrated from a stored record, as `findById` returns it. */
    constructor Load(p: Payment)
      ensures Record() == p
    {
      id := p.id;
      userId := p.userId;
      payeeAccountNumber := p.payeeAccountNumber;
      amount := p.amount;
      currency := p.currency;
      provider := p.provider;
      swiftCode := p.swiftCode;
      status := p.status;
      transactionReference := p.transactionReference;
      createdAt := p.createdAt;
    }

    function Record(): Payment
      reads this
    {
      Payment(id, userId, payeeAccountNumber, amount, currency, provider, swiftCode,
              status, transactionReference, createdAt)
    }

    /** `pre('validate')`: assigns a reference from the clock and a random number in
        0..9999 when none is set; no other path changes. */
    method PreValidate(timestamp: nat, random: nat)
      requires random < 10000
      modifies this`transactionReference
      ensures transactionReference == EnsureReference(old(transactionReference), timestamp, random)
      ensures Record() == old(Record()).(transactionReference := transactionReference)
    {
      if !TruthyText(transactionReference) {
        transactionReference := Some(GenerateReference(timestamp, random));
      }
    }
  }
}
