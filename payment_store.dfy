/** The payments collection: the stored records with their unique indexes on `_id`
    and `transactionReference`, `save()` for new and for loaded documents, and the
    queries the routes run (find by id, find by owner, sort newest first). */
module PaymentStore {
  import opened Base
  import opened Text
  import opened Documents
  import opened PaymentSchema

  predicate HasId(s: seq<Payment>, id: string)
  {
    exists i :: 0 <= i < |s| && s[i].id == id
  }

  predicate HasReference(s: seq<Payment>, reference: Option<string>)
  {
    exists i :: 0 <= i < |s| && s[i].transactionReference == reference
  }

  /** The two unique indexes hold. */
  predicate UniqueKeys(s: seq<Payment>)
  {
    forall i, j :: 0 <= i < j < |s| ==>
      s[i].id != s[j].id && s[i].transactionReference != s[j].transactionReference
  }

  /** What every stored record satisfies: it passed validation after the hook ran. */
  predicate WellFormed(p: Payment)
  {
    SchemaValid(p) && IsCanonical(p.id) && TruthyText(p.transactionReference)
  }

  /** What the collection's contents always satisfy. */
  predicate ValidRecords(s: seq<Payment>)
  {
    UniqueKeys(s) && forall i :: 0 <= i < |s| ==> WellFormed(s[i])
  }

  /** The outcome of inserting `p` into `s`: validation first, then the indexes. */
  function InsertCheck(s: seq<Payment>, p: Payment): Option<SaveError>
  {
    if !SchemaValid(p) || !IsCanonical(p.id) then Some(ValidationError)
    else if HasId(s, p.id) then Some(DuplicateKey("_id"))
    else if HasReference(s, p.transactionReference) then Some(DuplicateKey("transactionReference"))
    else None
  }

  /** An accepted insert keeps both indexes unique; a reference already stored is refused. */
  lemma InsertKeepsKeysUnique(s: seq<Payment>, p: Payment)
    requires UniqueKeys(s)
    ensures InsertCheck(s, p).None? ==> UniqueKeys(s + [p])
    ensures HasReference(s, p.transactionReference) ==> InsertCheck(s, p).Some?
  {
    if InsertCheck(s, p).None? {
      var t := s + [p];
      forall i, j | 0 <= i < j < |t|
        ensures t[i].id != t[j].id && t[i].transactionReference != t[j].transactionReference
      {
        if j == |s| {
          assert t[i] == s[i];
        }
      }
    }
  }

  /** The position of the record with identifier `id`. */
  function IndexOfId(s: seq<Payment>, id: string): (r: Option<nat>)
    ensures r.Some? ==> r.value < |s| && s[r.value].id == id
    ensures r.None? <==> !HasId(s, id)
  {
    if s == [] then None
    else if s[0].id == id then Some(0)
    else match IndexOfId(s[1..], id)
      case None => None
      case Some(k) => Some(k + 1)
  }

  /** `findById` after the cast succeeded. */
  function FindById(s: seq<Payment>, id: string): (r: Option<Payment>)
    ensures r.Some? <==> HasId(s, id)
    ensures r.Some? ==> r.value in s && r.value.id == id
  {
    match IndexOfId(s, id)
    case None => None
    case Some(k) => Some(s[k])
  }

  /** Whether a record other than the one at `k` holds `reference`. */
  predicate ReferenceTakenElsewhere(s: seq<Payment>, k: nat, reference: Option<string>)
  {
    exists i :: 0 <= i < |s| && i != k && s[i].transactionReference == reference
  }

  /** The outcome of saving a loaded document whose record is `p`. */
  function UpdateCheck(s: seq<Payment>, p: Payment): Option<SaveError>
  {
    if !SchemaValid(p) || !IsCanonical(p.id) then Some(ValidationError)
    else match IndexOfId(s, p.id)
      case None => Some(DocumentNotFound)
      case Some(k) =>
        if ReferenceTakenElsewhere(s, k, p.transactionReference)
        then Some(DuplicateKey("transactionReference")) else None
  }

  // ---------------------------------------------------------------------------
  // Queries

  /** `find({ userId: owner })`: the records of that owner, in stored order. */
  function OwnedBy(s: seq<Payment>, owner: string): (r: seq<Payment>)
    ensures forall p :: multiset(r)[p] == if p.userId == owner then multiset(s)[p] else 0
  {
    if s == [] then []
    else
      var rest := OwnedBy(s[1..], owner);
      assert s == [s[0]] + s[1..];
      if s[0].userId == owner then [s[0]] + rest else rest
  }

  predicate SortedNewestFirst(s: seq<Payment>)
  {
    forall i, j :: 0 <= i < j < |s| ==> s[i].createdAt >= s[j].createdAt
  }

  function InsertByDate(p: Payment, s: seq<Payment>): (r: seq<Payment>)
    requires SortedNewestFirst(s)
    ensures SortedNewestFirst(r)
    ensures multiset(r) == multiset(s) + multiset{p}
    ensures r != [] && (r[0] == p || (s != [] && r[0] == s[0]))
  {
    if s == [] || p.createdAt >= s[0].createdAt then [p] + s
    else
      var rest := InsertByDate(p, s[1..]);
      assert s == [s[0]] + s[1..];
      [s[0]] + rest
  }

  /** `.sort({ createdAt: -1 })`: a permutation of the input, newest first. Ties keep
      their stored order here; the database promises no order for ties, and nothing
      stated about this function depends on it. */
  function NewestFirst(s: seq<Payment>): (r: seq<Payment>)
    ensures SortedNewestFirst(r)
    ensures multiset(r) == multiset(s)
  {
    if s == [] then []
    else
      assert s == [s[0]] + s[1..];
      InsertByDate(s[0], NewestFirst(s[1..]))
  }

  /** The payments collection. */
  class PaymentCollection {
    var records: seq<Payment>

    ghost predicate Valid()
      reads this
    {
      ValidRecords(records)
    }

    constructor ()
      ensures Valid() && records == []
    {
      records := [];
    }

    /** `save()` on a new document: the pre-validate hook, schema validation, the
        createdAt timestamp, then the insert under the unique indexes. A refused insert
        leaves the collection as it was. */
    method Insert(doc: PaymentDocument, now: nat, random: nat) returns (err: Option<SaveError>)
      requires Valid()
      requires random < 10000
      modifies this, doc
      ensures Valid()
      ensures doc.Record() == old(doc.Record()).(
        transactionReference := EnsureReference(old(doc.transactionReference), now, random),
        createdAt := now)
      ensures err == InsertCheck(old(records), doc.Record())
      ensures records == if err.None? then old(records) + [doc.Record()] else old(records)
    {
      doc.PreValidate(now, random);
      doc.createdAt := now;
      var p := doc.Record();
      err := InsertCheck(records, p);
      if err.None? {
        InsertKeepsKeysUnique(records, p);
        records := records + [p];
      }
    }

    /** `save()` on a loaded document: the hook, validation, then the record with the
        same `_id` is replaced; every other record is left as it was. */
    method Update(doc: PaymentDocument, now: nat, random: nat) returns (err: Option<SaveError>)
      requires Valid()
      requires random < 10000
      modifies this, doc
      ensures Valid()
      ensures doc.Record() == old(doc.Record()).(
        transactionReference := EnsureReference(old(doc.transactionReference), now, random))
      ensures err == UpdateCheck(old(records), doc.Record())
      ensures err.None? ==>
        && IndexOfId(old(records), doc.id).Some?
        && records == old(records)[IndexOfId(old(records), doc.id).value := doc.Record()]
      ensures err.Some? ==> records == old(records)
    {
      doc.PreValidate(now, random);
      var p := doc.Record();
      err := UpdateCheck(records, p);
      if err.None? {
        var k := IndexOfId(records, p.id).value;
        var t := records[k := p];
        forall i, j | 0 <= i < j < |t|
          ensures t[i].id != t[j].id && t[i].transactionReference != t[j].transactionReference
        {
          if i == k {
            assert t[j] == records[j];
          } else if j == k {
            assert t[i] == records[i];
          } else {
            assert t[i] == records[i] && t[j] == records[j];
          }
        }
        records := t;
      }
    }
  }
}
