/** What the three collections share: document identifiers and the ways `save()` fails.
    Every stored document has an `_id` whose string form (`doc.id`) is 24 lower-case
    hexadecimal digits; a string used in a query on an ObjectId path is cast to that
    form first, and a string that cannot be cast makes the query throw a CastError. */
module Documents {
  import opened Base
  import opened Text

  /** Why `save()` rejected a document: schema validation, a unique index (E11000), or a
      loaded document whose record is no longer there. */
  datatype SaveError = ValidationError | DuplicateKey(index: string) | DocumentNotFound

  predicate IsLowerHex(c: char) { IsDigit(c) || ('a' <= c <= 'f') }

  /** The string form of an ObjectId, as `doc.id` gives it. */
  predicate IsCanonical(s: string)
  {
    |s| == 24 && forall i :: 0 <= i < |s| ==> IsLowerHex(s[i])
  }

  /** Casting a query string to an ObjectId: 24 hexadecimal digits of either case
      name the ObjectId whose canonical form is their lower-case spelling; anything
      else fails (None). */
  function Cast(s: string): (r: Option<string>)
    ensures r.Some? ==> IsCanonical(r.value) && r.value == ToLower(s)
    ensures r.Some? <==> |s| == 24 && forall i :: 0 <= i < |s| ==> IsHexDigit(s[i])
  {
    if |s| == 24 && forall i :: 0 <= i < |s| ==> IsHexDigit(s[i]) then Some(ToLower(s)) else None
  }

  /** A canonical id casts to itself, and so does its upper-case spelling: the query
      matches the same document although the two strings differ. */
  lemma CastCanonical(id: string)
    requires IsCanonical(id)
    ensures Cast(id) == Some(id)
    ensures Cast(ToUpper(id)) == Some(id)
  {
    assert ToLower(id) == id;
    var up := ToUpper(id);
    assert forall i :: 0 <= i < 24 ==> IsHexDigit(up[i]);
    assert ToLower(up) == id;
  }
}
