/** The status filter both payment lists offer: "all" shows the list as it is, any
    other value shows the entries whose `status` is that value. */
module StatusFilter {
  import opened PaymentSchema

  const AllFilter: string := "all"

  /** `xs.filter(x => x.status === name)`. */
  function Keep<T(!new)>(xs: seq<T>, statusOf: T -> Status, name: string): (r: seq<T>)
    ensures |r| <= |xs|
    ensures forall i :: 0 <= i < |r| ==> statusOf(r[i]).Name() == name
  {
    if xs == [] then []
    else (if statusOf(xs[0]).Name() == name then [xs[0]] else []) + Keep(xs[1..], statusOf, name)
  }

  /** The kept entries are the entries whose status is named `name`, each with its
      multiplicity in `xs`, and no other. */
  lemma {:induction false} KeepCounts<T(!new)>(xs: seq<T>, statusOf: T -> Status, name: string)
    ensures forall x :: multiset(Keep(xs, statusOf, name))[x] == if statusOf(x).Name() == name then multiset(xs)[x] else 0
  {
    if xs != [] {
      KeepCounts(xs[1..], statusOf, name);
      assert xs == [xs[0]] + xs[1..];
    }
  }

  /** Filtering a concatenation filters each part and keeps them in order, so the
      kept entries appear in the order of the list. */
  lemma {:induction false} KeepDistributes<T(!new)>(a: seq<T>, b: seq<T>, statusOf: T -> Status, name: string)
    ensures Keep(a + b, statusOf, name) == Keep(a, statusOf, name) + Keep(b, statusOf, name)
  {
    if a != [] {
      var ab := a + b;
      assert ab[0] == a[0] && ab[1..] == a[1..] + b;
      KeepDistributes(a[1..], b, statusOf, name);
      var head := if statusOf(a[0]).Name() == name then [a[0]] else [];
      assert Keep(ab, statusOf, name) == head + Keep(a[1..] + b, statusOf, name);
      assert Keep(a, statusOf, name) == head + Keep(a[1..], statusOf, name);
    } else {
      assert a + b == b;
    }
  }

  /** The list on screen for the selected filter. */
  function Filtered<T(!new)>(xs: seq<T>, statusOf: T -> Status, filter: string): seq<T>
  {
    if filter == AllFilter then xs else Keep(xs, statusOf, filter)
  }

  /** "all" shows the whole list. Any other filter shows exactly the entries with that
      status, each as often as it occurs, in list order; a filter naming no status
      shows nothing. */
  lemma FilteredSpec<T(!new)>(xs: seq<T>, statusOf: T -> Status, filter: string)
    ensures filter == AllFilter ==> Filtered(xs, statusOf, filter) == xs
    ensures filter != AllFilter ==>
      forall x :: multiset(Filtered(xs, statusOf, filter))[x] == if statusOf(x).Name() == filter then multiset(xs)[x] else 0
    ensures forall a, b :: xs == a + b && filter != AllFilter ==>
      Filtered(xs, statusOf, filter) == Keep(a, statusOf, filter) + Keep(b, statusOf, filter)
    ensures filter !in {AllFilter, "pending", "processing", "completed", "failed"} ==> Filtered(xs, statusOf, filter) == []
  {
    KeepCounts(xs, statusOf, filter);
    forall a, b | xs == a + b && filter != AllFilter
      ensures Filtered(xs, statusOf, filter) == Keep(a, statusOf, filter) + Keep(b, statusOf, filter)
    {
      KeepDistributes(a, b, statusOf, filter);
    }
    if filter !in {AllFilter, "pending", "processing", "completed", "failed"} {
      var r := Filtered(xs, statusOf, filter);
      assert forall i :: 0 <= i < |r| ==> statusOf(r[i]).Name() != filter;
    }
  }
}
