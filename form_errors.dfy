/** How the payment form and the login/sign-up form place the `errors` list of a
    rejected request on their fields: a `forEach` over the list fills an empty error
    object, each message going to the field its classifier names (a message it places
    nowhere is dropped), a later message for a field overwriting an earlier one. */
module FormErrors {
  import opened Base

  /** The error object after the first `|errors|` messages: the fold the loop performs. */
  function FieldErrors(errors: seq<string>, classify: string -> Option<string>): map<string, string>
  {
    if errors == [] then map[]
    else
      var m := FieldErrors(errors[..|errors| - 1], classify);
      var e := errors[|errors| - 1];
      match classify(e)
      case None => m
      case Some(f) => m[f := e]
  }

  /** A field gets an entry exactly when some message is classified to it, and its
      entry is the last such message. */
  lemma FieldErrorsSpec(errors: seq<string>, classify: string -> Option<string>)
    ensures forall f :: f in FieldErrors(errors, classify) <==>
                        exists i :: 0 <= i < |errors| && classify(errors[i]) == Some(f)
    ensures forall f :: f in FieldErrors(errors, classify) ==>
                        exists i :: && 0 <= i < |errors| && classify(errors[i]) == Some(f)
                                    && FieldErrors(errors, classify)[f] == errors[i]
                                    && forall j :: i < j < |errors| ==> classify(errors[j]) != Some(f)
  {
    FieldErrorsKeys(errors, classify);
    FieldErrorsLast(errors, classify);
  }

  lemma {:induction false} FieldErrorsKeys(errors: seq<string>, classify: string -> Option<string>)
    ensures forall f :: f in FieldErrors(errors, classify) <==>
                        exists i :: 0 <= i < |errors| && classify(errors[i]) == Some(f)
  {
    if errors != [] {
      var n := |errors| - 1;
      var front := errors[..n];
      FieldErrorsKeys(front, classify);
      forall f ensures f in FieldErrors(errors, classify) <==>
                       exists i :: 0 <= i < |errors| && classify(errors[i]) == Some(f)
      {
        if classify(errors[n]) == Some(f) {
          assert f in FieldErrors(errors, classify);
        } else if f in FieldErrors(errors, classify) {
          assert f in FieldErrors(front, classify);
          var i :| 0 <= i < |front| && classify(front[i]) == Some(f);
          assert front[i] == errors[i];
        } else {
          assert forall i :: 0 <= i < n ==> front[i] == errors[i];
        }
      }
    }
  }

  lemma {:induction false} FieldErrorsLast(errors: seq<string>, classify: string -> Option<string>)
    ensures forall f :: f in FieldErrors(errors, classify) ==>
                        exists i :: && 0 <= i < |errors| && classify(errors[i]) == Some(f)
                                    && FieldErrors(errors, classify)[f] == errors[i]
                                    && forall j :: i < j < |errors| ==> classify(errors[j]) != Some(f)
  {
    if errors != [] {
      var n := |errors| - 1;
      var front := errors[..n];
      FieldErrorsLast(front, classify);
      forall f | f in FieldErrors(errors, classify)
        ensures exists i :: && 0 <= i < |errors| && classify(errors[i]) == Some(f)
                            && FieldErrors(errors, classify)[f] == errors[i]
                            && forall j :: i < j < |errors| ==> classify(errors[j]) != Some(f)
      {
        if classify(errors[n]) == Some(f) {
          assert FieldErrors(errors, classify)[f] == errors[n];
        } else {
          assert f in FieldErrors(front, classify);
          var i :| && 0 <= i < |front| && classify(front[i]) == Some(f)
                   && FieldErrors(front, classify)[f] == front[i]
                   && forall j :: i < j < |front| ==> classify(front[j]) != Some(f);
          assert front[i] == errors[i];
          assert forall j :: i < j < |errors| ==> classify(errors[j]) != Some(f) by {
            forall j | i < j < |errors| ensures classify(errors[j]) != Some(f) {
              if j < n {
                assert front[j] == errors[j];
              }
            }
          }
        }
      }
    }
  }

  /** The `forEach` over a rejected response's `errors`. */
  method MapServerErrors(errors: seq<string>, classify: string -> Option<string>) returns (errorObj: map<string, string>)
    ensures errorObj == FieldErrors(errors, classify)
  {
    errorObj := map[];
    var i := 0;
    while i < |errors|
      invariant 0 <= i <= |errors|
      invariant errorObj == FieldErrors(errors[..i], classify)
    {
      var err := errors[i];
      assert errors[..i + 1][..i] == errors[..i];
      var field := classify(err);
      if field.Some? {
        errorObj := errorObj[field.value := err];
      }
      i := i + 1;
    }
    assert errors[..i] == errors;
  }
}
