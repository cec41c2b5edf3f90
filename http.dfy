/** Vocabulary shared by the Express route handlers: optional request fields,
    the reply a handler sends, and the field checks of express-validator. */
module Http {
  import opened Wrappers

  /** The requester's or an author's account identifier, as a string. */
  type UserId = string

  /** What a handler sends back.
      - `Ok`: status 200; the body is not modelled;
      - `Fail(status, msg)`: the `{ msg }` body with that status (400, 401, 404, 500);
      - `Invalid(errors)`: status 400 with the `{ errors }` list of a failed validation. */
  datatype Reply = Ok | Fail(status: int, msg: string) | Invalid(errors: seq<string>)

  /** `check(field, message).not().isEmpty()`: passes when the field is a
      non-empty string. For a string field this is also JavaScript truthiness,
      which the handlers use in `if (field)` after validation. */
  predicate Present(o: Option<string>) {
    o.Some? && o.value != ""
  }

  /** One declared validation: the field it looks at and its message. */
  datatype Check = Check(field: Option<string>, message: string)

  /** `validationResult(req).array()`: the messages of the failing checks,
      in the order the checks are declared. */
  function Errors(checks: seq<Check>): (r: seq<string>)
    ensures |r| <= |checks|
    ensures r == [] <==> forall i :: 0 <= i < |checks| ==> Present(checks[i].field)
    ensures forall m :: m in r ==> exists i :: 0 <= i < |checks| && !Present(checks[i].field) && checks[i].message == m
    ensures forall i :: 0 <= i < |checks| && !Present(checks[i].field) ==> checks[i].message in r
  {
    if |checks| == 0 then []
    else
      var rest := Errors(checks[1..]);
      assert forall m :: m in rest ==> exists i :: 1 <= i < |checks| && !Present(checks[i].field) && checks[i].message == m by {
        forall m | m in rest
          ensures exists i :: 1 <= i < |checks| && !Present(checks[i].field) && checks[i].message == m
        {
          var j :| 0 <= j < |checks[1..]| && !Present(checks[1..][j].field) && checks[1..][j].message == m;
          assert checks[j + 1] == checks[1..][j];
        }
      }
      (if Present(checks[0].field) then [] else [checks[0].message]) + rest
  }

  /** The errors of two runs of checks, one after the other, are the errors
      of the first followed by those of the second: the messages keep the
      order in which the checks are declared. */
  lemma {:induction false} ErrorsAppend(a: seq<Check>, b: seq<Check>)
    ensures Errors(a + b) == Errors(a) + Errors(b)
    decreases |a|
  {
    if |a| > 0 {
      assert (a + b)[0] == a[0];
      assert (a + b)[1..] == a[1..] + b;
      ErrorsAppend(a[1..], b);
    } else {
      assert a + b == b;
    }
  }

  /** The reply of a handler whose validation failed, if it did. */
  function Validate(checks: seq<Check>): (r: Option<Reply>)
    ensures r.None? <==> forall i :: 0 <= i < |checks| ==> Present(checks[i].field)
    ensures r.Some? ==> r.value.Invalid? && r.value.errors != [] && |r.value.errors| <= |checks|
  {
    var errors := Errors(checks);
    if errors == [] then None else Some(Invalid(errors))
  }
}
