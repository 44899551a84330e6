/** What every route shares: ids, request-body values, the JSON error
    bodies the handlers answer with, and the declarative field checks
    run before a handler's own logic. */
module Api {
  import opened Seqs

  /** Ids of users, posts, comments and experience entries. The handlers
      compare them as the strings `toString()` yields, so plain strings
      with equality stand for them. */
  type Id = string

  datatype Option<T> = None | Some(value: T)

  /** One failed field check, as the validator reports it (its `value`
      and `location` members are not modelled). */
  datatype FieldError = FieldError(msg: string, param: string)

  /** The `errors` member of an error response. */
  datatype ErrorBody =
    | Message(msg: string)                      // { errors: [ { msg } ] }
    | Invalid(fields: seq<FieldError>)          // { errors: <the failed checks> }
    | InvalidWrapped(fields: seq<FieldError>)   // { errors: [ { msg: <the failed checks> } ] }

  /** A handler's answer: the JSON value sent with status 200, or an
      error status with its body. */
  datatype Response<T> = Ok(value: T) | Err(status: nat, body: ErrorBody)

  function NotFound<T>(msg: string): Response<T>
  {
    Err(404, Message(msg))
  }

  /** A body value that is present and not the empty string. This is what
      `check(field).not().isEmpty()` accepts, and also what `if (field)`
      treats as truthy, since every body value here is a string. */
  predicate Supplied(v: Option<string>)
  {
    v.Some? && |v.value| > 0
  }

  /** One declared check: the body value it looks at and the error it
      reports when that value is missing or empty. */
  datatype Check = Check(value: Option<string>, error: FieldError)

  /** The test a declared check fails. */
  function Fails(): Check -> bool
  {
    (c: Check) => !Supplied(c.value)
  }

  /** The errors of the failed checks, in declaration order: what
      `validationResult(req).array()` holds. */
  function ValidationErrors(checks: seq<Check>): (errs: seq<FieldError>)
    ensures |errs| <= |checks|
    ensures errs == [] <==> forall i :: 0 <= i < |checks| ==> Supplied(checks[i].value)
    ensures forall e :: e in errs ==> exists c :: c in checks && !Supplied(c.value) && c.error == e
    ensures forall c :: c in checks && !Supplied(c.value) ==> c.error in errs
  {
    if checks == [] then []
    else
      var rest := ValidationErrors(checks[1..]);
      assert forall c :: c in checks[1..] ==> c in checks;
      var errs := (if Supplied(checks[0].value) then [] else [checks[0].error]) + rest;
      forall c | c in checks && !Supplied(c.value) ensures c.error in errs {
        if c != checks[0] {
          assert c in checks[1..];
        }
      }
      errs
  }

  /** The errors come in declaration order: error k is the error of the
      k-th failed check. */
  lemma {:induction false} ValidationErrorsInOrder(checks: seq<Check>)
    ensures ErrorsOf(ValidationErrors(checks), Filter(checks, Fails()))
  {
    if checks != [] {
      var c, tail := checks[0], checks[1..];
      ValidationErrorsInOrder(tail);
      assert checks == [c] + tail;
      FilterAppend([c], tail, Fails());
      assert [c][..0] == [];
      var head := if Supplied(c.value) then [] else [c.error];
      assert ErrorsOf(head, Filter([c], Fails()));
      assert ValidationErrors(checks) == head + ValidationErrors(tail);
      ErrorsOfConcat(head, Filter([c], Fails()), ValidationErrors(tail), Filter(tail, Fails()));
    }
  }

  /** `errs` lists the errors of `failed`, position by position. */
  predicate ErrorsOf(errs: seq<FieldError>, failed: seq<Check>)
  {
    |errs| == |failed| && forall k :: 0 <= k < |errs| ==> errs[k] == failed[k].error
  }

  lemma ErrorsOfConcat(e1: seq<FieldError>, f1: seq<Check>, e2: seq<FieldError>, f2: seq<Check>)
    requires ErrorsOf(e1, f1) && ErrorsOf(e2, f2)
    ensures ErrorsOf(e1 + e2, f1 + f2)
  {
    forall k | |e1| <= k < |e1| + |e2| ensures (e1 + e2)[k] == (f1 + f2)[k].error {
      assert (e1 + e2)[k] == e2[k - |e1|] && (f1 + f2)[k] == f2[k - |f1|];
    }
  }

  /** A single check fails with exactly its own error. */
  lemma SingleCheckErrors(c: Check)
    ensures ValidationErrors([c]) == if Supplied(c.value) then [] else [c.error]
  {
    assert [c][1..] == [];
  }
}
