/** Shared shapes of the form pages: the server's field errors, the outcome of a
    request as the page sees it, and the per-field error map that the pages fill
    with `setError` one error at a time. */
module Forms {

  datatype Option<+T> = None | Some(value: T)

  /** One `(path, message)` pair of an HTTP 422 response body. */
  datatype FieldError = FieldError(path: string, message: string)

  /** What a request handed to a mutation ends in: success with the body's
      payload, a 422 whose `message` list may be missing, or any other error. */
  datatype Response<+T> = Ok(value: T) | Unprocessable(messages: Option<seq<FieldError>>) | OtherError

  /** The form's server errors, field path to message. */
  type ErrorMap = map<string, string>

  /** The error map after `setError(err.path, err.message)` for every error of
      `list`, in list order. */
  function ApplyErrors(errors: ErrorMap, list: seq<FieldError>): ErrorMap
    decreases |list|
  {
    if list == [] then errors
    else
      var last := list[|list| - 1];
      ApplyErrors(errors, list[..|list| - 1])[last.path := last.message]
  }

  /** `i` is the last position of `list` whose error is about `path`. */
  ghost predicate LastFor(list: seq<FieldError>, path: string, i: int)
  {
    0 <= i < |list| && list[i].path == path &&
    forall j :: i < j < |list| ==> list[j].path != path
  }

  /** The path of an error of the batch ends with the message of its LAST error. */
  lemma {:induction false} ApplyErrorsLast(errors: ErrorMap, list: seq<FieldError>, path: string, i: int)
    requires LastFor(list, path, i)
    ensures path in ApplyErrors(errors, list) && ApplyErrors(errors, list)[path] == list[i].message
    decreases |list|
  {
    var init := list[..|list| - 1];
    if i < |list| - 1 {
      assert LastFor(init, path, i);
      ApplyErrorsLast(errors, init, path, i);
    }
  }

  /** A path no error of the batch is about keeps its message, or stays absent. */
  lemma {:induction false} ApplyErrorsUntouched(errors: ErrorMap, list: seq<FieldError>, path: string)
    requires forall i :: 0 <= i < |list| ==> list[i].path != path
    ensures path in ApplyErrors(errors, list) <==> path in errors
    ensures path in errors ==> ApplyErrors(errors, list)[path] == errors[path]
    decreases |list|
  {
    if list != [] {
      ApplyErrorsUntouched(errors, list[..|list| - 1], path);
    }
  }

  /** Every key of the batch ends up in the map, and nothing else is added. */
  lemma {:induction false} ApplyErrorsKeys(errors: ErrorMap, list: seq<FieldError>)
    ensures ApplyErrors(errors, list).Keys == errors.Keys + set e | e in list :: e.path
    decreases |list|
  {
    if list != [] {
      var init := list[..|list| - 1];
      ApplyErrorsKeys(errors, init);
      assert list == init + [list[|list| - 1]];
      assert (set e | e in list :: e.path) == (set e | e in init :: e.path) + {list[|list| - 1].path};
    }
  }

  /** `list.find(err => err.message === message)`: the first error carrying
      `message`, if any. */
  function FindByMessage(list: seq<FieldError>, message: string): (r: Option<FieldError>)
    ensures r.Some? <==> exists i :: 0 <= i < |list| && list[i].message == message
    ensures r.Some? ==> exists i :: 0 <= i < |list| && list[i] == r.value && r.value.message == message &&
                                   forall j :: 0 <= j < i ==> list[j].message != message
  {
    if list == [] then None
    else if list[0].message == message then Some(list[0])
    else
      var r := FindByMessage(list[1..], message);
      assert r.Some? ==> exists i :: 1 <= i < |list| && list[i] == r.value && r.value.message == message &&
                                    forall j :: 0 <= j < i ==> list[j].message != message by {
        if r.Some? {
          var k :| 0 <= k < |list[1..]| && list[1..][k] == r.value && r.value.message == message &&
                   forall j :: 0 <= j < k ==> list[1..][j].message != message;
          assert forall j :: 1 <= j < k + 1 ==> list[j].message != message by {
            forall j | 1 <= j < k + 1 ensures list[j].message != message { assert list[j] == list[1..][j - 1]; }
          }
        }
      }
      assert (exists i :: 0 <= i < |list| && list[i].message == message) ==>
             exists i :: 0 <= i < |list[1..]| && list[1..][i].message == message by {
        if exists i :: 0 <= i < |list| && list[i].message == message {
          var i :| 0 <= i < |list| && list[i].message == message;
          assert list[1..][i - 1].message == message;
        }
      }
      r
  }
}
