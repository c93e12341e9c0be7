// useErrorCollector: the list of errors shown to the user.

module ErrorCollector {
  import opened Wrappers

  datatype ErrorInfo = ErrorInfo(id: string, title: string, message: string, timestamp: int,
                                 debugInfo: Option<string>)

  /** `filter(error => error.id !== id)`. */
  function Without(errors: seq<ErrorInfo>, id: string): (r: seq<ErrorInfo>)
    ensures |r| <= |errors|
    ensures forall i :: 0 <= i < |r| ==> r[i].id != id && r[i] in errors
    ensures forall i :: 0 <= i < |errors| && errors[i].id != id ==> errors[i] in r
  {
    if |errors| == 0 then []
    else
      var rest := Without(errors[1..], id);
      assert forall i :: 1 <= i < |errors| ==> errors[i] == errors[1..][i - 1];
      if errors[0].id == id then rest else [errors[0]] + rest
  }

  /** Removal works piecewise, so the kept entries stay in their original order. */
  lemma {:induction false} WithoutDistributes(a: seq<ErrorInfo>, b: seq<ErrorInfo>, id: string)
    ensures Without(a + b, id) == Without(a, id) + Without(b, id)
    decreases |a|
  {
    if |a| == 0 {
      assert a + b == b;
    } else {
      assert (a + b)[1..] == a[1..] + b;
      WithoutDistributes(a[1..], b, id);
    }
  }

  /** Removing an id that nothing carries changes nothing. */
  lemma {:induction false} WithoutAbsent(errors: seq<ErrorInfo>, id: string)
    requires forall i :: 0 <= i < |errors| ==> errors[i].id != id
    ensures Without(errors, id) == errors
    decreases |errors|
  {
    if |errors| > 0 {
      WithoutAbsent(errors[1..], id);
    }
  }

  /** Removing the id of the error just added drops that entry and all earlier ones with the id. */
  lemma AddThenRemove(errors: seq<ErrorInfo>, e: ErrorInfo)
    ensures Without(errors + [e], e.id) == Without(errors, e.id)
  {
    WithoutDistributes(errors, [e], e.id);
    assert Without([e], e.id) == [];
  }

  class Collector {
    var errors: seq<ErrorInfo>

    constructor()
      ensures errors == []
    {
      errors := [];
    }

    /** addError; `now` stands for the timestamp taken at the call. Ids are not deduplicated. */
    method AddError(id: string, title: string, message: string, debugInfo: Option<string>, now: int)
      modifies this
      ensures errors == old(errors) + [ErrorInfo(id, title, message, now, debugInfo)]
    {
      errors := errors + [ErrorInfo(id, title, message, now, debugInfo)];
    }

    method RemoveError(id: string)
      modifies this
      ensures errors == Without(old(errors), id)
    {
      errors := Without(errors, id);
    }

    method ClearAllErrors()
      modifies this
      ensures errors == []
    {
      errors := [];
    }
  }
}
