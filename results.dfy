/** Optional values, and the outcome of a render: either the text or the name
    of the operation that has no rendering (a `todo!()` in the program). */
module Results {

  datatype Option<T> = None | Some(value: T)

  datatype Result<T> = Ok(value: T) | Unsupported(operation: string) {
    predicate IsFailure() {
      Unsupported?
    }

    function PropagateFailure<U>(): Result<U>
      requires Unsupported?
    {
      Unsupported(operation)
    }

    function Extract(): T
      requires Ok?
    {
      value
    }
  }

  /** Renders every element of `xs` with `f`, in order; all or nothing. The
      result succeeds exactly when every element renders, then holds the
      renders in the order of `xs`; otherwise it is the failure of the first
      element that does not render. */
  function MapAll<T>(xs: seq<T>, f: T -> Result<string>): (r: Result<seq<string>>)
    ensures r.Ok? <==> forall i :: 0 <= i < |xs| ==> f(xs[i]).Ok?
    ensures r.Ok? ==> |r.value| == |xs| && forall i :: 0 <= i < |xs| ==> r.value[i] == f(xs[i]).value
    ensures r.Unsupported? ==>
              exists k :: 0 <= k < |xs| && f(xs[k]) == Unsupported(r.operation) && forall j :: 0 <= j < k ==> f(xs[j]).Ok?
  {
    if xs == [] then Ok([])
    else
      match f(xs[0])
      case Unsupported(op) => Unsupported(op)
      case Ok(s) =>
        var rest := MapAll(xs[1..], f);
        if rest.Unsupported? then
          ghost var k :| 0 <= k < |xs[1..]| && f(xs[1..][k]) == Unsupported(rest.operation) && forall j :: 0 <= j < k ==> f(xs[1..][j]).Ok?;
          assert f(xs[k + 1]) == Unsupported(rest.operation);
          Unsupported(rest.operation)
        else
          Ok([s] + rest.value)
  }

  /** The failure `MapAll` reports is the failure of the first element that
      does not render. */
  lemma MapAllFirstFailure<T>(xs: seq<T>, f: T -> Result<string>, k: nat)
    requires k < |xs| && f(xs[k]).Unsupported?
    requires forall j :: 0 <= j < k ==> f(xs[j]).Ok?
    ensures MapAll(xs, f) == Unsupported(f(xs[k]).operation)
  {
    var m := MapAll(xs, f);
    assert m.Unsupported?;
    var k' :| 0 <= k' < |xs| && f(xs[k']) == Unsupported(m.operation) && forall j :: 0 <= j < k' ==> f(xs[j]).Ok?;
    assert k' == k;
  }
}
