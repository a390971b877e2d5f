/** Success and failure values shared by the three converters.
    A `Failure` names the Python exception a step of the source raises;
    every converter stops at the first one, so a `Result` carries it out. */
module Outcomes {

  datatype Option<+T> = None | Some(value: T)

  /** The kinds of exception the converters can raise on bad input. */
  datatype Failure =
    | ValueError   // float() or int() of a malformed string, or a bad comment limit
    | IndexError   // a csv row with too few columns
    | KeyError     // a csv dictionary row without an expected column
    | TypeError    // string concatenation with None
    | NameError    // a reference to a name that is not defined

  datatype Result<+T> = Ok(value: T) | Err(failure: Failure)

  /** The values of a run of steps, or the failure of the first step that fails:
      a loop that stops at the first exception. */
  function AllOk<T>(rs: seq<Result<T>>): Result<seq<T>> {
    if rs == [] then Ok([])
    else
      match AllOk(rs[..|rs| - 1])
      case Err(e) => Err(e)
      case Ok(vs) =>
        match rs[|rs| - 1]
        case Err(e) => Err(e)
        case Ok(v) => Ok(vs + [v])
  }

  /** One more step of a run that has succeeded so far: its value is appended,
      or its failure ends the run. */
  lemma AllOkNext<T>(rs: seq<Result<T>>, i: nat, vs: seq<T>)
    requires i < |rs| && AllOk(rs[..i]) == Ok(vs)
    ensures AllOk(rs[..i + 1]) == if rs[i].Ok? then Ok(vs + [rs[i].value]) else Err(rs[i].failure)
  {
    assert rs[..i + 1][..i] == rs[..i];
  }

  /** A failing step fails the whole run with its failure. */
  lemma {:induction false} AllOkAbort<T>(rs: seq<Result<T>>, n: nat, e: Failure)
    requires n <= |rs| && AllOk(rs[..n]) == Err(e)
    ensures AllOk(rs) == Err(e)
    decreases |rs| - n
  {
    if n < |rs| {
      assert rs[..n + 1][..n] == rs[..n];
      AllOkAbort(rs, n + 1, e);
    } else {
      assert rs[..n] == rs;
    }
  }

  /** A run succeeds exactly when every step does, and then it yields one value
      per step, in order. */
  lemma {:induction false} AllOkSpec<T>(rs: seq<Result<T>>)
    ensures AllOk(rs).Ok? <==> forall i :: 0 <= i < |rs| ==> rs[i].Ok?
    ensures AllOk(rs).Ok? ==>
      |AllOk(rs).value| == |rs| && forall i :: 0 <= i < |rs| ==> AllOk(rs).value[i] == rs[i].value
    decreases |rs|
  {
    if rs != [] {
      var init := rs[..|rs| - 1];
      AllOkSpec(init);
      assert forall i :: 0 <= i < |init| ==> init[i] == rs[i];
    }
  }

  /** The first failure in a run is the failure of the whole run. */
  lemma {:induction false} AllOkFirstFailure<T>(rs: seq<Result<T>>, k: nat)
    requires k < |rs| && rs[k].Err? && forall i :: 0 <= i < k ==> rs[i].Ok?
    ensures AllOk(rs) == Err(rs[k].failure)
  {
    AllOkSpec(rs[..k]);
    assert forall i :: 0 <= i < k ==> rs[..k][i] == rs[i];
    assert rs[..k + 1][..k] == rs[..k];
    AllOkAbort(rs, k + 1, rs[k].failure);
  }
}
