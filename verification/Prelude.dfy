/** Small shared datatypes. */
module Prelude {

  datatype Option<+T> = None | Some(value: T)

  /** A call that either returns a value or raises an error of the source. */
  datatype Result<+T, +E> = Ok(value: T) | Err(error: E)

  function Elements(s: seq<string>): set<string> {
    set x | x in s
  }

  ghost predicate Distinct<T>(s: seq<T>) {
    forall i, j :: 0 <= i < j < |s| ==> s[i] != s[j]
  }

  /** All values, or the first error, as a loop that raises gives them. */
  function AllOk<T, E>(rs: seq<Result<T, E>>): Result<seq<T>, E> {
    if rs == [] then Ok([])
    else
      var front := AllOk(rs[..|rs| - 1]);
      if front.Err? then front
      else match rs[|rs| - 1]
        case Ok(value) => Ok(front.value + [value])
        case Err(error) => Err(error)
  }

  lemma {:induction false} AllOkMeans<T, E>(rs: seq<Result<T, E>>)
    ensures AllOk(rs).Ok? <==> forall i :: 0 <= i < |rs| ==> rs[i].Ok?
    ensures AllOk(rs).Ok? ==> |AllOk(rs).value| == |rs| && forall i :: 0 <= i < |rs| ==> rs[i] == Ok(AllOk(rs).value[i])
  {
    if rs != [] {
      var n := |rs| - 1;
      AllOkMeans(rs[..n]);
      assert forall k :: 0 <= k < n ==> rs[..n][k] == rs[k];
    }
  }

  lemma {:induction false} FirstErrorStays<T, E>(rs: seq<Result<T, E>>, n: nat)
    requires n <= |rs| && AllOk(rs[..n]).Err?
    ensures AllOk(rs) == AllOk(rs[..n])
    decreases |rs| - n
  {
    if n < |rs| {
      assert rs[..n + 1][..n] == rs[..n];
      FirstErrorStays(rs, n + 1);
    } else {
      assert rs[..n] == rs;
    }
  }

  /** Reading one result more: the list so far grows, or the whole fails with the first error. */
  lemma AllOkNext<T, E>(rs: seq<Result<T, E>>, i: nat, values: seq<T>)
    requires i < |rs| && AllOk(rs[..i]) == Ok(values)
    ensures rs[i].Ok? ==> AllOk(rs[..i + 1]) == Ok(values + [rs[i].value])
    ensures rs[i].Err? ==> AllOk(rs) == Err(rs[i].error)
  {
    var next := rs[..i + 1];
    assert next[..|next| - 1] == rs[..i];
    if rs[i].Err? {
      FirstErrorStays(rs, i + 1);
    }
  }

  /** The error of a failed whole is the error of one of its parts. */
  lemma {:induction false} FirstError<T, E>(rs: seq<Result<T, E>>) returns (i: nat)
    requires AllOk(rs).Err?
    ensures i < |rs| && rs[i] == Err(AllOk(rs).error)
  {
    var n := |rs| - 1;
    if AllOk(rs[..n]).Err? {
      i := FirstError(rs[..n]);
    } else {
      i := n;
    }
  }
}
