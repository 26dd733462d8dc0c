/** Option, Result and Outcome: the shapes used for absent values, thrown
    errors and calls that either complete or throw. */
module Wrappers {

  datatype Option<+T> = None | Some(value: T) {
    function GetOr(default: T): T {
      match this
      case Some(v) => v
      case None => default
    }
  }

  /** The value of a call that returns normally (`Success`) or throws (`Failure`). */
  datatype Result<+R, +E> = Success(value: R) | Failure(error: E)

  /** The completion of a call that returns nothing: `Pass`, or `Fail` with what it threw. */
  datatype Outcome<+E> = Pass | Fail(error: E)

  /** The values of a sequence of calls made in order, or the exception of the
      first call that throws (the later calls are not made). */
  function Collect<T, E>(rs: seq<Result<T, E>>): (r: Result<seq<T>, E>)
    ensures r.Success? ==> |r.value| == |rs|
  {
    if |rs| == 0 then Success([])
    else
      match Collect(rs[..|rs| - 1])
      case Failure(e) => Failure(e)
      case Success(prev) =>
        match rs[|rs| - 1]
        case Failure(e) => Failure(e)
        case Success(t) => Success(prev + [t])
  }

  /** When every call returns, `Collect` gives all their values in order. */
  lemma {:induction false} CollectSuccess<T, E>(rs: seq<Result<T, E>>, ts: seq<T>)
    requires |rs| == |ts|
    requires forall i | 0 <= i < |rs| :: rs[i] == Success(ts[i])
    ensures Collect(rs) == Success(ts)
  {
    if |rs| > 0 {
      CollectSuccess(rs[..|rs| - 1], ts[..|ts| - 1]);
      assert ts == ts[..|ts| - 1] + [ts[|ts| - 1]];
    }
  }

  /** A call that throws decides the outcome of every longer sequence. */
  lemma {:induction false} CollectPrefixFailure<T, E>(rs: seq<Result<T, E>>, n: nat)
    requires n <= |rs| && Collect(rs[..n]).Failure?
    ensures Collect(rs) == Collect(rs[..n])
  {
    if n < |rs| {
      var init := rs[..|rs| - 1];
      assert init[..n] == rs[..n];
      CollectPrefixFailure(init, n);
    } else {
      assert rs[..n] == rs;
    }
  }

  /** The first call that throws decides the outcome. */
  lemma CollectFirstFailure<T, E>(rs: seq<Result<T, E>>, k: nat)
    requires k < |rs| && rs[k].Failure?
    requires forall j | 0 <= j < k :: rs[j].Success?
    ensures Collect(rs) == Failure(rs[k].error)
  {
    var ts := seq(k, j requires 0 <= j < k => rs[j].value);
    CollectSuccess(rs[..k], ts);
    CollectSnoc(rs, k);
    CollectPrefixFailure(rs, k + 1);
  }

  /** A failed `Collect` fails with the exception of one of its calls. */
  lemma {:induction false} CollectFailure<T, E>(rs: seq<Result<T, E>>)
    requires Collect(rs).Failure?
    ensures exists i | 0 <= i < |rs| :: rs[i] == Failure(Collect(rs).error)
  {
    var n := |rs| - 1;
    var init := rs[..n];
    if Collect(init).Failure? {
      CollectFailure(init);
      var i :| 0 <= i < |init| && init[i] == Failure(Collect(init).error);
      assert rs[i] == init[i];
    } else {
      assert rs[n] == Failure(Collect(rs).error);
    }
  }

  /** `Collect` of one more call. */
  lemma CollectSnoc<T, E>(rs: seq<Result<T, E>>, n: nat)
    requires n < |rs|
    ensures Collect(rs[..n + 1]) == match Collect(rs[..n])
                                     case Failure(e) => Failure(e)
                                     case Success(prev) =>
                                       match rs[n]
                                       case Failure(e) => Failure(e)
                                       case Success(t) => Success(prev + [t])
  {
    assert rs[..n + 1][..n] == rs[..n];
  }

  /** One call in front: its exception, or its value in front of the rest. */
  lemma {:induction false} CollectCons<T, E>(x: Result<T, E>, rs: seq<Result<T, E>>)
    ensures Collect([x] + rs) == match x
                                 case Failure(e) => Failure(e)
                                 case Success(t) =>
                                   match Collect(rs)
                                   case Failure(e) => Failure(e)
                                   case Success(ts) => Success([t] + ts)
    decreases |rs|
  {
    if |rs| == 0 {
      assert [x] + rs == [x];
      assert [x][..0] == [];
      var none: seq<Result<T, E>> := [];
      assert Collect(none) == Success([]);
      if x.Success? {
        assert [] + [x.value] == [x.value] + [];
      }
    } else {
      var init := rs[..|rs| - 1];
      var xs := [x] + rs;
      assert xs[..|xs| - 1] == [x] + init;
      assert xs[|xs| - 1] == rs[|rs| - 1];
      CollectCons(x, init);
      if x.Success? && Collect(init).Success? && rs[|rs| - 1].Success? {
        assert Collect(rs) == Success(Collect(init).value + [rs[|rs| - 1].value]);
        assert [x.value] + Collect(init).value + [rs[|rs| - 1].value] == [x.value] + (Collect(init).value + [rs[|rs| - 1].value]);
      }
    }
  }

  /** A sequence of calls that all return gives back each value at its place. */
  lemma {:induction false} CollectValues<T, E>(rs: seq<Result<T, E>>)
    requires Collect(rs).Success?
    ensures |Collect(rs).value| == |rs|
    ensures forall i | 0 <= i < |rs| :: rs[i] == Success(Collect(rs).value[i])
  {
    if |rs| > 0 {
      var init := rs[..|rs| - 1];
      CollectValues(init);
      assert forall i | 0 <= i < |init| :: rs[i] == init[i];
    }
  }
}
