/** Option and Result: the model's stand-ins for Python's `None` and for an
    operation that either returns a value or raises. */
module Wrappers {

  datatype Option<+T> = None | Some(value: T)
  {
    /** The value, or `default` when there is none (`d.get(key, default)`). */
    function GetOr(default: T): T
    {
      match this
      case Some(v) => v
      case None => default
    }
  }

  datatype Result<+T, +E> = Ok(value: T) | Err(error: E)

  /** Running a list of steps that may raise, in order: the list of their
      values, or the exception of the first step that raises. */
  function AllOk<T, E>(rs: seq<Result<T, E>>): (r: Result<seq<T>, E>)
    ensures r.Ok? <==> forall j :: 0 <= j < |rs| ==> rs[j].Ok?
    ensures r.Ok? ==> |r.value| == |rs| && forall j :: 0 <= j < |rs| ==> rs[j] == Ok(r.value[j])
    ensures r.Err? ==> exists j :: 0 <= j < |rs| && rs[j] == Err(r.error) && forall m :: 0 <= m < j ==> rs[m].Ok?
  {
    if rs == [] then Ok([])
    else if rs[0].Err? then Err(rs[0].error)
    else
      match AllOk(rs[1..])
      case Err(e) =>
        assert forall j :: 0 <= j < |rs| - 1 ==> rs[1..][j] == rs[j + 1];
        Err(e)
      case Ok(rest) => Ok([rs[0].value] + rest)
  }

  /** The values so far followed by the values of the remaining steps. */
  function Then<T, E>(done: seq<T>, r: Result<seq<T>, E>): Result<seq<T>, E>
  {
    if r.Ok? then Ok(done + r.value) else r
  }

  /** Running step `k`: its value joins the values so far, or its exception
      ends the run. */
  lemma AllOkStep<T, E>(rs: seq<Result<T, E>>, k: nat)
    requires k < |rs|
    ensures rs[k].Ok? ==> AllOk(rs[k..]) == Then([rs[k].value], AllOk(rs[k + 1..]))
    ensures rs[k].Err? ==> AllOk(rs[k..]) == Err(rs[k].error)
  {
    assert rs[k..][0] == rs[k];
    assert rs[k..][1..] == rs[k + 1..];
  }

  lemma ThenThen<T, E>(done: seq<T>, more: seq<T>, r: Result<seq<T>, E>)
    ensures Then(done, Then(more, r)) == Then(done + more, r)
  {
    if r.Ok? {
      assert done + (more + r.value) == (done + more) + r.value;
    }
  }

  /** A loop over the steps, at step `k` with the values `done` collected:
      the step's exception is the run's, or its value is collected too. */
  lemma AllOkAdvance<T, E>(rs: seq<Result<T, E>>, done: seq<T>, k: nat)
    requires k < |rs| && AllOk(rs) == Then(done, AllOk(rs[k..]))
    ensures rs[k].Err? ==> AllOk(rs) == Err(rs[k].error)
    ensures rs[k].Ok? ==> AllOk(rs) == Then(done + [rs[k].value], AllOk(rs[k + 1..]))
  {
    AllOkStep(rs, k);
    if rs[k].Ok? {
      ThenThen(done, [rs[k].value], AllOk(rs[k + 1..]));
    }
  }

  /** Before the first step nothing is done yet. */
  lemma ThenStart<T, E>(rs: seq<Result<T, E>>)
    ensures AllOk(rs) == Then([], AllOk(rs[0..]))
  {
    assert rs[0..] == rs;
    if AllOk(rs).Ok? {
      assert [] + AllOk(rs).value == AllOk(rs).value;
    }
  }

  /** After the last step the values are the ones collected. */
  lemma ThenEnd<T, E>(done: seq<T>, rs: seq<Result<T, E>>)
    ensures Then(done, AllOk(rs[|rs|..])) == Ok(done)
  {
    assert rs[|rs|..] == [];
    assert done + [] == done;
  }

  /** The first step, then the rest. */
  lemma AllOkCons<T, E>(rs: seq<Result<T, E>>)
    requires rs != []
    ensures AllOk(rs) == if rs[0].Err? then Err(rs[0].error) else Then([rs[0].value], AllOk(rs[1..]))
  {
    AllOkStep(rs, 0);
    assert rs[0..] == rs;
  }

  /** Where all of `xs + ys` succeed, the values line up with `xs`, then with `ys`. */
  lemma AllOkConcatAt<T, E>(xs: seq<Result<T, E>>, ys: seq<Result<T, E>>)
    requires AllOk(xs + ys).Ok?
    ensures |AllOk(xs + ys).value| == |xs| + |ys|
    ensures forall j :: 0 <= j < |xs| ==> xs[j] == Ok(AllOk(xs + ys).value[j])
    ensures forall n :: 0 <= n < |ys| ==> ys[n] == Ok(AllOk(xs + ys).value[|xs| + n])
  {
    var zs := xs + ys;
    forall j | 0 <= j < |xs|
      ensures xs[j] == Ok(AllOk(zs).value[j])
    {
      assert zs[j] == xs[j];
    }
    forall n | 0 <= n < |ys|
      ensures ys[n] == Ok(AllOk(zs).value[|xs| + n])
    {
      assert zs[|xs| + n] == ys[n];
    }
  }

  /** Running two sequences of steps one after the other: the first exception
      ends the run; otherwise the values of both, in order. */
  lemma {:induction false} AllOkConcat<T, E>(xs: seq<Result<T, E>>, ys: seq<Result<T, E>>)
    ensures AllOk(xs + ys) == if AllOk(xs).Err? then Err(AllOk(xs).error) else Then(AllOk(xs).value, AllOk(ys))
  {
    if xs == [] {
      assert xs + ys == ys;
      ThenNothing(AllOk(ys));
    } else {
      var zs := xs + ys;
      assert zs[0] == xs[0];
      assert zs[1..] == xs[1..] + ys;
      AllOkCons(zs);
      AllOkCons(xs);
      AllOkConcat(xs[1..], ys);
      if xs[0].Ok? && AllOk(xs[1..]).Ok? {
        ThenThen([xs[0].value], AllOk(xs[1..]).value, AllOk(ys));
      }
    }
  }

  lemma ThenNothing<T, E>(r: Result<seq<T>, E>)
    ensures Then([], r) == r
  {
    if r.Ok? {
      assert [] + r.value == r.value;
    }
  }
}
