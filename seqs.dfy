/**
 * The loop shape `for (const x of xs) { const y = f(x); if (y) out.push(y) }`
 * shared by the colour-family code and the flattener: keep what a partial
 * function gives, in order. Also the loop that pushes one result per element
 * and stops at the first exception.
 */
module Seqs {
  import opened Wrappers

  /** The results `f` gives for the elements of `xs`, in order, skipping those it gives nothing for. */
  function FilterMap<T, U>(f: T -> Option<U>, xs: seq<T>): seq<U>
  {
    if |xs| == 0 then []
    else
      var y := f(xs[|xs| - 1]);
      FilterMap(f, xs[..|xs| - 1]) + if y.Some? then [y.value] else []
  }

  /** The first `i + 1` elements are the first `i` followed by element `i`. */
  lemma TakeSnoc<T>(xs: seq<T>, i: nat)
    requires i < |xs|
    ensures xs[..i + 1] == xs[..i] + [xs[i]]
  {
  }

  /** One more element adds its result, if it has one. */
  lemma FilterMapStep<T, U>(f: T -> Option<U>, xs: seq<T>, i: int)
    requires 0 <= i < |xs|
    ensures FilterMap(f, xs[..i + 1]) == FilterMap(f, xs[..i]) + if f(xs[i]).Some? then [f(xs[i]).value] else []
  {
    assert xs[..i + 1][..i] == xs[..i];
  }

  /** A value is kept exactly when `f` gives it for some element. */
  lemma {:induction false} FilterMapMembers<T, U>(f: T -> Option<U>, xs: seq<T>, y: U)
    ensures y in FilterMap(f, xs) <==> exists i :: 0 <= i < |xs| && f(xs[i]) == Some(y)
  {
    if |xs| > 0 {
      var front := xs[..|xs| - 1];
      FilterMapMembers(f, front, y);
      if exists i :: 0 <= i < |xs| && f(xs[i]) == Some(y) {
        var i :| 0 <= i < |xs| && f(xs[i]) == Some(y);
        if i < |front| {
          assert front[i] == xs[i];
        }
      }
      if exists i :: 0 <= i < |front| && f(front[i]) == Some(y) {
        var i :| 0 <= i < |front| && f(front[i]) == Some(y);
        assert front[i] == xs[i];
      }
    }
  }

  /** Filtering a concatenation filters each part. */
  lemma {:induction false} FilterMapAppend<T, U>(f: T -> Option<U>, xs: seq<T>, ys: seq<T>)
    ensures FilterMap(f, xs + ys) == FilterMap(f, xs) + FilterMap(f, ys)
    decreases |ys|
  {
    if |ys| == 0 {
      assert xs + ys == xs;
    } else {
      var front := ys[..|ys| - 1];
      FilterMapAppend(f, xs, front);
      assert (xs + ys)[..|xs + ys| - 1] == xs + front;
      assert (xs + ys)[|xs + ys| - 1] == ys[|ys| - 1];
    }
  }

  /**
   * The values of the first `n` results, collected in order, or the first
   * error among them.
   */
  function AllOk<T>(rs: seq<Result<T>>, n: nat): (r: Result<seq<T>>)
    requires n <= |rs|
    ensures r.Ok? <==> forall i :: 0 <= i < n ==> rs[i].Ok?
    ensures r.Ok? ==> |r.value| == n && forall i :: 0 <= i < n ==> r.value[i] == rs[i].value
    ensures r.Err? ==> exists i :: 0 <= i < n && rs[i] == Err(r.error) && forall j :: 0 <= j < i ==> rs[j].Ok?
    decreases n
  {
    if n == 0 then Ok([])
    else
      match AllOk(rs, n - 1)
      case Err(e) => Err(e)
      case Ok(values) =>
        match rs[n - 1]
        case Err(e) => Err(e)
        case Ok(v) => Ok(values + [v])
  }

  /** Once an error is met, it is the outcome however many more results follow. */
  lemma {:induction false} AllOkErrorSticks<T>(rs: seq<Result<T>>, i: nat, n: nat)
    requires i <= n <= |rs| && AllOk(rs, i).Err?
    ensures AllOk(rs, n) == AllOk(rs, i)
    decreases n - i
  {
    if i < n {
      AllOkErrorSticks(rs, i, n - 1);
    }
  }

  /** One more successful result appends its value. */
  lemma AllOkStep<T>(rs: seq<Result<T>>, i: nat, values: seq<T>)
    requires i < |rs| && AllOk(rs, i) == Ok(values)
    ensures AllOk(rs, i + 1) == if rs[i].Ok? then Ok(values + [rs[i].value]) else Err(rs[i].error)
  {
  }

  /** The results of `f` on the elements of `xs`, in order. */
  function Results<T, U>(f: T -> Result<U>, xs: seq<T>): (rs: seq<Result<U>>)
    ensures |rs| == |xs| && forall i :: 0 <= i < |xs| ==> rs[i] == f(xs[i])
  {
    seq(|xs|, i requires 0 <= i < |xs| => f(xs[i]))
  }

  /**
   * `for (const x of xs) out.push(f(x))` where `f` may throw: the pushed
   * values, or the first exception, which ends the loop.
   */
  method PushEach<T, U>(f: T -> Result<U>, xs: seq<T>) returns (r: Result<seq<U>>)
    ensures r == AllOk(Results(f, xs), |xs|)
  {
    ghost var results := Results(f, xs);
    var out: seq<U> := [];
    var i := 0;
    while i < |xs|
      invariant 0 <= i <= |xs|
      invariant AllOk(results, i) == Ok(out)
    {
      var y := f(xs[i]);
      AllOkStep(results, i, out);
      if y.Err? {
        AllOkErrorSticks(results, i + 1, |xs|);
        return Err(y.error);
      }
      out := out + [y.value];
      i := i + 1;
    }
    r := Ok(out);
  }
}
