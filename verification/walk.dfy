/** The two shapes every attribute walk of the configuration parsers shares.
    `Traverse` is a `for` loop that converts each element with `?`: it stops at
    the first failing element and otherwise collects the results in order.
    `Last` is a variable overwritten on every matching element: after the loop
    it holds the value of the last match, or its initial value if none. */
module Walk {
  import opened Wrappers

  function Traverse<X, T, E>(xs: seq<X>, f: X -> Result<T, E>): (r: Result<seq<T>, E>)
    ensures r.Success? <==> forall i :: 0 <= i < |xs| ==> f(xs[i]).Success?
    ensures r.Success? ==>
              |r.value| == |xs| && forall i :: 0 <= i < |xs| ==> f(xs[i]) == Success(r.value[i])
    ensures r.Failure? ==>
              exists i :: 0 <= i < |xs| && f(xs[i]) == Failure(r.error)
                          && forall j :: 0 <= j < i ==> f(xs[j]).Success?
    decreases |xs|
  {
    if |xs| == 0 then Success([])
    else
      match f(xs[0])
      case Failure(e) => Failure(e)
      case Success(y) =>
        var rest := Traverse(xs[1..], f);
        assert forall i :: 1 <= i < |xs| ==> xs[i] == xs[1..][i - 1];
        match rest
        case Failure(e) =>
          assert exists i :: 1 <= i < |xs| && f(xs[i]) == Failure(e)
                             && forall j :: 0 <= j < i ==> f(xs[j]).Success? by {
            var k :| 0 <= k < |xs[1..]| && f(xs[1..][k]) == Failure(e)
                     && forall j :: 0 <= j < k ==> f(xs[1..][j]).Success?;
            assert f(xs[k + 1]) == Failure(e);
          }
          Failure(e)
        case Success(ys) => Success([y] + ys)
  }

  /** The failure `Traverse` reports is that of the first failing element. */
  lemma TraverseFirstFailure<X, T, E>(xs: seq<X>, f: X -> Result<T, E>, i: nat)
    requires i < |xs|
    requires forall j :: 0 <= j < i ==> f(xs[j]).Success?
    requires f(xs[i]).Failure?
    ensures Traverse(xs, f) == Failure(f(xs[i]).error)
  {
  }

  function Last<T, V>(xs: seq<T>, pick: T -> Option<V>): (r: Option<V>)
    ensures r.None? <==> forall i :: 0 <= i < |xs| ==> pick(xs[i]).None?
    ensures r.Some? ==>
              exists i :: 0 <= i < |xs| && pick(xs[i]) == r
                          && forall j :: i < j < |xs| ==> pick(xs[j]).None?
    decreases |xs|
  {
    if |xs| == 0 then None
    else if pick(xs[|xs| - 1]).Some? then pick(xs[|xs| - 1])
    else
      var init := xs[..|xs| - 1];
      var r := Last(init, pick);
      LastInit(xs, init, pick, r);
      r
  }

  /** The step of `Last` that skips a non-matching final element. */
  lemma LastInit<T, V>(xs: seq<T>, init: seq<T>, pick: T -> Option<V>, r: Option<V>)
    requires |xs| > 0 && init == xs[..|xs| - 1] && pick(xs[|xs| - 1]).None?
    requires r.None? <==> forall i :: 0 <= i < |init| ==> pick(init[i]).None?
    requires r.Some? ==>
               exists i :: 0 <= i < |init| && pick(init[i]) == r
                           && forall j :: i < j < |init| ==> pick(init[j]).None?
    ensures r.None? <==> forall i :: 0 <= i < |xs| ==> pick(xs[i]).None?
    ensures r.Some? ==>
              exists i :: 0 <= i < |xs| && pick(xs[i]) == r
                          && forall j :: i < j < |xs| ==> pick(xs[j]).None?
  {
    assert forall i :: 0 <= i < |init| ==> init[i] == xs[i];
    if r.Some? {
      var k :| 0 <= k < |init| && pick(init[k]) == r && forall j :: k < j < |init| ==> pick(init[j]).None?;
      assert pick(xs[k]) == r;
      assert forall j :: k < j < |xs| ==> pick(xs[j]).None? by {
        forall j | k < j < |xs| ensures pick(xs[j]).None? {
          if j < |init| { assert pick(init[j]).None?; }
        }
      }
    } else {
      forall i | 0 <= i < |xs| ensures pick(xs[i]).None? {
        if i < |init| { assert pick(init[i]).None?; }
      }
    }
  }

  /** `Last` read from the front: the last match of the tail if there is
      one, otherwise the head's own pick. */
  lemma {:induction false} LastCons<T, V>(xs: seq<T>, pick: T -> Option<V>)
    requires |xs| > 0
    ensures Last(xs, pick) == if Last(xs[1..], pick).Some? then Last(xs[1..], pick) else pick(xs[0])
    decreases |xs|
  {
    var n := |xs|;
    if n > 1 && pick(xs[n - 1]).None? {
      var init := xs[..n - 1];
      LastCons(init, pick);
      assert init[1..] == xs[1..][..n - 2];
      assert xs[1..][n - 2] == xs[n - 1];
    }
  }

  /** Two conversions that agree wherever the first succeeds traverse to the
      same values wherever the first traversal succeeds. */
  lemma TraverseAgree<X, T, E1, E2>(xs: seq<X>, f: X -> Result<T, E1>, g: X -> Result<T, E2>)
    requires Traverse(xs, f).Success?
    requires forall i :: 0 <= i < |xs| && f(xs[i]).Success? ==> g(xs[i]) == Success(f(xs[i]).value)
    ensures Traverse(xs, g) == Success(Traverse(xs, f).value)
  {
  }
}
