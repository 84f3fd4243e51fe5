/** Sequence transformations shared by the adapters' conversion loops. */
module Seqs {
  import opened Wrappers

  /**
   * Convert every element in order, stopping at the first element whose conversion
   * fails: the shape of a Python loop whose body may raise.
   */
  function MapResult<A, B(==), E(==)>(xs: seq<A>, f: A -> Result<B, E>): (r: Result<seq<B>, E>)
    ensures r.Ok? ==> |r.value| == |xs|
    ensures r.Ok? ==> forall i :: 0 <= i < |xs| ==> f(xs[i]) == Ok(r.value[i])
    ensures r.Err? ==> exists i :: 0 <= i < |xs| && f(xs[i]) == Err(r.error)
  {
    if xs == [] then Ok([])
    else
      var init := MapResult(xs[..|xs| - 1], f);
      var last := f(xs[|xs| - 1]);
      if init.Err? then
        var i :| 0 <= i < |xs| - 1 && f(xs[..|xs| - 1][i]) == Err(init.error);
        assert xs[..|xs| - 1][i] == xs[i];
        init
      else if last.Err? then Err(last.error)
      else
        assert forall i :: 0 <= i < |xs| - 1 ==> xs[..|xs| - 1][i] == xs[i];
        Ok(init.value + [last.value])
  }

  /** The call fails exactly when some element fails, and then with the first failure. */
  lemma {:induction false} MapResultFirstFailure<A, B, E>(xs: seq<A>, f: A -> Result<B, E>, k: nat)
    requires k < |xs| && f(xs[k]).Err?
    requires forall j :: 0 <= j < k ==> f(xs[j]).Ok?
    ensures MapResult(xs, f) == Err(f(xs[k]).error)
    decreases |xs|
  {
    var init := xs[..|xs| - 1];
    if k < |xs| - 1 {
      assert forall j :: 0 <= j <= k ==> init[j] == xs[j];
      MapResultFirstFailure(init, f, k);
    } else {
      assert forall j :: 0 <= j < |init| ==> init[j] == xs[j];
      MapResultAllOk(init, f);
    }
  }

  /** When every element converts, so does the whole sequence. */
  lemma {:induction false} MapResultAllOk<A, B, E>(xs: seq<A>, f: A -> Result<B, E>)
    requires forall j :: 0 <= j < |xs| ==> f(xs[j]).Ok?
    ensures MapResult(xs, f).Ok?
    decreases |xs|
  {
    if xs != [] {
      var init := xs[..|xs| - 1];
      assert forall j :: 0 <= j < |init| ==> init[j] == xs[j];
      MapResultAllOk(init, f);
    }
  }

  /** A failing prefix fails the whole sequence with the same error. */
  lemma {:induction false} MapResultPrefixErr<A, B, E>(xs: seq<A>, f: A -> Result<B, E>, n: nat)
    requires n <= |xs| && MapResult(xs[..n], f).Err?
    ensures MapResult(xs, f) == MapResult(xs[..n], f)
    decreases |xs| - n
  {
    if n < |xs| {
      var p := xs[..n + 1];
      assert p[..|p| - 1] == xs[..n];
      assert MapResult(p, f) == MapResult(xs[..n], f);
      MapResultPrefixErr(xs, f, n + 1);
    } else {
      assert xs[..n] == xs;
    }
  }

  /** The least `k` with `i <= k < n` and `p(k)`, if there is one. */
  function FirstFrom(p: nat -> bool, i: nat, n: nat): (r: Option<nat>)
    ensures r.Some? ==> i <= r.value < n && p(r.value)
    ensures r.Some? ==> forall k :: i <= k < r.value ==> !p(k)
    ensures r.None? ==> forall k :: i <= k < n ==> !p(k)
    decreases n - i
  {
    if i >= n then None
    else if p(i) then Some(i)
    else FirstFrom(p, i + 1, n)
  }

  /** `[f(x) for x in xs]` */
  function MapSeq<A, B>(xs: seq<A>, f: A -> B): (r: seq<B>)
    ensures |r| == |xs| && forall i :: 0 <= i < |xs| ==> r[i] == f(xs[i])
  {
    seq(|xs|, i requires 0 <= i < |xs| => f(xs[i]))
  }

  /** The elements of `xs` whose key is `k`, in their original order. */
  function Pick<T, K(==)>(xs: seq<T>, key: T -> K, k: K): (r: seq<T>)
    ensures |r| <= |xs|
    ensures forall i :: 0 <= i < |r| ==> key(r[i]) == k
  {
    if xs == [] then []
    else
      var init := Pick(xs[..|xs| - 1], key, k);
      if key(xs[|xs| - 1]) == k then init + [xs[|xs| - 1]] else init
  }

  /** Extending the input by one element extends the selection by that element if it has the key. */
  lemma PickSnoc<T, K>(xs: seq<T>, x: T, key: T -> K, k: K)
    ensures Pick(xs + [x], key, k) == Pick(xs, key, k) + (if key(x) == k then [x] else [])
  {
    assert (xs + [x])[..|xs + [x]| - 1] == xs;
  }

  /** Everything with the key is selected, and only that. */
  lemma {:induction false} PickMembers<T, K>(xs: seq<T>, key: T -> K, k: K)
    ensures forall x :: x in Pick(xs, key, k) <==> x in xs && key(x) == k
    decreases |xs|
  {
    if xs != [] {
      var init := xs[..|xs| - 1];
      PickMembers(init, key, k);
      assert xs == init + [xs[|xs| - 1]];
    }
  }

  /** Selecting from a prefix and then from one more element, as a loop over `xs` does. */
  lemma PickPrefix<T, K>(xs: seq<T>, i: nat, key: T -> K, k: K)
    requires i < |xs|
    ensures Pick(xs[..i + 1], key, k) == Pick(xs[..i], key, k) + (if key(xs[i]) == k then [xs[i]] else [])
  {
    assert xs[..i + 1] == xs[..i] + [xs[i]];
    PickSnoc(xs[..i], xs[i], key, k);
  }

  /** Every element is selected by exactly one of the two truth values. */
  lemma {:induction false} PickSplit<T>(xs: seq<T>, key: T -> bool)
    ensures |Pick(xs, key, true)| + |Pick(xs, key, false)| == |xs|
    decreases |xs|
  {
    if xs != [] {
      var init, x := xs[..|xs| - 1], xs[|xs| - 1];
      PickSplit(init, key);
      assert Pick(xs, key, true) == Pick(init, key, true) + (if key(x) then [x] else []);
      assert Pick(xs, key, false) == Pick(init, key, false) + (if key(x) then [] else [x]);
    }
  }

  /** Concatenation is associative. */
  lemma AppendAssoc<T>(a: seq<T>, b: seq<T>, c: seq<T>)
    ensures (a + b) + c == a + (b + c)
  {
  }

  /** Mapping distributes over concatenation. */
  lemma MapSeqAppend<A, B>(xs: seq<A>, ys: seq<A>, f: A -> B)
    ensures MapSeq(xs + ys, f) == MapSeq(xs, f) + MapSeq(ys, f)
  {
  }

  /**
   * One pass over `xs` that converts each element with `f` and appends it to `yes` when
   * `keep` holds for it, to `no` otherwise.
   */
  method Partition<T, U>(xs: seq<T>, keep: T -> bool, f: T -> U) returns (yes: seq<U>, no: seq<U>)
    ensures yes == MapSeq(Pick(xs, keep, true), f)
    ensures no == MapSeq(Pick(xs, keep, false), f)
  {
    yes, no := [], [];
    var i := 0;
    while i < |xs|
      invariant 0 <= i <= |xs|
      invariant yes == MapSeq(Pick(xs[..i], keep, true), f)
      invariant no == MapSeq(Pick(xs[..i], keep, false), f)
    {
      PickPrefix(xs, i, keep, true);
      PickPrefix(xs, i, keep, false);
      if keep(xs[i]) {
        MapSeqAppend(Pick(xs[..i], keep, true), [xs[i]], f);
        yes := yes + [f(xs[i])];
      } else {
        MapSeqAppend(Pick(xs[..i], keep, false), [xs[i]], f);
        no := no + [f(xs[i])];
      }
      i := i + 1;
    }
    assert xs[..i] == xs;
  }

  /** What converting one element yields: nothing, a value, or an exception. */
  datatype Step<B> = Skip | Keep(value: B) | Fail

  /** The values kept before the first failure, and whether a failure stopped the pass. */
  datatype Gathered<B> = Gathered(values: seq<B>, failed: bool)

  /**
   * A Python loop that appends converted elements to a list inside a `try`: skipped
   * elements add nothing, and the first exception ends the loop keeping what was appended.
   */
  function Collect<A, B>(xs: seq<A>, f: A -> Step<B>): (g: Gathered<B>)
    ensures |g.values| <= |xs|
    ensures g.failed <==> exists i :: 0 <= i < |xs| && f(xs[i]).Fail?
    decreases |xs|
  {
    if xs == [] then Gathered([], false)
    else
      var rest := Collect(xs[1..], f);
      assert forall i :: 1 <= i < |xs| ==> xs[i] == xs[1..][i - 1];
      match f(xs[0])
      case Fail => Gathered([], true)
      case Skip => rest
      case Keep(b) => Gathered([b] + rest.values, rest.failed)
  }

  /** Every collected value is what some element converted to. */
  lemma {:induction false} CollectKept<A, B>(xs: seq<A>, f: A -> Step<B>)
    ensures forall j :: 0 <= j < |Collect(xs, f).values| ==>
      exists i :: 0 <= i < |xs| && f(xs[i]) == Keep(Collect(xs, f).values[j])
    decreases |xs|
  {
    if xs == [] {
      assert Collect(xs, f).values == [];
    } else {
      CollectKept(xs[1..], f);
      var g := Collect(xs, f);
      var rest := Collect(xs[1..], f);
      match f(xs[0]) {
        case Fail =>
          assert g.values == [];
        case Skip =>
          assert g == rest;
          forall j | 0 <= j < |g.values|
            ensures exists i :: 0 <= i < |xs| && f(xs[i]) == Keep(g.values[j])
          {
            var i :| 0 <= i < |xs[1..]| && f(xs[1..][i]) == Keep(rest.values[j]);
            assert f(xs[i + 1]) == Keep(g.values[j]);
          }
        case Keep(b) =>
          assert g.values == [b] + rest.values;
          forall j | 0 <= j < |g.values|
            ensures exists i :: 0 <= i < |xs| && f(xs[i]) == Keep(g.values[j])
          {
            if j > 0 {
              var i :| 0 <= i < |xs[1..]| && f(xs[1..][i]) == Keep(rest.values[j - 1]);
              assert f(xs[i + 1]) == Keep(g.values[j]);
            } else {
              assert f(xs[0]) == Keep(g.values[0]);
            }
          }
      }
    }
  }

  /** With no failing element, every element that converts to a value contributes it. */
  lemma {:induction false} CollectAllKept<A, B>(xs: seq<A>, f: A -> Step<B>)
    requires forall i :: 0 <= i < |xs| ==> f(xs[i]).Keep?
    ensures Collect(xs, f) == Gathered(seq(|xs|, i requires 0 <= i < |xs| => f(xs[i]).value), false)
    decreases |xs|
  {
    if xs != [] {
      CollectAllKept(xs[1..], f);
    }
  }

  /** The loop of `Collect`, run front to back. */
  method CollectLoop<A, B>(xs: seq<A>, f: A -> Step<B>) returns (values: seq<B>, failed: bool)
    ensures Gathered(values, failed) == Collect(xs, f)
  {
    values, failed := [], false;
    var i := 0;
    while i < |xs| && !failed
      invariant 0 <= i <= |xs|
      invariant !failed ==>
        Collect(xs, f) == Gathered(values + Collect(xs[i..], f).values, Collect(xs[i..], f).failed)
      invariant failed ==> Collect(xs, f) == Gathered(values, true)
    {
      assert xs[i..][1..] == xs[i + 1..];
      match f(xs[i]) {
        case Fail =>
          failed := true;
        case Skip =>
        case Keep(b) =>
          values := values + [b];
      }
      i := i + 1;
    }
    if !failed {
      assert xs[i..] == [];
    }
  }
}
