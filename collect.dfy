/** Mapping a fallible step over a sequence, left to right, stopping at the
    first failure: what `Select(...).ToList()` does when the selector throws. */
module Collect {
  import opened Wrappers

  function MapAll<A, B>(xs: seq<A>, f: A -> Outcome<B>): (r: Outcome<seq<B>>)
    ensures r.Success? <==> forall i :: 0 <= i < |xs| ==> f(xs[i]).Success?
    ensures r.Success? ==> |r.value| == |xs| && forall i :: 0 <= i < |xs| ==> r.value[i] == f(xs[i]).value
    ensures r.Failure? ==> exists i :: 0 <= i < |xs| && f(xs[i]) == Failure(r.error)
                                  && forall j :: 0 <= j < i ==> f(xs[j]).Success?
    decreases |xs|
  {
    if xs == [] then Success([])
    else
      match f(xs[0])
      case Failure(e) => Failure(e)
      case Success(y) =>
        var rest := MapAll(xs[1..], f);
        assert forall i :: 1 <= i < |xs| ==> xs[i] == xs[1..][i - 1];
        match rest
        case Failure(e) =>
          var k :| 0 <= k < |xs[1..]| && f(xs[1..][k]) == Failure(e)
                   && forall j :: 0 <= j < k ==> f(xs[1..][j]).Success?;
          assert forall j :: 1 <= j < k + 1 ==> f(xs[j]).Success?;
          Failure(e)
        case Success(ys) => Success([y] + ys)
  }

  /** Mapping a concatenation maps the first part, then, if that succeeded,
      the second: a failure in the first part is the failure of the whole. */
  lemma {:induction false} MapAllConcat<A, B>(a: seq<A>, b: seq<A>, f: A -> Outcome<B>)
    ensures MapAll(a + b, f) ==
      match MapAll(a, f)
      case Failure(e) => Failure(e)
      case Success(ys) =>
        match MapAll(b, f)
        case Failure(e) => Failure(e)
        case Success(zs) => Success(ys + zs)
    decreases |a|
  {
    if a == [] {
      assert a + b == b;
      match MapAll(b, f)
      case Failure(_) =>
      case Success(zs) => assert [] + zs == zs;
    } else {
      assert (a + b)[0] == a[0];
      assert (a + b)[1..] == a[1..] + b;
      MapAllConcat(a[1..], b, f);
      match f(a[0])
      case Failure(_) =>
      case Success(y) =>
        match MapAll(a[1..], f)
        case Failure(_) =>
        case Success(ys) =>
          match MapAll(b, f)
          case Failure(_) =>
          case Success(zs) =>
            assert [y] + (ys + zs) == [y] + ys + zs;
    }
  }

  /** Mapping one more item: the earlier failure, else that item's failure,
      else its result appended. */
  lemma MapAllSnoc<A, B>(xs: seq<A>, x: A, f: A -> Outcome<B>)
    ensures MapAll(xs + [x], f) ==
      match MapAll(xs, f)
      case Failure(e) => Failure(e)
      case Success(ys) =>
        match f(x)
        case Failure(e) => Failure(e)
        case Success(y) => Success(ys + [y])
  {
    MapAllConcat(xs, [x], f);
    assert [x][1..] == [];
    match f(x)
    case Failure(_) =>
    case Success(y) => assert MapAll([x], f) == Success([y] + []) && [y] + [] == [y];
  }

  /** A failing prefix is the failure of the whole. */
  lemma MapAllFailedPrefix<A, B>(a: seq<A>, b: seq<A>, f: A -> Outcome<B>)
    requires MapAll(a, f).Failure?
    ensures MapAll(a + b, f) == MapAll(a, f)
  {
    MapAllConcat(a, b, f);
  }

  /** `r` is what enumerating `items` through a throwing `parse` gives: when
      every item parses, their results in order; otherwise the failure of
      the first item that does not parse. */
  ghost predicate ParsedInOrder<A, T>(items: seq<A>, parse: A -> Outcome<T>, r: Outcome<seq<T>>) {
    && (r.Success? <==> forall i :: 0 <= i < |items| ==> parse(items[i]).Success?)
    && (r.Success? ==> |r.value| == |items| && forall i :: 0 <= i < |items| ==> r.value[i] == parse(items[i]).value)
    && (r.Failure? ==> exists i :: 0 <= i < |items| && parse(items[i]) == Failure(r.error)
                                 && forall j :: 0 <= j < i ==> parse(items[j]).Success?)
  }

  /** `MapAll` is a parse in order that stops at the first failure. */
  lemma MapAllInOrder<A, B>(xs: seq<A>, f: A -> Outcome<B>)
    ensures ParsedInOrder(xs, f, MapAll(xs, f))
  {
  }

  /** Cutting a list and joining the two pieces gives the list back. */
  lemma CutJoin<A>(xs: seq<A>, n: nat)
    requires n <= |xs|
    ensures xs[..n] + xs[n..] == xs
  {
  }

  /** A non-empty list is its front followed by its last item. */
  lemma FrontLast<A>(xs: seq<A>)
    requires xs != []
    ensures xs[..|xs| - 1] + [xs[|xs| - 1]] == xs
  {
  }

  /** Maps each item to a list and joins the lists in order, stopping at the
      first item whose mapping fails: a loop that appends each item's list. */
  function FlatMapAll<A, B>(xs: seq<A>, f: A -> Outcome<seq<B>>): Outcome<seq<B>>
    decreases |xs|
  {
    if xs == [] then Success([])
    else
      var acc :- FlatMapAll(xs[..|xs| - 1], f);
      var more :- f(xs[|xs| - 1]);
      Success(acc + more)
  }

  /** The joined list is built exactly when every item's list is. */
  lemma {:induction false} FlatMapAllSucceeds<A, B>(xs: seq<A>, f: A -> Outcome<seq<B>>)
    ensures FlatMapAll(xs, f).Success? <==> forall i :: 0 <= i < |xs| ==> f(xs[i]).Success?
    decreases |xs|
  {
    if xs != [] {
      var init := xs[..|xs| - 1];
      FlatMapAllSucceeds(init, f);
      assert forall i :: 0 <= i < |init| ==> init[i] == xs[i];
    }
  }

  /** A joined list for a concatenation is the joined list of the first part
      followed by that of the second. */
  lemma {:induction false} FlatMapAllAppend<A, B>(a: seq<A>, b: seq<A>, f: A -> Outcome<seq<B>>)
    requires FlatMapAll(a + b, f).Success?
    ensures FlatMapAll(a, f).Success? && FlatMapAll(b, f).Success?
    ensures FlatMapAll(a + b, f).value == FlatMapAll(a, f).value + FlatMapAll(b, f).value
    decreases |b|
  {
    if b == [] {
      assert a + b == a;
    } else {
      var init, last := b[..|b| - 1], b[|b| - 1];
      assert (a + b)[..|a + b| - 1] == a + init;
      assert (a + b)[|a + b| - 1] == last;
      FlatMapAllAppend(a, init, f);
      var x, y, z := FlatMapAll(a, f).value, FlatMapAll(init, f).value, f(last).value;
      assert FlatMapAll(a + b, f).value == (x + y) + z;
      assert (x + y) + z == x + (y + z);
    }
  }

  /** On success, the list of item i sits right after the lists of the items
      before it. */
  lemma FlatMapAllAt<A, B>(xs: seq<A>, i: nat, j: nat, f: A -> Outcome<seq<B>>)
    requires FlatMapAll(xs, f).Success? && i < |xs|
    ensures FlatMapAll(xs[..i], f).Success? && f(xs[i]).Success?
    ensures |FlatMapAll(xs[..i], f).value| + |f(xs[i]).value| <= |FlatMapAll(xs, f).value|
    ensures j < |f(xs[i]).value| ==>
      FlatMapAll(xs, f).value[|FlatMapAll(xs[..i], f).value| + j] == f(xs[i]).value[j]
  {
    var before, x, after := xs[..i], xs[i], xs[i + 1..];
    assert xs[i..] == [x] + after;
    assert xs == before + xs[i..];
    FlatMapAllAppend(before, [x] + after, f);
    FlatMapAllAppend([x], after, f);
    assert [x][..0] == [];
    var p, m, q := FlatMapAll(before, f).value, f(x).value, FlatMapAll(after, f).value;
    assert FlatMapAll([x], f).value == [] + m;
    assert [] + m == m;
    assert FlatMapAll(xs, f).value == p + (m + q);
  }
}
