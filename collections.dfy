/** Small sequence and wrapper vocabulary shared by every stage of the pipeline:
    optional values, results that carry a raised error, order-preserving
    selection, element-wise mapping and element-wise mapping that stops at the
    first error. */
module Collections {

  datatype Option<+T> = None | Some(value: T)

  /** The outcome of a step that may raise: the value, or the error raised. */
  datatype Result<+T, +E> = Ok(value: T) | Err(error: E) {
    predicate IsFailure() { Err? }

    function PropagateFailure<U>(): Result<U, E>
      requires Err?
    {
      Err(error)
    }

    function Extract(): T
      requires Ok?
    {
      value
    }
  }

  /** `[x for x in s if keep(x)]`. Defined from the last element so that a loop
      that appends as it goes follows the definition one step at a time. */
  function Filter<A>(s: seq<A>, keep: A -> bool): (r: seq<A>)
    ensures |r| <= |s|
  {
    if s == [] then []
    else
      var init := Filter(s[..|s| - 1], keep);
      if keep(s[|s| - 1]) then init + [s[|s| - 1]] else init
  }

  /** The positions of `s` whose element `keep` accepts, in increasing order. */
  function KeptPositions<A>(s: seq<A>, keep: A -> bool): (r: seq<nat>)
    ensures forall k :: 0 <= k < |r| ==> r[k] < |s| && keep(s[r[k]])
  {
    if s == [] then []
    else
      var init := KeptPositions(s[..|s| - 1], keep);
      if keep(s[|s| - 1]) then init + [|s| - 1] else init
  }

  /** `[f(x) for x in s]`. */
  function MapSeq<A, B>(s: seq<A>, f: A -> B): (r: seq<B>)
    ensures |r| == |s|
    ensures forall i :: 0 <= i < |s| ==> r[i] == f(s[i])
  {
    seq(|s|, i requires 0 <= i < |s| => f(s[i]))
  }

  /** Applies `f` to each element in order; the first error stops the run, as
      an exception raised inside a Python loop does. */
  function TryMap<A, B, E>(s: seq<A>, f: A -> Result<B, E>): Result<seq<B>, E>
  {
    if s == [] then Ok([])
    else
      match TryMap(s[..|s| - 1], f)
      case Err(e) => Err(e)
      case Ok(init) =>
        match f(s[|s| - 1])
        case Err(e) => Err(e)
        case Ok(y) => Ok(init + [y])
  }

  /** Adding one element at the end of the input adds at most that element at
      the end of the selection. */
  lemma FilterSnoc<A>(s: seq<A>, i: nat, keep: A -> bool)
    requires i < |s|
    ensures Filter(s[..i + 1], keep)
         == Filter(s[..i], keep) + (if keep(s[i]) then [s[i]] else [])
  {
    assert s[..i + 1][..i] == s[..i];
  }

  lemma MapSeqSnoc<A, B>(s: seq<A>, x: A, f: A -> B)
    ensures MapSeq(s + [x], f) == MapSeq(s, f) + [f(x)]
  {
  }

  lemma {:induction false} FilterConcat<A>(a: seq<A>, b: seq<A>, keep: A -> bool)
    ensures Filter(a + b, keep) == Filter(a, keep) + Filter(b, keep)
    decreases |b|
  {
    if b != [] {
      var b' := b[..|b| - 1];
      assert (a + b)[..|a + b| - 1] == a + b';
      FilterConcat(a, b', keep);
    } else {
      assert a + b == a;
    }
  }

  /** Selection is sound and complete: an element survives it exactly when it
      occurs in the input and `keep` accepts it. */
  lemma {:induction false} FilterKeepsAccepted<A>(s: seq<A>, keep: A -> bool, x: A)
    ensures x in Filter(s, keep) <==> x in s && keep(x)
  {
    if s != [] {
      var init := s[..|s| - 1];
      FilterKeepsAccepted(init, keep, x);
      assert s == init + [s[|s| - 1]];
    }
  }

  /** The k-th selected element is the element at the k-th kept position, so
      the selection keeps source order. */
  lemma {:induction false} FilterAtKeptPositions<A>(s: seq<A>, keep: A -> bool)
    ensures |KeptPositions(s, keep)| == |Filter(s, keep)|
    ensures forall k :: 0 <= k < |Filter(s, keep)| ==>
      Filter(s, keep)[k] == s[KeptPositions(s, keep)[k]]
  {
    if s != [] {
      var init := s[..|s| - 1];
      FilterAtKeptPositions(init, keep);
      var r0, p0 := Filter(init, keep), KeptPositions(init, keep);
      var r, p := Filter(s, keep), KeptPositions(s, keep);
      forall k | 0 <= k < |r|
        ensures r[k] == s[p[k]]
      {
        if k < |r0| {
          assert r[k] == r0[k] && p[k] == p0[k];
          assert init[p0[k]] == s[p0[k]];
        }
      }
    }
  }

  /** The kept positions increase strictly and include every accepted
      position: nothing accepted is dropped and nothing is repeated. */
  lemma {:induction false} KeptPositionsComplete<A>(s: seq<A>, keep: A -> bool)
    ensures var p := KeptPositions(s, keep);
      (forall k, l :: 0 <= k < l < |p| ==> p[k] < p[l])
      && (forall i :: 0 <= i < |s| && keep(s[i]) ==> i in p)
  {
    if s != [] {
      var init := s[..|s| - 1];
      KeptPositionsComplete(init, keep);
      var p0 := KeptPositions(init, keep);
      assert forall k :: 0 <= k < |p0| ==> p0[k] < |init|;
      forall i | 0 <= i < |s| && keep(s[i])
        ensures i in KeptPositions(s, keep)
      {
        if i < |init| {
          assert init[i] == s[i];
        }
      }
    }
  }

  /** `TryMap` succeeds exactly when `f` succeeds on every element, and then it
      is the element-wise map of the successful values. */
  lemma {:induction false} TryMapOk<A, B, E>(s: seq<A>, f: A -> Result<B, E>)
    ensures TryMap(s, f).Ok? <==> forall i :: 0 <= i < |s| ==> f(s[i]).Ok?
    ensures TryMap(s, f).Ok? ==>
      |TryMap(s, f).value| == |s|
      && forall i :: 0 <= i < |s| ==> TryMap(s, f).value[i] == f(s[i]).value
  {
    if s != [] {
      var init := s[..|s| - 1];
      TryMapOk(init, f);
      assert forall i :: 0 <= i < |init| ==> init[i] == s[i];
    }
  }

  /** When `TryMap` fails, it fails with the error of the first element on
      which `f` fails. */
  lemma {:induction false} TryMapFirstError<A, B, E>(s: seq<A>, f: A -> Result<B, E>)
    requires TryMap(s, f).Err?
    ensures exists i :: 0 <= i < |s| && f(s[i]) == Err(TryMap(s, f).error)
                        && forall j :: 0 <= j < i ==> f(s[j]).Ok?
  {
    var init := s[..|s| - 1];
    assert forall i :: 0 <= i < |init| ==> init[i] == s[i];
    if TryMap(init, f).Err? {
      TryMapFirstError(init, f);
      var i :| 0 <= i < |init| && f(init[i]) == Err(TryMap(init, f).error)
                && forall j :: 0 <= j < i ==> f(init[j]).Ok?;
      assert f(s[i]) == Err(TryMap(s, f).error);
    } else {
      TryMapOk(init, f);
      assert f(s[|s| - 1]) == Err(TryMap(s, f).error);
    }
  }

  /** Once a prefix has failed, nothing appended after it changes the error. */
  lemma {:induction false} TryMapErrPrefix<A, B, E>(a: seq<A>, b: seq<A>, f: A -> Result<B, E>)
    requires TryMap(a, f).Err?
    ensures TryMap(a + b, f) == TryMap(a, f)
    decreases |b|
  {
    if b == [] {
      assert a + b == a;
    } else {
      var b' := b[..|b| - 1];
      assert (a + b)[..|a + b| - 1] == a + b';
      TryMapErrPrefix(a, b', f);
    }
  }

  /** One loop step of a filter-then-map: the next input adds its image at the
      end when it is kept, and nothing otherwise. */
  lemma MapFilterStep<A, B>(s: seq<A>, i: nat, keep: A -> bool, f: A -> B)
    requires i < |s|
    ensures MapSeq(Filter(s[..i + 1], keep), f)
         == MapSeq(Filter(s[..i], keep), f) + (if keep(s[i]) then [f(s[i])] else [])
  {
    FilterSnoc(s, i, keep);
    if keep(s[i]) {
      MapSeqSnoc(Filter(s[..i], keep), s[i], f);
    }
  }

  lemma TryMapSnoc<A, B, E>(t: seq<A>, x: A, f: A -> Result<B, E>)
    ensures TryMap(t + [x], f)
         == match TryMap(t, f)
            case Err(e) => Err(e)
            case Ok(init) =>
              match f(x)
              case Err(e) => Err(e)
              case Ok(y) => Ok(init + [y])
  {
    var u := t + [x];
    assert u[..|u| - 1] == t;
    assert u[|u| - 1] == x;
  }

  /** One loop step of a filter-then-map that may raise. */
  lemma TryMapFilterStep<A, B, E>(s: seq<A>, i: nat, keep: A -> bool, f: A -> Result<B, E>)
    requires i < |s|
    ensures TryMap(Filter(s[..i + 1], keep), f)
         == if !keep(s[i]) then TryMap(Filter(s[..i], keep), f)
            else match TryMap(Filter(s[..i], keep), f)
              case Err(e) => Err(e)
              case Ok(init) =>
                match f(s[i])
                case Err(e) => Err(e)
                case Ok(y) => Ok(init + [y])
  {
    FilterSnoc(s, i, keep);
    if keep(s[i]) {
      TryMapSnoc(Filter(s[..i], keep), s[i], f);
    } else {
      assert Filter(s[..i], keep) + [] == Filter(s[..i], keep);
    }
  }

  /** A filter-then-map that has raised on a prefix raises the same error on
      the whole input: the inputs after the failing one are never looked at. */
  lemma TryMapFilterStops<A, B, E>(s: seq<A>, i: nat, keep: A -> bool, f: A -> Result<B, E>)
    requires i <= |s|
    requires TryMap(Filter(s[..i], keep), f).Err?
    ensures TryMap(Filter(s, keep), f) == TryMap(Filter(s[..i], keep), f)
  {
    var a, b := s[..i], s[i..];
    assert s == a + b;
    FilterConcat(a, b, keep);
    TryMapErrPrefix(Filter(a, keep), Filter(b, keep), f);
  }

  /** A filter-then-map that may raise succeeds exactly when every kept
      element maps without error, and then its k-th result is the image of the
      element at the k-th kept position. */
  lemma TryMapFilterOk<A, B, E>(s: seq<A>, keep: A -> bool, f: A -> Result<B, E>)
    ensures TryMap(Filter(s, keep), f).Ok?
        <==> forall i :: 0 <= i < |s| && keep(s[i]) ==> f(s[i]).Ok?
    ensures TryMap(Filter(s, keep), f).Ok? ==>
      var out, p := TryMap(Filter(s, keep), f).value, KeptPositions(s, keep);
      |out| == |p| && forall k :: 0 <= k < |out| ==> out[k] == f(s[p[k]]).value
  {
    var kept, p := Filter(s, keep), KeptPositions(s, keep);
    FilterAtKeptPositions(s, keep);
    KeptPositionsComplete(s, keep);
    TryMapOk(kept, f);
    if forall i :: 0 <= i < |s| && keep(s[i]) ==> f(s[i]).Ok? {
      forall k | 0 <= k < |kept|
        ensures f(kept[k]).Ok?
      {
        assert kept[k] == s[p[k]];
      }
    }
    if TryMap(kept, f).Ok? {
      forall i | 0 <= i < |s| && keep(s[i])
        ensures f(s[i]).Ok?
      {
        var k :| 0 <= k < |p| && p[k] == i;
        assert kept[k] == s[i];
      }
    }
  }

  /** A filter-then-map that raises raises the error of the first kept
      element that does not map. */
  lemma TryMapFilterFirstError<A, B, E>(s: seq<A>, keep: A -> bool, f: A -> Result<B, E>)
    returns (i: nat)
    requires TryMap(Filter(s, keep), f).Err?
    ensures i < |s| && keep(s[i]) && f(s[i]) == Err(TryMap(Filter(s, keep), f).error)
    ensures forall j :: 0 <= j < i && keep(s[j]) ==> f(s[j]).Ok?
  {
    var kept, p := Filter(s, keep), KeptPositions(s, keep);
    FilterAtKeptPositions(s, keep);
    TryMapFirstError(kept, f);
    var k :| 0 <= k < |kept| && f(kept[k]) == Err(TryMap(kept, f).error)
              && forall j :: 0 <= j < k ==> f(kept[j]).Ok?;
    i := p[k];
    assert kept[k] == s[i];
    forall j | 0 <= j < i && keep(s[j])
      ensures f(s[j]).Ok?
    {
      KeptBefore(s, keep, k, j);
      var m :| 0 <= m < k && p[m] == j;
      assert kept[m] == s[j];
    }
  }

  /** An accepted position before the k-th kept position is one of the first
      k kept positions. */
  lemma KeptBefore<A>(s: seq<A>, keep: A -> bool, k: nat, j: nat)
    requires k < |KeptPositions(s, keep)|
    requires j < KeptPositions(s, keep)[k] && keep(s[j])
    ensures exists m :: 0 <= m < k && KeptPositions(s, keep)[m] == j
  {
    var p := KeptPositions(s, keep);
    KeptPositionsComplete(s, keep);
    var m :| 0 <= m < |p| && p[m] == j;
    assert m < k;
  }

  /** `sep.join(parts)`. */
  function Join(parts: seq<string>, sep: string): string
  {
    if parts == [] then ""
    else if |parts| == 1 then parts[0]
    else parts[0] + sep + Join(parts[1..], sep)
  }
}
