/** Optional values and results, used wherever a source value may be absent or an operation
    may throw. */
module Base {

  datatype Option<+T> = None | Some(value: T) {
    function GetOr(default: T): T
    {
      match this
      case Some(v) => v
      case None => default
    }
  }

  datatype Result<+T, +E> = Ok(value: T) | Err(error: E)

  /** `Array.prototype.filter`: the elements that pass, in their original order. */
  function Filter<T(!new)>(s: seq<T>, keep: T -> bool): (r: seq<T>)
    ensures |r| <= |s|
    ensures forall x :: x in r <==> x in s && keep(x)
  {
    if |s| == 0 then []
    else Filter(s[..|s| - 1], keep) + (if keep(s[|s| - 1]) then [s[|s| - 1]] else [])
  }

  /** The indices of the elements that pass, in increasing order. */
  function KeptIndices<T(!new)>(s: seq<T>, keep: T -> bool): (idx: seq<int>)
    ensures forall p :: 0 <= p < |idx| ==> 0 <= idx[p] < |s|
  {
    if |s| == 0 then []
    else KeptIndices(s[..|s| - 1], keep) + (if keep(s[|s| - 1]) then [|s| - 1] else [])
  }

  /** `r` lists the elements of `s` at the increasing indices `idx`, and those indices are
      exactly the ones whose element passes `keep`: order and repetitions are those of `s`. */
  ghost predicate Selects<T>(s: seq<T>, r: seq<T>, idx: seq<int>, keep: T -> bool)
  {
    && |idx| == |r|
    && (forall p :: 0 <= p < |idx| ==> 0 <= idx[p] < |s| && r[p] == s[idx[p]])
    && (forall p, q :: 0 <= p < q < |idx| ==> idx[p] < idx[q])
    && (forall i :: 0 <= i < |s| ==> (i in idx <==> keep(s[i])))
  }

  /** The filter keeps every passing element, in order, as often as it occurs. */
  lemma {:induction false} FilterSelects<T(!new)>(s: seq<T>, keep: T -> bool)
    ensures Selects(s, Filter(s, keep), KeptIndices(s, keep), keep)
  {
    if |s| > 0 {
      var n := |s| - 1;
      var init := s[..n];
      FilterSelects(init, keep);
      SelectsSnoc(init, Filter(init, keep), KeptIndices(init, keep), s[n], keep);
      assert init + [s[n]] == s;
    }
  }

  /** One more element extends the selection by itself when it passes. */
  lemma SelectsSnoc<T>(s: seq<T>, r: seq<T>, idx: seq<int>, x: T, keep: T -> bool)
    requires Selects(s, r, idx, keep)
    ensures Selects(s + [x], r + (if keep(x) then [x] else []), idx + (if keep(x) then [|s|] else []), keep)
  {
    var s', r', idx' := s + [x], r + (if keep(x) then [x] else []), idx + (if keep(x) then [|s|] else []);
    forall p | 0 <= p < |idx'|
      ensures 0 <= idx'[p] < |s'| && r'[p] == s'[idx'[p]]
    {
      if p < |idx| {
        assert s'[idx[p]] == s[idx[p]];
      }
    }
    forall i | 0 <= i < |s'|
      ensures i in idx' <==> keep(s'[i])
    {
      if i < |s| {
        assert s'[i] == s[i];
        assert i in idx' <==> i in idx;
      } else {
        assert |s| !in idx;
      }
    }
  }

  /** Nothing is kept when no element passes. */
  lemma {:induction false} FilterNone<T(!new)>(s: seq<T>, keep: T -> bool)
    requires forall k :: 0 <= k < |s| ==> !keep(s[k])
    ensures Filter(s, keep) == []
  {
    if |s| > 0 {
      FilterNone(s[..|s| - 1], keep);
    }
  }

  /** Filtering a concatenation filters each part and keeps the parts in order. */
  lemma {:induction false} FilterConcat<T(!new)>(a: seq<T>, b: seq<T>, keep: T -> bool)
    ensures Filter(a + b, keep) == Filter(a, keep) + Filter(b, keep)
    decreases |b|
  {
    if |b| > 0 {
      var init := b[..|b| - 1];
      assert (a + b)[..|a + b| - 1] == a + init;
      FilterConcat(a, init, keep);
    } else {
      assert a + b == a;
    }
  }
}
