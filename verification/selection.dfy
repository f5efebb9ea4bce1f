/** Order-preserving selection: the shape of a loop that walks a sequence
    and pushes what a per-item function makes of some of its items. Stated
    once, generically, and used for the archive entries of the upload
    route. */
module Selection {
  import opened Wrappers

  /** Applies `f` to every item, keeping the `Some` results in order. */
  function FilterMap<A, B>(f: A -> Option<B>, s: seq<A>): (r: seq<B>)
    ensures |r| <= |s|
  {
    if |s| == 0 then []
    else
      var rest := FilterMap(f, s[1..]);
      match f(s[0])
      case Some(b) => [b] + rest
      case None => rest
  }

  /** `out` is obtained from `ins` by keeping some items, in order, each
      turned into what `f` makes of it. */
  ghost predicate Selects<A, B>(f: A -> Option<B>, out: seq<B>, ins: seq<A>)
    decreases |ins|
  {
    if |out| == 0 then true
    else if |ins| == 0 then false
    else
      || (f(ins[0]) == Some(out[0]) && Selects(f, out[1..], ins[1..]))
      || Selects(f, out, ins[1..])
  }

  /** Filtering a concatenation filters each part. */
  lemma {:induction false} FilterMapAppend<A, B>(f: A -> Option<B>, a: seq<A>, b: seq<A>)
    ensures FilterMap(f, a + b) == FilterMap(f, a) + FilterMap(f, b)
    decreases |a|
  {
    if |a| > 0 {
      assert (a + b)[1..] == a[1..] + b;
      FilterMapAppend(f, a[1..], b);
    } else {
      assert a + b == b;
    }
  }

  /** The filter's output is a selection of its input. */
  lemma {:induction false} FilterMapSelects<A, B>(f: A -> Option<B>, s: seq<A>)
    ensures Selects(f, FilterMap(f, s), s)
    decreases |s|
  {
    if |s| > 0 {
      var rest := s[1..];
      FilterMapSelects(f, rest);
      match f(s[0])
      case Some(b) =>
        assert ([b] + FilterMap(f, rest))[1..] == FilterMap(f, rest);
      case None =>
    }
  }

  /** A prefix of a selection is a selection. */
  lemma {:induction false} SelectsPrefix<A, B>(f: A -> Option<B>, out: seq<B>, ins: seq<A>, n: nat)
    requires n <= |out| && Selects(f, out, ins)
    ensures Selects(f, out[..n], ins)
    decreases |ins|
  {
    if n > 0 {
      assert |ins| > 0;
      if f(ins[0]) == Some(out[0]) && Selects(f, out[1..], ins[1..]) {
        SelectsPrefix(f, out[1..], ins[1..], n - 1);
        assert out[..n][1..] == out[1..][..n - 1];
      } else {
        SelectsPrefix(f, out, ins[1..], n);
      }
    }
  }

  /** A selection, spelled out: strictly increasing positions in `ins`,
      one per output item, at which `f` produced that item. */
  lemma {:induction false} SelectionIndices<A, B>(f: A -> Option<B>, out: seq<B>, ins: seq<A>)
    returns (idx: seq<nat>)
    requires Selects(f, out, ins)
    ensures |idx| == |out|
    ensures forall k :: 0 <= k < |idx| ==> idx[k] < |ins| && f(ins[idx[k]]) == Some(out[k])
    ensures forall k, l :: 0 <= k < l < |idx| ==> idx[k] < idx[l]
    decreases |ins|
  {
    if |out| == 0 {
      idx := [];
    } else {
      var rest := ins[1..];
      if f(ins[0]) == Some(out[0]) && Selects(f, out[1..], rest) {
        var tail := SelectionIndices(f, out[1..], rest);
        idx := [0] + seq(|tail|, k requires 0 <= k < |tail| => tail[k] + 1);
        forall k | 0 < k < |idx|
          ensures f(ins[idx[k]]) == Some(out[k])
        {
          assert rest[tail[k - 1]] == ins[idx[k]];
        }
      } else {
        var tail := SelectionIndices(f, out, rest);
        idx := seq(|tail|, k requires 0 <= k < |tail| => tail[k] + 1);
        forall k | 0 <= k < |idx|
          ensures f(ins[idx[k]]) == Some(out[k])
        {
          assert rest[tail[k]] == ins[idx[k]];
        }
      }
    }
  }
}
