/**
 * Consecutive slices of a fixed size, as the scripts cut id lists and texts with
 * `[xs[i:i + n] for i in range(0, len(xs), n)]`.
 */
module Batching {

  /** The slices `xs[i:i + n]` for `i` in `range(0, len(xs), n)`. */
  function Batches<T>(xs: seq<T>, n: nat): (bs: seq<seq<T>>)
    requires n > 0
    ensures forall k :: 0 <= k < |bs| ==> 0 < |bs[k]| <= n
    decreases |xs|
  {
    if xs == [] then [] else if |xs| <= n then [xs] else [xs[..n]] + Batches(xs[n..], n)
  }

  function Flatten<T>(bss: seq<seq<T>>): seq<T> {
    if bss == [] then [] else bss[0] + Flatten(bss[1..])
  }

  lemma {:induction false} FlattenAppend<T>(a: seq<seq<T>>, b: seq<seq<T>>)
    ensures Flatten(a + b) == Flatten(a) + Flatten(b)
    decreases |a|
  {
    if a == [] {
      assert a + b == b;
    } else {
      var ab := a + b;
      assert ab != [] && ab[0] == a[0];
      assert ab[1..] == a[1..] + b;
      assert Flatten(ab) == a[0] + Flatten(a[1..] + b);
      FlattenAppend(a[1..], b);
      assert Flatten(a) == a[0] + Flatten(a[1..]);
    }
  }

  /** Appending one more slice appends its elements. */
  lemma FlattenSnoc<T>(a: seq<seq<T>>, x: seq<T>)
    ensures Flatten(a + [x]) == Flatten(a) + x
  {
    FlattenAppend(a, [x]);
    assert Flatten([x]) == x + Flatten<T>([]);
  }

  /** Gluing the slices back together gives the original sequence. */
  lemma {:induction false} FlattenBatches<T>(xs: seq<T>, n: nat)
    requires n > 0
    ensures Flatten(Batches(xs, n)) == xs
    decreases |xs|
  {
    if xs != [] {
      if |xs| <= n {
        assert Flatten([xs]) == xs + Flatten<T>([]);
      } else {
        FlattenBatches(xs[n..], n);
        assert Batches(xs, n)[1..] == Batches(xs[n..], n);
        assert xs == xs[..n] + xs[n..];
      }
    }
  }

  /** There are `ceil(len / n)` slices: the fewest slices of `n` that hold every element. */
  lemma {:induction false} BatchesCount<T>(xs: seq<T>, n: nat)
    requires n > 0
    ensures (|Batches(xs, n)| - 1) * n < |xs| <= |Batches(xs, n)| * n
    decreases |xs|
  {
    if |xs| > n {
      var k := |Batches(xs[n..], n)|;
      BatchesCount(xs[n..], n);
      assert |Batches(xs, n)| == k + 1;
      assert (k + 1) * n == k * n + n;
    }
  }

  /** Step helpers for batch offsets: multiplying by a size is monotone and distributes over `+ 1`. */
  lemma MulMonotone(a: nat, b: nat, c: nat)
    requires a <= b
    ensures a * c <= b * c
  {
  }

  lemma MulSucc(a: nat, c: nat)
    ensures a * c + c == (a + 1) * c
  {
  }

  /** Slice `k` is `xs[k*n : (k+1)*n]` (cut at the end). */
  lemma {:induction false} BatchAt<T>(xs: seq<T>, n: nat, k: nat)
    requires n > 0 && k < |Batches(xs, n)|
    ensures k * n < |xs|
    ensures Batches(xs, n)[k] == xs[k * n..if (k + 1) * n <= |xs| then (k + 1) * n else |xs|]
    decreases |xs|
  {
    if k > 0 {
      assert |xs| > n;
      assert Batches(xs, n)[k] == Batches(xs[n..], n)[k - 1];
      BatchAt(xs[n..], n, k - 1);
      assert (k - 1) * n + n == k * n;
      var hi := if k * n <= |xs| - n then k * n else |xs| - n;
      SliceOfSuffix(xs, n, (k - 1) * n, hi);
    }
  }

  /** A slice of the suffix `xs[n..]` is the slice of `xs` shifted by `n`. */
  lemma SliceOfSuffix<T>(xs: seq<T>, n: nat, lo: nat, hi: nat)
    requires n <= |xs| && lo <= hi <= |xs| - n
    ensures xs[n..][lo..hi] == xs[n + lo..n + hi]
  {
    var l := xs[n..][lo..hi];
    var r := xs[n + lo..n + hi];
    assert |l| == |r|;
    forall i | 0 <= i < |l|
      ensures l[i] == r[i]
    {
      assert l[i] == xs[n..][lo + i] == xs[n + lo + i];
    }
  }

  /** The ids handled once `g` whole groups and the first `j + 1` ids of group `g` are done. */
  lemma FlattenPrefix<T>(bss: seq<seq<T>>, g: nat, j: nat)
    requires g < |bss| && j < |bss[g]|
    ensures Flatten(bss[..g]) + bss[g][..j + 1] <= Flatten(bss)
  {
    assert bss == bss[..g] + bss[g..];
    FlattenAppend(bss[..g], bss[g..]);
    assert bss[g..][1..] == bss[g + 1..];
    assert Flatten(bss[g..]) == bss[g] + Flatten(bss[g + 1..]);
    assert bss[g] == bss[g][..j + 1] + bss[g][j + 1..];
  }

  /** Finishing group `g` extends the flattened prefix by that group. */
  lemma FlattenNextGroup<T>(bss: seq<seq<T>>, g: nat)
    requires g < |bss|
    ensures Flatten(bss[..g + 1]) == Flatten(bss[..g]) + bss[g]
  {
    assert bss[..g + 1] == bss[..g] + [bss[g]];
    FlattenAppend(bss[..g], [bss[g]]);
    assert Flatten([bss[g]]) == bss[g] + Flatten<T>([]);
  }

  /** The groups before `g`, flattened, are a prefix of all of them flattened. */
  lemma FlattenGroupsPrefix<T>(bss: seq<seq<T>>, g: nat)
    requires g <= |bss|
    ensures Flatten(bss[..g]) <= Flatten(bss)
  {
    assert bss == bss[..g] + bss[g..];
    FlattenAppend(bss[..g], bss[g..]);
  }

  /** Extending a prefix `b[..j]` of the part after `a` by the next element. */
  lemma PrefixNext<T>(a: seq<T>, b: seq<T>, j: nat)
    requires j < |b|
    ensures a + b[..j] + [b[j]] == a + b[..j + 1]
    ensures a + b[..j + 1] <= a + b
  {
    assert b[..j + 1] == b[..j] + [b[j]];
    assert a + b == a + b[..j + 1] + b[j + 1..];
  }

  lemma PrefixEnds<T>(a: seq<T>, b: seq<T>)
    ensures a + b[..0] == a && a + b[..|b|] == a + b
  {
    assert b[..0] == [] && b[..|b|] == b;
  }
}
