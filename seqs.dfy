/**
 * List helpers the photometry code leans on: concatenating a list of lists,
 * the total length of the parts, and Python's
 * `[s[i:i+n] for i in range(0, len(s), n)]` chunking.
 */
module Seqs {
  /** `[x for part in parts for x in part]`. */
  function Flatten<T>(parts: seq<seq<T>>): seq<T>
  {
    if parts == [] then [] else parts[0] + Flatten(parts[1..])
  }

  /** `sum(len(x) for x in parts)`. */
  function TotalLength<T>(parts: seq<seq<T>>): nat
  {
    if parts == [] then 0 else |parts[0]| + TotalLength(parts[1..])
  }

  lemma {:induction false} FlattenLength<T>(parts: seq<seq<T>>)
    ensures |Flatten(parts)| == TotalLength(parts)
  {
    if parts != [] {
      FlattenLength(parts[1..]);
    }
  }

  lemma {:induction false} FlattenAppend<T>(a: seq<seq<T>>, b: seq<seq<T>>)
    ensures Flatten(a + b) == Flatten(a) + Flatten(b)
  {
    if a == [] {
      assert a + b == b;
    } else {
      assert (a + b)[0] == a[0] && (a + b)[1..] == a[1..] + b;
      FlattenAppend(a[1..], b);
    }
  }

  lemma {:induction false} TotalLengthAppend<T>(a: seq<seq<T>>, b: seq<seq<T>>)
    ensures TotalLength(a + b) == TotalLength(a) + TotalLength(b)
  {
    FlattenAppend(a, b);
    FlattenLength(a + b);
    FlattenLength(a);
    FlattenLength(b);
  }

  lemma FlattenOne<T>(s: seq<T>)
    ensures Flatten([s]) == s
  {
    assert [s][1..] == [];
  }

  /** Consecutive slices of at most `n` elements, in order. */
  function Chunks<T>(s: seq<T>, n: nat): seq<seq<T>>
    requires n > 0
    decreases |s|
  {
    if |s| == 0 then []
    else if |s| <= n then [s]
    else [s[..n]] + Chunks(s[n..], n)
  }

  /**
   * The chunks concatenate back to the list, each holds between one and `n`
   * elements, all but the last exactly `n`, and there are ceil(|s| / n) of them.
   */
  lemma ChunksShape<T>(s: seq<T>, n: nat)
    requires n > 0
    ensures Flatten(Chunks(s, n)) == s
    ensures |Chunks(s, n)| == (|s| + n - 1) / n
    ensures forall k :: 0 <= k < |Chunks(s, n)| ==> 0 < |Chunks(s, n)[k]| <= n
    ensures forall k :: 0 <= k < |Chunks(s, n)| - 1 ==> |Chunks(s, n)[k]| == n
  {
    ChunksFlatten(s, n);
    ChunksCount(s, n);
    ChunksSizes(s, n);
  }

  lemma {:induction false} ChunksFlatten<T>(s: seq<T>, n: nat)
    requires n > 0
    ensures Flatten(Chunks(s, n)) == s
    decreases |s|
  {
    if |s| == 0 {
    } else if |s| <= n {
      FlattenOne(s);
    } else {
      var rest := Chunks(s[n..], n);
      ChunksFlatten(s[n..], n);
      assert Chunks(s, n) == [s[..n]] + rest;
      assert ([s[..n]] + rest)[1..] == rest;
      assert s[..n] + s[n..] == s;
    }
  }

  lemma {:induction false} ChunksCount<T>(s: seq<T>, n: nat)
    requires n > 0
    ensures |Chunks(s, n)| == (|s| + n - 1) / n
    decreases |s|
  {
    if |s| == 0 {
    } else if |s| <= n {
      CeilOne(|s|, n);
    } else {
      ChunksCount(s[n..], n);
      CeilStep(|s|, n);
    }
  }

  lemma {:induction false} ChunksSizes<T>(s: seq<T>, n: nat)
    requires n > 0
    ensures forall k :: 0 <= k < |Chunks(s, n)| ==> 0 < |Chunks(s, n)[k]| <= n
    ensures forall k :: 0 <= k < |Chunks(s, n)| - 1 ==> |Chunks(s, n)[k]| == n
    decreases |s|
  {
    if |s| > n {
      var rest := Chunks(s[n..], n);
      ChunksSizes(s[n..], n);
      assert Chunks(s, n) == [s[..n]] + rest;
      assert forall k :: 1 <= k < |Chunks(s, n)| ==> Chunks(s, n)[k] == rest[k - 1];
    }
  }

  lemma CeilOne(m: nat, n: nat)
    requires 0 < m <= n
    ensures (m + n - 1) / n == 1
  {
    var a := m + n - 1;
    assert a == n * 1 + (m - 1);
    DivUnique(a, n, 1, m - 1);
  }

  lemma CeilStep(m: nat, n: nat)
    requires 0 < n < m
    ensures (m + n - 1) / n == 1 + (m - n + n - 1) / n
  {
    var b := m - n + n - 1;
    var q, r := b / n, b % n;
    assert b == n * q + r;
    assert m + n - 1 == n * (q + 1) + r;
    DivUnique(m + n - 1, n, q + 1, r);
  }

  lemma DivUnique(a: int, n: int, q: int, r: int)
    requires n > 0 && 0 <= r < n && a == n * q + r
    ensures a / n == q
  {
    var q2, r2 := a / n, a % n;
    assert a == n * q2 + r2 && 0 <= r2 < n;
    var d := q - q2;
    assert n * d == r2 - r by {
      assert n * d == n * q - n * q2;
    }
    if d >= 1 {
      MulAtLeast(n, d);
    } else if d <= -1 {
      MulAtLeast(n, -d);
    }
  }

  lemma {:induction false} MulAtLeast(n: int, d: int)
    requires n > 0 && d >= 1
    ensures n * d >= n
    decreases d
  {
    if d > 1 {
      MulAtLeast(n, d - 1);
      assert n * d == n * (d - 1) + n;
    }
  }

  /** `parts[:k]` and `parts[k:]` concatenate to the whole. */
  lemma SplitFlatten<T>(parts: seq<seq<T>>, k: nat)
    requires k <= |parts|
    ensures Flatten(parts[..k]) + Flatten(parts[k..]) == Flatten(parts)
  {
    assert parts[..k] + parts[k..] == parts;
    FlattenAppend(parts[..k], parts[k..]);
  }

  /** The concatenation ends with the last part. */
  lemma FlattenSnoc<T>(parts: seq<seq<T>>)
    requires |parts| > 0
    ensures Flatten(parts) == Flatten(parts[..|parts| - 1]) + parts[|parts| - 1]
  {
    var m := |parts| - 1;
    assert parts == parts[..m] + [parts[m]];
    FlattenAppend(parts[..m], [parts[m]]);
    FlattenOne(parts[m]);
  }

  /** Concatenating twice, first part first. */
  lemma FlattenTwiceHead<T>(p: seq<seq<seq<T>>>)
    requires |p| > 0
    ensures Flatten(Flatten(p)) == Flatten(p[0]) + Flatten(Flatten(p[1..]))
  {
    FlattenAppend(p[0], Flatten(p[1..]));
  }

  /** Each part sits in the concatenation right after the parts before it. */
  lemma FlattenPart<T>(parts: seq<seq<T>>, k: nat)
    requires k < |parts|
    ensures var a := |Flatten(parts[..k])|;
      a + |parts[k]| <= |Flatten(parts)| && Flatten(parts)[a..a + |parts[k]|] == parts[k]
  {
    SplitFlatten(parts, k);
    assert parts[k..] == [parts[k]] + parts[k + 1..];
    FlattenAppend([parts[k]], parts[k + 1..]);
    FlattenOne(parts[k]);
    MiddleSlice(Flatten(parts[..k]), parts[k], Flatten(parts[k + 1..]));
  }

  lemma MiddleSlice<T>(a: seq<T>, b: seq<T>, c: seq<T>)
    ensures (a + (b + c))[|a|..|a| + |b|] == b
  {
  }

  /** `s[lo:hi]`, with Python's clipping of bounds past the end. */
  function Window<T>(s: seq<T>, lo: nat, hi: nat): (r: seq<T>)
    requires lo <= hi
    ensures |r| <= hi - lo
  {
    var a := if lo < |s| then lo else |s|;
    var b := if hi < |s| then hi else |s|;
    s[a..b]
  }

  /** `[s[lo + w*i : lo + w*i + w] for i in range(count)]`. */
  function Windows<T>(s: seq<T>, lo: nat, w: nat, count: nat): (r: seq<seq<T>>)
    ensures |r| == count
    decreases count
  {
    if count == 0 then [] else [Window(s, lo, lo + w)] + Windows(s, lo + w, w, count - 1)
  }

  /** Enough windows of width `w` from `lo` cover the rest of the list exactly once. */
  lemma {:induction false} WindowsCover<T>(s: seq<T>, lo: nat, w: nat, count: nat)
    requires |s| <= lo + w * count
    ensures Flatten(Windows(s, lo, w, count)) == s[(if lo < |s| then lo else |s|)..]
    decreases count
  {
    if count > 0 {
      assert w * count == w + w * (count - 1);
      WindowsCover(s, lo + w, w, count - 1);
      var ws := Windows(s, lo, w, count);
      assert ws[0] == Window(s, lo, lo + w) && ws[1..] == Windows(s, lo + w, w, count - 1);
    }
  }

  /** Lists of lists with parts of the same lengths flatten to lists of the same length. */
  lemma {:induction false} FlattenSameShape<S, T>(a: seq<seq<S>>, b: seq<seq<T>>)
    requires |a| == |b| && forall k :: 0 <= k < |a| ==> |a[k]| == |b[k]|
    ensures |Flatten(a)| == |Flatten(b)|
  {
    if a != [] {
      FlattenSameShape(a[1..], b[1..]);
    }
  }

  /** Every element of the concatenation comes from one of the parts. */
  lemma {:induction false} InFlatten<T>(parts: seq<seq<T>>, x: T)
    requires x in Flatten(parts)
    ensures exists k :: 0 <= k < |parts| && x in parts[k]
  {
    if x !in parts[0] {
      InFlatten(parts[1..], x);
      var k :| 0 <= k < |parts[1..]| && x in parts[1..][k];
      assert x in parts[k + 1];
    }
  }

  /** Concatenating twice is concatenating the concatenated groups. */
  lemma {:induction false} FlattenFlatten<T>(groups: seq<seq<seq<T>>>)
    ensures Flatten(Flatten(groups)) == Flatten(seq(|groups|, k requires 0 <= k < |groups| => Flatten(groups[k])))
  {
    if groups != [] {
      FlattenFlatten(groups[1..]);
      FlattenAppend(groups[0], Flatten(groups[1..]));
      var f := seq(|groups|, k requires 0 <= k < |groups| => Flatten(groups[k]));
      assert f[1..] == seq(|groups[1..]|, k requires 0 <= k < |groups[1..]| => Flatten(groups[1..][k]));
    }
  }
}
