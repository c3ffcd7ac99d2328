/** The sequence combinators of source/iterator-utils.ts: fixed-size batching
    (`group`), projection (`select`), filtering (`where`), sorting (`orderBy`)
    and materialisation (`into`). The lazy generators become functions over
    finite sequences; `group`, whose source pushes into and resets a buffer,
    stays a loop. */
module IteratorUtils {
  import opened Wrappers

  // ---------------------------------------------------------------- group

  /** Concatenation of a sequence of batches, in order. */
  function Flatten<T>(bs: seq<seq<T>>): seq<T>
  {
    if bs == [] then [] else bs[0] + Flatten(bs[1..])
  }

  /** Every batch but the last holds exactly `size` elements; the last one is
      non-empty and holds at most `size`. */
  ghost predicate Batched<T>(bs: seq<seq<T>>, size: int)
  {
    && (forall i :: 0 <= i < |bs| - 1 ==> |bs[i]| == size)
    && (|bs| > 0 ==> 0 < |bs[|bs| - 1]| <= size)
  }

  /** The batches `group` yields, stated as a recursive function. */
  function Chunks<T>(xs: seq<T>, size: nat): seq<seq<T>>
    requires size > 0
    decreases |xs|
  {
    if |xs| == 0 then []
    else if |xs| <= size then [xs]
    else [xs[..size]] + Chunks(xs[size..], size)
  }

  lemma {:induction false} FlattenAppend<T>(bs: seq<seq<T>>, b: seq<T>)
    ensures Flatten(bs + [b]) == Flatten(bs) + b
  {
    if bs == [] {
      assert [b][1..] == [];
    } else {
      assert (bs + [b])[1..] == bs[1..] + [b];
      FlattenAppend(bs[1..], b);
    }
  }

  /** Batching is a partition: concatenating the batches gives the input back,
      and the batch sizes are the ones `group` promises. */
  lemma {:induction false} ChunksPartition<T>(xs: seq<T>, size: nat)
    requires size > 0
    ensures Flatten(Chunks(xs, size)) == xs
    ensures Batched(Chunks(xs, size), size)
    decreases |xs|
  {
    if |xs| == 0 {
    } else if |xs| <= size {
      assert Flatten([xs]) == xs + Flatten([]);
    } else {
      var rest := Chunks(xs[size..], size);
      ChunksPartition(xs[size..], size);
      assert Chunks(xs, size) == [xs[..size]] + rest;
      assert ([xs[..size]] + rest)[1..] == rest;
      assert xs[..size] + xs[size..] == xs;
      assert |rest| > 0;
    }
  }

  /** A partition into batches of the promised sizes is unique: it is the one
      `Chunks` describes. */
  lemma {:induction false} BatchingUnique<T>(bs: seq<seq<T>>, xs: seq<T>, size: nat)
    requires size > 0
    requires Flatten(bs) == xs && Batched(bs, size)
    ensures bs == Chunks(xs, size)
    decreases |bs|
  {
    if |bs| == 0 {
    } else if |bs| == 1 {
      assert bs[1..] == [];
      assert Flatten(bs[1..]) == [];
      assert Flatten(bs) == bs[0] + Flatten(bs[1..]);
      assert xs == bs[0];
      assert bs == [bs[0]];
    } else {
      var tail := bs[1..];
      assert Batched(tail, size) by {
        assert forall i :: 0 <= i < |tail| - 1 ==> tail[i] == bs[i + 1];
      }
      assert |Flatten(tail)| > 0 by {
        if |tail| == 1 {
          assert Flatten(tail) == tail[0] + Flatten([]);
        } else {
          assert |tail[0]| == size;
        }
      }
      assert |bs[0]| == size;
      assert xs == bs[0] + Flatten(tail);
      assert xs[..size] == bs[0];
      assert xs[size..] == Flatten(tail);
      BatchingUnique(tail, xs[size..], size);
    }
  }

  /** 250 elements in batches of 100 give batches of 100, 100 and 50. */
  lemma Chunks250<T>(xs: seq<T>)
    requires |xs| == 250
    ensures |Chunks(xs, 100)| == 3
    ensures |Chunks(xs, 100)[0]| == 100 && |Chunks(xs, 100)[1]| == 100 && |Chunks(xs, 100)[2]| == 50
  {
    var c2 := Chunks(xs[200..], 100);
    assert c2 == [xs[200..]];
    var c1 := Chunks(xs[100..], 100);
    assert xs[100..][100..] == xs[200..];
    assert c1 == [xs[100..][..100]] + c2;
  }

  /** `group`: a size that is not positive fails fast; otherwise the input is
      cut into consecutive batches of `size`, the last of which may be short. */
  method Group<T>(xs: seq<T>, size: int) returns (r: Result<seq<seq<T>>, string>)
    ensures r.Failure? <==> size <= 0
    ensures r.Success? ==> Flatten(r.value) == xs && Batched(r.value, size)
    ensures r.Success? ==> r.value == Chunks(xs, size)
  {
    if !(size > 0) {
      return Failure("AssertionError: size > 0");
    }
    var batches: seq<seq<T>> := [];
    var buffer: seq<T> := [];
    for i := 0 to |xs|
      invariant Flatten(batches) + buffer == xs[..i]
      invariant forall j :: 0 <= j < |batches| ==> |batches[j]| == size
      invariant |buffer| < size
    {
      FlattenAppend(batches, buffer + [xs[i]]);
      assert xs[..i + 1] == xs[..i] + [xs[i]];
      buffer := buffer + [xs[i]];
      if |buffer| == size {
        batches := batches + [buffer];
        buffer := [];
      }
    }
    assert xs[..|xs|] == xs;
    if |buffer| > 0 {
      FlattenAppend(batches, buffer);
      batches := batches + [buffer];
    }
    BatchingUnique(batches, xs, size);
    return Success(batches);
  }

  // --------------------------------------------------------------- select

  /** `select`: one output per input, `fn` of it, in input order. */
  function Select<T, U>(xs: seq<T>, fn: T -> U): (r: seq<U>)
    ensures |r| == |xs|
    ensures forall i :: 0 <= i < |xs| ==> r[i] == fn(xs[i])
  {
    if xs == [] then [] else [fn(xs[0])] + Select(xs[1..], fn)
  }

  // ---------------------------------------------------------------- where

  /** `a` is obtained from `b` by deleting elements (order is kept). */
  predicate IsSubsequence<T(==)>(a: seq<T>, b: seq<T>)
    decreases |b|
  {
    a == [] || (b != [] && ((a[0] == b[0] && IsSubsequence(a[1..], b[1..])) || IsSubsequence(a, b[1..])))
  }

  /** `where`: exactly the inputs satisfying `fn`, each as often as in the
      input, in their original order. */
  function Where<T(==,!new)>(xs: seq<T>, fn: T -> bool): (r: seq<T>)
    ensures IsSubsequence(r, xs)
  {
    if xs == [] then []
    else if fn(xs[0]) then [xs[0]] + Where(xs[1..], fn) else Where(xs[1..], fn)
  }

  /** `where` keeps every input satisfying `fn` as often as it occurs and
      drops every other one. */
  lemma {:induction false} WhereCounts<T(!new)>(xs: seq<T>, fn: T -> bool)
    ensures forall x :: fn(x) ==> multiset(Where(xs, fn))[x] == multiset(xs)[x]
    ensures forall x :: !fn(x) ==> multiset(Where(xs, fn))[x] == 0
  {
    if xs != [] {
      WhereCounts(xs[1..], fn);
      assert xs == [xs[0]] + xs[1..];
    }
  }

  /** Filtering distributes over concatenation, which is what "in their
      original order" means for a stream consumed piece by piece. */
  lemma {:induction false} WhereAppend<T(!new)>(a: seq<T>, b: seq<T>, fn: T -> bool)
    ensures Where(a + b, fn) == Where(a, fn) + Where(b, fn)
  {
    if a == [] {
      assert a + b == b;
    } else {
      assert (a + b)[0] == a[0];
      assert (a + b)[1..] == a[1..] + b;
      WhereAppend(a[1..], b, fn);
    }
  }

  lemma WhereSingleton<T(!new)>(x: T, fn: T -> bool)
    ensures Where([x], fn) == if fn(x) then [x] else []
  {
    assert [x][1..] == [];
  }

  /** Whatever `where` yields is an input that satisfies `fn`. */
  lemma WhereMember<T(!new)>(xs: seq<T>, fn: T -> bool, x: T)
    requires x in Where(xs, fn)
    ensures x in xs && fn(x)
  {
    WhereCounts(xs, fn);
    assert x in multiset(Where(xs, fn));
  }

  /** Every element `where` yields satisfies `fn`. */
  lemma WhereSatisfies<T(!new)>(xs: seq<T>, fn: T -> bool, i: nat)
    requires i < |Where(xs, fn)|
    ensures fn(Where(xs, fn)[i])
  {
    WhereMember(xs, fn, Where(xs, fn)[i]);
  }

  // -------------------------------------------------------------- orderBy

  /** The comparator never says both "a after b" and "b after a". */
  ghost predicate Total<T(!new)>(cmp: (T, T) -> int)
  {
    forall a, b :: cmp(a, b) <= 0 || cmp(b, a) <= 0
  }

  ghost predicate Transitive<T(!new)>(cmp: (T, T) -> int)
  {
    forall a, b, c :: cmp(a, b) <= 0 && cmp(b, c) <= 0 ==> cmp(a, c) <= 0
  }

  /** Neighbours are in comparator order. */
  ghost predicate Sorted<T>(s: seq<T>, cmp: (T, T) -> int)
  {
    forall i :: 0 <= i < |s| - 1 ==> cmp(s[i], s[i + 1]) <= 0
  }

  /** Insert `x` before the first element it does not sort after. */
  function Insert<T>(x: T, s: seq<T>, cmp: (T, T) -> int): (r: seq<T>)
    ensures multiset(r) == multiset(s) + multiset{x}
    ensures |r| == |s| + 1
    ensures r[0] == x || (s != [] && r[0] == s[0])
  {
    if s == [] then [x]
    else if cmp(x, s[0]) <= 0 then [x] + s
    else
      assert s == [s[0]] + s[1..];
      [s[0]] + Insert(x, s[1..], cmp)
  }

  /** `orderBy`: the materialised input sorted by the comparator (a stable
      insertion sort: of two elements the comparator ties, the earlier stays
      first). */
  function OrderBy<T>(xs: seq<T>, cmp: (T, T) -> int): (r: seq<T>)
    ensures multiset(r) == multiset(xs)
    ensures |r| == |xs|
  {
    if xs == [] then []
    else
      assert xs == [xs[0]] + xs[1..];
      Insert(xs[0], OrderBy(xs[1..], cmp), cmp)
  }

  lemma {:induction false} InsertSorted<T(!new)>(x: T, s: seq<T>, cmp: (T, T) -> int)
    requires Total(cmp) && Sorted(s, cmp)
    ensures Sorted(Insert(x, s, cmp), cmp)
    decreases |s|
  {
    if s != [] && cmp(x, s[0]) > 0 {
      var t := s[1..];
      assert Sorted(t, cmp) by {
        assert forall i :: 0 <= i < |t| ==> t[i] == s[i + 1];
      }
      InsertSorted(x, t, cmp);
      var r := Insert(x, s, cmp);
      var rt := Insert(x, t, cmp);
      assert r == [s[0]] + rt;
      assert cmp(s[0], rt[0]) <= 0 by {
        if rt[0] == x {
          assert cmp(x, s[0]) <= 0 || cmp(s[0], x) <= 0;
        } else {
          assert rt[0] == t[0] == s[1];
        }
      }
      forall i | 0 <= i < |r| - 1
        ensures cmp(r[i], r[i + 1]) <= 0
      {
        if i > 0 {
          assert r[i] == rt[i - 1] && r[i + 1] == rt[i];
        }
      }
    }
  }

  /** The result of `orderBy` is sorted, given a comparator that is total. */
  lemma {:induction false} OrderBySorted<T(!new)>(xs: seq<T>, cmp: (T, T) -> int)
    requires Total(cmp)
    ensures Sorted(OrderBy(xs, cmp), cmp)
  {
    if xs != [] {
      OrderBySorted(xs[1..], cmp);
      InsertSorted(xs[0], OrderBy(xs[1..], cmp), cmp);
    }
  }

  /** For a transitive comparator neighbour order is full pairwise order. */
  lemma {:induction false} SortedPairwise<T(!new)>(s: seq<T>, cmp: (T, T) -> int, i: nat, j: nat)
    requires Transitive(cmp) && Sorted(s, cmp)
    requires i < j < |s|
    ensures cmp(s[i], s[j]) <= 0
    decreases j - i
  {
    if j > i + 1 {
      SortedPairwise(s, cmp, i, j - 1);
    }
  }

  // ----------------------------------------------------------------- into

  /** `into`: the sequence materialised, in order, into a fresh array. */
  method Into<T>(xs: seq<T>) returns (a: array<T>)
    ensures fresh(a)
    ensures a.Length == |xs| && a[..] == xs
  {
    a := new T[|xs|](i requires 0 <= i < |xs| => xs[i]);
  }
}
