/** Batch compression: drop every element whose hash already occurred earlier in the batch. */
module Compression {
  import opened Prelude

  ghost function Hashes<T>(h: T -> int, xs: seq<T>): set<int> {
    set x | x in xs :: h(x)
  }

  ghost function Compress<T>(h: T -> int, xs: seq<T>): seq<T> {
    if xs == [] then []
    else
      var front, last := xs[..|xs| - 1], xs[|xs| - 1];
      if h(last) in Hashes(h, front) then Compress(h, front) else Compress(h, front) + [last]
  }

  ghost predicate Distinct<T>(h: T -> int, xs: seq<T>) {
    forall i, j | 0 <= i < j < |xs| :: h(xs[i]) != h(xs[j])
  }

  /** No earlier element has the hash of element i. */
  ghost predicate IsFirst<T>(h: T -> int, xs: seq<T>, i: nat)
    requires i < |xs|
  {
    forall j | 0 <= j < i :: h(xs[j]) != h(xs[i])
  }

  ghost predicate Increasing(ks: seq<nat>) {
    forall i, j | 0 <= i < j < |ks| :: ks[i] < ks[j]
  }

  ghost predicate SelectsFirsts<T>(h: T -> int, xs: seq<T>, ks: seq<nat>, ys: seq<T>) {
    && Increasing(ks)
    && |ys| == |ks|
    && (forall i | 0 <= i < |ks| :: ks[i] < |xs| && IsFirst(h, xs, ks[i]) && ys[i] == xs[ks[i]])
    && (forall k: nat | k < |xs| && IsFirst(h, xs, k) :: k in ks)
  }

  lemma HashesAppend<T>(h: T -> int, xs: seq<T>, ys: seq<T>)
    ensures Hashes(h, xs + ys) == Hashes(h, xs) + Hashes(h, ys)
  {
  }

  lemma {:induction false} HashesOfCompress<T>(h: T -> int, xs: seq<T>)
    ensures Hashes(h, Compress(h, xs)) == Hashes(h, xs)
  {
    if xs == [] {
    } else {
      var front, last := xs[..|xs| - 1], xs[|xs| - 1];
      HashesOfCompress(h, front);
      assert xs == front + [last];
      assert Hashes(h, xs) == Hashes(h, front) + {h(last)};
      assert Hashes(h, Compress(h, front) + [last]) == Hashes(h, Compress(h, front)) + {h(last)};
    }
  }

  lemma IsFirstAppend<T>(h: T -> int, xs: seq<T>, x: T, k: nat)
    requires k <= |xs|
    ensures IsFirst(h, xs + [x], k) <==> if k < |xs| then IsFirst(h, xs, k) else h(x) !in Hashes(h, xs)
  {
    var all := xs + [x];
    assert forall j | 0 <= j < |xs| :: all[j] == xs[j] && xs[j] in xs;
  }

  lemma SelectsFirstsAppend<T>(h: T -> int, xs: seq<T>, ks: seq<nat>, ys: seq<T>, x: T)
    requires SelectsFirsts(h, xs, ks, ys)
    ensures h(x) in Hashes(h, xs) ==> SelectsFirsts(h, xs + [x], ks, ys)
    ensures h(x) !in Hashes(h, xs) ==> SelectsFirsts(h, xs + [x], ks + [|xs|], ys + [x])
  {
    forall k: nat | k <= |xs|
      ensures IsFirst(h, xs + [x], k) <==> if k < |xs| then IsFirst(h, xs, k) else h(x) !in Hashes(h, xs)
    {
      IsFirstAppend(h, xs, x, k);
    }
  }

  /** The result is the subsequence, in order, of exactly the first occurrences. */
  lemma {:induction false} CompressSelectsFirsts<T>(h: T -> int, xs: seq<T>) returns (ks: seq<nat>)
    ensures SelectsFirsts(h, xs, ks, Compress(h, xs))
  {
    ks := [];
    if xs == [] {
    } else {
      var front, last := xs[..|xs| - 1], xs[|xs| - 1];
      ks := CompressSelectsFirsts(h, front);
      SelectsFirstsAppend(h, front, ks, Compress(h, front), last);
      assert xs == front + [last];
      if h(last) !in Hashes(h, front) {
        ks := ks + [|front|];
      }
    }
  }

  lemma CompressDistinct<T>(h: T -> int, xs: seq<T>)
    ensures Distinct(h, Compress(h, xs))
  {
    var ks := CompressSelectsFirsts(h, xs);
    var ys := Compress(h, xs);
    forall i, j | 0 <= i < j < |ys| ensures h(ys[i]) != h(ys[j]) {
      assert ks[i] < ks[j] && IsFirst(h, xs, ks[j]);
    }
  }

  lemma {:induction false} DistinctUnchanged<T>(h: T -> int, xs: seq<T>)
    requires Distinct(h, xs)
    ensures Compress(h, xs) == xs
  {
    if xs == [] {
    } else {
      DistinctUnchanged(h, xs[..|xs| - 1]);
    }
  }

  lemma CompressSnoc<T>(h: T -> int, xs: seq<T>, x: T)
    ensures Compress(h, xs + [x]) == if h(x) in Hashes(h, xs) then Compress(h, xs) else Compress(h, xs) + [x]
  {
    assert (xs + [x])[..|xs|] == xs;
  }

  lemma AbsorbStep<T>(h: T -> int, c: seq<T>, xs: seq<T>, ys: seq<T>, y: T)
    requires Hashes(h, c) == Hashes(h, xs) && Compress(h, c + ys) == Compress(h, xs + ys)
    ensures Compress(h, (c + ys) + [y]) == Compress(h, (xs + ys) + [y])
  {
    HashesAppend(h, c, ys);
    HashesAppend(h, xs, ys);
    CompressSnoc(h, c + ys, y);
    CompressSnoc(h, xs + ys, y);
  }

  /** Compressing a prefix first changes nothing; with an empty suffix this is idempotence. */
  lemma {:induction false} CompressAbsorbs<T>(h: T -> int, xs: seq<T>, ys: seq<T>)
    ensures Compress(h, Compress(h, xs) + ys) == Compress(h, xs + ys)
  {
    var c := Compress(h, xs);
    if ys == [] {
      CompressDistinct(h, xs);
      DistinctUnchanged(h, c);
      assert c + ys == c && xs + ys == xs;
    } else {
      var front, last := ys[..|ys| - 1], ys[|ys| - 1];
      assert ys == front + [last];
      CompressAbsorbs(h, xs, front);
      HashesOfCompress(h, xs);
      AbsorbStep(h, c, xs, front, last);
      Regroup(c, front, [last]);
      Regroup(xs, front, [last]);
    }
  }

  /** The loop of the compressor: a set of seen hashes and a growing list. */
  method CompressBatch<T>(h: T -> int, batch: seq<T>) returns (compressed: seq<T>)
    ensures compressed == Compress(h, batch)
  {
    var seen: set<int> := {};
    compressed := [];
    for i := 0 to |batch|
      invariant seen == Hashes(h, batch[..i])
      invariant compressed == Compress(h, batch[..i])
    {
      var event := batch[i];
      var eventHash := h(event);
      assert batch[..i + 1][..i] == batch[..i];
      assert Hashes(h, batch[..i + 1]) == Hashes(h, batch[..i]) + {eventHash} by {
        assert batch[..i + 1] == batch[..i] + [event];
      }
      if eventHash !in seen {
        seen := seen + {eventHash};
        compressed := compressed + [event];
      }
    }
    assert batch[..|batch|] == batch;
  }
}
