/** The consensus confidence of several responses: mean plus a bonus for agreement, clipped to one. */
module Consensus {
  import opened Prelude

  /** A missing score and a score of zero both count as one half. */
  function ScoreOf(score: Option<real>): real {
    if score == None || score == Some(0.0) then 0.5 else score.value
  }

  function SumBy<A>(f: A -> real, xs: seq<A>): real {
    if xs == [] then 0.0 else f(xs[0]) + SumBy(f, xs[1..])
  }

  function Mean<A>(f: A -> real, xs: seq<A>): real
    requires xs != []
  {
    SumBy(f, xs) / |xs| as real
  }

  function Square(x: real): real {
    x * x
  }

  function Variance(responses: seq<Option<real>>): real
    requires responses != []
  {
    var mean := Mean(ScoreOf, responses);
    Mean(r => Square(ScoreOf(r) - mean), responses)
  }

  function Max(x: real, y: real): real {
    if x >= y then x else y
  }

  function Min(x: real, y: real): real {
    if x <= y then x else y
  }

  function Confidence(responses: seq<Option<real>>): real {
    if responses == [] then 0.0
    else
      var bonus := if |responses| > 1 then Max(0.0, (0.1 - Variance(responses)) * 2.0) else 0.0;
      Min(1.0, Mean(ScoreOf, responses) + bonus)
  }

  ghost predicate UnitScores(responses: seq<Option<real>>) {
    forall r | r in responses :: r.Some? ==> 0.0 <= r.value <= 1.0
  }

  // ----- bounds -----

  lemma {:induction false} SumBetween<A>(f: A -> real, xs: seq<A>, low: real, high: real)
    requires forall i | 0 <= i < |xs| :: low <= f(xs[i]) <= high
    ensures low * |xs| as real <= SumBy(f, xs) <= high * |xs| as real
  {
    if xs == [] {
    } else {
      var rest := xs[1..];
      forall i | 0 <= i < |rest| ensures low <= f(rest[i]) <= high {
        assert rest[i] == xs[i + 1];
      }
      SumBetween(f, rest, low, high);
      assert |xs| as real == |rest| as real + 1.0;
    }
  }

  lemma QuotientBetween(s: real, n: real, low: real, high: real)
    requires n > 0.0 && low * n <= s <= high * n
    ensures low <= s / n <= high
  {
    var q := s / n;
    assert (q - low) * n >= 0.0 && (high - q) * n >= 0.0;
  }

  lemma MeanBetween<A>(f: A -> real, xs: seq<A>, low: real, high: real)
    requires xs != [] && forall i | 0 <= i < |xs| :: low <= f(xs[i]) <= high
    ensures low <= Mean(f, xs) <= high
  {
    SumBetween(f, xs, low, high);
    QuotientBetween(SumBy(f, xs), |xs| as real, low, high);
  }

  lemma {:induction false} SumNonNegative<A>(f: A -> real, xs: seq<A>)
    requires forall x :: f(x) >= 0.0
    ensures SumBy(f, xs) >= 0.0
  {
    if xs == [] {
    } else {
      SumNonNegative(f, xs[1..]);
    }
  }

  lemma VarianceNonNegative(responses: seq<Option<real>>)
    requires responses != []
    ensures Variance(responses) >= 0.0
  {
    var mean := Mean(ScoreOf, responses);
    SumNonNegative(r => Square(ScoreOf(r) - mean), responses);
  }

  /** Scores in the unit interval: the result is at least their mean, at most a fifth more, and at most one. */
  lemma ConfidenceBounds(responses: seq<Option<real>>)
    requires responses != [] && UnitScores(responses)
    ensures var mean := Mean(ScoreOf, responses); mean <= Confidence(responses) <= Min(1.0, mean + 0.2)
  {
    forall i | 0 <= i < |responses| ensures 0.0 <= ScoreOf(responses[i]) <= 1.0 {
      assert responses[i] in responses;
    }
    MeanBetween(ScoreOf, responses, 0.0, 1.0);
    VarianceNonNegative(responses);
  }

  // ----- agreement -----

  /** Two or more responses of the same score get the whole bonus. */
  lemma UnanimousConfidence(responses: seq<Option<real>>, c: real)
    requires |responses| >= 2 && forall i | 0 <= i < |responses| :: ScoreOf(responses[i]) == c
    ensures Confidence(responses) == Min(1.0, c + 0.2)
  {
    MeanBetween(ScoreOf, responses, c, c);
    var mean := Mean(ScoreOf, responses);
    MeanBetween(r => Square(ScoreOf(r) - mean), responses, 0.0, 0.0);
  }

  // ----- order -----

  lemma {:induction false} SumSplit<A>(f: A -> real, xs: seq<A>, ys: seq<A>)
    ensures SumBy(f, xs + ys) == SumBy(f, xs) + SumBy(f, ys)
  {
    if xs == [] {
      assert xs + ys == ys;
    } else {
      assert (xs + ys)[1..] == xs[1..] + ys;
      SumSplit(f, xs[1..], ys);
    }
  }

  /** Taking one term out of a sequence takes its value out of the sum. */
  lemma Without<A>(f: A -> real, ys: seq<A>, i: nat) returns (rest: seq<A>)
    requires i < |ys|
    ensures multiset(rest) == multiset(ys) - multiset{ys[i]}
    ensures SumBy(f, ys) == f(ys[i]) + SumBy(f, rest)
  {
    var before, after := ys[..i], ys[i + 1..];
    var tail := [ys[i]] + after;
    rest := before + after;
    assert ys == before + tail && tail[1..] == after;
    SumSplit(f, before, after);
    SumSplit(f, before, tail);
  }

  /** A sum does not depend on the order of its terms. */
  lemma {:induction false} SumPermuted<A>(f: A -> real, xs: seq<A>, ys: seq<A>)
    requires multiset(xs) == multiset(ys)
    ensures SumBy(f, xs) == SumBy(f, ys)
  {
    if xs == [] {
      assert |multiset(ys)| == 0;
    } else {
      assert xs[0] in multiset(ys);
      var i :| 0 <= i < |ys| && ys[i] == xs[0];
      var rest := Without(f, ys, i);
      assert xs == [xs[0]] + xs[1..];
      SumPermuted(f, xs[1..], rest);
    }
  }

  /** The order in which providers respond does not matter. */
  lemma ConfidencePermuted(a: seq<Option<real>>, b: seq<Option<real>>)
    requires multiset(a) == multiset(b)
    ensures Confidence(a) == Confidence(b)
  {
    assert |a| == |multiset(a)| == |multiset(b)| == |b|;
    if a == [] {
    } else {
      SumPermuted(ScoreOf, a, b);
      var mean := Mean(ScoreOf, a);
      SumPermuted(r => Square(ScoreOf(r) - mean), a, b);
    }
  }

  // ----- the exact value -----

  function SquareOf(score: Option<real>): real {
    Square(ScoreOf(score))
  }

  function Deviation(score: real, m: real): real {
    Square(score - m)
  }

  lemma ExpandOne(x: real, m: real, s: real, n: real)
    ensures Deviation(x, m) - (2.0 * m) * s + n * (m * m) == Square(x) - (2.0 * m) * (x + s) + (n + 1.0) * (m * m)
  {
    var square := m * m;
    assert Deviation(x, m) == Square(x) - (2.0 * m) * x + square;
    assert (2.0 * m) * (x + s) == (2.0 * m) * x + (2.0 * m) * s;
    assert (n + 1.0) * square == n * square + square;
  }

  /** The sum of the squared deviations from m, by the sum of the squares and the sum of the scores. */
  lemma {:induction false} SumOfDeviations(dev: Option<real> -> real, xs: seq<Option<real>>, m: real, n: real)
    requires n == |xs| as real
    requires forall x :: dev(x) == Deviation(ScoreOf(x), m)
    ensures SumBy(dev, xs) == SumBy(SquareOf, xs) - (2.0 * m) * SumBy(ScoreOf, xs) + n * (m * m)
  {
    if xs == [] {
    } else {
      SumOfDeviations(dev, xs[1..], m, n - 1.0);
      ExpandOne(ScoreOf(xs[0]), m, SumBy(ScoreOf, xs[1..]), n - 1.0);
    }
  }

  lemma TimesQuotient(s: real, n: real)
    requires n > 0.0
    ensures (s / n) * n == s
  {
  }

  lemma MiddleTerm(m: real, n: real, s: real)
    requires m * n == s
    ensures (2.0 * m) * s == 2.0 * (n * (m * m))
  {
  }

  /** The sum v of squared deviations from the mean m = s / n, divided by their number. */
  lemma VarianceQuotient(v: real, q: real, t: real, s: real, n: real, m: real, square: real)
    requires n > 0.0 && m == s / n && square == m * m
    requires t == (2.0 * m) * s && v == q - t + n * square
    ensures v / n == q / n - square
  {
    TimesQuotient(s, n);
    MiddleTerm(m, n, s);
    QuotientLess(q, n, square);
    assert v == q - n * square;
  }

  lemma QuotientLess(q: real, n: real, c: real)
    requires n > 0.0
    ensures (q - n * c) / n == q / n - c
  {
    TimesQuotient(q, n);
    var r := q / n - c;
    assert r * n == q - n * c;
  }

  /** The variance is the mean of the squares less the square of the mean. */
  lemma VarianceByMoments(responses: seq<Option<real>>)
    requires responses != []
    ensures Variance(responses) == Mean(SquareOf, responses) - Mean(ScoreOf, responses) * Mean(ScoreOf, responses)
  {
    var m := Mean(ScoreOf, responses);
    MomentsAround(responses, m);
  }

  lemma MeanOfDeviations(dev: Option<real> -> real, xs: seq<Option<real>>, m: real, square: real)
    requires xs != [] && m == Mean(ScoreOf, xs) && square == m * m
    requires forall x :: dev(x) == Deviation(ScoreOf(x), m)
    ensures Mean(dev, xs) == Mean(SquareOf, xs) - square
  {
    var n, s := |xs| as real, SumBy(ScoreOf, xs);
    SumOfDeviations(dev, xs, m, n);
    VarianceQuotient(SumBy(dev, xs), SumBy(SquareOf, xs), (2.0 * m) * s, s, n, m, square);
  }

  lemma MomentsAround(responses: seq<Option<real>>, m: real)
    requires responses != [] && m == Mean(ScoreOf, responses)
    ensures Mean(r => Square(ScoreOf(r) - m), responses) == Mean(SquareOf, responses) - m * m
  {
    MeanOfDeviations(r => Square(ScoreOf(r) - m), responses, m, m * m);
  }

  /** A response without a score, or with a score of zero, counts as one with a score of one half. */
  lemma MissingIsHalf(before: seq<Option<real>>, after: seq<Option<real>>, missing: Option<real>)
    requires missing == None || missing == Some(0.0)
    ensures Confidence((before + [missing]) + after) == Confidence((before + [Some(0.5)]) + after)
  {
    var a := (before + [missing]) + after;
    var b := (before + [Some(0.5)]) + after;
    assert a != [] && b != [] && |a| == |b|;
    SumOfThree(ScoreOf, before, missing, after);
    SumOfThree(ScoreOf, before, Some(0.5), after);
    SumOfThree(SquareOf, before, missing, after);
    SumOfThree(SquareOf, before, Some(0.5), after);
    VarianceByMoments(a);
    VarianceByMoments(b);
  }

  lemma SumOfThree<A>(f: A -> real, before: seq<A>, x: A, after: seq<A>)
    ensures SumBy(f, (before + [x]) + after) == (SumBy(f, before) + f(x)) + SumBy(f, after)
  {
    SumSplit(f, before + [x], after);
    SumSplit(f, before, [x]);
    assert [x][1..] == [];
    assert SumBy(f, [x]) == f(x);
  }

  /** No response, one, and two: the bonus is a fifth less half the squared distance, if that is positive. */
  lemma FewScores(x: real, y: real)
    requires x != 0.0 && y != 0.0
    ensures Confidence([]) == 0.0
    ensures Confidence([Some(x)]) == if x > 1.0 then 1.0 else x
    ensures var bonus := 0.2 - (x - y) * (x - y) / 2.0;
            var value := (x + y) / 2.0 + if bonus > 0.0 then bonus else 0.0;
            Confidence([Some(x), Some(y)]) == if value > 1.0 then 1.0 else value
  {
    assert Confidence([Some(x)]) == if x > 1.0 then 1.0 else x by {
      assert [Some(x)][1..] == [];
      assert SumBy(ScoreOf, [Some(x)]) == x;
    }
    var two := [Some(x), Some(y)];
    TwoSums(x, y);
    var v := (x - y) * (x - y) / 4.0;
    assert Variance(two) == v by {
      VarianceByMoments(two);
      TwoVariance(x, y);
    }
    assert Mean(ScoreOf, two) == (x + y) / 2.0;
    DoubledBonus(v);
    assert 2.0 * v == (x - y) * (x - y) / 2.0;
  }

  lemma TwoSums(x: real, y: real)
    requires x != 0.0 && y != 0.0
    ensures SumBy(ScoreOf, [Some(x), Some(y)]) == x + y
    ensures SumBy(SquareOf, [Some(x), Some(y)]) == x * x + y * y
  {
    assert [Some(x), Some(y)][1..] == [Some(y)] && [Some(y)][1..] == [];
    assert SumBy(ScoreOf, [Some(y)]) == y && SumBy(SquareOf, [Some(y)]) == y * y;
  }

  lemma TwoVariance(x: real, y: real)
    ensures (x * x + y * y) / 2.0 - ((x + y) / 2.0) * ((x + y) / 2.0) == (x - y) * (x - y) / 4.0
  {
  }

  lemma DoubledBonus(v: real)
    ensures (0.1 - v) * 2.0 == 0.2 - 2.0 * v
  {
  }

  /** Two or more responses: the bonus by the mean of the scores and the mean of their squares. */
  lemma ConfidenceExactly(responses: seq<Option<real>>)
    requires |responses| >= 2
    ensures var mean := Mean(ScoreOf, responses);
            var bonus := 0.2 - 2.0 * (Mean(SquareOf, responses) - mean * mean);
            var value := mean + if bonus > 0.0 then bonus else 0.0;
            Confidence(responses) == if value > 1.0 then 1.0 else value
  {
    VarianceByMoments(responses);
    DoubledBonus(Variance(responses));
  }
}
