/** How much of the ground-truth plan a run actually visited, in order. Scores are in thousandths. */
module Evaluation {
  import opened Common
  import opened Decimal

  /** The nodes of `plan` occur in `visits` at these places, left to right. */
  ghost predicate Places<T>(plan: seq<T>, visits: seq<T>, at: seq<nat>) {
    && |at| == |plan|
    && (forall i :: 0 <= i < |at| ==> at[i] < |visits| && visits[at[i]] == plan[i])
    && (forall i, j :: 0 <= i < j < |at| ==> at[i] < at[j])
  }

  /** `plan` is a subsequence of `visits`. */
  ghost predicate Embeds<T(!new)>(plan: seq<T>, visits: seq<T>) {
    exists at :: Places(plan, visits, at)
  }

  /** The length of the longest prefix, of at most `n` nodes, that is a subsequence of the visits. */
  ghost function Longest<T(!new)>(plan: seq<T>, visits: seq<T>, n: nat): (k: nat)
    requires n <= |plan|
    ensures k <= n
  {
    if n == 0 then 0 else if Embeds(plan[..n], visits) then n else Longest(plan, visits, n - 1)
  }

  /** matched / total, rounded to three places, halves to even. */
  function Thousandths(matched: nat, total: nat): int
    requires total > 0
  {
    HalfEven((1000 * matched) as real / total as real)
  }

  ghost function Accuracy<T(!new)>(plan: seq<T>, visits: seq<T>): int {
    if plan == [] then 1000 else Thousandths(Longest(plan, visits, |plan|), |plan|)
  }

  // ---- Subsequences ---------------------------------------------------------------------------------------

  lemma PrefixPlaces<T>(plan: seq<T>, visits: seq<T>, at: seq<nat>, k: nat)
    requires Places(plan, visits, at) && k <= |plan|
    ensures Places(plan[..k], visits, at[..k])
  {
  }

  lemma PrefixEmbeds<T(!new)>(plan: seq<T>, visits: seq<T>, n: nat, k: nat)
    requires k <= n <= |plan| && Embeds(plan[..n], visits)
    ensures Embeds(plan[..k], visits)
  {
    var at :| Places(plan[..n], visits, at);
    PrefixPlaces(plan[..n], visits, at, k);
    assert plan[..n][..k] == plan[..k];
  }

  lemma EmptyEmbeds<T(!new)>(visits: seq<T>)
    ensures Embeds([], visits)
  {
    var none: seq<T> := [];
    assert Places(none, visits, []);
  }

  lemma {:induction false} LongestIs<T(!new)>(plan: seq<T>, visits: seq<T>, n: nat, k: nat)
    requires k <= n <= |plan| && Embeds(plan[..k], visits)
    requires k < |plan| ==> !Embeds(plan[..k + 1], visits)
    ensures Longest(plan, visits, n) == k
  {
    if n > k {
      if Embeds(plan[..n], visits) { PrefixEmbeds(plan, visits, n, k + 1); }
      LongestIs(plan, visits, n - 1, k);
    }
  }

  lemma {:induction false} LongestMeans<T(!new)>(plan: seq<T>, visits: seq<T>, n: nat)
    requires n <= |plan|
    ensures Embeds(plan[..Longest(plan, visits, n)], visits)
    ensures forall k :: 0 <= k <= n && Embeds(plan[..k], visits) ==> k <= Longest(plan, visits, n)
  {
    if n == 0 {
      EmptyEmbeds(visits);
      assert plan[..0] == [];
    } else {
      LongestMeans(plan, visits, n - 1);
    }
  }

  // ---- The greedy scan --------------------------------------------------------------------------------------

  /** No placing of this prefix ends before `position`. */
  ghost predicate NoneEarlier<T(!new)>(prefix: seq<T>, visits: seq<T>, position: nat) {
    forall at :: Places(prefix, visits, at) && at != [] ==> position <= at[|at| - 1] + 1
  }

  lemma NextNodeFound<T(!new)>(plan: seq<T>, visits: seq<T>, m: nat, from: nat, found: nat)
    requires m < |plan| && from <= found < |visits| && visits[found] == plan[m]
    requires forall k :: from <= k < found ==> visits[k] != plan[m]
    requires exists at :: Places(plan[..m], visits, at) && (at != [] ==> at[|at| - 1] < from)
    requires NoneEarlier(plan[..m], visits, from) && (m == 0 ==> from == 0)
    ensures exists at :: Places(plan[..m + 1], visits, at) && (at != [] ==> at[|at| - 1] < found + 1)
    ensures NoneEarlier(plan[..m + 1], visits, found + 1)
  {
    var before :| Places(plan[..m], visits, before) && (before != [] ==> before[|before| - 1] < from);
    assert Places(plan[..m + 1], visits, before + [found]);
    forall at | Places(plan[..m + 1], visits, at) && at != [] ensures found + 1 <= at[|at| - 1] + 1 {
      NotBefore(plan, visits, m, from, at);
    }
  }

  /** In any placing of one more node, that node comes at `from` or later. */
  lemma NotBefore<T(!new)>(plan: seq<T>, visits: seq<T>, m: nat, from: nat, at: seq<nat>)
    requires m < |plan| && NoneEarlier(plan[..m], visits, from) && (m == 0 ==> from == 0)
    requires Places(plan[..m + 1], visits, at)
    ensures from <= at[m] < |visits| && visits[at[m]] == plan[m]
  {
    PrefixPlaces(plan[..m + 1], visits, at, m);
    assert plan[..m + 1][..m] == plan[..m];
    if m > 0 { assert at[..m][m - 1] < at[m]; }
  }

  lemma NextNodeMissing<T(!new)>(plan: seq<T>, visits: seq<T>, m: nat, from: nat)
    requires m < |plan| && NoneEarlier(plan[..m], visits, from) && (m == 0 ==> from == 0)
    requires forall k :: from <= k < |visits| ==> visits[k] != plan[m]
    ensures !Embeds(plan[..m + 1], visits)
  {
    if Embeds(plan[..m + 1], visits) {
      var at :| Places(plan[..m + 1], visits, at);
      NotBefore(plan, visits, m, from, at);
    }
  }

  method PlanningAccuracy<T(==, !new)>(expected: seq<T>, visited: seq<T>) returns (score: int)
    ensures score == Accuracy(expected, visited)
  {
    if expected == [] {
      return 1000;
    }
    var position, matched := 0, 0;
    EmptyEmbeds(visited);
    for i := 0 to |expected|
      invariant 0 <= position <= |visited| && 0 <= matched <= i
      invariant matched == i || (position == |visited| && !Embeds(expected[..matched + 1], visited))
      invariant matched == 0 && matched == i ==> position == 0
      invariant exists at :: Places(expected[..matched], visited, at) && (at != [] ==> at[|at| - 1] < position)
      invariant matched == i ==> NoneEarlier(expected[..matched], visited, position)
    {
      ghost var from := position;
      while position < |visited| && visited[position] != expected[i]
        invariant from <= position <= |visited|
        invariant forall k :: from <= k < position ==> visited[k] != expected[i]
      {
        position := position + 1;
      }
      if position < |visited| {
        NextNodeFound(expected, visited, matched, from, position);
        matched := matched + 1;
        position := position + 1;
      } else if matched == i {
        NextNodeMissing(expected, visited, matched, from);
      }
    }
    LongestIs(expected, visited, |expected|, matched);
    score := Thousandths(matched, |expected|);
  }

  // ---- What the score says ----------------------------------------------------------------------------------

  lemma InOrder(q: real, q': real, n: real, x: real, x': real)
    requires n > 0.0 && q * n == x && q' * n == x' && x <= x'
    ensures q <= q'
  {
    Cancel(q, q', n);
  }

  lemma ThousandthsMonotone(m: nat, m': nat, total: nat)
    requires total > 0 && m <= m' <= total
    ensures 0 <= Thousandths(m, total) <= Thousandths(m', total) <= 1000
  {
    hide HalfEven;
    var n := total as real;
    var q := Quotient((1000 * m) as real, n);
    var q' := Quotient((1000 * m') as real, n);
    assert (1000 * m') as real <= 1000.0 * n;
    AtLeast(q, n, (1000 * m) as real, 0.0);
    AtMost(q', n, (1000 * m') as real, 1000.0);
    InOrder(q, q', n, (1000 * m) as real, (1000 * m') as real);
    HalfEvenBetween(q, 0, 1000);
    HalfEvenBetween(q', 0, 1000);
    HalfEvenMonotone(q, q');
  }

  /** Extending the visits never lowers the score, and the score is always between 0 and 1. */
  lemma MoreVisitsNeverHurt<T(!new)>(plan: seq<T>, visits: seq<T>, more: seq<T>)
    ensures 0 <= Accuracy(plan, visits) <= Accuracy(plan, visits + more) <= 1000
  {
    hide Thousandths;
    if plan != [] {
      var k := Longest(plan, visits, |plan|);
      LongestMeans(plan, visits, |plan|);
      LongestMeans(plan, visits + more, |plan|);
      var at :| Places(plan[..k], visits, at);
      assert Places(plan[..k], visits + more, at);
      ThousandthsMonotone(k, Longest(plan, visits + more, |plan|), |plan|);
    }
  }

  /** Nothing but the whole plan, unless the plan has at least 2000 nodes. */
  lemma PerfectScore(m: nat, total: nat)
    requires 0 < total && m <= total
    ensures m == total ==> Thousandths(m, total) == 1000
    ensures m < total < 2000 ==> Thousandths(m, total) < 1000
    ensures m == total - 1 && total >= 2000 ==> Thousandths(m, total) == 1000
  {
    var x, n := (1000 * m) as real, total as real;
    var q := Quotient(x, n);
    assert x == 1000.0 * m as real;
    AroundThousand(q, n, x);
  }

  lemma AroundThousand(q: real, n: real, x: real)
    requires n > 0.0 && q * n == x
    ensures x == 1000.0 * n ==> q == 1000.0
    ensures x < 999.5 * n ==> q < 999.5
    ensures 999.5 * n <= x <= 1000.0 * n ==> 999.5 <= q <= 1000.0
  {
    if x <= 1000.0 * n { AtMost(q, n, x, 1000.0); }
    if x >= 1000.0 * n { AtLeast(q, n, x, 1000.0); }
    if x >= 999.5 * n { AtLeast(q, n, x, 999.5); }
    if q >= 999.5 { TimesMonotone(999.5, q, n); }
  }

  lemma {:induction false} TooShort<T(!new)>(plan: seq<T>, visits: seq<T>, at: seq<nat>, k: nat)
    requires Places(plan, visits, at) && k < |plan|
    ensures k <= at[k] < |visits|
  {
    if k > 0 { TooShort(plan, visits, at, k - 1); }
  }

  lemma PlanEmbedsIff<T(!new)>(plan: seq<T>, visits: seq<T>)
    requires plan != []
    ensures Embeds(plan, visits) <==> Longest(plan, visits, |plan|) == |plan|
  {
    LongestMeans(plan, visits, |plan|);
    assert plan[..|plan|] == plan;
  }

  /** A run that stops one node short of the plan. */
  lemma OneShort<T(!new)>(plan: seq<T>)
    requires plan != []
    ensures Longest(plan, plan[..|plan| - 1], |plan|) == |plan| - 1
    ensures !Embeds(plan, plan[..|plan| - 1])
  {
    hide Longest;
    var n := |plan|;
    var visits := plan[..n - 1];
    var at := seq(n - 1, i requires 0 <= i < n - 1 => i as nat);
    assert Places(plan[..n - 1], visits, at);
    assert plan[..n] == plan;
    if Embeds(plan, visits) {
      var all :| Places(plan, visits, all);
      TooShort(plan, visits, all, n - 1);
    }
    LongestIs(plan, visits, n, n - 1);
  }

  /**
   A score of 1.0 means that the whole plan was visited in order, for every run, exactly when the plan has
   fewer than 2000 nodes; from there on rounding hides a missing node.
   */
  lemma PerfectMeansWholePlanIff<T(!new)>(plan: seq<T>)
    ensures (forall visits: seq<T> :: Accuracy(plan, visits) == 1000 <==> Embeds(plan, visits)) <==> |plan| < 2000
  {
    hide Thousandths, Longest, Embeds;
    if |plan| < 2000 {
      forall visits: seq<T> ensures Accuracy(plan, visits) == 1000 <==> Embeds(plan, visits) {
        if plan == [] {
          EmptyEmbeds(visits);
        } else {
          PlanEmbedsIff(plan, visits);
          PerfectScore(Longest(plan, visits, |plan|), |plan|);
        }
      }
    } else {
      OneShort(plan);
      PerfectScore(|plan| - 1, |plan|);
      var visits := plan[..|plan| - 1];
      assert Accuracy(plan, visits) == 1000 && !Embeds(plan, visits);
    }
  }

  /**
   The score is the share of the plan that the longest prefix visited in order makes up, in thousandths, rounded to
   the nearest and halves to the even one; an empty plan scores 1.0.
   */
  lemma ScoreMeans<T(!new)>(plan: seq<T>, visits: seq<T>) returns (k: nat)
    ensures plan == [] ==> Accuracy(plan, visits) == 1000
    ensures k <= |plan| && Embeds(plan[..k], visits)
    ensures forall m :: 0 <= m <= |plan| && Embeds(plan[..m], visits) ==> m <= k
    ensures plan != [] ==>
              var off := 2 * (Accuracy(plan, visits) * |plan| - 1000 * k);
              off <= |plan| && -off <= |plan|
              && (off == |plan| || -off == |plan| ==> Accuracy(plan, visits) % 2 == 0)
  {
    hide Longest, Embeds, Thousandths;
    k := Longest(plan, visits, |plan|);
    LongestMeans(plan, visits, |plan|);
    if plan != [] { ThousandthsRound(k, |plan|); }
  }

  lemma ThousandthsRound(m: nat, total: nat)
    requires total > 0
    ensures var s, off := Thousandths(m, total), 2 * (Thousandths(m, total) * total - 1000 * m);
            off <= total && -off <= total && (off == total || -off == total ==> s % 2 == 0)
  {
    hide HalfEven;
    var q := Quotient((1000 * m) as real, total as real);
    EvenHalves(q);
    Around(HalfEven(q), q, total, 1000 * m);
  }

  lemma EvenHalves(x: real)
    ensures HalfEven(x) as real - x == 0.5 || HalfEven(x) as real - x == -0.5 ==> HalfEven(x) % 2 == 0
  {
  }

  lemma Around(s: int, q: real, n: nat, x: int)
    requires n > 0 && q * n as real == x as real && -0.5 <= s as real - q <= 0.5
    ensures 2 * (s * n - x) <= n && -2 * (s * n - x) <= n
    ensures 2 * (s * n - x) == n ==> s as real - q == 0.5
    ensures -2 * (s * n - x) == n ==> s as real - q == -0.5
  {
    var d, u, off := s as real - q, n as real, s * n - x;
    assert s as real * u == (s * n) as real;
    Offset(s as real, q, u, x as real);
    assert d * u == off as real;
    AtMostHalf(d, u, off as real);
    AtMostHalf(-d, u, -(off as real));
  }

  lemma Offset(s: real, q: real, u: real, x: real)
    requires q * u == x
    ensures (s - q) * u == s * u - x
    ensures (-(s - q)) * u == -(s * u - x)
  {
  }

  lemma AtMostHalf(d: real, u: real, off: real)
    requires u > 0.0 && d * u == off && d <= 0.5
    ensures off <= 0.5 * u
    ensures off == 0.5 * u ==> d == 0.5
  {
    TimesMonotone(d, 0.5, u);
    if off == 0.5 * u { Cancel(0.5, d, u); }
  }
}
