/**
 * Weighted loads of an assignment of jobs to buckets, and the approximation bounds of the
 * greedy rule "give the next job to a lightest bucket".
 *
 * A list of jobs is its sequence of weights `w`; an assignment `a` sends job `i` to bucket `a[i]`.
 * All quantities are taken over the first `n` jobs, so a run of the greedy rule is read off its prefixes.
 */
module Loads {

  /** Weight that the first n jobs put on bucket b. */
  ghost function Load(w: seq<real>, a: seq<nat>, b: nat, n: nat): real
    requires n <= |w| && n <= |a|
  {
    if n == 0 then 0.0
    else Load(w, a, b, n - 1) + if a[n - 1] == b then w[n - 1] else 0.0
  }

  /** Number of the first n jobs that sit on bucket b. */
  ghost function Count(a: seq<nat>, b: nat, n: nat): nat
    requires n <= |a|
  {
    if n == 0 then 0
    else Count(a, b, n - 1) + if a[n - 1] == b then 1 else 0
  }

  ghost function Total(w: seq<real>, n: nat): real
    requires n <= |w|
  {
    if n == 0 then 0.0 else Total(w, n - 1) + w[n - 1]
  }

  /** Sum of the loads of buckets 0..m-1. */
  ghost function SumOfLoads(w: seq<real>, a: seq<nat>, m: nat, n: nat): real
    requires n <= |w| && n <= |a|
  {
    if m == 0 then 0.0 else SumOfLoads(w, a, m - 1, n) + Load(w, a, m - 1, n)
  }

  /** m copies of x; `TimesIsProduct` says it is m * x. Keeps products out of the counting arguments. */
  ghost function Times(m: nat, x: real): real {
    if m == 0 then 0.0 else Times(m - 1, x) + x
  }

  lemma {:induction false} TimesIsProduct(m: nat, x: real)
    ensures Times(m, x) == m as real * x
  {
    if m > 0 {
      TimesIsProduct(m - 1, x);
      assert m as real * x == (m - 1) as real * x + x;
    }
  }

  lemma {:induction false} TimesMonotone(k: nat, m: nat, x: real)
    requires k <= m && 0.0 <= x
    ensures Times(k, x) <= Times(m, x)
  {
    if k < m {
      TimesMonotone(k, m - 1, x);
    }
  }

  ghost predicate Assigns(a: seq<nat>, m: nat, n: nat)
    requires n <= |a|
  {
    forall i :: 0 <= i < n ==> a[i] < m
  }

  /** Bucket b is a lightest one after the first n jobs. */
  ghost predicate Lightest(w: seq<real>, a: seq<nat>, m: nat, n: nat, b: nat)
    requires n <= |w| && n <= |a|
  {
    b < m && forall other :: 0 <= other < m ==> Load(w, a, b, n) <= Load(w, a, other, n)
  }

  /** Every job went to a bucket that was lightest when the job arrived. */
  ghost predicate Greedy(w: seq<real>, a: seq<nat>, m: nat, n: nat)
    requires n <= |w| && n <= |a|
  {
    forall i {:trigger Lightest(w, a, m, i, a[i])} :: 0 <= i < n ==> Lightest(w, a, m, i, a[i])
  }

  ghost predicate NonNegative(w: seq<real>) {
    forall i :: 0 <= i < |w| ==> 0.0 <= w[i]
  }

  ghost predicate Descending(w: seq<real>) {
    forall i, j :: 0 <= i < j < |w| ==> w[j] <= w[i]
  }

  /** No bucket of the assignment g carries more than cap. */
  ghost predicate Within(w: seq<real>, g: seq<nat>, m: nat, n: nat, cap: real)
    requires n <= |w| && n <= |g|
  {
    forall b :: 0 <= b < m ==> Load(w, g, b, n) <= cap
  }

  /** load <= total/m + (1 - 1/m) * heaviest */
  ghost predicate NearAverage(m: nat, load: real, total: real, heaviest: real) {
    m as real * load <= total + (m as real - 1.0) * heaviest
  }

  /** load <= (2 - 1/m) * cap */
  ghost predicate WithinTwice(m: nat, load: real, cap: real) {
    m as real * load <= (2.0 * m as real - 1.0) * cap
  }

  /** load <= (4/3 - 1/(3m)) * cap */
  ghost predicate WithinFourThirds(m: nat, load: real, cap: real) {
    3.0 * m as real * load <= (4.0 * m as real - 1.0) * cap
  }

  // ---------- Conservation ----------

  lemma {:induction false} SumOfLoadsStep(w: seq<real>, a: seq<nat>, m: nat, n: nat)
    requires 0 < n <= |w| && n <= |a|
    ensures SumOfLoads(w, a, m, n) == SumOfLoads(w, a, m, n - 1) + if a[n - 1] < m then w[n - 1] else 0.0
  {
    if m > 0 {
      SumOfLoadsStep(w, a, m - 1, n);
    }
  }

  lemma {:induction false} SumOfNoLoads(w: seq<real>, a: seq<nat>, m: nat)
    ensures SumOfLoads(w, a, m, 0) == 0.0
  {
    if m > 0 {
      SumOfNoLoads(w, a, m - 1);
    }
  }

  /** The loads of the buckets add up to the weight of the jobs placed: nothing is lost or counted twice. */
  lemma {:induction false} LoadsConserveWeight(w: seq<real>, a: seq<nat>, m: nat, n: nat)
    requires n <= |w| && n <= |a| && Assigns(a, m, n)
    ensures SumOfLoads(w, a, m, n) == Total(w, n)
  {
    if n == 0 {
      SumOfNoLoads(w, a, m);
    } else {
      LoadsConserveWeight(w, a, m, n - 1);
      SumOfLoadsStep(w, a, m, n);
    }
  }

  lemma {:induction false} SumAtLeast(w: seq<real>, a: seq<nat>, m: nat, n: nat, floor: real)
    requires n <= |w| && n <= |a|
    requires forall b :: 0 <= b < m ==> floor <= Load(w, a, b, n)
    ensures Times(m, floor) <= SumOfLoads(w, a, m, n)
  {
    if m > 0 {
      SumAtLeast(w, a, m - 1, n, floor);
    }
  }

  lemma {:induction false} SumAtMost(w: seq<real>, a: seq<nat>, m: nat, n: nat, cap: real)
    requires n <= |w| && n <= |a| && Within(w, a, m, n, cap)
    ensures SumOfLoads(w, a, m, n) <= Times(m, cap)
  {
    if m > 0 {
      SumAtMost(w, a, m - 1, n, cap);
    }
  }

  // ---------- Loads, counts and single jobs ----------

  /** Loads and counts depend only on the jobs they are taken over. */
  lemma {:induction false} LoadOfPrefix(w: seq<real>, w': seq<real>, a: seq<nat>, a': seq<nat>, b: nat, n: nat)
    requires n <= |w| && n <= |w'| && n <= |a| && n <= |a'|
    requires forall i :: 0 <= i < n ==> a[i] == a'[i] && w[i] == w'[i]
    ensures Load(w, a, b, n) == Load(w', a', b, n)
    ensures Count(a, b, n) == Count(a', b, n)
  {
    if n > 0 {
      LoadOfPrefix(w, w', a, a', b, n - 1);
    }
  }

  lemma {:induction false} LoadGrows(w: seq<real>, a: seq<nat>, b: nat, k: nat, n: nat)
    requires k <= n <= |w| && n <= |a| && NonNegative(w)
    ensures 0.0 <= Load(w, a, b, k) <= Load(w, a, b, n)
  {
    if n > 0 {
      if k < n {
        LoadGrows(w, a, b, k, n - 1);
      } else {
        LoadGrows(w, a, b, n - 1, n - 1);
      }
    }
  }

  lemma {:induction false} LoadAtLeastCount(w: seq<real>, a: seq<nat>, b: nat, n: nat, unit: real)
    requires n <= |w| && n <= |a|
    requires forall i :: 0 <= i < n && a[i] == b ==> unit <= w[i]
    ensures Times(Count(a, b, n), unit) <= Load(w, a, b, n)
  {
    if n > 0 {
      LoadAtLeastCount(w, a, b, n - 1, unit);
    }
  }

  lemma {:induction false} LoadAtMostCount(w: seq<real>, a: seq<nat>, b: nat, n: nat, unit: real)
    requires n <= |w| && n <= |a|
    requires forall i :: 0 <= i < n && a[i] == b ==> w[i] <= unit
    ensures Load(w, a, b, n) <= Times(Count(a, b, n), unit)
  {
    if n > 0 {
      LoadAtMostCount(w, a, b, n - 1, unit);
    }
  }

  lemma {:induction false} LoadHoldsJob(w: seq<real>, a: seq<nat>, n: nat, i: nat)
    requires i < n <= |w| && n <= |a| && NonNegative(w)
    ensures w[i] <= Load(w, a, a[i], n)
    ensures Count(a, a[i], n) >= 1
    ensures Count(a, a[i], n) == 1 ==> Load(w, a, a[i], n) == w[i]
  {
    if i == n - 1 {
      LoadGrows(w, a, a[i], n - 1, n - 1);
      if Count(a, a[i], n) == 1 {
        EmptyBucket(w, a, a[i], n - 1);
      }
    } else {
      LoadHoldsJob(w, a, n - 1, i);
    }
  }

  lemma {:induction false} EmptyBucket(w: seq<real>, a: seq<nat>, b: nat, n: nat)
    requires n <= |w| && n <= |a| && Count(a, b, n) == 0
    ensures Load(w, a, b, n) == 0.0
  {
    if n > 0 {
      EmptyBucket(w, a, b, n - 1);
    }
  }

  lemma {:induction false} LoadHoldsPair(w: seq<real>, a: seq<nat>, n: nat, i: nat, j: nat)
    requires i < j < n <= |w| && n <= |a| && NonNegative(w) && a[i] == a[j]
    ensures w[i] + w[j] <= Load(w, a, a[i], n)
  {
    if j == n - 1 {
      LoadHoldsJob(w, a, n - 1, i);
    } else {
      LoadHoldsPair(w, a, n - 1, i, j);
    }
  }

  /** A bucket with two jobs holds another job beside any given one. */
  lemma {:induction false} AnotherJob(a: seq<nat>, n: nat, i: nat) returns (other: nat)
    requires i < n <= |a| && Count(a, a[i], n) >= 2
    ensures other < n && other != i && a[other] == a[i]
  {
    if a[n - 1] == a[i] && i != n - 1 {
      other := n - 1;
    } else if i == n - 1 {
      other := SomeJob(a, a[i], n - 1);
    } else {
      other := AnotherJob(a, n - 1, i);
    }
  }

  lemma {:induction false} SomeJob(a: seq<nat>, b: nat, n: nat) returns (i: nat)
    requires n <= |a| && Count(a, b, n) >= 1
    ensures i < n && a[i] == b
  {
    if a[n - 1] == b {
      i := n - 1;
    } else {
      i := SomeJob(a, b, n - 1);
    }
  }

  // ---------- The bounds ----------

  /** The bucket that job j is given was at most average before: Graham's observation. */
  lemma GreedyPicksBelowAverage(w: seq<real>, a: seq<nat>, m: nat, j: nat)
    requires j < |w| && j < |a| && 0 < m && Greedy(w, a, m, j + 1)
    ensures a[j] < m && Times(m, Load(w, a, a[j], j)) <= Total(w, j)
  {
    assert Lightest(w, a, m, j, a[j]);
    SumAtLeast(w, a, m, j, Load(w, a, a[j], j));
    GreedyAssigns(w, a, m, j);
    LoadsConserveWeight(w, a, m, j);
  }

  lemma GreedyAssigns(w: seq<real>, a: seq<nat>, m: nat, n: nat)
    requires n <= |w| && n <= |a| && Greedy(w, a, m, n)
    ensures Assigns(a, m, n)
  {
    forall i | 0 <= i < n
      ensures a[i] < m
    {
      assert Lightest(w, a, m, i, a[i]);
    }
  }

  lemma PlaceOne(r: real, load: real, x: real)
    ensures r * (load + x) == r * load + x + (r - 1.0) * x
  {
  }

  lemma TwiceSum(r: real, cap: real)
    ensures (2.0 * r - 1.0) * cap == r * cap + (r - 1.0) * cap
  {
  }

  lemma FourThirdsSum(r: real, cap: real)
    ensures (4.0 * r - 1.0) * cap == 3.0 * r * cap + (r - 1.0) * cap
    ensures 3.0 * r * cap == 3.0 * (r * cap)
  {
  }

  lemma Monotone(r: real, x: real, y: real)
    requires 0.0 <= r && x <= y
    ensures r * x <= r * y
  {
  }

  /** Every bucket carries at most total/m + (1 - 1/m) * (largest weight), in any order of the jobs. */
  lemma {:induction false} GreedyNearAverage(w: seq<real>, a: seq<nat>, m: nat, n: nat, heaviest: real, b: nat)
    requires n <= |w| && n <= |a| && b < m && NonNegative(w) && Greedy(w, a, m, n)
    requires 0.0 <= heaviest && forall i :: 0 <= i < n ==> w[i] <= heaviest
    ensures NearAverage(m, Load(w, a, b, n), Total(w, n), heaviest)
  {
    if n == 0 {
      Monotone(m as real - 1.0, 0.0, heaviest);
    } else {
      var j := n - 1;
      if a[j] == b {
        GreedyPicksBelowAverage(w, a, m, j);
        AverageArithmetic(m, Load(w, a, b, j), w[j], Total(w, j), heaviest);
      } else {
        GreedyNearAverage(w, a, m, j, heaviest, b);
        AverageGrows(m, Load(w, a, b, j), Total(w, j), Total(w, n), heaviest);
      }
    }
  }

  lemma AverageArithmetic(m: nat, load: real, x: real, total: real, heaviest: real)
    requires 0 < m && Times(m, load) <= total && x <= heaviest
    ensures NearAverage(m, load + x, total + x, heaviest)
  {
    TimesIsProduct(m, load);
    PlaceOne(m as real, load, x);
    Monotone(m as real - 1.0, x, heaviest);
  }

  lemma AverageGrows(m: nat, load: real, total: real, more: real, heaviest: real)
    requires NearAverage(m, load, total, heaviest) && total <= more
    ensures NearAverage(m, load, more, heaviest)
  {
  }

  /** Against any other assignment g of the same jobs, and in any order of the jobs: a factor of 2 - 1/m. */
  lemma GreedyWithinTwice(w: seq<real>, a: seq<nat>, g: seq<nat>, m: nat, n: nat, cap: real, b: nat)
    requires n <= |w| && n <= |a| && n <= |g| && b < m && NonNegative(w)
    requires Greedy(w, a, m, n) && Assigns(g, m, n) && Within(w, g, m, n, cap)
    ensures WithinTwice(m, Load(w, a, b, n), cap)
  {
    LoadGrows(w, g, b, 0, n);
    forall i | 0 <= i < n
      ensures w[i] <= cap
    {
      LoadHoldsJob(w, g, n, i);
      assert Load(w, g, g[i], n) <= cap;
    }
    GreedyNearAverage(w, a, m, n, cap, b);
    LoadsConserveWeight(w, g, m, n);
    SumAtMost(w, g, m, n, cap);
    TwiceArithmetic(m, Load(w, a, b, n), Total(w, n), cap);
  }

  lemma TwiceArithmetic(m: nat, load: real, total: real, cap: real)
    requires NearAverage(m, load, total, cap) && total <= Times(m, cap)
    ensures WithinTwice(m, load, cap)
  {
    TimesIsProduct(m, cap);
    TwiceSum(m as real, cap);
  }

  /** Jobs count double while they are alone in their bucket of a; the job that arrives next counts once. */
  ghost function Charges(a: seq<nat>, j: nat): (c: seq<real>)
    requires j <= |a|
    ensures |c| == j + 1
  {
    seq(j, i requires 0 <= i < j => if Count(a, a[i], j) == 1 then 2.0 else 1.0) + [1.0]
  }

  lemma GreedyBucketsCarryCharge(w: seq<real>, a: seq<nat>, m: nat, j: nat, cap: real)
    requires j < |w| && j < |a| && NonNegative(w) && w[j] <= cap
    requires forall b :: 0 <= b < m ==> cap < Load(w, a, b, j) + w[j]
    ensures forall b :: 0 <= b < m ==> 2.0 <= Load(Charges(a, j), a, b, j)
  {
    var c := Charges(a, j);
    forall b | 0 <= b < m
      ensures 2.0 <= Load(c, a, b, j)
    {
      if Count(a, b, j) == 0 {
        EmptyBucket(w, a, b, j);
        assert false;
      }
      if Count(a, b, j) == 1 {
        LoadAtLeastCount(c, a, b, j, 2.0);
        assert Times(1, 2.0) == 2.0;
      } else {
        LoadAtLeastCount(c, a, b, j, 1.0);
        TimesMonotone(2, Count(a, b, j), 1.0);
        assert Times(1, 1.0) == 1.0;
      }
    }
  }

  lemma RivalBucketChargeBounded(w: seq<real>, a: seq<nat>, g: seq<nat>, m: nat, j: nat, cap: real, b: nat)
    requires j < |w| && j < |a| && j < |g| && NonNegative(w) && Descending(w) && b < m
    requires Assigns(a, m, j) && Load(w, g, b, j + 1) <= cap && cap < 3.0 * w[j]
    requires forall b :: 0 <= b < m ==> cap < Load(w, a, b, j) + w[j]
    ensures Load(Charges(a, j), g, b, j + 1) <= 2.0
  {
    var c, n := Charges(a, j), j + 1;
    var k := Count(g, b, n);
    if k <= 1 {
      LoadAtMostCount(c, g, b, n, 2.0);
    } else if k == 2 {
      forall i | 0 <= i < n && g[i] == b
        ensures c[i] <= 1.0
      {
        if i < j && Count(a, a[i], j) == 1 {
          LoadHoldsJob(w, a, j, i);
          var other := AnotherJob(g, n, i);
          if i < other {
            LoadHoldsPair(w, g, n, i, other);
          } else {
            LoadHoldsPair(w, g, n, other, i);
          }
          assert false;
        }
      }
      LoadAtMostCount(c, g, b, n, 1.0);
    } else {
      LoadAtLeastCount(w, g, b, n, w[j]);
      TimesMonotone(3, k, w[j]);
      TimesIsProduct(3, w[j]);
      assert false;
    }
  }

  /** While all jobs weigh more than a third of cap, a rival that keeps within cap leaves room for the next job. */
  lemma HeavyJobsFit(w: seq<real>, a: seq<nat>, g: seq<nat>, m: nat, j: nat, cap: real)
    requires j < |w| && j < |a| && j < |g| && 0 < m && NonNegative(w) && Descending(w)
    requires Greedy(w, a, m, j + 1) && Assigns(g, m, j + 1) && Within(w, g, m, j + 1, cap)
    requires cap < 3.0 * w[j]
    ensures Load(w, a, a[j], j) + w[j] <= cap
  {
    LoadHoldsJob(w, g, j + 1, j);
    assert Load(w, g, g[j], j + 1) <= cap;
    if cap < Load(w, a, a[j], j) + w[j] {
      assert Lightest(w, a, m, j, a[j]);
      GreedyAssigns(w, a, m, j);
      GreedyBucketsCarryCharge(w, a, m, j, cap);
      var n := j + 1;
      forall b | 0 <= b < m
        ensures Load(Charges(a, j), g, b, n) <= 2.0
      {
        RivalBucketChargeBounded(w, a, g, m, j, cap, b);
      }
      ChargesDoNotFit(a, g, m, j);
    }
  }

  /** m buckets of at most 2 charges each cannot carry the 2m + 1 charges. */
  lemma ChargesDoNotFit(a: seq<nat>, g: seq<nat>, m: nat, j: nat)
    requires j < |a| && j < |g| && Assigns(a, m, j) && Assigns(g, m, j + 1)
    requires forall b :: 0 <= b < m ==> 2.0 <= Load(Charges(a, j), a, b, j)
    ensures !Within(Charges(a, j), g, m, j + 1, 2.0)
  {
    var c := Charges(a, j);
    SumAtLeast(c, a, m, j, 2.0);
    LoadsConserveWeight(c, a, m, j);
    LoadsConserveWeight(c, g, m, j + 1);
    if Within(c, g, m, j + 1, 2.0) {
      SumAtMost(c, g, m, j + 1, 2.0);
      assert false;
    }
  }

  lemma {:induction false} HeaviestFirstStep(w: seq<real>, a: seq<nat>, g: seq<nat>, m: nat, n: nat, cap: real)
    requires n <= |w| && n <= |a| && n <= |g| && 0 < m && NonNegative(w) && Descending(w)
    requires Greedy(w, a, m, n) && Assigns(g, m, n) && Within(w, g, m, n, cap)
    ensures n > 0 && cap < 3.0 * w[n - 1] ==> Within(w, a, m, n, cap)
    ensures forall b :: 0 <= b < m ==> Times(3 * m, Load(w, a, b, n)) <= Times(4 * m - 1, cap)
  {
    LoadGrows(w, g, 0, 0, n);
    assert 0.0 <= cap by {
      assert 0 <= 0 < m;
    }
    if n == 0 {
      HeavyJobArithmetic(m, 0.0, cap);
    } else {
      var j := n - 1;
      forall b | 0 <= b < m
        ensures Load(w, g, b, j) <= cap
      {
        LoadGrows(w, g, b, j, n);
      }
      HeaviestFirstStep(w, a, g, m, j, cap);
      if cap < 3.0 * w[j] {
        HeavyJobsFit(w, a, g, m, j, cap);
        forall b | 0 <= b < m
          ensures Load(w, a, b, n) <= cap
        {
          if b != a[j] {
            LightEnough(w, a, m, j, cap, b);
          }
        }
        forall b | 0 <= b < m
          ensures Times(3 * m, Load(w, a, b, n)) <= Times(4 * m - 1, cap)
        {
          HeavyJobArithmetic(m, Load(w, a, b, n), cap);
        }
      } else {
        LightJobFits(w, a, g, m, j, cap);
      }
    }
  }

  lemma HeavyJobArithmetic(m: nat, load: real, cap: real)
    requires 0 < m && load <= cap && 0.0 <= cap
    ensures Times(3 * m, load) <= Times(4 * m - 1, cap)
  {
    TimesIsProduct(3 * m, load);
    TimesIsProduct(4 * m - 1, cap);
    var r := m as real;
    Monotone(3.0 * r, load, cap);
    Monotone(r - 1.0, 0.0, cap);
    FourThirdsSum(r, cap);
  }

  /** A bucket that is not touched by job j keeps a load within cap. */
  lemma LightEnough(w: seq<real>, a: seq<nat>, m: nat, j: nat, cap: real, b: nat)
    requires j < |w| && j < |a| && b < m && Descending(w) && b != a[j]
    requires cap < 3.0 * w[j] && 0.0 <= cap
    requires j > 0 && cap < 3.0 * w[j - 1] ==> Within(w, a, m, j, cap)
    ensures Load(w, a, b, j + 1) <= cap
  {
    if j > 0 {
      assert w[j] <= w[j - 1];
    }
  }

  lemma LightJobFits(w: seq<real>, a: seq<nat>, g: seq<nat>, m: nat, j: nat, cap: real)
    requires j < |w| && j < |a| && j < |g| && 0 < m
    requires Greedy(w, a, m, j + 1) && Assigns(g, m, j + 1) && Within(w, g, m, j + 1, cap)
    requires 3.0 * w[j] <= cap
    ensures Times(3 * m, Load(w, a, a[j], j + 1)) <= Times(4 * m - 1, cap)
  {
    GreedyPicksBelowAverage(w, a, m, j);
    LoadsConserveWeight(w, g, m, j + 1);
    SumAtMost(w, g, m, j + 1, cap);
    LightJobArithmetic(m, Load(w, a, a[j], j), w[j], Load(w, a, a[j], j + 1), cap);
  }

  lemma LightJobArithmetic(m: nat, load: real, x: real, after: real, cap: real)
    requires 0 < m && 3.0 * x <= cap && Times(m, load) + x <= Times(m, cap) && after == load + x
    ensures Times(3 * m, after) <= Times(4 * m - 1, cap)
  {
    TimesIsProduct(3 * m, after);
    TimesIsProduct(4 * m - 1, cap);
    TimesIsProduct(m, load);
    TimesIsProduct(m, cap);
    GrahamArithmetic(m as real, load, x, cap);
  }

  lemma GrahamArithmetic(r: real, load: real, x: real, cap: real)
    requires 1.0 <= r && 3.0 * x <= cap && r * load + x <= r * cap
    ensures 3.0 * r * (load + x) <= (4.0 * r - 1.0) * cap
  {
    PlaceOne(r, load, x);
    Monotone(r - 1.0, 3.0 * x, cap);
    FourThirdsSum(r, cap);
    ThreeFold(r, load + x);
    ThreeFold(r - 1.0, x);
  }

  lemma ThreeFold(r: real, x: real)
    ensures 3.0 * r * x == 3.0 * (r * x)
    ensures r * (3.0 * x) == 3.0 * (r * x)
  {
  }

  /**
   * Graham's theorem. With the jobs taken heaviest first, no bucket exceeds (4/3 - 1/(3m)) times
   * the heaviest bucket of any other assignment g of the same jobs to the same number of buckets.
   */
  lemma HeaviestFirstWithinFourThirds(w: seq<real>, a: seq<nat>, g: seq<nat>, m: nat, cap: real, b: nat)
    requires |a| == |w| == |g| && b < m && NonNegative(w) && Descending(w)
    requires Greedy(w, a, m, |w|) && Assigns(g, m, |w|) && Within(w, g, m, |w|, cap)
    ensures WithinFourThirds(m, Load(w, a, b, |w|), cap)
  {
    HeaviestFirstStep(w, a, g, m, |w|, cap);
    TimesIsProduct(3 * m, Load(w, a, b, |w|));
    TimesIsProduct(4 * m - 1, cap);
  }

  // ---------- The factor is exact ----------

  /** Two jobs each of 2m - 1, 2m - 2, ..., m, and a third one of m. */
  function TightJob(m: nat, i: nat): real {
    if i < 2 * m then (2 * m - 1 - i / 2) as real else m as real
  }

  /** The greedy rule: the first m jobs upwards over the buckets, the next m downwards, the last one on bucket 0. */
  function TightChoice(m: nat, i: nat): nat
    requires 0 < m && i <= 2 * m
  {
    if i < m then i else if i < 2 * m then 2 * m - 1 - i else 0
  }

  /** A better assignment: pairs that weigh 3m, and the three jobs of weight m together. */
  function TightRival(m: nat, i: nat): nat
    requires 0 < m && i <= 2 * m
  {
    if i < m - 1 then i else if i < 2 * m - 2 then 2 * m - 3 - i else m - 1
  }

  ghost predicate TightInstance(m: nat, w: seq<real>, a: seq<nat>, g: seq<nat>)
    requires 0 < m
  {
    && |w| == |a| == |g| == 2 * m + 1
    && forall i {:trigger w[i]} {:trigger a[i]} {:trigger g[i]} :: 0 <= i <= 2 * m ==>
         w[i] == TightJob(m, i) && a[i] == TightChoice(m, i) && g[i] == TightRival(m, i)
  }

  /** A job of the first half and its partner in the second half weigh 3m - 1. */
  lemma PartnersWeigh(m: nat, b: nat)
    requires b < m
    ensures TightJob(m, b) + TightJob(m, 2 * m - 1 - b) == (3 * m - 1) as real
  {
    var other := 2 * m - 1 - b;
    assert b / 2 + other / 2 == m - 1;
  }

  lemma RivalPartnersWeigh(m: nat, b: nat)
    requires b < m - 1
    ensures TightJob(m, b) + TightJob(m, 2 * m - 3 - b) == (3 * m) as real
  {
    var other := 2 * m - 3 - b;
    assert b / 2 + other / 2 == m - 2;
  }

  lemma {:induction false} TightLoad(m: nat, w: seq<real>, a: seq<nat>, g: seq<nat>, b: nat, n: nat)
    requires b < m && TightInstance(m, w, a, g) && n <= 2 * m
    ensures Load(w, a, b, n) == if n <= b then 0.0 else if n < 2 * m - b then TightJob(m, b) else (3 * m - 1) as real
  {
    if n > 0 {
      TightLoad(m, w, a, g, b, n - 1);
      assert a[n - 1] == TightChoice(m, n - 1) && w[n - 1] == TightJob(m, n - 1);
      PartnersWeigh(m, b);
    }
  }

  lemma {:induction false} RivalPairLoad(m: nat, w: seq<real>, a: seq<nat>, g: seq<nat>, b: nat, n: nat)
    requires b < m - 1 && TightInstance(m, w, a, g) && n <= 2 * m + 1
    ensures Load(w, g, b, n) == if n <= b then 0.0 else if n < 2 * m - 2 - b then TightJob(m, b) else (3 * m) as real
  {
    if n > 0 {
      RivalPairLoad(m, w, a, g, b, n - 1);
      assert g[n - 1] == TightRival(m, n - 1) && w[n - 1] == TightJob(m, n - 1);
      RivalPartnersWeigh(m, b);
    }
  }

  lemma {:induction false} RivalTripleLoad(m: nat, w: seq<real>, a: seq<nat>, g: seq<nat>, n: nat)
    requires 0 < m && TightInstance(m, w, a, g) && n <= 2 * m + 1
    ensures Load(w, g, m - 1, n) == if n <= 2 * m - 2 then 0.0 else ((n - (2 * m - 2)) * m) as real
  {
    if n > 0 {
      RivalTripleLoad(m, w, a, g, n - 1);
      assert g[n - 1] == TightRival(m, n - 1) && w[n - 1] == TightJob(m, n - 1);
      if 2 * m - 2 < n {
        assert w[n - 1] == m as real;
        ghost var before := n - 1 - (2 * m - 2);
        assert (before + 1) * m == before * m + m;
        assert Load(w, g, m - 1, n - 1) == (before * m) as real;
      } else {
        assert g[n - 1] != m - 1;
      }
    }
  }

  lemma TightChoiceIsLightest(m: nat, w: seq<real>, a: seq<nat>, g: seq<nat>, i: nat)
    requires 0 < m && TightInstance(m, w, a, g) && i <= 2 * m
    ensures Lightest(w, a, m, i, a[i])
  {
    forall other: nat | other < m
      ensures Load(w, a, a[i], i) <= Load(w, a, other, i)
    {
      TightLoad(m, w, a, g, a[i], i);
      TightLoad(m, w, a, g, other, i);
    }
  }

  /**
   * The factor is exact for every number of buckets: there are jobs that the greedy rule, heaviest first, puts up to
   * 4m - 1 on one bucket although another assignment keeps within 3m.
   */
  lemma FourThirdsIsAttained(m: nat) returns (w: seq<real>, a: seq<nat>, g: seq<nat>)
    requires 0 < m
    ensures |a| == |w| == |g| && NonNegative(w) && Descending(w)
    ensures Greedy(w, a, m, |w|) && Load(w, a, 0, |w|) == (4 * m - 1) as real
    ensures Assigns(g, m, |w|) && Within(w, g, m, |w|, (3 * m) as real)
  {
    var n := 2 * m + 1;
    w := seq(n, i requires 0 <= i < n => TightJob(m, i));
    a := seq(n, i requires 0 <= i < n => TightChoice(m, i));
    g := seq(n, i requires 0 <= i < n => TightRival(m, i));
    TightJobsDescend(m, w, a, g);
    TightChoiceIsGreedy(m, w, a, g);
    RivalIsWithin(m, w, a, g);
    TightLastLoad(m, w, a, g);
  }

  lemma TightJobsDescend(m: nat, w: seq<real>, a: seq<nat>, g: seq<nat>)
    requires 0 < m && TightInstance(m, w, a, g)
    ensures NonNegative(w) && Descending(w)
  {
    forall i | 0 <= i < |w|
      ensures 0.0 <= w[i]
    {
      assert w[i] == TightJob(m, i);
    }
    forall i, j | 0 <= i < j < |w|
      ensures w[j] <= w[i]
    {
      assert w[i] == TightJob(m, i) && w[j] == TightJob(m, j);
      assert i / 2 <= j / 2;
    }
  }

  lemma TightChoiceIsGreedy(m: nat, w: seq<real>, a: seq<nat>, g: seq<nat>)
    requires 0 < m && TightInstance(m, w, a, g)
    ensures Greedy(w, a, m, |w|)
  {
    forall i: nat | i < |w|
      ensures Lightest(w, a, m, i, a[i])
    {
      TightChoiceIsLightest(m, w, a, g, i);
    }
  }

  lemma TightLastLoad(m: nat, w: seq<real>, a: seq<nat>, g: seq<nat>)
    requires 0 < m && TightInstance(m, w, a, g)
    ensures Load(w, a, 0, |w|) == (4 * m - 1) as real
  {
    TightLoad(m, w, a, g, 0, 2 * m);
    assert a[2 * m] == 0 && w[2 * m] == m as real;
  }

  lemma RivalIsWithin(m: nat, w: seq<real>, a: seq<nat>, g: seq<nat>)
    requires 0 < m && TightInstance(m, w, a, g)
    ensures Assigns(g, m, |w|) && Within(w, g, m, |w|, (3 * m) as real)
  {
    forall i | 0 <= i < |w|
      ensures g[i] < m
    {
      assert g[i] == TightRival(m, i);
    }
    forall b: nat | b < m
      ensures Load(w, g, b, |w|) <= (3 * m) as real
    {
      if b < m - 1 {
        RivalPairLoad(m, w, a, g, b, |w|);
      } else {
        RivalTripleLoad(m, w, a, g, |w|);
      }
    }
  }
}
