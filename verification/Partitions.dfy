/**
 * Weighted assignment of test files to coverage partitions: the heaviest file goes first, to the
 * partition on top of a hand-written min-heap of partition indices.
 */
module Partitions {
  import opened Collections
  import opened Loads

  type File = string

  const UNKNOWN_FILE_WEIGHT: real := 1.0

  datatype PartitionError = HeapIndexOutOfBounds

  // ---------- Weights and the order of placement ----------

  function WeightOf(weights: map<File, real>, file: File): real {
    if file in weights then weights[file] else UNKNOWN_FILE_WEIGHT
  }

  /** What a list of files weighs, counting a file as often as it is listed. */
  function PartitionWeight(files: seq<File>, weights: map<File, real>): real {
    if files == [] then 0.0
    else PartitionWeight(files[..|files| - 1], weights) + WeightOf(weights, files[|files| - 1])
  }

  function Weights(files: seq<File>, weights: map<File, real>): (w: seq<real>)
    ensures |w| == |files| && forall i :: 0 <= i < |files| ==> w[i] == WeightOf(weights, files[i])
  {
    seq(|files|, i requires 0 <= i < |files| => WeightOf(weights, files[i]))
  }

  /** Heavier first; `collate` is the locale's order of file names, used between equal weights. */
  predicate Precedes(x: File, y: File, weights: map<File, real>, collate: (File, File) -> bool) {
    var wx, wy := WeightOf(weights, x), WeightOf(weights, y);
    wx > wy || (wx == wy && collate(x, y))
  }

  function Insert(x: File, s: seq<File>, weights: map<File, real>, collate: (File, File) -> bool): seq<File> {
    if s == [] || Precedes(x, s[0], weights, collate) then [x] + s
    else [s[0]] + Insert(x, s[1..], weights, collate)
  }

  /** The files in placement order. */
  function Sorted(files: seq<File>, weights: map<File, real>, collate: (File, File) -> bool): seq<File> {
    if files == [] then [] else Insert(files[0], Sorted(files[1..], weights, collate), weights, collate)
  }

  ghost predicate HeaviestFirst(s: seq<File>, weights: map<File, real>) {
    forall i, j :: 0 <= i < j < |s| ==> WeightOf(weights, s[j]) <= WeightOf(weights, s[i])
  }

  lemma {:induction false} InsertAddsOne(x: File, s: seq<File>, weights: map<File, real>, collate: (File, File) -> bool)
    ensures multiset(Insert(x, s, weights, collate)) == multiset{x} + multiset(s)
    ensures forall y :: y in Insert(x, s, weights, collate) ==> y == x || y in s
  {
    if s != [] && !Precedes(x, s[0], weights, collate) {
      assert s == [s[0]] + s[1..];
      InsertAddsOne(x, s[1..], weights, collate);
    }
  }

  lemma HeadKeepsOrder(x: File, t: seq<File>, weights: map<File, real>)
    requires HeaviestFirst(t, weights)
    requires forall j :: 0 <= j < |t| ==> WeightOf(weights, t[j]) <= WeightOf(weights, x)
    ensures HeaviestFirst([x] + t, weights)
  {
  }

  lemma {:induction false} InsertKeepsOrder(x: File, s: seq<File>, weights: map<File, real>,
                                            collate: (File, File) -> bool)
    requires HeaviestFirst(s, weights)
    ensures HeaviestFirst(Insert(x, s, weights, collate), weights)
  {
    if s == [] || Precedes(x, s[0], weights, collate) {
      HeadKeepsOrder(x, s, weights);
    } else {
      var t := Insert(x, s[1..], weights, collate);
      InsertKeepsOrder(x, s[1..], weights, collate);
      InsertAddsOne(x, s[1..], weights, collate);
      forall j | 0 <= j < |t|
        ensures WeightOf(weights, t[j]) <= WeightOf(weights, s[0])
      {
        assert t[j] in t;
      }
      HeadKeepsOrder(s[0], t, weights);
    }
  }

  lemma {:induction false} SortedIsHeaviestFirst(files: seq<File>, weights: map<File, real>,
                                                 collate: (File, File) -> bool)
    ensures HeaviestFirst(Sorted(files, weights, collate), weights)
    ensures multiset(Sorted(files, weights, collate)) == multiset(files)
  {
    if files != [] {
      SortedIsHeaviestFirst(files[1..], weights, collate);
      InsertKeepsOrder(files[0], Sorted(files[1..], weights, collate), weights, collate);
      InsertAddsOne(files[0], Sorted(files[1..], weights, collate), weights, collate);
      assert files == [files[0]] + files[1..];
    }
  }

  // ---------- What a placement is ----------

  /** The files among the first n of s that the assignment sends to bucket b, in placement order. */
  ghost function Share(s: seq<File>, a: seq<nat>, b: nat, n: nat): seq<File>
    requires n <= |s| && n <= |a|
  {
    if n == 0 then []
    else if a[n - 1] == b then Share(s, a, b, n - 1) + [s[n - 1]]
    else Share(s, a, b, n - 1)
  }

  /** All files of a list of partitions, with multiplicity. */
  ghost function Union(p: seq<seq<File>>): multiset<File> {
    if p == [] then multiset{} else Union(p[..|p| - 1]) + multiset(p[|p| - 1])
  }

  /** Among the lightest buckets, b holds the fewest files. */
  ghost predicate Leanest(w: seq<real>, a: seq<nat>, m: nat, n: nat, b: nat)
    requires n <= |w| && n <= |a|
  {
    forall other :: 0 <= other < m && Load(w, a, other, n) == Load(w, a, b, n) ==> Count(a, b, n) <= Count(a, other, n)
  }

  /** Each file went to a lightest bucket, and to a leanest one among those. */
  ghost predicate GreedyAndLean(w: seq<real>, a: seq<nat>, m: nat, n: nat)
    requires n <= |w| && n <= |a|
  {
    && Greedy(w, a, m, n)
    && forall i {:trigger Leanest(w, a, m, i, a[i])} :: 0 <= i < n ==> Leanest(w, a, m, i, a[i])
  }

  /** p is the outcome of placing the files heaviest first by the assignment a of the sorted list s. */
  ghost predicate PlacedBy(files: seq<File>, weights: map<File, real>, p: seq<seq<File>>, s: seq<File>, a: seq<nat>) {
    && |a| == |s| && multiset(s) == multiset(files) && HeaviestFirst(s, weights)
    && GreedyAndLean(Weights(s, weights), a, |p|, |s|)
    && forall b :: 0 <= b < |p| ==> p[b] == Share(s, a, b, |s|)
  }

  ghost predicate Placed(files: seq<File>, weights: map<File, real>, p: seq<seq<File>>) {
    exists s, a :: PlacedBy(files, weights, p, s, a)
  }

  ghost predicate NoNegativeWeight(files: seq<File>, weights: map<File, real>) {
    forall f :: f in files ==> 0.0 <= WeightOf(weights, f)
  }

  // ---------- Properties of every placement ----------

  lemma WeightOfExtension(files: seq<File>, f: File, weights: map<File, real>)
    ensures PartitionWeight(files + [f], weights) == PartitionWeight(files, weights) + WeightOf(weights, f)
  {
    assert (files + [f])[..|files|] == files;
  }

  lemma {:induction false} ShareCounts(s: seq<File>, a: seq<nat>, b: nat, n: nat)
    requires n <= |s| && n <= |a|
    ensures |Share(s, a, b, n)| == Count(a, b, n)
  {
    if n > 0 {
      ShareCounts(s, a, b, n - 1);
    }
  }

  lemma {:induction false} ShareWeighs(s: seq<File>, weights: map<File, real>, a: seq<nat>, b: nat, n: nat)
    requires n <= |s| && n <= |a|
    ensures PartitionWeight(Share(s, a, b, n), weights) == Load(Weights(s, weights), a, b, n)
  {
    if n > 0 {
      ShareWeighs(s, weights, a, b, n - 1);
      assert Weights(s, weights)[n - 1] == WeightOf(weights, s[n - 1]);
      if a[n - 1] == b {
        WeightOfExtension(Share(s, a, b, n - 1), s[n - 1], weights);
      }
    }
  }

  ghost function Shares(s: seq<File>, a: seq<nat>, m: nat, n: nat): (p: seq<seq<File>>)
    requires n <= |s| && n <= |a|
    ensures |p| == m && forall b :: 0 <= b < m ==> p[b] == Share(s, a, b, n)
  {
    if m == 0 then [] else Shares(s, a, m - 1, n) + [Share(s, a, m - 1, n)]
  }

  lemma UnionOfShares(s: seq<File>, a: seq<nat>, m: nat, n: nat)
    requires n <= |s| && n <= |a| && 0 < m
    ensures Union(Shares(s, a, m, n)) == Union(Shares(s, a, m - 1, n)) + multiset(Share(s, a, m - 1, n))
  {
    var p := Shares(s, a, m, n);
    assert p[..|p| - 1] == Shares(s, a, m - 1, n);
    assert p[|p| - 1] == Share(s, a, m - 1, n);
  }

  /** What file n - 1 adds to the first m shares. */
  ghost function Added(s: seq<File>, a: seq<nat>, m: nat, n: nat): multiset<File>
    requires 0 < n <= |s| && n <= |a|
  {
    if a[n - 1] < m then multiset{s[n - 1]} else multiset{}
  }

  /** The last of the m shares gets the file, or keeps what it has. */
  lemma ShareStep(s: seq<File>, a: seq<nat>, b: nat, n: nat)
    requires 0 < n <= |s| && n <= |a|
    ensures multiset(Share(s, a, b, n))
         == multiset(Share(s, a, b, n - 1)) + if a[n - 1] == b then multiset{s[n - 1]} else multiset{}
  {
    if a[n - 1] == b {
      assert Share(s, a, b, n) == Share(s, a, b, n - 1) + [s[n - 1]];
    }
  }

  lemma SumsStep<T>(u: multiset<T>, v: multiset<T>, x: multiset<T>, y: multiset<T>)
    ensures (u + x) + (v + y) == (u + v) + (x + y)
  {
  }

  lemma AddedStep(s: seq<File>, a: seq<nat>, m: nat, n: nat)
    requires 0 < n <= |s| && n <= |a| && 0 < m
    ensures Added(s, a, m, n) == Added(s, a, m - 1, n) + if a[n - 1] == m - 1 then multiset{s[n - 1]} else multiset{}
  {
  }

  lemma {:induction false} UnionStep(s: seq<File>, a: seq<nat>, m: nat, n: nat)
    requires 0 < n <= |s| && n <= |a|
    ensures Union(Shares(s, a, m, n)) == Union(Shares(s, a, m, n - 1)) + Added(s, a, m, n)
  {
    if m == 0 {
      assert Shares(s, a, 0, n) == [] && Shares(s, a, 0, n - 1) == [];
    } else {
      var here := if a[n - 1] == m - 1 then multiset{s[n - 1]} else multiset{};
      UnionStep(s, a, m - 1, n);
      UnionOfShares(s, a, m, n);
      UnionOfShares(s, a, m, n - 1);
      ShareStep(s, a, m - 1, n);
      AddedStep(s, a, m, n);
      SumsStep(Union(Shares(s, a, m - 1, n - 1)), multiset(Share(s, a, m - 1, n - 1)), Added(s, a, m - 1, n), here);
    }
  }

  lemma {:induction false} UnionOfNothing(s: seq<File>, a: seq<nat>, m: nat)
    ensures Union(Shares(s, a, m, 0)) == multiset{}
  {
    if m > 0 {
      UnionOfNothing(s, a, m - 1);
      UnionOfShares(s, a, m, 0);
    }
  }

  ghost function FirstFiles(s: seq<File>, n: nat): multiset<File>
    requires n <= |s|
  {
    if n == 0 then multiset{} else FirstFiles(s, n - 1) + multiset{s[n - 1]}
  }

  lemma {:induction false} FirstFilesArePrefix(s: seq<File>, n: nat)
    requires n <= |s|
    ensures FirstFiles(s, n) == multiset(s[..n])
  {
    if n > 0 {
      FirstFilesArePrefix(s, n - 1);
      assert s[..n] == s[..n - 1] + [s[n - 1]];
    }
  }

  lemma {:induction false} SharesCoverFiles(s: seq<File>, a: seq<nat>, m: nat, n: nat)
    requires n <= |s| && n <= |a| && Assigns(a, m, n)
    ensures Union(Shares(s, a, m, n)) == FirstFiles(s, n)
  {
    if n == 0 {
      UnionOfNothing(s, a, m);
    } else {
      UnionStep(s, a, m, n);
      SharesCoverFiles(s, a, m, n - 1);
      assert FirstFiles(s, n) == FirstFiles(s, n - 1) + multiset{s[n - 1]};
    }
  }

  /** A placement splits the files: every file, with its multiplicity, is in exactly one partition. */
  lemma PlacementKeepsEveryFile(files: seq<File>, weights: map<File, real>, p: seq<seq<File>>)
    requires Placed(files, weights, p)
    ensures Union(p) == multiset(files)
  {
    var s, a :| PlacedBy(files, weights, p, s, a);
    GreedyAssigns(Weights(s, weights), a, |p|, |s|);
    SharesCoverFiles(s, a, |p|, |s|);
    FirstFilesArePrefix(s, |s|);
    assert p == Shares(s, a, |p|, |s|);
    assert s[..|s|] == s;
  }

  lemma {:induction false} FileSomewhere(p: seq<seq<File>>, f: File) returns (b: nat, k: nat)
    requires f in Union(p)
    ensures b < |p| && k < |p[b]| && p[b][k] == f
  {
    var last := |p| - 1;
    if f in p[last] {
      b := last;
      k :| 0 <= k < |p[last]| && p[last][k] == f;
    } else {
      b, k := FileSomewhere(p[..last], f);
    }
  }

  lemma Swap<T>(u: multiset<T>, x: multiset<T>, y: multiset<T>)
    ensures u + x + y == u + y + x
  {
  }

  lemma AddToBoth<T>(u: multiset<T>, x: multiset<T>, v: multiset<T>, y: multiset<T>, more: multiset<T>)
    requires u + x == v + y
    ensures u + more + x == v + more + y
  {
    Swap(u, more, x);
    Swap(v, more, y);
  }

  lemma CancelOne<T>(u: multiset<T>, v: multiset<T>, f: T)
    requires u + multiset{f} == v + multiset{f}
    ensures u == v
  {
    forall t
      ensures u[t] == v[t]
    {
      assert (u + multiset{f})[t] == (v + multiset{f})[t];
    }
  }

  lemma Cancel<T>(u: multiset<T>, x: multiset<T>, v: multiset<T>, y: multiset<T>, f: T)
    requires u + x == v + multiset{f} + y && x == y + multiset{f}
    ensures u == v
  {
    forall t
      ensures u[t] == v[t]
    {
      assert (u + x)[t] == (v + multiset{f} + y)[t];
    }
  }

  lemma {:induction false} UnionAfterReplace(p: seq<seq<File>>, b: nat, files: seq<File>)
    requires b < |p|
    ensures Union(p[b := files]) + multiset(p[b]) == Union(p) + multiset(files)
  {
    var last := |p| - 1;
    var q := p[b := files];
    if b == last {
      assert q[..last] == p[..last];
      Swap(Union(p[..last]), multiset(files), multiset(p[last]));
    } else {
      UnionAfterReplace(p[..last], b, files);
      assert q[..last] == p[..last][b := files];
      assert q[last] == p[last];
      AddToBoth(Union(q[..last]), multiset(p[b]), Union(p[..last]), multiset(files), multiset(p[last]));
    }
  }

  lemma Without<T>(s: seq<T>, k: nat)
    requires k < |s|
    ensures multiset(s[..k] + s[k + 1..]) + multiset{s[k]} == multiset(s)
  {
    assert s == s[..k] + [s[k]] + s[k + 1..];
  }

  lemma {:induction false} WeightWithout(files: seq<File>, weights: map<File, real>, k: nat)
    requires k < |files|
    ensures PartitionWeight(files[..k] + files[k + 1..], weights)
         == PartitionWeight(files, weights) - WeightOf(weights, files[k])
  {
    var last := |files| - 1;
    var rest := files[..k] + files[k + 1..];
    if k == last {
      assert rest == files[..last];
    } else {
      var init := files[..last];
      WeightWithout(init, weights, k);
      assert rest == init[..k] + init[k + 1..] + [files[last]];
      WeightOfExtension(init[..k] + init[k + 1..], files[last], weights);
    }
  }

  /** The last file can be taken out of the partition that holds it. */
  lemma TakeOutLast(p: seq<seq<File>>, s: seq<File>, weights: map<File, real>) returns (b: nat, p': seq<seq<File>>)
    requires s != [] && Union(p) == multiset(s)
    ensures b < |p| && |p'| == |p| && Union(p') == multiset(s[..|s| - 1])
    ensures forall c :: 0 <= c < |p| ==>
      PartitionWeight(p[c], weights)
      == PartitionWeight(p'[c], weights) + if c == b then WeightOf(weights, s[|s| - 1]) else 0.0
  {
    var n := |s| - 1;
    var f := s[n];
    assert s == s[..n] + [f];
    assert f in multiset(s);
    var k;
    b, k := FileSomewhere(p, f);
    var fewer := p[b][..k] + p[b][k + 1..];
    WeightWithout(p[b], weights, k);
    Without(p[b], k);
    UnionAfterReplace(p, b, fewer);
    p' := p[b := fewer];
    assert Union(p) == multiset(s[..n]) + multiset{f};
    Cancel(Union(p'), multiset(p[b]), multiset(s[..n]), multiset(fewer), f);
  }

  /** Any split p of the files is the assignment of the sorted list to p's partitions, with the same weights. */
  lemma {:induction false} SplitIsAssignment(p: seq<seq<File>>, s: seq<File>, weights: map<File, real>)
    returns (g: seq<nat>)
    requires Union(p) == multiset(s)
    ensures |g| == |s| && Assigns(g, |p|, |s|)
    ensures forall b :: 0 <= b < |p| ==> Load(Weights(s, weights), g, b, |s|) == PartitionWeight(p[b], weights)
    decreases |s|
  {
    if s == [] {
      g := [];
      forall b | 0 <= b < |p|
        ensures p[b] == []
      {
        EmptyUnion(p, b);
      }
    } else {
      var n := |s| - 1;
      var b, p' := TakeOutLast(p, s, weights);
      var g' := SplitIsAssignment(p', s[..n], weights);
      g := g' + [b];
      forall c | 0 <= c < |p|
        ensures Load(Weights(s, weights), g, c, |s|) == PartitionWeight(p[c], weights)
      {
        LoadOfPrefix(Weights(s, weights), Weights(s[..n], weights), g, g', c, n);
        assert Load(Weights(s[..n], weights), g', c, n) == PartitionWeight(p'[c], weights);
      }
    }
  }

  lemma {:induction false} EmptyUnion(p: seq<seq<File>>, b: nat)
    requires Union(p) == multiset{} && b < |p|
    ensures p[b] == []
  {
    var rest, last := Union(p[..|p| - 1]), p[|p| - 1];
    assert |rest + multiset(last)| == |rest| + |last|;
    assert rest == multiset{} && last == [];
    if b < |p| - 1 {
      EmptyUnion(p[..|p| - 1], b);
    }
  }

  ghost predicate AllWithin(p: seq<seq<File>>, weights: map<File, real>, cap: real) {
    forall b :: 0 <= b < |p| ==> PartitionWeight(p[b], weights) <= cap
  }

  lemma WeightsOfPlacement(files: seq<File>, weights: map<File, real>, s: seq<File>)
    requires multiset(s) == multiset(files) && HeaviestFirst(s, weights) && NoNegativeWeight(files, weights)
    ensures NonNegative(Weights(s, weights)) && Descending(Weights(s, weights))
  {
    var w := Weights(s, weights);
    forall i | 0 <= i < |w|
      ensures 0.0 <= w[i]
    {
      assert s[i] in multiset(s);
      assert s[i] in files;
    }
  }

  /**
   * The heaviest partition is at most (4/3 - 1/(3m)) times the heaviest partition of any other
   * split `other` of the same files into as many parts.
   */
  lemma HeaviestPartitionNearOptimal(files: seq<File>, weights: map<File, real>, p: seq<seq<File>>,
                                     other: seq<seq<File>>, cap: real)
    requires Placed(files, weights, p) && NoNegativeWeight(files, weights)
    requires |other| == |p| && Union(other) == multiset(files) && AllWithin(other, weights, cap)
    ensures forall b :: 0 <= b < |p| ==>
      WithinFourThirds(|p|, PartitionWeight(p[b], weights), cap)
  {
    var s, a :| PlacedBy(files, weights, p, s, a);
    var w := Weights(s, weights);
    WeightsOfPlacement(files, weights, s);
    var g := SplitIsAssignment(other, s, weights);
    forall b | 0 <= b < |p|
      ensures WithinFourThirds(|p|, PartitionWeight(p[b], weights), cap)
    {
      ShareWeighs(s, weights, a, b, |s|);
      HeaviestFirstWithinFourThirds(w, a, g, |p|, cap, b);
    }
  }

  /** No partition exceeds total/m + (1 - 1/m) * (heaviest file), whatever the other splits are. */
  lemma HeaviestPartitionNearAverage(files: seq<File>, weights: map<File, real>, p: seq<seq<File>>, heaviest: real)
    requires Placed(files, weights, p) && NoNegativeWeight(files, weights)
    requires 0.0 <= heaviest && forall f :: f in files ==> WeightOf(weights, f) <= heaviest
    ensures forall b :: 0 <= b < |p| ==>
      NearAverage(|p|, PartitionWeight(p[b], weights), PartitionWeight(files, weights), heaviest)
  {
    var s, a :| PlacedBy(files, weights, p, s, a);
    var w := Weights(s, weights);
    WeightsOfPlacement(files, weights, s);
    forall i | 0 <= i < |s|
      ensures w[i] <= heaviest
    {
      assert s[i] in multiset(s);
    }
    TotalIsWeight(s, weights, |s|);
    assert s[..|s|] == s;
    WeightOfPermutation(s, files, weights);
    forall b | 0 <= b < |p|
      ensures NearAverage(|p|, PartitionWeight(p[b], weights), PartitionWeight(files, weights), heaviest)
    {
      ShareWeighs(s, weights, a, b, |s|);
      GreedyNearAverage(w, a, |p|, |s|, heaviest, b);
    }
  }

  lemma {:induction false} TotalIsWeight(s: seq<File>, weights: map<File, real>, n: nat)
    requires n <= |s|
    ensures Total(Weights(s, weights), n) == PartitionWeight(s[..n], weights)
  {
    if n > 0 {
      TotalIsWeight(s, weights, n - 1);
      assert s[..n][..n - 1] == s[..n - 1];
    }
  }

  lemma {:induction false} WeightOfPermutation(s: seq<File>, t: seq<File>, weights: map<File, real>)
    requires multiset(s) == multiset(t)
    ensures PartitionWeight(s, weights) == PartitionWeight(t, weights)
    decreases |s|
  {
    if s == [] {
      assert |multiset(t)| == 0;
    } else {
      var n := |s| - 1;
      assert s == s[..n] + [s[n]];
      assert s[n] in multiset(t);
      var k :| 0 <= k < |t| && t[k] == s[n];
      WeightWithout(t, weights, k);
      Without(t, k);
      CancelOne(multiset(s[..n]), multiset(t[..k] + t[k + 1..]), s[n]);
      WeightOfPermutation(s[..n], t[..k] + t[k + 1..], weights);
    }
  }

  /** If bucket b is still empty after n placements, the n files sit in n other buckets. */
  lemma {:induction false} EmptyBucketMeansSpread(w: seq<real>, a: seq<nat>, m: nat, n: nat, b: nat)
    requires n <= |w| && n <= |a| && b < m && NonNegative(w) && GreedyAndLean(w, a, m, n)
    requires Count(a, b, n) == 0
    ensures n < m
  {
    SpreadIsInjective(w, a, m, n, b);
    InjectiveImage(a, n);
    GreedyAssigns(w, a, m, n);
    UnusedBucket(a, b, n);
    var free := Below(m) - {b};
    UsedWithin(a, n, free);
    SubsetSize(Used(a, n), free);
  }

  lemma {:induction false} UnusedBucket(a: seq<nat>, b: nat, n: nat)
    requires n <= |a| && Count(a, b, n) == 0
    ensures forall i :: 0 <= i < n ==> a[i] != b
  {
    if n > 0 {
      UnusedBucket(a, b, n - 1);
    }
  }

  ghost predicate Injective(a: seq<nat>, n: nat)
    requires n <= |a|
  {
    forall i, j :: 0 <= i < j < n ==> a[i] != a[j]
  }

  lemma {:induction false} SpreadIsInjective(w: seq<real>, a: seq<nat>, m: nat, n: nat, b: nat)
    requires n <= |w| && n <= |a| && b < m && NonNegative(w) && GreedyAndLean(w, a, m, n)
    requires Count(a, b, n) == 0
    ensures Injective(a, n)
  {
    if n > 0 {
      var k := n - 1;
      SpreadIsInjective(w, a, m, k, b);
      EmptyBucket(w, a, b, k);
      LoadGrows(w, a, a[k], 0, k);
      assert Lightest(w, a, m, k, a[k]);
      assert Leanest(w, a, m, k, a[k]);
      assert Count(a, a[k], k) == 0;
      UnusedBucket(a, a[k], k);
    }
  }

  ghost function Used(a: seq<nat>, n: nat): set<nat>
    requires n <= |a|
  {
    if n == 0 then {} else Used(a, n - 1) + {a[n - 1]}
  }

  lemma {:induction false} UsedWithin(a: seq<nat>, n: nat, s: set<nat>)
    requires n <= |a| && forall i :: 0 <= i < n ==> a[i] in s
    ensures Used(a, n) <= s
  {
    if n > 0 {
      UsedWithin(a, n - 1, s);
    }
  }

  lemma {:induction false} NotUsed(a: seq<nat>, n: nat, b: nat)
    requires n <= |a| && forall i :: 0 <= i < n ==> a[i] != b
    ensures b !in Used(a, n)
  {
    if n > 0 {
      NotUsed(a, n - 1, b);
    }
  }

  lemma {:induction false} InjectiveImage(a: seq<nat>, n: nat)
    requires n <= |a| && Injective(a, n)
    ensures |Used(a, n)| == n
  {
    if n > 0 {
      assert Injective(a, n - 1);
      InjectiveImage(a, n - 1);
      NotUsed(a, n - 1, a[n - 1]);
      OneMore(Used(a, n - 1), a[n - 1]);
    }
  }

  lemma OneMore(s: set<nat>, x: nat)
    requires x !in s
    ensures |s + {x}| == |s| + 1
  {
  }

  ghost function Below(m: nat): (s: set<nat>)
    ensures |s| == m && forall i: nat :: i in s <==> i < m
  {
    if m == 0 then {} else Below(m - 1) + {m - 1}
  }

  /** With non-negative weights, every partition is non-empty exactly when there are enough files. */
  lemma AllPartitionsUsedIffEnoughFiles(files: seq<File>, weights: map<File, real>, p: seq<seq<File>>)
    requires Placed(files, weights, p) && NoNegativeWeight(files, weights)
    ensures (forall b :: 0 <= b < |p| ==> p[b] != []) <==> |p| <= |files|
  {
    var s, a :| PlacedBy(files, weights, p, s, a);
    var w := Weights(s, weights);
    WeightsOfPlacement(files, weights, s);
    assert |s| == |multiset(s)| == |files|;
    forall b | 0 <= b < |p|
      ensures |p[b]| == Count(a, b, |s|)
      ensures p[b] == [] ==> |s| < |p|
    {
      ShareCounts(s, a, b, |s|);
      if p[b] == [] {
        EmptyBucketMeansSpread(w, a, |p|, |s|, b);
      }
    }
    if forall b :: 0 <= b < |p| ==> p[b] != [] {
      var ones := seq(|s|, _ => 1.0);
      forall b | 0 <= b < |p|
        ensures 1.0 <= Load(ones, a, b, |s|)
      {
        LoadAtLeastCount(ones, a, b, |s|, 1.0);
        TimesIsProduct(Count(a, b, |s|), 1.0);
      }
      SumAtLeast(ones, a, |p|, |s|, 1.0);
      GreedyAssigns(w, a, |p|, |s|);
      LoadsConserveWeight(ones, a, |p|, |s|);
      TotalOfOnes(ones, |s|);
      TimesIsProduct(|p|, 1.0);
    }
  }

  lemma {:induction false} TotalOfOnes(ones: seq<real>, n: nat)
    requires n <= |ones| && forall i :: 0 <= i < |ones| ==> ones[i] == 1.0
    ensures Total(ones, n) == n as real
  {
    if n > 0 {
      TotalOfOnes(ones, n - 1);
    }
  }
}
