/**
 * The imperative half of the weighted partitioner: buckets updated in place, and the min-heap of
 * bucket indices that finds the lightest one.
 */
module PartitionHeap {
  import opened Loads
  import opened Partitions
  import opened Results

  class Bucket {
    var sum: real
    var files: seq<File>

    constructor ()
      ensures sum == 0.0 && files == []
    {
      sum := 0.0;
      files := [];
    }
  }

  /** Lighter counts as less, and at equal weight fewer files; what exists is less than what does not. */
  predicate BucketLess(left: Bucket?, right: Bucket?)
    reads left, right
  {
    if left == null || right == null then left != null
    else if left.sum != right.sum then left.sum < right.sum
    else |left.files| < |right.files|
  }

  /** Which bucket stands at this place of the heap; null beyond either array. */
  function BucketAt(buckets: array<Bucket>, heap: array<nat>, index: nat): Bucket?
    reads buckets, heap
  {
    if index < heap.Length && heap[index] < buckets.Length then buckets[heap[index]] else null
  }

  function Parent(i: nat): nat
    requires 0 < i
  {
    (i - 1) / 2
  }

  /** h lists each of 0..m-1 exactly once. */
  ghost predicate Permutation(h: seq<nat>, m: nat) {
    && |h| == m
    && (forall i :: 0 <= i < m ==> h[i] < m)
    && (forall i, j :: 0 <= i < j < m ==> h[i] != h[j])
    && (forall b :: 0 <= b < m ==> b in h)
  }

  lemma IdentityIsPermutation(h: seq<nat>, m: nat)
    requires |h| == m && forall i :: 0 <= i < m ==> h[i] == i
    ensures Permutation(h, m)
  {
    forall b | 0 <= b < m
      ensures b in h
    {
      assert h[b] == b;
    }
  }

  lemma SwapKeepsPermutation(h: seq<nat>, m: nat, i: nat, j: nat)
    requires Permutation(h, m) && i < m && j < m && i != j
    ensures Permutation(h[i := h[j]][j := h[i]], m)
  {
    var h' := h[i := h[j]][j := h[i]];
    forall b | 0 <= b < m
      ensures b in h'
    {
      assert b in h;
      var k :| 0 <= k < |h| && h[k] == b;
      assert h'[if k == i then j else if k == j then i else k] == b;
    }
  }

  /** What the heap orders a bucket by. */
  datatype Key = Key(sum: real, count: nat) {
    predicate Less(other: Key) {
      sum < other.sum || (sum == other.sum && count < other.count)
    }
  }

  /** keys[b] is the current key of bucket b. */
  ghost predicate Keyed(buckets: array<Bucket>, keys: seq<Key>)
    reads buckets, set i | 0 <= i < buckets.Length :: buckets[i]
  {
    && |keys| == buckets.Length
    && forall i :: 0 <= i < buckets.Length ==> keys[i] == Key(buckets[i].sum, |buckets[i].files|)
  }

  ghost predicate Ordered(keys: seq<Key>, h: seq<nat>, parent: nat, child: nat) {
    parent < |h| && child < |h| && h[parent] < |keys| && h[child] < |keys| && !keys[h[child]].Less(keys[h[parent]])
  }

  /** Min-heap: no bucket is less than the one at its parent's position. */
  ghost predicate IsHeap(keys: seq<Key>, h: seq<nat>) {
    forall i: nat {:trigger Ordered(keys, h, Parent(i), i)} :: 0 < i < |h| ==> Ordered(keys, h, Parent(i), i)
  }

  /** A min-heap except that the bucket at `index` may be too heavy for its position. */
  ghost predicate IsHeapBut(keys: seq<Key>, h: seq<nat>, index: nat) {
    && (forall i: nat {:trigger Ordered(keys, h, Parent(i), i)} ::
          0 < i < |h| && Parent(i) != index ==> Ordered(keys, h, Parent(i), i))
    && (0 < index ==> forall i: nat {:trigger Ordered(keys, h, Parent(index), i)} ::
          0 < i < |h| && Parent(i) == index ==> Ordered(keys, h, Parent(index), i))
  }

  /** After the exchange, position i is in order unless its parent is where the misplaced bucket now is. */
  lemma SwapOrders(keys: seq<Key>, h: seq<nat>, index: nat, smallest: nat, i: nat)
    requires Permutation(h, |keys|) && IsHeapBut(keys, h, index)
    requires index < |h| && smallest < |h| && (smallest == 2 * index + 1 || smallest == 2 * index + 2)
    requires keys[h[smallest]].Less(keys[h[index]])
    requires 2 * index + 1 < |h| ==> Ordered(keys, h, smallest, 2 * index + 1)
    requires 2 * index + 2 < |h| ==> Ordered(keys, h, smallest, 2 * index + 2)
    requires 0 < i < |h| && Parent(i) != smallest
    ensures Ordered(keys, h[index := h[smallest]][smallest := h[index]], Parent(i), i)
  {
    assert Parent(smallest) == index;
    if Parent(i) == index {
      assert i == 2 * index + 1 || i == 2 * index + 2;
      assert Ordered(keys, h, smallest, i);
    } else {
      assert Ordered(keys, h, Parent(i), i);
      if i == index {
        assert Ordered(keys, h, Parent(index), smallest);
      }
    }
  }

  /** Exchanging the misplaced bucket with its least child moves the fault one level down. */
  lemma SwapMovesFaultDown(keys: seq<Key>, h: seq<nat>, index: nat, smallest: nat)
    requires Permutation(h, |keys|) && IsHeapBut(keys, h, index)
    requires index < |h| && smallest < |h| && (smallest == 2 * index + 1 || smallest == 2 * index + 2)
    requires keys[h[smallest]].Less(keys[h[index]])
    requires 2 * index + 1 < |h| ==> Ordered(keys, h, smallest, 2 * index + 1)
    requires 2 * index + 2 < |h| ==> Ordered(keys, h, smallest, 2 * index + 2)
    ensures IsHeapBut(keys, h[index := h[smallest]][smallest := h[index]], smallest)
  {
    var h' := h[index := h[smallest]][smallest := h[index]];
    forall i: nat | 0 < i < |h| && Parent(i) != smallest
      ensures Ordered(keys, h', Parent(i), i)
    {
      SwapOrders(keys, h, index, smallest, i);
    }
    assert Parent(smallest) == index && h'[index] == h[smallest];
    forall i: nat | 0 < i < |h| && Parent(i) == smallest
      ensures Ordered(keys, h', Parent(smallest), i)
    {
      assert Ordered(keys, h, Parent(i), i);
      assert h'[i] == h[i];
    }
  }

  /** A misplaced bucket with no lesser child is not misplaced. */
  lemma NoFaultLeft(keys: seq<Key>, h: seq<nat>, index: nat)
    requires IsHeapBut(keys, h, index) && index < |h|
    requires 2 * index + 1 < |h| ==> Ordered(keys, h, index, 2 * index + 1)
    requires 2 * index + 2 < |h| ==> Ordered(keys, h, index, 2 * index + 2)
    ensures IsHeap(keys, h)
  {
    forall i: nat | 0 < i < |h|
      ensures Ordered(keys, h, Parent(i), i)
    {
      if Parent(i) == index {
        assert i == 2 * index + 1 || i == 2 * index + 2;
      }
    }
  }

  /** The position of the least bucket among the one at `index` and its children. */
  method LeastOfFamily(buckets: array<Bucket>, heap: array<nat>, index: nat, ghost keys: seq<Key>)
    returns (smallest: nat)
    requires heap.Length == buckets.Length && index < heap.Length
    requires Permutation(heap[..], heap.Length) && Keyed(buckets, keys)
    ensures smallest < heap.Length && (smallest == index || smallest == 2 * index + 1 || smallest == 2 * index + 2)
    ensures smallest != index ==> keys[heap[smallest]].Less(keys[heap[index]])
    ensures 2 * index + 1 < heap.Length ==> Ordered(keys, heap[..], smallest, 2 * index + 1)
    ensures 2 * index + 2 < heap.Length ==> Ordered(keys, heap[..], smallest, 2 * index + 2)
  {
    var size := heap.Length;
    var left := 2 * index + 1;
    var right := 2 * index + 2;
    smallest := index;
    var smallestBucket := BucketAt(buckets, heap, index);
    var leftBucket := if left < size then BucketAt(buckets, heap, left) else null;
    var rightBucket := if right < size then BucketAt(buckets, heap, right) else null;
    if leftBucket != null && smallestBucket != null && BucketLess(leftBucket, smallestBucket) {
      smallest := left;
      smallestBucket := leftBucket;
    }
    if rightBucket != null && smallestBucket != null && BucketLess(rightBucket, smallestBucket) {
      smallest := right;
    }
  }

  method Exchange(heap: array<nat>, i: nat, j: nat)
    requires i < heap.Length && j < heap.Length && i != j
    modifies heap
    ensures heap[..] == old(heap[..])[i := old(heap[j])][j := old(heap[i])]
  {
    var moved, replacement := heap[i], heap[j];
    heap[i] := replacement;
    heap[j] := moved;
  }

  /** Let a bucket that may have become too heavy for its place sink below its lighter descendants. */
  method SiftDown(buckets: array<Bucket>, heap: array<nat>, start: nat, ghost keys: seq<Key>)
    requires heap.Length == buckets.Length && start < heap.Length
    requires Permutation(heap[..], heap.Length) && Keyed(buckets, keys)
    requires IsHeapBut(keys, heap[..], start)
    modifies heap
    ensures Permutation(heap[..], heap.Length)
    ensures IsHeap(keys, heap[..])
  {
    var index := start;
    while true
      invariant index < heap.Length
      invariant Permutation(heap[..], heap.Length) && Keyed(buckets, keys)
      invariant IsHeapBut(keys, heap[..], index)
      decreases heap.Length - index
    {
      var smallest := LeastOfFamily(buckets, heap, index, keys);
      if smallest == index {
        NoFaultLeft(keys, heap[..], index);
        return;
      }
      SwapKeepsPermutation(heap[..], heap.Length, index, smallest);
      SwapMovesFaultDown(keys, heap[..], index, smallest);
      Exchange(heap, index, smallest);
      index := smallest;
    }
  }

  /** The root of the heap is a least bucket. */
  lemma {:induction false} RootIsLeast(keys: seq<Key>, h: seq<nat>, i: nat)
    requires Permutation(h, |keys|) && IsHeap(keys, h) && i < |h|
    ensures !keys[h[i]].Less(keys[h[0]])
  {
    if i > 0 {
      RootIsLeast(keys, h, Parent(i));
      assert Ordered(keys, h, Parent(i), i);
    }
  }

  // ---------- The assignment ----------

  lemma {:induction false} ShareOfPrefix(s: seq<File>, a: seq<nat>, a': seq<nat>, b: nat, n: nat)
    requires n <= |s| && n <= |a| && n <= |a'|
    requires forall i :: 0 <= i < n ==> a[i] == a'[i]
    ensures Share(s, a, b, n) == Share(s, a', b, n)
  {
    if n > 0 {
      ShareOfPrefix(s, a, a', b, n - 1);
    }
  }

  lemma {:induction false} GreedyOfPrefix(w: seq<real>, a: seq<nat>, a': seq<nat>, m: nat, n: nat)
    requires n <= |w| && n <= |a| && n <= |a'|
    requires forall i :: 0 <= i < n ==> a[i] == a'[i]
    requires GreedyAndLean(w, a, m, n)
    ensures GreedyAndLean(w, a', m, n)
  {
    forall i | 0 <= i < n
      ensures Lightest(w, a', m, i, a'[i]) && Leanest(w, a', m, i, a'[i])
    {
      LightestOfPrefix(w, a, a', m, i, a[i]);
    }
  }

  lemma LightestOfPrefix(w: seq<real>, a: seq<nat>, a': seq<nat>, m: nat, n: nat, b: nat)
    requires n <= |w| && n <= |a| && n <= |a'|
    requires forall i :: 0 <= i < n ==> a[i] == a'[i]
    requires Lightest(w, a, m, n, b) && Leanest(w, a, m, n, b)
    ensures Lightest(w, a', m, n, b) && Leanest(w, a', m, n, b)
  {
    forall other | 0 <= other < m
      ensures Load(w, a', other, n) == Load(w, a, other, n) && Count(a', other, n) == Count(a, other, n)
    {
      LoadOfPrefix(w, w, a, a', other, n);
    }
    LoadOfPrefix(w, w, a, a', b, n);
  }

  lemma PlaceNextIsGreedy(w: seq<real>, a: seq<nat>, m: nat, top: nat)
    requires |a| < |w| && GreedyAndLean(w, a, m, |a|)
    requires Lightest(w, a, m, |a|, top) && Leanest(w, a, m, |a|, top)
    ensures GreedyAndLean(w, a + [top], m, |a| + 1)
  {
    var a' := a + [top];
    GreedyOfPrefix(w, a, a', m, |a|);
    LightestOfPrefix(w, a, a', m, |a|, top);
    forall i | 0 <= i < |a| + 1
      ensures Lightest(w, a', m, i, a'[i]) && Leanest(w, a', m, i, a'[i])
    {
    }
  }

  lemma PlaceNextFills(s: seq<File>, w: seq<real>, a: seq<nat>, top: nat, b: nat)
    requires |a| < |s| == |w|
    ensures Load(w, a + [top], b, |a| + 1) == Load(w, a, b, |a|) + (if b == top then w[|a|] else 0.0)
    ensures Count(a + [top], b, |a| + 1) == Count(a, b, |a|) + (if b == top then 1 else 0)
    ensures Share(s, a + [top], b, |a| + 1) == Share(s, a, b, |a|) + (if b == top then [s[|a|]] else [])
  {
    LoadOfPrefix(w, w, a, a + [top], b, |a|);
    ShareOfPrefix(s, a, a + [top], b, |a|);
  }

  /** Placing the next file on a lightest, leanest bucket extends the placement by one step. */
  lemma PlaceNext(s: seq<File>, w: seq<real>, a: seq<nat>, m: nat, top: nat)
    requires |a| < |s| == |w| && GreedyAndLean(w, a, m, |a|)
    requires Lightest(w, a, m, |a|, top) && Leanest(w, a, m, |a|, top)
    ensures GreedyAndLean(w, a + [top], m, |a| + 1)
    ensures forall b :: 0 <= b < m ==>
      && Load(w, a + [top], b, |a| + 1) == Load(w, a, b, |a|) + (if b == top then w[|a|] else 0.0)
      && Count(a + [top], b, |a| + 1) == Count(a, b, |a|) + (if b == top then 1 else 0)
      && Share(s, a + [top], b, |a| + 1) == Share(s, a, b, |a|) + (if b == top then [s[|a|]] else [])
  {
    PlaceNextIsGreedy(w, a, m, top);
    forall b: nat | b < m
      ensures Load(w, a + [top], b, |a| + 1) == Load(w, a, b, |a|) + (if b == top then w[|a|] else 0.0)
      ensures Count(a + [top], b, |a| + 1) == Count(a, b, |a|) + (if b == top then 1 else 0)
      ensures Share(s, a + [top], b, |a| + 1) == Share(s, a, b, |a|) + (if b == top then [s[|a|]] else [])
    {
      PlaceNextFills(s, w, a, top, b);
    }
  }

  /** The bucket on top of the heap is lightest, and leanest among the lightest. */
  lemma RootIsLightest(w: seq<real>, a: seq<nat>, keys: seq<Key>, h: seq<nat>, n: nat)
    requires n <= |w| && n <= |a| && 0 < |keys|
    requires Permutation(h, |keys|) && IsHeap(keys, h)
    requires forall b :: 0 <= b < |keys| ==> keys[b] == Key(Load(w, a, b, n), Count(a, b, n))
    ensures Lightest(w, a, |keys|, n, h[0]) && Leanest(w, a, |keys|, n, h[0])
  {
    forall b | 0 <= b < |keys|
      ensures !keys[b].Less(keys[h[0]])
    {
      assert b in h;
      var i :| 0 <= i < |h| && h[i] == b;
      RootIsLeast(keys, h, i);
    }
  }

  /** After only the bucket on top has changed, only the top can be misplaced. */
  lemma GrownRoot(keys: seq<Key>, keys': seq<Key>, h: seq<nat>)
    requires |keys'| == |keys| && 0 < |keys| && Permutation(h, |keys|) && IsHeap(keys, h)
    requires forall b :: 0 <= b < |keys| && b != h[0] ==> keys'[b] == keys[b]
    ensures IsHeapBut(keys', h, 0)
  {
    forall i: nat | 0 < i < |h| && Parent(i) != 0
      ensures Ordered(keys', h, Parent(i), i)
    {
      assert Ordered(keys, h, Parent(i), i);
      assert h[i] != h[0] && h[Parent(i)] != h[0];
    }
  }

  /** contents and keys of the buckets after n files, as the assignment a describes them. */
  ghost predicate Describes(contents: seq<seq<File>>, keys: seq<Key>, s: seq<File>, w: seq<real>, a: seq<nat>, n: nat)
    requires n <= |s| && n <= |w| && n <= |a|
  {
    && |contents| == |keys|
    && forall b :: 0 <= b < |keys| ==>
         contents[b] == Share(s, a, b, n) && keys[b] == Key(Load(w, a, b, n), Count(a, b, n))
  }

  /** One step of the loop keeps the description and the greedy choice. */
  lemma DescribesNext(contents: seq<seq<File>>, keys: seq<Key>, s: seq<File>, w: seq<real>, a: seq<nat>, h: seq<nat>)
    requires |a| < |s| == |w| && 0 < |keys|
    requires Describes(contents, keys, s, w, a, |a|) && GreedyAndLean(w, a, |keys|, |a|)
    requires Permutation(h, |keys|) && IsHeap(keys, h)
    ensures GreedyAndLean(w, a + [h[0]], |keys|, |a| + 1)
    ensures Describes(contents[h[0] := contents[h[0]] + [s[|a|]]], Grown(keys, h[0], w[|a|]),
                      s, w, a + [h[0]], |a| + 1)
  {
    RootIsLightest(w, a, keys, h, |a|);
    PlaceNext(s, w, a, |keys|, h[0]);
  }

  /** The keys after the bucket `top` received one more file. */
  ghost function Grown(keys: seq<Key>, top: nat, weight: real): (grown: seq<Key>)
    requires top < |keys|
  {
    keys[top := Key(keys[top].sum + weight, keys[top].count + 1)]
  }

  /** contents[b] lists the files now in bucket b. */
  ghost predicate Contains(buckets: array<Bucket>, contents: seq<seq<File>>)
    reads buckets, set i | 0 <= i < buckets.Length :: buckets[i]
  {
    |contents| == buckets.Length && forall b :: 0 <= b < buckets.Length ==> buckets[b].files == contents[b]
  }

  ghost predicate AllDistinct(buckets: seq<Bucket>) {
    forall b, c :: 0 <= b < c < |buckets| ==> buckets[b] != buckets[c]
  }

  /** Give the file to the bucket on top of the heap and let that bucket sink. */
  method PlaceOnRoot(buckets: array<Bucket>, heap: array<nat>, file: File, weight: real,
                     ghost contents: seq<seq<File>>, ghost keys: seq<Key>)
    requires 0 < heap.Length == buckets.Length && AllDistinct(buckets[..])
    requires Keyed(buckets, keys) && Contains(buckets, contents)
    requires Permutation(heap[..], heap.Length) && IsHeap(keys, heap[..])
    modifies heap, buckets[heap[0]]
    ensures Keyed(buckets, Grown(keys, old(heap[0]), weight))
    ensures Contains(buckets, contents[old(heap[0]) := contents[old(heap[0])] + [file]])
    ensures Permutation(heap[..], heap.Length) && IsHeap(Grown(keys, old(heap[0]), weight), heap[..])
  {
    var top := heap[0];
    var bucket := buckets[top];
    assert forall b :: 0 <= b < buckets.Length && b != top ==> buckets[..][b] != bucket;
    bucket.sum := bucket.sum + weight;
    bucket.files := bucket.files + [file];
    ghost var grown := Grown(keys, top, weight);
    GrownRoot(keys, grown, heap[..]);
    SiftDown(buckets, heap, 0, grown);
  }

  /**
   * One file list per partition. With files but no partition there is no heap root, which the
   * script reports as an index out of bounds.
   */
  method AssignWeightedPartitions(files: seq<File>, weights: map<File, real>, partitions: nat,
                                  collate: (File, File) -> bool)
    returns (r: Result<seq<seq<File>>, PartitionError>)
    ensures r.Err? <==> partitions == 0 && files != []
    ensures r.Ok? ==> |r.value| == partitions && Placed(files, weights, r.value)
    ensures r.Ok? ==> Union(r.value) == multiset(files)
  {
    if files == [] {
      r := Ok(seq(partitions, _ => []));
      NothingPlaced(weights, r.value);
    } else if partitions == 0 {
      r := Err(HeapIndexOutOfBounds);
    } else {
      var s := Sorted(files, weights, collate);
      SortedIsHeaviestFirst(files, weights, collate);
      var p, a := Distribute(s, weights, partitions);
      assert PlacedBy(files, weights, p, s, a);
      PlacementKeepsEveryFile(files, weights, p);
      r := Ok(p);
    }
  }

  lemma NothingPlaced(weights: map<File, real>, p: seq<seq<File>>)
    requires forall b :: 0 <= b < |p| ==> p[b] == []
    ensures Placed([], weights, p) && Union(p) == multiset{}
  {
    assert PlacedBy([], weights, p, [], []);
    PlacementKeepsEveryFile([], weights, p);
  }

  /** With nothing placed any order of the buckets is a heap. */
  lemma EmptyHeap(h: seq<nat>, keys: seq<Key>, contents: seq<seq<File>>, s: seq<File>, w: seq<real>)
    requires |keys| == |contents| == |h| && forall b :: 0 <= b < |h| ==> h[b] == b
    requires forall b :: 0 <= b < |keys| ==> keys[b] == Key(0.0, 0) && contents[b] == []
    ensures Permutation(h, |keys|) && IsHeap(keys, h)
    ensures Describes(contents, keys, s, w, [], 0) && GreedyAndLean(w, [], |keys|, 0)
  {
    IdentityIsPermutation(h, |keys|);
    forall i: nat | 0 < i < |h|
      ensures Ordered(keys, h, Parent(i), i)
    {
      assert h[i] == i && h[Parent(i)] == Parent(i);
    }
  }

  /** Place the sorted files one by one on the bucket that the heap offers. */
  method Distribute(s: seq<File>, weights: map<File, real>, partitions: nat)
    returns (p: seq<seq<File>>, ghost a: seq<nat>)
    requires 0 < partitions
    ensures |p| == partitions && |a| == |s|
    ensures GreedyAndLean(Weights(s, weights), a, partitions, |s|)
    ensures forall b :: 0 <= b < partitions ==> p[b] == Share(s, a, b, |s|)
  {
    ghost var w := Weights(s, weights);
    var buckets, keys, contents := NewBuckets(partitions);
    var heap := new nat[partitions](i => i);
    EmptyHeap(heap[..], keys, contents, s, w);
    a := [];
    var i := 0;
    while i < |s|
      invariant i <= |s| && |a| == i && |keys| == heap.Length == buckets.Length == partitions
      invariant fresh(heap) && forall b :: 0 <= b < partitions ==> fresh(buckets[b])
      invariant AllDistinct(buckets[..]) && Keyed(buckets, keys) && Contains(buckets, contents)
      invariant Describes(contents, keys, s, w, a, i) && GreedyAndLean(w, a, partitions, i)
      invariant Permutation(heap[..], partitions) && IsHeap(keys, heap[..])
    {
      var file := s[i];
      var weight := WeightOf(weights, file);
      ghost var top := heap[0];
      DescribesNext(contents, keys, s, w, a, heap[..]);
      PlaceOnRoot(buckets, heap, file, weight, contents, keys);
      a, keys, contents := a + [top], Grown(keys, top, weight), contents[top := contents[top] + [file]];
      i := i + 1;
    }
    p := FilesOf(buckets);
  }

  method NewBuckets(m: nat) returns (buckets: array<Bucket>, ghost keys: seq<Key>, ghost contents: seq<seq<File>>)
    ensures fresh(buckets) && buckets.Length == m && forall b :: 0 <= b < m ==> fresh(buckets[b])
    ensures |keys| == |contents| == m && forall b :: 0 <= b < m ==> keys[b] == Key(0.0, 0) && contents[b] == []
    ensures AllDistinct(buckets[..]) && Keyed(buckets, keys) && Contains(buckets, contents)
  {
    var made: seq<Bucket> := [];
    for b := 0 to m
      invariant |made| == b
      invariant forall i :: 0 <= i < b ==> fresh(made[i]) && made[i].sum == 0.0 && made[i].files == []
      invariant AllDistinct(made)
    {
      var bucket := new Bucket();
      made := made + [bucket];
    }
    buckets := new Bucket[m](i requires 0 <= i < |made| => made[i]);
    keys, contents := seq(m, _ => Key(0.0, 0)), seq(m, _ => []);
  }

  method FilesOf(buckets: array<Bucket>) returns (p: seq<seq<File>>)
    ensures |p| == buckets.Length && forall b :: 0 <= b < |p| ==> p[b] == buckets[b].files
  {
    p := [];
    for b := 0 to buckets.Length
      invariant |p| == b && forall i :: 0 <= i < b ==> p[i] == buckets[i].files
    {
      p := p + [buckets[b].files];
    }
  }
}
