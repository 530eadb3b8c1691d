/**
 The priority queue of pending evaluations: the sift operations of Go's
 `container/heap`, driven by the order of `PendingEvaluations`.

 `SiftUp` and `SiftDown` are the loops as functions on sequences; the lemmas say
 what they preserve. They are used twice: `PendingEvaluations` computes them in place
 on an array, and the broker object, which keeps each heap as a sequence, calls them
 directly. No broker holds a `PendingEvaluations`.
 */
module PendingHeap {
  import opened Evals

  function Parent(k: int): int
    requires 0 < k
  {
    (k - 1) / 2
  }

  function Swap(h: seq<Eval>, i: nat, j: nat): (r: seq<Eval>)
    requires i < |h| && j < |h|
    ensures |r| == |h|
  {
    h[i := h[j]][j := h[i]]
  }

  /** Position `k` is not out of order with its parent. */
  ghost predicate Ordered(h: seq<Eval>, k: int)
    requires 0 < k < |h|
  {
    MayPrecede(h[Parent(k)], h[k])
  }

  ghost predicate IsHeap(h: seq<Eval>) {
    forall k :: 0 < k < |h| ==> Ordered(h, k)
  }

  /** A heap except for the value at `i`, whose parent and children already agree. */
  ghost predicate HeapExcept(h: seq<Eval>, i: nat) {
    && (forall k :: 0 < k < |h| && k != i && Parent(k) != i ==> Ordered(h, k))
    && (forall k :: 0 < k < |h| && Parent(k) == i && 0 < i ==> MayPrecede(h[Parent(i)], h[k]))
  }

  ghost predicate ChildrenOrdered(h: seq<Eval>, i: nat) {
    forall k :: 0 < k < |h| && Parent(k) == i ==> Ordered(h, k)
  }

  function SiftUp(h: seq<Eval>, j: nat): (r: seq<Eval>)
    requires j < |h|
    decreases j
  {
    if j == 0 || !Less(h[j], h[Parent(j)]) then h
    else SiftUp(Swap(h, Parent(j), j), Parent(j))
  }

  /** The child that `SiftDown` compares with: the right one only if strictly better. */
  function BetterChild(h: seq<Eval>, i: nat): (c: nat)
    requires 2 * i + 1 < |h|
    ensures c < |h| && i < c && Parent(c) == i
  {
    if 2 * i + 2 < |h| && Less(h[2 * i + 2], h[2 * i + 1]) then 2 * i + 2 else 2 * i + 1
  }

  lemma BetterChildPrecedes(h: seq<Eval>, i: nat)
    requires 2 * i + 1 < |h|
    ensures forall k :: 0 < k < |h| && Parent(k) == i ==> MayPrecede(h[BetterChild(h, i)], h[k])
  {
  }

  /** The sifted sequence and where the value that started at `i` stopped. */
  function SiftDown(h: seq<Eval>, i: nat): (r: (seq<Eval>, nat))
    requires i <= |h|
    ensures |r.0| == |h| && i <= r.1
    decreases |h| - i
  {
    if 2 * i + 1 >= |h| then (h, i)
    else
      var c := BetterChild(h, i);
      if !Less(h[c], h[i]) then (h, i) else SiftDown(Swap(h, i, c), c)
  }

  function Pushed(h: seq<Eval>, x: Eval): (r: seq<Eval>) {
    SiftUp(h + [x], |h|)
  }

  /** `heap.Fix` after position `i` was overwritten. */
  function Fixed(h: seq<Eval>, i: nat): (r: seq<Eval>)
    requires i < |h|
  {
    var d := SiftDown(h, i);
    if d.1 > i then d.0 else SiftUp(d.0, i)
  }

  /** `heap.Pop`: the root goes to the end, the rest is sifted, the end is cut off. */
  function Popped(h: seq<Eval>): (r: (Eval, seq<Eval>))
    requires 0 < |h|
  {
    (h[0], SiftDown(Swap(h, 0, |h| - 1)[..|h| - 1], 0).0)
  }

  // ---------- Sifting permutes ----------

  lemma SwapPermutes(h: seq<Eval>, i: nat, j: nat)
    requires i < |h| && j < |h|
    ensures multiset(Swap(h, i, j)) == multiset(h)
  {
  }

  lemma {:induction false} SiftUpPermutes(h: seq<Eval>, j: nat)
    requires j < |h|
    ensures multiset(SiftUp(h, j)) == multiset(h)
    decreases j
  {
    if j != 0 && Less(h[j], h[Parent(j)]) {
      SwapPermutes(h, Parent(j), j);
      SiftUpPermutes(Swap(h, Parent(j), j), Parent(j));
    }
  }

  lemma {:induction false} SiftDownPermutes(h: seq<Eval>, i: nat)
    requires i <= |h|
    ensures multiset(SiftDown(h, i).0) == multiset(h)
    decreases |h| - i
  {
    if 2 * i + 1 < |h| {
      var c := BetterChild(h, i);
      if Less(h[c], h[i]) {
        SwapPermutes(h, i, c);
        SiftDownPermutes(Swap(h, i, c), c);
      }
    }
  }

  // ---------- Sifting restores the heap order ----------

  lemma {:induction false} SiftUpRestores(h: seq<Eval>, j: nat)
    requires j < |h| && HeapExcept(h, j) && ChildrenOrdered(h, j)
    ensures IsHeap(SiftUp(h, j))
    decreases j
  {
    if j == 0 || !Less(h[j], h[Parent(j)]) {
      forall k | 0 < k < |h| ensures Ordered(h, k) {}
    } else {
      var p := Parent(j);
      var g := Swap(h, p, j);
      forall k | 0 < k < |g| && k != p ensures Ordered(g, k) {
        assert Ordered(h, k) || k == j;
      }
      assert HeapExcept(g, p) && ChildrenOrdered(g, p);
      SiftUpRestores(g, p);
    }
  }

  lemma {:induction false} SiftDownRestores(h: seq<Eval>, i: nat)
    requires i <= |h| && HeapExcept(h, i)
    ensures var d := SiftDown(h, i);
            if d.1 > i then IsHeap(d.0) else d.0 == h && ChildrenOrdered(h, i)
    decreases |h| - i
  {
    if 2 * i + 1 < |h| {
      var c := BetterChild(h, i);
      BetterChildPrecedes(h, i);
      if Less(h[c], h[i]) {
        var g := Swap(h, i, c);
        forall k | 0 < k < |g| && Parent(k) != c ensures Ordered(g, k) {
          if k != i && Parent(k) != i { assert Ordered(h, k); }
        }
        forall k | 0 < k < |g| && Parent(k) == c ensures MayPrecede(g[Parent(c)], g[k]) {
          assert Ordered(h, k);
        }
        SiftDownRestores(g, c);
        if SiftDown(g, c).1 == c {
          forall k | 0 < k < |g| ensures Ordered(g, k) {}
        }
      }
    }
  }

  // ---------- The heap operations ----------

  lemma {:induction false} RootPrecedes(h: seq<Eval>, k: nat)
    requires IsHeap(h) && k < |h|
    ensures MayPrecede(h[0], h[k])
  {
    if k > 0 {
      assert Ordered(h, k);
      RootPrecedes(h, Parent(k));
    }
  }

  lemma RootIsBest(h: seq<Eval>)
    requires IsHeap(h) && 0 < |h|
    ensures IsBest(h[0], multiset(h))
  {
    forall y | y in multiset(h) ensures MayPrecede(h[0], y) {
      var k :| 0 <= k < |h| && h[k] == y;
      RootPrecedes(h, k);
    }
  }

  lemma PushedSpec(h: seq<Eval>, x: Eval)
    requires IsHeap(h)
    ensures IsHeap(Pushed(h, x)) && multiset(Pushed(h, x)) == multiset(h) + multiset{x}
  {
    var g := h + [x];
    forall k | 0 < k < |g| && k != |h| ensures Ordered(g, k) { assert Ordered(h, k); }
    SiftUpRestores(g, |h|);
    SiftUpPermutes(g, |h|);
  }

  lemma FixedSpec(h: seq<Eval>, i: nat, x: Eval)
    requires IsHeap(h) && i < |h|
    ensures IsHeap(Fixed(h[i := x], i))
    ensures multiset(Fixed(h[i := x], i)) == multiset(h) - multiset{h[i]} + multiset{x}
  {
    var g := h[i := x];
    forall k | 0 < k < |g| && k != i && Parent(k) != i ensures Ordered(g, k) { assert Ordered(h, k); }
    forall k | 0 < k < |g| && Parent(k) == i && 0 < i ensures MayPrecede(g[Parent(i)], g[k]) {
      assert Ordered(h, k) && Ordered(h, i);
    }
    SiftDownRestores(g, i);
    SiftDownPermutes(g, i);
    if SiftDown(g, i).1 == i {
      SiftUpRestores(g, i);
      SiftUpPermutes(g, i);
    }
  }

  lemma PoppedSpec(h: seq<Eval>)
    requires IsHeap(h) && 0 < |h|
    ensures var (x, r) := Popped(h);
            IsHeap(r) && multiset(h) == multiset(r) + multiset{x} && IsBest(x, multiset(h))
  {
    var n := |h| - 1;
    var s := Swap(h, 0, n);
    var g := s[..n];
    assert s == g + [h[0]];
    SwapPermutes(h, 0, n);
    forall k | 0 < k < |g| && Parent(k) != 0 ensures Ordered(g, k) { assert Ordered(h, k); }
    SiftDownRestores(g, 0);
    SiftDownPermutes(g, 0);
    if SiftDown(g, 0).1 == 0 {
      forall k | 0 < k < |g| ensures Ordered(g, k) {}
    }
    RootIsBest(h);
  }

  // ---------- The heap in an array ----------

  /** `up` of container/heap on the first `n` elements of `a`. */
  method Up(a: array<Eval>, n: nat, j0: nat)
    requires j0 < n <= a.Length
    modifies a
    ensures a[..n] == SiftUp(old(a[..n]), j0)
    ensures a[n..] == old(a[n..])
  {
    var j: nat := j0;
    while true
      invariant j < n
      invariant SiftUp(a[..n], j) == SiftUp(old(a[..n]), j0)
      invariant a[n..] == old(a[n..])
      decreases j
    {
      if j == 0 { return; }
      var i := (j - 1) / 2;
      if !Less(a[j], a[i]) { return; }
      ghost var before := a[..n];
      a[i], a[j] := a[j], a[i];
      assert a[..n] == Swap(before, i, j);
      j := i;
    }
  }

  /** `down` of container/heap: only the first `n` elements take part. */
  method Down(a: array<Eval>, i0: nat, n: nat) returns (moved: bool)
    requires i0 <= n <= a.Length
    modifies a
    ensures a[..n] == SiftDown(old(a[..n]), i0).0
    ensures moved == (SiftDown(old(a[..n]), i0).1 > i0)
    ensures a[n..] == old(a[n..])
  {
    var i: nat := i0;
    ghost var h := a[..n];
    ghost var result := SiftDown(h, i0);
    while true
      invariant i0 <= i <= n
      invariant a[..n] == h && SiftDown(h, i) == result
      invariant a[n..] == old(a[n..])
      decreases n - i
    {
      var j: nat := 2 * i + 1;
      if j >= n { return i > i0; }
      if j + 1 < n && Less(a[j + 1], a[j]) { j := j + 1; }
      assert j == BetterChild(h, i);
      if !Less(a[j], a[i]) { return i > i0; }
      assert a[i] == h[i] && a[j] == h[j];
      a[i], a[j] := a[j], a[i];
      h := Swap(h, i, j);
      assert a[..n] == h;
      i := j;
    }
  }

  /** The first position holding the evaluation `id`, or -1. */
  method GetEvaluation(h: seq<Eval>, id: EvalId) returns (i: int)
    ensures -1 <= i < |h|
    ensures i >= 0 ==> h[i].id == id && forall j :: 0 <= j < i ==> h[j].id != id
    ensures i == -1 <==> forall e :: e in h ==> e.id != id
  {
    for k := 0 to |h|
      invariant forall j :: 0 <= j < k ==> h[j].id != id
    {
      if h[k].id == id { return k; }
    }
    return -1;
  }

  /** A growable slice of pending evaluations kept in heap order. */
  class PendingEvaluations {
    var store: array<Eval>
    var size: nat

    ghost predicate Valid()
      reads this, store
    {
      size <= store.Length && IsHeap(store[..size])
    }

    ghost function Elements(): (h: seq<Eval>)
      requires Valid()
      reads this, store
    {
      store[..size]
    }

    constructor ()
      ensures Valid() && Elements() == [] && fresh(store)
    {
      store, size := new Eval[0], 0;
    }

    /** `heap.Push`: append, growing the array when it is full, and sift up. */
    method Push(x: Eval)
      requires Valid()
      modifies this, store
      ensures Valid() && Elements() == Pushed(old(Elements()), x)
      ensures store == old(store) || fresh(store)
    {
      ghost var h := store[..size];
      if size == store.Length {
        var bigger := new Eval[2 * size + 1](i => x);
        forall i | 0 <= i < size { bigger[i] := store[i]; }
        store := bigger;
      }
      store[size] := x;
      assert store[..size + 1] == h + [x];
      size := size + 1;
      Up(store, size, size - 1);
      PushedSpec(h, x);
    }

    /** `heap.Pop`. */
    method Pop() returns (x: Eval)
      requires Valid() && size > 0
      modifies this, store
      ensures Valid() && store == old(store)
      ensures (x, Elements()) == Popped(old(Elements())) && IsBest(x, multiset(old(Elements())))
    {
      ghost var h := store[..size];
      var n := size - 1;
      store[0], store[n] := store[n], store[0];
      ghost var g := Swap(h, 0, n)[..n];
      assert store[..n] == g && store[n..][0] == h[0];
      var _ := Down(store, 0, n);
      assert store[n] == store[n..][0] == h[0];
      x := store[n];
      size := n;
      assert store[..size] == SiftDown(g, 0).0 == Popped(h).1;
      PoppedSpec(h);
    }

    /** `pending[i] = x` followed by `heap.Fix`. */
    method Replace(i: nat, x: Eval)
      requires Valid() && i < size
      modifies store
      ensures Valid() && Elements() == Fixed(old(Elements())[i := x], i)
    {
      ghost var h := store[..size];
      store[i] := x;
      assert store[..size] == h[i := x];
      var moved := Down(store, i, size);
      if !moved { Up(store, size, i); }
      FixedSpec(h, i, x);
    }
  }
}
