/**
 The timer queue's container: a binary min-heap of entries ordered by fire time, kept in a sequence
 whose element i has its parent at (i - 1) / 2.
 */
module TimerHeap {
  /** `interval` is 0 for a one-shot timer. Times are in milliseconds. */
  datatype Entry = Entry(handle: nat, nextFire: nat, interval: nat)

  /** No entry fires before its parent. */
  ghost predicate IsHeap(h: seq<Entry>)
  {
    forall i {:trigger h[i]} :: 0 < i < |h| ==> h[(i - 1) / 2].nextFire <= h[i].nextFire
  }

  /** h' is a heap of the entries of h and e. */
  ghost predicate Pushed(h: seq<Entry>, e: Entry, h': seq<Entry>)
  {
    IsHeap(h') && multiset(h') == multiset(h) + multiset{e}
  }

  /** e is the front of h, and h' is a heap of the other entries. */
  ghost predicate Popped(h: seq<Entry>, e: Entry, h': seq<Entry>)
  {
    h != [] && e == h[0] && IsHeap(h') && multiset(h) == multiset(h') + multiset{e}
  }

  lemma {:induction false} FrontBelow(h: seq<Entry>, i: nat)
    requires IsHeap(h) && i < |h|
    ensures h[0].nextFire <= h[i].nextFire
  {
    if i > 0 { FrontBelow(h, (i - 1) / 2); }
  }

  /** The front of a heap has the earliest fire time of all its entries. */
  lemma FrontIsEarliest(h: seq<Entry>, e: Entry)
    requires IsHeap(h) && e in multiset(h)
    ensures h != [] && h[0].nextFire <= e.nextFire
  {
    assert e in h;
    var i :| 0 <= i < |h| && h[i] == e;
    FrontBelow(h, i);
  }

  function Swap(h: seq<Entry>, i: nat, j: nat): (r: seq<Entry>)
    requires i < |h| && j < |h|
    ensures multiset(r) == multiset(h)
  {
    h[i := h[j]][j := h[i]]
  }

  /** A heap but for i, which may fire before its parent; the children of i do not. */
  ghost predicate HeapButUp(h: seq<Entry>, i: nat)
  {
    && (forall k {:trigger h[k]} :: 0 < k < |h| && k != i ==> h[(k - 1) / 2].nextFire <= h[k].nextFire)
    && (forall k :: 0 < i && 0 < k < |h| && (k - 1) / 2 == i ==> h[(i - 1) / 2].nextFire <= h[k].nextFire)
  }

  /** A heap but for i, which may fire after its children; the parent of i does not. */
  ghost predicate HeapButDown(h: seq<Entry>, i: nat)
  {
    && (forall k {:trigger h[k]} :: 0 < k < |h| && (k - 1) / 2 != i ==> h[(k - 1) / 2].nextFire <= h[k].nextFire)
    && (forall k :: 0 < i < |h| && 0 < k < |h| && (k - 1) / 2 == i ==> h[(i - 1) / 2].nextFire <= h[k].nextFire)
  }

  lemma StepUp(h: seq<Entry>, i: nat)
    requires 0 < i < |h| && HeapButUp(h, i) && h[(i - 1) / 2].nextFire > h[i].nextFire
    ensures HeapButUp(Swap(h, i, (i - 1) / 2), (i - 1) / 2)
  {
  }

  lemma StepDown(h: seq<Entry>, i: nat, c: nat)
    requires 0 < c < |h| && (c - 1) / 2 == i && HeapButDown(h, i) && h[c].nextFire < h[i].nextFire
    requires forall k :: 0 < k < |h| && (k - 1) / 2 == i ==> h[c].nextFire <= h[k].nextFire
    ensures HeapButDown(Swap(h, i, c), c)
  {
    var g := Swap(h, i, c);
    forall k {:trigger g[k]} | 0 < k < |g| && (k - 1) / 2 != c ensures g[(k - 1) / 2].nextFire <= g[k].nextFire {
      StepDownElsewhere(h, i, c, k);
    }
    forall k | 0 < k < |g| && (k - 1) / 2 == c ensures g[(c - 1) / 2].nextFire <= g[k].nextFire {
      StepDownBelow(h, i, c, k);
    }
  }

  lemma StepDownBelow(h: seq<Entry>, i: nat, c: nat, k: nat)
    requires 0 < c < |h| && (c - 1) / 2 == i && HeapButDown(h, i) && 0 < k < |h| && (k - 1) / 2 == c
    ensures Swap(h, i, c)[(c - 1) / 2].nextFire <= Swap(h, i, c)[k].nextFire
  {
    assert Swap(h, i, c)[k] == h[k] && Swap(h, i, c)[i] == h[c];
  }

  lemma StepDownElsewhere(h: seq<Entry>, i: nat, c: nat, k: nat)
    requires 0 < c < |h| && (c - 1) / 2 == i && HeapButDown(h, i) && h[c].nextFire < h[i].nextFire
    requires 0 < k < |h| && (k - 1) / 2 != c && ((k - 1) / 2 == i ==> h[c].nextFire <= h[k].nextFire)
    ensures Swap(h, i, c)[(k - 1) / 2].nextFire <= Swap(h, i, c)[k].nextFire
  {
    var p := (k - 1) / 2;
    if p == i {
      assert Swap(h, i, c)[p] == h[c];
    } else {
      assert Swap(h, i, c)[p] == h[p];
    }
  }

  /** push_heap: the last element moves up to its place. */
  method PushHeap(h: seq<Entry>, e: Entry) returns (r: seq<Entry>)
    requires IsHeap(h)
    ensures Pushed(h, e, r)
  {
    r := h + [e];
    var i := |h|;
    while i > 0 && r[(i - 1) / 2].nextFire > r[i].nextFire
      invariant 0 <= i < |r| && HeapButUp(r, i)
      invariant multiset(r) == multiset(h) + multiset{e}
    {
      StepUp(r, i);
      r := Swap(r, i, (i - 1) / 2);
      i := (i - 1) / 2;
    }
  }

  /** The child of i that fires first. */
  function EarlierChild(h: seq<Entry>, i: nat): (c: nat)
    requires 2 * i + 1 < |h|
    ensures 0 < c < |h| && (c - 1) / 2 == i
    ensures forall k :: 0 < k < |h| && (k - 1) / 2 == i ==> h[c].nextFire <= h[k].nextFire
  {
    if 2 * i + 2 < |h| && h[2 * i + 2].nextFire < h[2 * i + 1].nextFire then 2 * i + 2 else 2 * i + 1
  }

  /** An entry out of place at the front moves down. */
  method SiftDown(h: seq<Entry>) returns (r: seq<Entry>)
    requires HeapButDown(h, 0)
    ensures IsHeap(r) && multiset(r) == multiset(h)
  {
    r := h;
    var i := 0;
    while 2 * i + 1 < |r| && r[EarlierChild(r, i)].nextFire < r[i].nextFire
      invariant 0 <= i && HeapButDown(r, i)
      invariant multiset(r) == multiset(h) && |r| == |h|
      decreases |r| - i
    {
      var c := EarlierChild(r, i);
      StepDown(r, i, c);
      r := Swap(r, i, c);
      i := c;
    }
    SiftedIsHeap(r, i);
  }

  lemma SiftedIsHeap(h: seq<Entry>, i: nat)
    requires HeapButDown(h, i)
    requires 2 * i + 1 < |h| ==> h[EarlierChild(h, i)].nextFire >= h[i].nextFire
    ensures IsHeap(h)
  {
  }

  /** Without its front, and with the last entry in the front's place. */
  function FrontReplaced(h: seq<Entry>): (g: seq<Entry>)
    requires h != []
    ensures multiset(h) == multiset(g) + multiset{h[0]}
  {
    var m := |h| - 1;
    assert h == if m == 0 then [h[0]] else [h[0]] + h[1..m] + [h[m]];
    if m == 0 then [] else [h[m]] + h[1..m]
  }

  lemma ReplacedButFront(h: seq<Entry>)
    requires IsHeap(h) && h != []
    ensures HeapButDown(FrontReplaced(h), 0)
  {
    var g := FrontReplaced(h);
    forall k {:trigger g[k]} | 0 < k < |g| && (k - 1) / 2 != 0 ensures g[(k - 1) / 2].nextFire <= g[k].nextFire {
      assert g[k] == h[k] && g[(k - 1) / 2] == h[(k - 1) / 2];
    }
  }

  /** pop_heap and pop_back: the front leaves, the rest is a heap again. */
  method PopHeap(h: seq<Entry>) returns (e: Entry, r: seq<Entry>)
    requires IsHeap(h) && h != []
    ensures Popped(h, e, r)
  {
    e := h[0];
    ReplacedButFront(h);
    r := SiftDown(FrontReplaced(h));
  }
}
