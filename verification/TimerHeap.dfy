/** The binary heap of core/reactor/TimerManager.h, ordered by expiry, earliest first. */
module TimerHeap {

  /** A timer; expiries are nanoseconds on the steady clock, periods milliseconds. */
  datatype Entry = Entry(id: nat, expiry: nat, periodMs: nat, active: bool)

  function Parent(j: nat): (p: nat)
    requires 0 < j
    ensures p < j && (j == 2 * p + 1 || j == 2 * p + 2)
  {
    (j - 1) / 2
  }

  predicate InOrder(h: seq<Entry>, j: nat)
    requires 0 < j < |h|
  {
    h[Parent(j)].expiry <= h[j].expiry
  }

  ghost predicate IsHeap(h: seq<Entry>) {
    forall j :: 0 < j < |h| ==> InOrder(h, j)
  }

  ghost predicate DistinctIds(h: seq<Entry>) {
    forall i, j :: 0 <= i < |h| && 0 <= j < |h| && i != j ==> h[i].id != h[j].id
  }

  lemma {:induction false} RootIsEarliest(h: seq<Entry>, k: nat)
    requires IsHeap(h) && k < |h|
    ensures h[0].expiry <= h[k].expiry
    decreases k
  {
    if k > 0 {
      assert InOrder(h, k);
      RootIsEarliest(h, Parent(k));
    }
  }

  function Swap(h: seq<Entry>, i: nat, j: nat): seq<Entry>
    requires i < |h| && j < |h|
  {
    h[i := h[j]][j := h[i]]
  }

  /** The same timers in another arrangement. */
  ghost predicate Rearranged(h: seq<Entry>, r: seq<Entry>) {
    && |r| == |h|
    && multiset(r) == multiset(h)
    && (DistinctIds(h) ==> DistinctIds(r))
  }

  lemma SwapRearranges(h: seq<Entry>, i: nat, j: nat)
    requires i < |h| && j < |h|
    ensures Rearranged(h, Swap(h, i, j))
  {
  }

  lemma RearrangedTwice(h: seq<Entry>, r: seq<Entry>, s: seq<Entry>)
    requires Rearranged(h, r) && Rearranged(r, s)
    ensures Rearranged(h, s)
  {
  }

  /** No child of entry i is earlier than t. */
  ghost predicate ChildrenFrom(h: seq<Entry>, i: nat, t: nat) {
    forall j :: 0 < j < |h| && Parent(j) == i ==> t <= h[j].expiry
  }

  /** A heap except that entry i may be earlier than its parent. */
  ghost predicate Rising(h: seq<Entry>, i: nat) {
    && i < |h|
    && (forall j :: 0 < j < |h| && j != i ==> InOrder(h, j))
    && (i > 0 ==> ChildrenFrom(h, i, h[Parent(i)].expiry))
  }

  lemma SwapRises(h: seq<Entry>, i: nat)
    requires 0 < i && Rising(h, i) && !InOrder(h, i)
    ensures Rising(Swap(h, Parent(i), i), Parent(i))
  {
    var p := Parent(i);
    var r := Swap(h, p, i);
    forall j | 0 < j < |r| && j != p ensures InOrder(r, j) {
      if j != i { assert InOrder(h, j); }
    }
    if p > 0 {
      forall j | 0 < j < |r| && Parent(j) == p ensures r[Parent(p)].expiry <= r[j].expiry {
        assert InOrder(h, p);
        if j != i { assert InOrder(h, j); }
      }
    }
  }

  /** push_heap: all but the last entry form a heap; the last rises to its place. */
  method PushHeap(h: seq<Entry>) returns (r: seq<Entry>)
    requires h != [] && IsHeap(h[..|h| - 1])
    ensures IsHeap(r) && Rearranged(h, r)
  {
    r := h;
    var i: nat := |h| - 1;
    forall j | 0 < j < |h| && j != i ensures InOrder(h, j) {
      assert InOrder(h[..|h| - 1], j);
    }
    while i > 0 && r[Parent(i)].expiry > r[i].expiry
      invariant Rising(r, i) && Rearranged(h, r)
      decreases i
    {
      SwapRises(r, i);
      SwapRearranges(r, Parent(i), i);
      RearrangedTwice(h, r, Swap(r, Parent(i), i));
      r := Swap(r, Parent(i), i);
      i := Parent(i);
    }
    if i > 0 { assert InOrder(r, i); }
  }

  /** A heap except that entry i may be later than its children. */
  ghost predicate Sinking(h: seq<Entry>, i: nat) {
    && (forall j :: 0 < j < |h| && Parent(j) != i ==> InOrder(h, j))
    && (0 < i < |h| ==> ChildrenFrom(h, i, h[Parent(i)].expiry))
  }

  lemma SwapSinks(h: seq<Entry>, i: nat, c: nat)
    requires Sinking(h, i) && 0 < c < |h| && Parent(c) == i
    requires ChildrenFrom(h, i, h[c].expiry) && !InOrder(h, c)
    ensures Sinking(Swap(h, i, c), c)
  {
    var r := Swap(h, i, c);
    forall j | 0 < j < |r| && Parent(j) != c ensures InOrder(r, j) {
      if j != i && Parent(j) != i { assert InOrder(h, j); }
    }
    forall j | 0 < j < |r| && Parent(j) == c ensures r[Parent(c)].expiry <= r[j].expiry {
      assert InOrder(h, j);
    }
  }

  lemma StopsSinking(h: seq<Entry>, i: nat)
    requires Sinking(h, i)
    requires i < |h| ==> ChildrenFrom(h, i, h[i].expiry)
    ensures IsHeap(h)
  {
  }

  function EarlierChild(h: seq<Entry>, i: nat): (c: nat)
    requires 2 * i + 1 < |h|
    ensures 0 < c < |h| && Parent(c) == i && ChildrenFrom(h, i, h[c].expiry)
  {
    var c := 2 * i + 1;
    if c + 1 < |h| && h[c + 1].expiry < h[c].expiry then c + 1 else c
  }

  method SiftDown(h: seq<Entry>) returns (r: seq<Entry>)
    requires Sinking(h, 0)
    ensures IsHeap(r) && Rearranged(h, r)
  {
    r := h;
    var i: nat := 0;
    while 2 * i + 1 < |r|
      invariant Sinking(r, i) && Rearranged(h, r)
      decreases |h| - i
    {
      var c := EarlierChild(r, i);
      if r[i].expiry <= r[c].expiry {
        StopsSinking(r, i);
        return;
      }
      SwapSinks(r, i, c);
      SwapRearranges(r, i, c);
      RearrangedTwice(h, r, Swap(r, i, c));
      r := Swap(r, i, c);
      i := c;
    }
    StopsSinking(r, i);
  }

  /** pop_heap: the earliest entry moves to the end, the rest is a heap again. */
  method PopHeap(h: seq<Entry>) returns (r: seq<Entry>)
    requires h != [] && IsHeap(h)
    ensures |r| == |h| && IsHeap(r[..|r| - 1]) && r[|r| - 1] == h[0]
    ensures Rearranged(h, r)
  {
    var n := |h| - 1;
    var s := Swap(h, 0, n);
    SwapRearranges(h, 0, n);
    assert Sinking(s[..n], 0) by {
      forall j | 0 < j < n && Parent(j) != 0 ensures InOrder(s[..n], j) {
        assert InOrder(h, j);
      }
    }
    var front := SiftDown(s[..n]);
    r := front + [h[0]];
    PopRearranges(h, s, front);
  }

  lemma PopRearranges(h: seq<Entry>, s: seq<Entry>, front: seq<Entry>)
    requires h != [] && s == Swap(h, 0, |h| - 1) && Rearranged(h, s)
    requires Rearranged(s[..|h| - 1], front)
    ensures Rearranged(h, front + [h[0]])
  {
    var n := |h| - 1;
    var r := front + [h[0]];
    assert s == s[..n] + [h[0]];
    if DistinctIds(h) {
      assert DistinctIds(s[..n]);
      forall i | 0 <= i < n ensures r[i].id != h[0].id {
        assert front[i] in multiset(s[..n]);
        var k :| 0 <= k < n && s[k] == front[i];
        assert s[k].id != s[n].id;
      }
    }
  }
}
