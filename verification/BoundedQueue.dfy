/** The bounded queue of core/ipc/BoundedQueue.h. Every operation holds the queue's
    mutex for its whole body, so one operation is one atomic step. */
module Queues {

  datatype Option<+T> = None | Some(value: T) {
    function GetOr(default: T): T {
      if None? then default else value
    }
  }

  function Max(a: int, b: int): int {
    if a < b then b else a
  }

  /** The fields behind the mutex, and what each operation makes of them. */
  datatype Queue<T> = Queue(capacity: nat, items: seq<T>, dropped: nat, high: nat, closed: bool) {

    predicate Wf() {
      && 0 < capacity
      && |items| <= high <= capacity
    }

    function Append(x: T): Queue<T> {
      this.(items := items + [x], high := Max(high, |items| + 1))
    }

    /** Drops the oldest entry of a full queue. */
    function PushLatest(x: T): Queue<T>
      requires Wf()
    {
      if closed then this
      else if |items| == capacity then this.(items := items[1..], dropped := dropped + 1).Append(x)
      else Append(x)
    }

    predicate Accepts() {
      !closed && |items| != capacity
    }

    /** Refuses when full. */
    function TryPush(x: T): Queue<T> {
      if Accepts() then Append(x) else this
    }

    function Front(): Option<T> {
      if items == [] then None else Some(items[0])
    }

    function Pop(): Queue<T> {
      if items == [] then this else this.(items := items[1..])
    }

    function Newest(): Option<T> {
      if items == [] then None else Some(items[|items| - 1])
    }

    function PopLatest(): Queue<T> {
      if items == [] then this else this.(items := [], dropped := dropped + |items| - 1)
    }

    function Clear(): Queue<T> {
      this.(items := [])
    }

    function Close(discard: bool): Queue<T> {
      this.(closed := true, items := if discard then [] else items)
    }
  }

  function Empty<T>(capacity: nat): Queue<T> {
    Queue(capacity, [], 0, 0, false)
  }

  // ----- every history of operations -----

  datatype Op<T> =
    | OpPushLatest(x: T) | OpTryPush(x: T) | OpPop | OpPopLatest | OpClear | OpClose(discard: bool)

  /** A queue with its history: every item it accepted, the positions (in that list) of
      the items it handed out, and how many items clear() and close() discarded. */
  datatype Ledger<T> = Ledger(q: Queue<T>, accepted: seq<T>, taken: seq<nat>, discarded: nat)

  function Apply<T>(l: Ledger<T>, op: Op<T>): (r: Ledger<T>)
    requires l.q.Wf() && |l.q.items| <= |l.accepted|
    ensures r.q.Wf() && |r.q.items| <= |r.accepted|
  {
    match op
    case OpPushLatest(x) =>
      if l.q.closed then l else l.(q := l.q.PushLatest(x), accepted := l.accepted + [x])
    case OpTryPush(x) =>
      if l.q.Accepts() then l.(q := l.q.TryPush(x), accepted := l.accepted + [x]) else l
    case OpPop =>
      if l.q.items == [] then l
      else l.(q := l.q.Pop(), taken := l.taken + [|l.accepted| - |l.q.items|])
    case OpPopLatest =>
      if l.q.items == [] then l
      else l.(q := l.q.PopLatest(), taken := l.taken + [|l.accepted| - 1])
    case OpClear =>
      l.(q := l.q.Clear(), discarded := l.discarded + |l.q.items|)
    case OpClose(d) =>
      l.(q := l.q.Close(d), discarded := l.discarded + if d then |l.q.items| else 0)
  }

  ghost predicate LedgerInv<T>(l: Ledger<T>) {
    && l.q.Wf()
    && |l.q.items| <= |l.accepted|
    && l.q.items == l.accepted[|l.accepted| - |l.q.items|..]
    && (forall i :: 0 <= i < |l.taken| ==> l.taken[i] < |l.accepted| - |l.q.items|)
    && (forall i, j :: 0 <= i < j < |l.taken| ==> l.taken[i] < l.taken[j])
    && |l.accepted| == |l.taken| + l.q.dropped + l.discarded + |l.q.items|
  }

  lemma PushLatestKeepsLedger<T>(l: Ledger<T>, x: T)
    requires LedgerInv(l)
    ensures LedgerInv(Apply(l, OpPushLatest(x)))
  {
  }

  lemma ApplyKeepsLedger<T>(l: Ledger<T>, op: Op<T>)
    requires LedgerInv(l)
    ensures LedgerInv(Apply(l, op))
  {
    if op.OpPushLatest? { PushLatestKeepsLedger(l, op.x); }
  }

  function Play<T>(l: Ledger<T>, ops: seq<Op<T>>): (r: Ledger<T>)
    requires l.q.Wf() && |l.q.items| <= |l.accepted|
    decreases |ops|
  {
    if ops == [] then l else Play(Apply(l, ops[0]), ops[1..])
  }

  /** Over every history: the queue holds the newest accepted items, items leave in the
      order they were accepted and at most once, and each accepted item is exactly one of
      handed out, counted as dropped, discarded, or still queued. */
  lemma {:induction false} QueueConserves<T>(l: Ledger<T>, ops: seq<Op<T>>)
    requires LedgerInv(l)
    ensures LedgerInv(Play(l, ops))
    decreases |ops|
  {
    if ops != [] {
      ApplyKeepsLedger(l, ops[0]);
      QueueConserves(Apply(l, ops[0]), ops[1..]);
    }
  }

  /** A queue fed by tryPush and drained by pop alone loses nothing it accepted and
      reorders nothing: what came out, followed by what is queued, is what went in. */
  lemma {:induction false} FifoIsLossless<T>(l: Ledger<T>, ops: seq<Op<T>>)
    requires LedgerInv(l) && l.q.dropped == l.discarded == 0
    requires forall i :: 0 <= i < |ops| ==> ops[i].OpTryPush? || ops[i].OpPop? || ops[i] == OpClose(false)
    ensures var r := Play(l, ops);
            && r.q.dropped == r.discarded == 0
            && forall i :: 0 <= i < |r.taken| ==> r.taken[i] == i
    decreases |ops|
  {
    if ops == [] {
      forall i | 0 <= i < |l.taken| ensures l.taken[i] == i {
        DenseFromBounds(l.taken, |l.taken|, i);
      }
    } else {
      ApplyKeepsLedger(l, ops[0]);
      FifoIsLossless(Apply(l, ops[0]), ops[1..]);
    }
  }

  /** A strictly increasing list of n naturals below n lists 0, 1, ..., n - 1. */
  lemma {:induction false} DenseFromBounds(s: seq<nat>, n: nat, i: nat)
    requires |s| == n && i < n
    requires forall k :: 0 <= k < n ==> s[k] < n
    requires forall k, m :: 0 <= k < m < n ==> s[k] < s[m]
    ensures s[i] == i
  {
    var up := 0;
    while up < i
      invariant 0 <= up <= i && up <= s[up]
    {
      up := up + 1;
    }
    var down := n - 1;
    while i < down
      invariant i <= down < n && s[down] <= down
    {
      down := down - 1;
    }
  }

  // ----- what each operation decides -----

  ghost function History<T>(capacity: nat, ops: seq<Op<T>>): (l: Ledger<T>)
    requires 0 < capacity
    ensures LedgerInv(l)
  {
    var l := Ledger(Empty(capacity), [], [], 0);
    QueueConserves(l, ops);
    Play(l, ops)
  }

  lemma {:induction false} PlayAppend<T>(l: Ledger<T>, ops: seq<Op<T>>, op: Op<T>)
    requires LedgerInv(l)
    ensures LedgerInv(Play(l, ops))
    ensures Play(l, ops + [op]) == Apply(Play(l, ops), op)
    decreases |ops|
  {
    QueueConserves(l, ops);
    if ops == [] {
      assert ops + [op] == [op];
      assert Play(l, [op]) == Play(Apply(l, op), []);
    } else {
      ApplyKeepsLedger(l, ops[0]);
      PlayAppend(Apply(l, ops[0]), ops[1..], op);
      assert (ops + [op])[1..] == ops[1..] + [op];
    }
  }

  ghost predicate ClosedIn<T>(ops: seq<Op<T>>) {
    exists k :: 0 <= k < |ops| && ops[k].OpClose?
  }

  ghost predicate Reached<T>(capacity: nat, ops: seq<Op<T>>, k: nat, n: nat)
    requires 0 < capacity
  {
    k <= |ops| && |History(capacity, ops[..k]).q.items| == n
  }

  /** What one more operation does to the marks. */
  lemma OneMore<T>(capacity: nat, ops: seq<Op<T>>) returns (less: seq<Op<T>>, op: Op<T>)
    requires 0 < capacity && ops != []
    ensures ops == less + [op] && |less| == |ops| - 1
    ensures
      var was, q := History(capacity, less).q, History(capacity, ops).q;
      && q.capacity == was.capacity
      && q.closed == (was.closed || op.OpClose?)
      && (q.high == was.high || q.high == |q.items|)
      && q.high >= was.high && q.high >= |q.items|
  {
    less, op := ops[..|ops| - 1], ops[|ops| - 1];
    assert ops == less + [op];
    PlayAppend(Ledger(Empty(capacity), [], [], 0), less, op);
  }

  lemma {:induction false} ClosedFollowsHistory<T>(capacity: nat, ops: seq<Op<T>>)
    requires 0 < capacity
    ensures History(capacity, ops).q.capacity == capacity
    ensures History(capacity, ops).q.closed <==> ClosedIn(ops)
    decreases |ops|
  {
    if ops != [] {
      var less, op := OneMore(capacity, ops);
      ClosedFollowsHistory(capacity, less);
      ClosedAppend(less, op);
    }
  }

  lemma {:induction false} HighIsReached<T>(capacity: nat, ops: seq<Op<T>>)
    requires 0 < capacity
    ensures exists k: nat :: Reached(capacity, ops, k, History(capacity, ops).q.high)
    decreases |ops|
  {
    assert ops[..|ops|] == ops;
    var q := History(capacity, ops).q;
    if ops == [] || q.high == |q.items| {
      assert Reached(capacity, ops, |ops|, q.high);
    } else {
      var less, op := OneMore(capacity, ops);
      HighIsReached(capacity, less);
      var k: nat :| Reached(capacity, less, k, q.high);
      assert ops[..k] == less[..k];
      assert Reached(capacity, ops, k, q.high);
    }
  }

  lemma {:induction false} HighIsBound<T>(capacity: nat, ops: seq<Op<T>>, k: nat, n: nat)
    requires 0 < capacity && Reached(capacity, ops, k, n)
    ensures n <= History(capacity, ops).q.high
    decreases |ops|
  {
    if k == |ops| {
      assert ops[..k] == ops;
    } else {
      var less, op := OneMore(capacity, ops);
      assert ops[..k] == less[..k];
      HighIsBound(capacity, less, k, n);
    }
  }

  /** Over every history of an empty queue: it is closed if and only if it was closed once;
      the high mark is the greatest length it ever had. */
  lemma MarksFollowHistory<T>(capacity: nat, ops: seq<Op<T>>)
    requires 0 < capacity
    ensures
      var q := History(capacity, ops).q;
      && (q.closed <==> ClosedIn(ops))
      && (exists k: nat :: Reached(capacity, ops, k, q.high))
      && (forall k: nat, n: nat :: Reached(capacity, ops, k, n) ==> n <= q.high)
  {
    ClosedFollowsHistory(capacity, ops);
    HighIsReached(capacity, ops);
    forall k: nat, n: nat | Reached(capacity, ops, k, n) ensures n <= History(capacity, ops).q.high {
      HighIsBound(capacity, ops, k, n);
    }
  }

  lemma ClosedAppend<T>(ops: seq<Op<T>>, op: Op<T>)
    ensures ClosedIn(ops + [op]) <==> ClosedIn(ops) || op.OpClose?
  {
    var all := ops + [op];
    assert all[|ops|] == op;
    if ClosedIn(ops) {
      var k :| 0 <= k < |ops| && ops[k].OpClose?;
      assert all[k] == ops[k];
    }
  }

  /** By the history alone: which operation's item gets in. */
  ghost predicate GetsIn<T>(capacity: nat, ops: seq<Op<T>>, op: Op<T>)
    requires 0 < capacity
  {
    !ClosedIn(ops) && (op.OpPushLatest? || (op.OpTryPush? && |History(capacity, ops).q.items| < capacity))
  }

  /** Over every history: an item gets in exactly if the queue was never closed and, for
      tryPush, has room; the oldest is dropped only by pushLatest and only from a full queue;
      pop hands out the oldest item and popLatest the newest, dropping the others; only clear
      and a discarding close discard, and then everything. */
  lemma HistoryDecides<T>(capacity: nat, ops: seq<Op<T>>, op: Op<T>)
    requires 0 < capacity
    ensures
      var l, r := History(capacity, ops), History(capacity, ops + [op]);
      var n := |l.q.items|;
      && r.accepted == (if GetsIn(capacity, ops, op) then l.accepted + [op.x] else l.accepted)
      && r.q.dropped - l.q.dropped
         == (if op.OpPushLatest? && GetsIn(capacity, ops, op) && n == capacity then 1
             else if op.OpPopLatest? && n > 0 then n - 1 else 0)
      && r.discarded - l.discarded == (if op.OpClear? || op == OpClose(true) then n else 0)
      && (if (op.OpPop? || op.OpPopLatest?) && n > 0
          then r.taken == l.taken + [if op.OpPop? then |l.accepted| - n else |l.accepted| - 1]
          else r.taken == l.taken)
      && (n > 0 ==> l.q.Front() == Some(l.accepted[|l.accepted| - n]) && l.q.Newest() == Some(l.accepted[|l.accepted| - 1]))
      && (n == 0 ==> l.q.Front() == l.q.Newest() == None)
  {
    ClosedFollowsHistory(capacity, ops);
    PlayAppend(Ledger(Empty(capacity), [], [], 0), ops, op);
  }

  class BoundedQueue<T(0)> {
    const capacity: nat
    var items: seq<T>
    var dropped: nat
    var high: nat
    var closed: bool

    function State(): Queue<T>
      reads this
    {
      Queue(capacity, items, dropped, high, closed)
    }

    ghost predicate Valid()
      reads this
    {
      State().Wf()
    }

    constructor (n: nat)
      requires 0 < n
      ensures Valid() && State() == Empty(n)
    {
      capacity := n;
      items, dropped, high, closed := [], 0, 0, false;
    }

    method PushLatest(x: T) returns (ok: bool)
      requires Valid()
      modifies this
      ensures Valid()
      ensures ok == !old(closed)
      ensures State() == old(State()).PushLatest(x)
    {
      if closed { return false; }
      if |items| == capacity {
        items := items[1..];
        dropped := dropped + 1;
      }
      items := items + [x];
      high := Max(high, |items|);
      return true;
    }

    method TryPush(x: T) returns (ok: bool)
      requires Valid()
      modifies this
      ensures Valid()
      ensures ok == old(State()).Accepts()
      ensures State() == old(State()).TryPush(x)
    {
      if closed || |items| == capacity { return false; }
      items := items + [x];
      high := Max(high, |items|);
      return true;
    }

    /** The wait is over: either an item arrived, or the queue closed or the wait timed out empty. */
    method Pop() returns (item: Option<T>)
      requires Valid()
      modifies this
      ensures Valid()
      ensures item == old(State()).Front()
      ensures State() == old(State()).Pop()
    {
      if items == [] { return None; }
      item := Some(items[0]);
      items := items[1..];
    }

    method PopLatest() returns (item: Option<T>)
      requires Valid()
      modifies this
      ensures Valid()
      ensures item == old(State()).Newest()
      ensures State() == old(State()).PopLatest()
    {
      if items == [] { return None; }
      dropped := dropped + |items| - 1;
      item := Some(items[|items| - 1]);
      items := [];
    }

    method Clear()
      requires Valid()
      modifies this
      ensures Valid() && State() == old(State()).Clear()
    {
      items := [];
    }

    method Close(discard: bool)
      requires Valid()
      modifies this
      ensures Valid() && State() == old(State()).Close(discard)
    {
      closed := true;
      if discard { items := []; }
    }
  }
}
