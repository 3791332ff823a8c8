/** Timers of core/reactor/TimerManager.h: the heap with lazy cancellation, the drain loop
    and the arming of the timer descriptor, proved against the book of module TimerBook. */
module Timers {
  import opened Queues
  import opened TimerHeap
  import opened TimerBook

  function DeactivatedEntry(e: Entry, id: nat): Entry {
    if e.id == id then e.(active := false) else e
  }

  function Deactivated(h: seq<Entry>, id: nat): seq<Entry> {
    seq(|h|, i requires 0 <= i < |h| => DeactivatedEntry(h[i], id))
  }

  ghost function Ids(h: seq<Entry>): set<nat> {
    set e | e in h :: e.id
  }

  ghost function DueEntries(h: seq<Entry>, now: nat): set<nat> {
    set e | e in h && e.expiry <= now :: e.id
  }

  /** Entry e is marked active exactly when the book has its timer, and then agrees with it. */
  ghost predicate Agrees(e: Entry, b: Book) {
    && 1 <= e.id < b.next && b.running != Some(e.id)
    && (e.active <==> e.id in b.active)
    && (e.active ==> b.active[e.id] == Timer(e.expiry, e.periodMs))
  }

  /** Active heap entries and the book correspond, apart from the timer being executed. */
  ghost predicate EntriesOk(h: seq<Entry>, b: Book) {
    && IsHeap(h) && DistinctIds(h)
    && (forall e :: e in h ==> Agrees(e, b))
    && (forall id :: id in b.active ==> b.running == Some(id) || id in Ids(h))
  }

  /** The descriptor goes off no later than the earliest timer, or at once. */
  ghost predicate ArmedOk(h: seq<Entry>, armed: Option<nat>, clock: nat) {
    h != [] ==> armed.Some? && (armed.value <= h[0].expiry || armed.value <= clock + 1)
  }

  // ----- arming -----

  /** The relative time set on the descriptor: whole milliseconds, but never zero, which
      would disarm it. */
  function Delay(expiry: nat, now: nat): nat {
    if expiry > now then
      var ms := (expiry - now) / MS;
      if ms == 0 then 1 else ms * MS
    else 1
  }

  /** Truncation never arms late: a timer still to come is met at most a millisecond early,
      one already due is met at once, and the descriptor is never disarmed by accident. */
  lemma DelayIsNeverLate(expiry: nat, now: nat)
    ensures 0 < Delay(expiry, now)
    ensures expiry > now ==> now + Delay(expiry, now) <= expiry < now + Delay(expiry, now) + 1_000_000
    ensures expiry <= now ==> Delay(expiry, now) == 1
  {
  }

  // ----- arrangements -----

  lemma SameMembers(h: seq<Entry>, r: seq<Entry>)
    requires Rearranged(h, r)
    ensures forall e :: e in r <==> e in h
    ensures Ids(r) == Ids(h)
  {
    forall e ensures e in r <==> e in h {
      assert e in r <==> e in multiset(r);
      assert e in h <==> e in multiset(h);
    }
  }

  /** The book with the timer of entry e set. */
  function WithEntry(b: Book, e: Entry): Book {
    Book(b.active[e.id := Timer(e.expiry, e.periodMs)],
         if e.id < b.next then b.next else e.id + 1,
         if b.running == Some(e.id) then None else b.running, b.now)
  }

  lemma PushedOk(h: seq<Entry>, r: seq<Entry>, e: Entry, b: Book)
    requires EntriesOk(h, b) && IsHeap(r) && Rearranged(h + [e], r)
    requires e.active && e.id !in Ids(h) && 1 <= e.id
    ensures EntriesOk(r, WithEntry(b, e))
    ensures forall x :: x in r <==> x in h || x == e
  {
    var more := h + [e];
    assert DistinctIds(more) by {
      forall i | 0 <= i < |h| ensures h[i].id != e.id {
        assert h[i] in h;
      }
    }
    SameMembers(more, r);
    assert forall x :: x in more <==> x in h || x == e;
    assert Ids(more) == Ids(h) + {e.id};
    forall x | x in r ensures Agrees(x, WithEntry(b, e)) {
      if x in h { assert Agrees(x, b) && x.id in Ids(h); }
    }
  }

  lemma PoppedMembers(h: seq<Entry>, r: seq<Entry>)
    requires h != [] && DistinctIds(h) && IsHeap(h) && Rearranged(h, r)
    requires |r| > 0 && r[|r| - 1] == h[0]
    ensures
      var rest, e := r[..|r| - 1], h[0];
      && DistinctIds(rest) && e.id !in Ids(rest)
      && (forall x :: x in rest <==> x in h && x != e)
      && forall x :: x in h ==> e.expiry <= x.expiry
  {
    var rest, e := r[..|r| - 1], h[0];
    SameMembers(h, r);
    assert r == rest + [e];
    forall i | 0 <= i < |rest| ensures rest[i].id != e.id {
      assert r[i].id != r[|r| - 1].id;
    }
    assert DistinctIds(rest) by {
      forall i, j | 0 <= i < |rest| && 0 <= j < |rest| && i != j ensures rest[i].id != rest[j].id {
        assert r[i].id != r[j].id;
      }
    }
    forall x | x in h ensures e.expiry <= x.expiry {
      var i :| 0 <= i < |h| && h[i] == x;
      RootIsEarliest(h, i);
    }
  }

  lemma PoppedOk(h: seq<Entry>, rest: seq<Entry>, e: Entry, b: Book)
    requires EntriesOk(h, b) && b.running.None? && e in h
    requires IsHeap(rest) && DistinctIds(rest) && e.id !in Ids(rest)
    requires forall x :: x in rest <==> x in h && x != e
    ensures EntriesOk(rest, if e.active then b.(running := Some(e.id)) else b)
  {
    forall id | id in Ids(h) && id != e.id ensures id in Ids(rest) {
      var x :| x in h && x.id == id;
      assert x in rest;
    }
    forall x | x in rest ensures Agrees(x, if e.active then b.(running := Some(e.id)) else b) {
      assert Agrees(x, b) && x.id in Ids(rest);
    }
    assert Agrees(e, b);
  }

  lemma DeactivatedMembers(h: seq<Entry>, id: nat)
    ensures forall e :: e in Deactivated(h, id) ==> exists x :: x in h && e == DeactivatedEntry(x, id)
    ensures forall e :: e in h ==> DeactivatedEntry(e, id) in Deactivated(h, id)
    ensures Ids(Deactivated(h, id)) == Ids(h)
  {
    var r := Deactivated(h, id);
    forall e | e in r ensures exists x :: x in h && e == DeactivatedEntry(x, id) {
      var i :| 0 <= i < |r| && r[i] == e;
      assert h[i] in h;
    }
    forall e | e in h ensures DeactivatedEntry(e, id) in r {
      var i :| 0 <= i < |h| && h[i] == e;
      assert r[i] in r;
    }
    forall k | k in Ids(h) ensures k in Ids(r) {
      var e :| e in h && e.id == k;
      assert DeactivatedEntry(e, id).id == k;
    }
    forall k | k in Ids(r) ensures k in Ids(h) {
      var e :| e in r && e.id == k;
      var x :| x in h && e == DeactivatedEntry(x, id);
    }
  }

  lemma DeactivatedShape(h: seq<Entry>, id: nat)
    requires IsHeap(h) && DistinctIds(h)
    ensures IsHeap(Deactivated(h, id)) && DistinctIds(Deactivated(h, id))
  {
    var r := Deactivated(h, id);
    forall j | 0 < j < |r| ensures InOrder(r, j) { assert InOrder(h, j); }
  }

  lemma DeactivatedOk(h: seq<Entry>, id: nat, b: Book)
    requires EntriesOk(h, b)
    ensures EntriesOk(Deactivated(h, id), b.(active := b.active - {id}))
  {
    var r, c := Deactivated(h, id), b.(active := b.active - {id});
    DeactivatedShape(h, id);
    DeactivatedMembers(h, id);
    forall e | e in r ensures Agrees(e, c) {
      var x :| x in h && e == DeactivatedEntry(x, id);
      assert Agrees(x, b);
    }
  }

  lemma DeactivatedDue(h: seq<Entry>, id: nat, now: nat)
    ensures DueEntries(Deactivated(h, id), now) <= DueEntries(h, now)
  {
    DeactivatedMembers(h, id);
    forall k | k in DueEntries(Deactivated(h, id), now) ensures k in DueEntries(h, now) {
      var e :| e in Deactivated(h, id) && e.expiry <= now && e.id == k;
      var x :| x in h && e == DeactivatedEntry(x, id);
    }
  }

  lemma EarliestInOld(before: seq<Entry>, e: Entry)
    requires IsHeap(before) && e in before
    ensures before[0].expiry <= e.expiry
  {
    var i :| 0 <= i < |before| && before[i] == e;
    RootIsEarliest(before, i);
  }

  /** With no callback running, the earliest entry of the heap, if active, is the earliest
      timer of the book. */
  lemma EarliestEntry(h: seq<Entry>, b: Book, e: Entry)
    requires EntriesOk(h, b) && b.running.None? && e in h && e.active
    requires forall x :: x in h ==> e.expiry <= x.expiry
    ensures Earliest(b, e.id) && b.active[e.id] == Timer(e.expiry, e.periodMs)
  {
    assert Agrees(e, b);
    forall id | id in b.active ensures b.active[e.id].expiry <= b.active[id].expiry {
      var x :| x in h && x.id == id;
      assert Agrees(x, b);
    }
  }

  lemma NothingLeftDue(h: seq<Entry>, b: Book, now: nat)
    requires EntriesOk(h, b) && b.running.None? && (h != [] ==> now < h[0].expiry)
    ensures DueIds(b, now) == {} && forall e :: e in h ==> now < e.expiry
  {
    forall e | e in h ensures now < e.expiry {
      EarliestInOld(h, e);
    }
    forall id | id in b.active ensures now < b.active[id].expiry {
      var x :| x in h && x.id == id;
      assert Agrees(x, b);
    }
  }

  lemma RunningIsOut(h: seq<Entry>, b: Book)
    requires EntriesOk(h, b) && b.running.Some?
    ensures b.running.value !in Ids(h)
  {
    forall e | e in h ensures e.id != b.running.value {
      assert Agrees(e, b);
    }
  }

  lemma DueShrinks(before: seq<Entry>, h: seq<Entry>, e: Entry, now: nat)
    requires e in before && e.expiry <= now && e.id !in Ids(h)
    requires forall x :: x in h <==> x in before && x != e
    ensures DueEntries(h, now) < DueEntries(before, now)
  {
    assert e.id in DueEntries(before, now);
    assert e.id !in DueEntries(h, now);
  }

  ghost function DueCount(h: seq<Entry>, now: nat): nat {
    |DueEntries(h, now)|
  }

  lemma CountShrinks(h0: seq<Entry>, h1: seq<Entry>, h2: seq<Entry>, now: nat)
    requires DueEntries(h1, now) < DueEntries(h0, now) && DueEntries(h2, now) <= DueEntries(h1, now)
    ensures DueCount(h2, now) < DueCount(h0, now)
  {
    var x :| x in DueEntries(h0, now) && x !in DueEntries(h1, now);
    Fewer(DueEntries(h2, now), DueEntries(h0, now), x);
  }

  class TimerManager {
    /** Whether the timer descriptor could be created. */
    const created: bool
    var heap: seq<Entry>
    var nextId: nat
    var activeIds: set<nat>
    var clock: nat
    /** The time the descriptor goes off; None while disarmed. */
    var armed: Option<nat>
    ghost var book: Book
    ghost var trace: seq<Event>

    /** The fields agree with the book. */
    ghost predicate Consistent()
      reads this
    {
      && EntriesOk(heap, book) && Sound(book) && book.now <= clock
      && nextId == book.next && activeIds == book.active.Keys
      && (!created ==> heap == [] && book.active == map[] && book.running.None?)
    }

    /** Between events: no callback is running, the descriptor is armed in time, and the
        book is what the history comes to. */
    ghost predicate Valid()
      reads this
    {
      Consistent() && book.running.None? && ArmedOk(heap, armed, clock) && After(trace) == Some(book)
    }

    /** The descriptor has gone off. */
    predicate Readable()
      reads this
    {
      created && armed.Some? && armed.value <= clock
    }

    constructor (created: bool)
      ensures Valid() && this.created == created && trace == [] && clock == 0
    {
      this.created := created;
      heap, nextId, activeIds, clock, armed, book, trace := [], 1, {}, 0, None, Book(map[], 1, None, 0), [];
    }

    method ResetTimerFd()
      modifies `armed
      ensures created ==> ArmedOk(heap, armed, clock)
      ensures created && heap == [] ==> armed.None?
      ensures created && heap != [] ==> armed == Some(clock + Delay(heap[0].expiry, clock))
      ensures !created ==> armed == old(armed)
    {
      if !created { return; }
      if heap != [] {
        DelayIsNeverLate(heap[0].expiry, clock);
        armed := Some(clock + Delay(heap[0].expiry, clock));
      } else {
        armed := None;
      }
    }

    ghost method Log(e: Event)
      requires Sound(book) && Possible(book, e)
      modifies `trace, `book
      ensures trace == old(trace) + [e] && book == Record(old(book), e) && Sound(book)
    {
      trace := trace + [e];
      book := Record(book, e);
    }

    method Push(e: Entry, ghost b: Book)
      requires EntriesOk(heap, b) && e.active && e.id !in Ids(heap) && 1 <= e.id
      modifies `heap, `activeIds
      ensures EntriesOk(heap, WithEntry(b, e)) && activeIds == old(activeIds) + {e.id}
      ensures forall x :: x in heap <==> x in old(heap) || x == e
    {
      assert (heap + [e])[..|heap|] == heap;
      var r := PushHeap(heap + [e]);
      PushedOk(heap, r, e, b);
      heap := r;
      activeIds := activeIds + {e.id};
    }

    method AddTimer(delayMs: nat, periodMs: nat) returns (id: nat)
      requires Consistent()
      modifies `heap, `nextId, `activeIds, `armed, `book, `trace
      ensures Consistent()
      ensures !created ==> id == 0 && heap == old(heap) && trace == old(trace) && book == old(book)
      ensures created ==>
        && id == old(nextId)
        && trace == old(trace) + [Added(id, clock + delayMs * 1_000_000, periodMs)]
        && book == Record(old(book), Added(id, clock + delayMs * 1_000_000, periodMs))
        && forall x :: x in heap <==> x in old(heap) || x == Entry(id, clock + delayMs * 1_000_000, periodMs, true)
      ensures old(ArmedOk(heap, armed, clock)) ==> ArmedOk(heap, armed, clock)
      ensures old(Valid()) ==> Valid()
    {
      AfterAppend(trace, Added(nextId, clock + delayMs * MS, periodMs));
      if !created { return 0; }
      id := nextId;
      var e := Entry(id, clock + delayMs * MS, periodMs, true);
      nextId := nextId + 1;
      Push(e, book);
      Log(Added(id, e.expiry, periodMs));
      ArmFor(e, old(heap));
    }

    /** Re-arms the descriptor when the timer just added became the earliest. */
    method ArmFor(e: Entry, ghost before: seq<Entry>)
      requires created && IsHeap(before) && forall x :: x in heap <==> x in before || x == e
      modifies `armed
      ensures ArmedOk(before, old(armed), clock) ==> ArmedOk(heap, armed, clock)
    {
      assert e in heap && heap[0] in heap;
      if heap[0].id == e.id {
        ResetTimerFd();
      } else {
        EarliestInOld(before, heap[0]);
      }
    }

    /** The loop that marks the cancelled timer's entry. */
    method Deactivate(id: nat)
      modifies `heap
      ensures heap == Deactivated(old(heap), id)
    {
      ghost var before := heap;
      var i := 0;
      while i < |heap|
        invariant 0 <= i <= |heap| == |before|
        invariant forall j :: 0 <= j < i ==> heap[j] == DeactivatedEntry(before[j], id)
        invariant forall j :: i <= j < |heap| ==> heap[j] == before[j]
      {
        if heap[i].id == id {
          heap := heap[i := heap[i].(active := false)];
        }
        i := i + 1;
      }
    }

    method CancelTimer(id: nat) returns (ok: bool)
      requires Consistent()
      modifies `heap, `activeIds, `book, `trace
      ensures Consistent()
      ensures ok == (id in old(book).active)
      ensures heap == if ok then Deactivated(old(heap), id) else old(heap)
      ensures trace == if ok then old(trace) + [Cancelled(id)] else old(trace)
      ensures book == if ok then Record(old(book), Cancelled(id)) else old(book)
      ensures old(Valid()) ==> Valid()
    {
      AfterAppend(trace, Cancelled(id));
      if id !in activeIds { return false; }
      activeIds := activeIds - {id};
      DeactivatedOk(heap, id, book);
      Deactivate(id);
      Log(Cancelled(id));
      return true;
    }

    /** Time passes between events, and the descriptor stays armed in time: by the time the
        earliest timer is due, the descriptor has gone off. */
    method Elapse(ns: nat)
      requires Valid()
      modifies `clock
      ensures Valid() && clock == old(clock) + ns
      ensures ns > 0 && created && heap != [] && heap[0].expiry <= clock ==> Readable()
    {
      clock := clock + ns;
    }

    method Perform(action: Action, ghost now: nat)
      requires Consistent() && created && now <= clock
      modifies `heap, `nextId, `activeIds, `armed, `book, `trace, `clock
      ensures Consistent()
      ensures
        var d := Deed(old(book), old(clock), action);
        trace == old(trace) + d.news && book == d.book && clock == d.clock
      ensures (action.Add? ==> now < old(clock) + action.delayMs * MS) ==> DueEntries(heap, now) <= DueEntries(old(heap), now)
    {
      match action {
        case Wait(ns) => clock := clock + ns;
        case Add(delayMs, periodMs) =>
          var id := AddTimer(delayMs, periodMs);
        case Cancel(id) =>
          var ok := CancelTimer(id);
          if ok { DeactivatedDue(old(heap), id, now); }
      }
    }

    /** A callback is any sequence of actions. */
    method RunCallback(actions: seq<Action>, ghost now: nat)
      requires Consistent() && created && now <= clock
      modifies `heap, `nextId, `activeIds, `armed, `book, `trace, `clock
      ensures Consistent()
      ensures
        var d := Deeds(old(book), old(clock), actions);
        trace == old(trace) + d.news && book == d.book && clock == d.clock
      ensures AddsNothingDue(actions, old(clock) - now) ==> DueEntries(heap, now) <= DueEntries(old(heap), now)
      ensures old(clock) <= clock
    {
      var k := 0;
      ghost var news := [];
      ghost var b0, c0 := book, clock;
      while k < |actions|
        invariant 0 <= k <= |actions| && Consistent() && now <= c0 <= clock
        invariant trace == old(trace) + news && Going(b0, c0, actions, actions[k..], Effect(news, book, clock))
        invariant AddsNothingDue(actions, c0 - now) ==>
          AddsNothingDue(actions[k..], clock - now) && DueEntries(heap, now) <= DueEntries(old(heap), now)
      {
        assert actions[k..][1..] == actions[k + 1..];
        GoesOn(b0, c0, actions, actions[k..], Effect(news, book, clock));
        news := news + Deed(book, clock, actions[k]).news;
        Perform(actions[k], now);
        k := k + 1;
      }
    }

    method PopEarliest() returns (e: Entry)
      requires Consistent() && book.running.None? && heap != []
      modifies `heap
      ensures e in old(heap) && e == old(heap)[0] && e.id !in Ids(heap) && Agrees(e, book)
      ensures forall x :: x in heap <==> x in old(heap) && x != e
      ensures forall x :: x in old(heap) ==> e.expiry <= x.expiry
      ensures EntriesOk(heap, if e.active then book.(running := Some(e.id)) else book)
    {
      var r := PopHeap(heap);
      PoppedMembers(heap, r);
      PoppedOk(heap, r[..|r| - 1], heap[0], book);
      e := r[|r| - 1];
      heap := r[..|r| - 1];
    }

    /** Takes the earliest entry, which is due, off the heap. */
    method TakeDue(ghost now: nat) returns (e: Entry)
      requires Consistent() && book.running.None? && heap != [] && heap[0].expiry <= now
      modifies `heap
      ensures e.id !in Ids(heap) && (e.active <==> e.id in activeIds) && e.expiry <= now
      ensures e.active ==> Earliest(book, e.id) && book.active[e.id] == Timer(e.expiry, e.periodMs)
      ensures EntriesOk(heap, if e.active then book.(running := Some(e.id)) else book)
      ensures DueEntries(heap, now) < DueEntries(old(heap), now)
    {
      e := PopEarliest();
      DueShrinks(old(heap), heap, e, now);
      if e.active { EarliestEntry(old(heap), book, e); }
    }

    /** Puts the timer that has just run back for its next time, or takes it off. */
    method Retire(e: Entry, ghost now: nat)
      requires Consistent() && created && now <= clock && e.active && e.id !in Ids(heap)
      requires book.running == Some(e.id)
      requires e.id in book.active ==> book.active[e.id].periodMs == e.periodMs
      modifies `heap, `activeIds, `book, `trace
      ensures Consistent() && book.running.None?
      ensures
        var last := Ending(old(book), e.id, clock, e.periodMs);
        trace == old(trace) + [last] && book == Record(old(book), last)
      ensures DueEntries(heap, now) <= DueEntries(old(heap), now)
    {
      if e.periodMs > 0 && e.id in activeIds {
        var again := e.(expiry := clock + e.periodMs * MS);
        Push(again, book);
        Log(Rearmed(e.id, again.expiry, e.periodMs, clock));
      } else {
        activeIds := activeIds - {e.id};
        Log(Retired(e.id, clock));
      }
    }

    /** Fires a due timer that was taken off the heap while still active. */
    method Fire(e: Entry, actions: seq<Action>, ghost now: nat, ghost patient: bool) returns (ghost news: seq<Event>)
      requires EntriesOk(heap, book.(running := Some(e.id))) && e.id !in Ids(heap)
      requires Sound(book) && book.running.None?
      requires nextId == book.next && activeIds == book.active.Keys
      requires created && e.expiry <= now <= clock && book.now <= clock
      requires patient ==> AddsNothingDue(actions, clock - now)
      requires e.active && e.id in book.active && book.active[e.id] == Timer(e.expiry, e.periodMs)
      modifies `heap, `nextId, `activeIds, `armed, `book, `trace, `clock
      ensures Consistent() && book.running.None? && old(clock) <= clock
      ensures trace == old(trace) + news && Effect(news, book, clock) == Turn(old(book), old(clock), e.id, actions)
      ensures clock == old(clock) + Waited(actions)
      ensures if e.periodMs > 0 && Cancelled(e.id) !in news
              then e.id in book.active && book.active[e.id] == Timer(clock + e.periodMs * 1_000_000, e.periodMs)
              else e.id !in book.active
      ensures patient ==> DueEntries(heap, now) <= DueEntries(old(heap), now)
    {
      news := Turn(book, clock, e.id, actions).news;
      TurnInParts(trace, book, clock, e.id, actions);
      TurnRearms(book, clock, e.id, actions);
      Log(Fired(e.id, e.expiry, e.periodMs, clock));
      DeedsKeepRunning(book, clock, actions);
      RunCallback(actions, now);
      RunningIsOut(heap, book);
      Retire(e, now);
    }

    /** One turn of the drain loop: an entry whose timer was cancelled is thrown away, any
        other fires. */
    method DrainOne(actions: seq<Action>, ghost now: nat, ghost patient: bool)
      returns (ran: bool, ghost id: nat, ghost news: seq<Event>)
      requires Consistent() && book.running.None? && created && heap != [] && heap[0].expiry <= now <= clock
      requires patient ==> AddsNothingDue(actions, clock - now)
      modifies `heap, `nextId, `activeIds, `armed, `book, `trace, `clock
      ensures Consistent() && book.running.None? && old(clock) <= clock
      ensures trace == old(trace) + news
      ensures
        if ran then Fires(Effect([], old(book), old(clock)), id, actions, now, Effect(news, book, clock))
        else Effect(news, book, clock) == Effect([], old(book), old(clock))
      ensures !ran || patient ==> DueCount(heap, now) < DueCount(old(heap), now)
    {
      var e := TakeDue(now);
      ghost var rest := heap;
      ran := e.active && e.id in activeIds;
      id, news := e.id, [];
      if ran {
        news := Fire(e, actions, now, patient);
      }
      if !ran || patient { CountShrinks(old(heap), rest, heap, now); }
    }

    /** The same, seen from the drain as a whole: `ids` and `news` tell what it has done since
        it began at `now` with book b and history t. */
    method Advance(cb: nat -> seq<Action>, k: nat, ghost b: Book, ghost t: seq<Event>, ghost ids: seq<nat>,
                   ghost news: seq<Event>, ghost now: nat, ghost eager: nat)
      returns (ran: bool, ghost ids': seq<nat>, ghost news': seq<Event>, ghost due: nat)
      requires Consistent() && book.running.None? && created && heap != [] && heap[0].expiry <= now <= clock
      requires trace == t + news && Drained(b, now, ids, cb, Effect(news, book, clock)) && k == |ids|
      requires Patient(cb, eager)
      modifies `heap, `nextId, `activeIds, `armed, `book, `trace, `clock
      ensures Consistent() && book.running.None? && now <= clock
      ensures trace == t + news' && Drained(b, now, ids', cb, Effect(news', book, clock))
      ensures |ids'| == if ran then k + 1 else k
      ensures due == DueCount(heap, now) && (!ran || eager <= k ==> due < DueCount(old(heap), now))
    {
      ghost var before := Effect(news, book, clock);
      ghost var id, more;
      if eager <= k { PatientCallback(cb, eager, k, clock - now); }
      ran, id, more := DrainOne(cb(k), now, eager <= k);
      due := DueCount(heap, now);
      ids', news' := DrainedGrows(b, now, ids, cb, before, ran, id, Effect(more, book, clock), t);
    }

    /** The drain loop. */
    method DrainDue(cb: nat -> seq<Action>, ghost eager: nat) returns (ghost ids: seq<nat>, ghost news: seq<Event>)
      requires Consistent() && book.running.None? && created
      requires Patient(cb, eager)
      modifies `heap, `nextId, `activeIds, `armed, `book, `trace, `clock
      ensures Consistent() && book.running.None?
      ensures trace == old(trace) + news && Drained(old(book), old(clock), ids, cb, Effect(news, book, clock))
      ensures heap != [] ==> old(clock) < heap[0].expiry
    {
      var now, k := clock, 0;
      ghost var due := DueCount(heap, now);
      ids, news := [], [];
      while heap != []
        invariant Consistent() && book.running.None? && now <= clock && k == |ids|
        invariant due == DueCount(heap, now)
        invariant trace == old(trace) + news && Drained(old(book), now, ids, cb, Effect(news, book, clock))
        decreases if k < eager then eager - k else 0, due
      {
        if heap[0].expiry > now { break; }
        var ran;
        ran, ids, news, due := Advance(cb, k, old(book), old(trace), ids, news, now, eager);
        if ran { k := k + 1; }
      }
    }

    /** Called when the descriptor is readable; reading it disarms it. The k-th timer fired
        does cb(k). From firing `eager` on, no callback adds a timer that is already due;
        without such a bound the drain could go on for ever. */
    method HandleTimerEvent(cb: nat -> seq<Action>, ghost eager: nat) returns (ghost ids: seq<nat>)
      requires Valid()
      requires Patient(cb, eager)
      modifies this
      ensures Valid() && old(clock) <= clock
      ensures !old(Readable()) ==> ids == [] && heap == old(heap) && trace == old(trace) && armed == old(armed) && clock == old(clock)
      ensures old(Readable()) ==>
        var d := Drain(old(book), old(clock), ids, cb);
        && Drains(old(book), old(clock), old(clock), ids, cb)
        && trace == old(trace) + d.news && book == d.book && clock == d.clock
        && Promised(old(book), d, old(clock), cb, |ids|)
      ensures old(Readable()) ==> DueIds(book, old(clock)) == {} && forall e :: e in heap ==> old(clock) < e.expiry
    {
      ids := [];
      if !created { return; }
      if armed.None? || armed.value > clock { return; }
      armed := None;
      ghost var news;
      ids, news := DrainDue(cb, eager);
      NothingLeftDue(heap, book, old(clock));
      DrainKeepsPromises(old(book), old(clock), old(clock), ids, cb);
      DrainIsPossible(old(trace), old(book), old(clock), old(clock), ids, cb);
      ResetTimerFd();
    }

    method AskTimer(delayMs: nat, periodMs: nat)
      requires Valid()
      modifies this
      ensures Valid() && clock == old(clock)
      ensures trace == old(trace) + if created then [Added(old(nextId), clock + delayMs * 1_000_000, periodMs)] else []
    {
      var id := AddTimer(delayMs, periodMs);
    }

    method WithdrawTimer(id: nat)
      requires Valid()
      modifies this
      ensures Valid() && clock == old(clock)
      ensures trace == old(trace) + if id in old(book).active then [Cancelled(id)] else []
    {
      var ok := CancelTimer(id);
    }

    method ServeInterrupt(cb: nat -> seq<Action>, ghost eager: nat) returns (ghost ids: seq<nat>, ghost news: seq<Event>)
      requires Valid() && Patient(cb, eager)
      modifies this
      ensures Valid() && old(clock) <= clock && trace == old(trace) + news
      ensures
        if old(Readable()) then
          && DueIds(book, old(clock)) == {}
          && Drains(old(book), old(clock), old(clock), ids, cb)
          && news == Drain(old(book), old(clock), ids, cb).news
        else news == []
    {
      news := [];
      ghost var d := Readable();
      ghost var b, now := book, clock;
      ids := HandleTimerEvent(cb, eager);
      if d { news := Drain(b, now, ids, cb).news; }
    }

    /** One thing that happens to the timers, and all that it adds to the history. */
    method Serve(h: Happening) returns (ghost ids: seq<nat>, ghost news: seq<Event>)
      requires Valid() && Admissible(h)
      modifies this
      ensures Valid() && old(clock) <= clock && trace == old(trace) + news
      ensures h.Pass? ==> clock == old(clock) + h.ns && news == []
      ensures h.Ask? ==> news == if created then [Added(old(nextId), old(clock) + h.delayMs * 1_000_000, h.periodMs)] else []
      ensures h.Withdraw? ==> news == if h.id in old(book).active then [Cancelled(h.id)] else []
      ensures h.Interrupt? ==>
        if old(Readable()) then
          && DueIds(book, old(clock)) == {}
          && Drains(old(book), old(clock), old(clock), ids, h.cb)
          && news == Drain(old(book), old(clock), ids, h.cb).news
        else news == []
    {
      ids, news := [], [];
      match h {
        case Pass(ns) => Elapse(ns);
        case Ask(delayMs, periodMs) =>
          news := if created then [Added(nextId, clock + delayMs * MS, periodMs)] else [];
          AskTimer(delayMs, periodMs);
        case Withdraw(id) =>
          news := if id in book.active then [Cancelled(id)] else [];
          WithdrawTimer(id);
        case Interrupt(cb, eager) => ids, news := ServeInterrupt(cb, eager);
      }
    }

    /** Any sequence of time passing, additions, cancellations and drains only adds to the
        history, and what the history promises holds of all of it. */
    method Live(happenings: seq<Happening>)
      requires Valid() && forall k :: 0 <= k < |happenings| ==> Admissible(happenings[k])
      modifies this
      ensures Valid() && old(clock) <= clock && old(trace) <= trace
      ensures HistoryKept(trace)
    {
      for k := 0 to |happenings|
        invariant Valid() && old(clock) <= clock && old(trace) <= trace
      {
        ghost var ids, news := Serve(happenings[k]);
      }
      HistoryIsKept(trace);
    }
  }

  datatype Happening =
    | Pass(ns: nat)
    | Ask(delayMs: nat, periodMs: nat)
    | Withdraw(id: nat)
    | Interrupt(cb: nat -> seq<Action>, eager: nat)

  ghost predicate Admissible(h: Happening) {
    h.Interrupt? ==> Patient(h.cb, h.eager)
  }

  /** A timer rings: once its time has passed and the descriptor is served, it has fired. */
  method Ring(delayMs: nat, periodMs: nat, wait: nat) returns (m: TimerManager, id: nat)
    requires delayMs * 1_000_000 <= wait && 0 < wait
    ensures m.Valid() && FiredIn(m.trace, id, delayMs * 1_000_000, periodMs)
  {
    m, id := SetAndWait(delayMs, periodMs, wait);
    ghost var b, before := m.book, m.trace;
    ghost var ids := m.HandleTimerEvent(Nothing, 0);
    DueHaveFired(before, b, Drain(b, wait, ids, Nothing), wait, |ids|, id);
  }

  method SetAndWait(delayMs: nat, periodMs: nat, wait: nat) returns (m: TimerManager, id: nat)
    requires delayMs * 1_000_000 <= wait && 0 < wait
    ensures fresh(m) && m.Valid() && m.Readable() && m.clock == wait
    ensures id in m.book.active && m.book.active[id] == Timer(delayMs * 1_000_000, periodMs)
  {
    m := new TimerManager(true);
    id := m.AddTimer(delayMs, periodMs);
    assert Entry(id, delayMs * 1_000_000, periodMs, true) in m.heap && m.heap[0] in m.heap;
    m.Elapse(wait);
  }

  /** A callback that does nothing. */
  function Nothing(k: nat): seq<Action> {
    []
  }

  /** When no callback does anything, a drain that leaves none due has fired all that were. */
  lemma DueHaveFired(before: seq<Event>, b: Book, d: Effect, now: nat, n: nat, id: nat)
    requires Promised(b, d, now, Nothing, n) && DueIds(d.book, now) == {}
    requires id in b.active && b.active[id].expiry <= now
    ensures FiredIn(before + d.news, id, b.active[id].expiry, b.active[id].periodMs)
  {
    assert forall k: nat :: !Scripted(Cancelled(id), Nothing(k));
    assert Cancelled(id) !in d.news;
    assert id !in DueIds(d.book, now);
    var at: nat :| Fired(id, b.active[id].expiry, b.active[id].periodMs, at) in d.news;
    assert Fired(id, b.active[id].expiry, b.active[id].periodMs, at) in before + d.news;
  }
}
