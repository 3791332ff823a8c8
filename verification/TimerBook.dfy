/** The timers of core/reactor/TimerManager.h without the heap: which timers are active and
    when they are due, what callbacks do to them, and what one drain of due timers does. Time
    is the steady clock in nanoseconds. */
module TimerBook {
  import opened Queues

  const MS: nat := 1_000_000

  datatype Timer = Timer(expiry: nat, periodMs: nat)

  /** The active timers by id, the next id, the timer whose callback is running, and the time
      the history has reached. */
  datatype Book = Book(active: map<nat, Timer>, next: nat, running: Option<nat>, now: nat)

  /** History. A timer that fired is afterwards put back for a later time or retired; `at`
      is the clock when its callback starts, and when it has ended. */
  datatype Event =
    | Added(id: nat, expiry: nat, periodMs: nat)
    | Cancelled(id: nat)
    | Fired(id: nat, expiry: nat, periodMs: nat, at: nat)
    | Rearmed(id: nat, expiry: nat, periodMs: nat, at: nat)
    | Retired(id: nat, at: nat)

  predicate Possible(b: Book, e: Event) {
    match e
    case Added(id, _, _) => id == b.next
    case Cancelled(id) => id in b.active
    case Fired(id, x, p, at) =>
      b.running.None? && id in b.active && b.active[id] == Timer(x, p) && x <= at && b.now <= at
    case Rearmed(id, x, p, at) =>
      && b.running == Some(id) && id in b.active && b.active[id].periodMs == p > 0
      && b.now <= at && x == at + p * MS
    case Retired(id, at) => b.running == Some(id) && (id in b.active ==> b.active[id].periodMs == 0) && b.now <= at
  }

  function Record(b: Book, e: Event): Book {
    match e
    case Added(id, x, p) => b.(active := b.active[id := Timer(x, p)], next := b.next + 1)
    case Cancelled(id) => b.(active := b.active - {id})
    case Fired(id, _, _, at) => b.(running := Some(id), now := at)
    case Rearmed(id, x, p, at) => b.(active := b.active[id := Timer(x, p)], running := None, now := at)
    case Retired(id, at) => b.(active := b.active - {id}, running := None, now := at)
  }

  /** The book after a history, or nothing when the history is impossible: when it names a
      timer that does not exist, fires one at a time it was not set for, and so on. */
  function After(t: seq<Event>): Option<Book> {
    if t == [] then Some(Book(map[], 1, None, 0))
    else
      var b := After(t[..|t| - 1]);
      if b.Some? && Possible(b.value, t[|t| - 1]) then Some(Record(b.value, t[|t| - 1])) else None
  }

  lemma AfterAppend(t: seq<Event>, e: Event)
    ensures
      var b := After(t);
      After(t + [e]) == if b.Some? && Possible(b.value, e) then Some(Record(b.value, e)) else None
  {
    assert (t + [e])[..|t|] == t;
  }

  // ----- what a possible history promises -----

  /** Ids in use lie between 1 and the next id. */
  ghost predicate Sound(b: Book) {
    && 1 <= b.next
    && (forall id :: id in b.active ==> 1 <= id < b.next)
    && (b.running.Some? ==> 1 <= b.running.value < b.next)
  }

  lemma {:induction false} HistoryIsSound(t: seq<Event>)
    requires After(t).Some?
    ensures Sound(After(t).value)
    ensures forall i :: 0 <= i < |t| ==> t[i].id < After(t).value.next
  {
    if t != [] {
      HistoryIsSound(t[..|t| - 1]);
    }
  }

  /** Every prefix of a possible history is possible, and each event of it was possible. */
  lemma {:induction false} PrefixIsPossible(t: seq<Event>, n: nat)
    requires After(t).Some? && n <= |t|
    ensures After(t[..n]).Some?
    ensures n < |t| ==> Possible(After(t[..n]).value, t[n])
  {
    if n < |t| {
      PrefixIsPossible(t[..|t| - 1], n);
      assert t[..|t| - 1][..n] == t[..n];
    } else {
      assert t[..n] == t;
    }
  }

  /** No id is given out twice. */
  lemma IdsAreFresh(t: seq<Event>, i: nat, j: nat)
    requires After(t).Some? && i < j < |t| && t[i].Added? && t[j].Added?
    ensures t[i].id < t[j].id
  {
    PrefixIsPossible(t, j);
    HistoryIsSound(t[..j]);
    assert t[..j][i] == t[i];
  }

  /** A timer that is not active, and whose id has been used, stays so. */
  lemma {:induction false} GoneStaysGone(t: seq<Event>, i: nat, j: nat, id: nat)
    requires After(t).Some? && i <= j <= |t| && After(t[..i]).Some?
    requires id !in After(t[..i]).value.active && id < After(t[..i]).value.next
    ensures After(t[..j]).Some? && id !in After(t[..j]).value.active && id < After(t[..j]).value.next
    decreases j
  {
    PrefixIsPossible(t, j);
    if i < j {
      GoneStaysGone(t, i, j - 1, id);
      PrefixIsPossible(t, j - 1);
      assert t[..j][..j - 1] == t[..j - 1];
    }
  }

  /** A timer successfully cancelled never fires again, even when it cancelled itself. */
  lemma CancelledNeverFires(t: seq<Event>, i: nat, j: nat)
    requires After(t).Some? && i < j < |t| && t[i].Cancelled?
    ensures t[j].Fired? || t[j].Rearmed? || t[j].Cancelled? ==> t[j].id != t[i].id
  {
    PrefixIsPossible(t, i);
    PrefixIsPossible(t, i + 1);
    HistoryIsSound(t[..i]);
    assert t[..i + 1][..i] == t[..i];
    GoneStaysGone(t, i + 1, j, t[i].id);
    PrefixIsPossible(t, j);
  }

  /** The latest event about `id` sets it for time x. */
  predicate IsSet(t: seq<Event>, id: nat, x: nat, p: nat) {
    && t != []
    && var e := t[|t| - 1];
       if e.id == id then e == Added(id, x, p) || (e.Rearmed? && e.expiry == x && e.periodMs == p) else IsSet(t[..|t| - 1], id, x, p)
  }

  lemma {:induction false} ActiveIsSet(t: seq<Event>, id: nat)
    requires After(t).Some? && id in After(t).value.active && After(t).value.running != Some(id)
    ensures IsSet(t, id, After(t).value.active[id].expiry, After(t).value.active[id].periodMs)
  {
    var less, e := t[..|t| - 1], t[|t| - 1];
    if e.id != id { ActiveIsSet(less, id); }
  }

  /** A timer fires only at the time, and with the period, it was last set to, and once for
      each setting: between two firings of an id it was set again. */
  lemma FiresAsSet(t: seq<Event>, j: nat)
    requires After(t).Some? && j < |t| && t[j].Fired?
    ensures IsSet(t[..j], t[j].id, t[j].expiry, t[j].periodMs) && t[j].expiry <= t[j].at
  {
    PrefixIsPossible(t, j);
    ActiveIsSet(t[..j], t[j].id);
  }

  predicate Timed(e: Event) {
    e.Fired? || e.Rearmed? || e.Retired?
  }

  /** The callback of timer `id`, of period p, is running. */
  predicate IsRunning(t: seq<Event>, id: nat, p: nat) {
    && t != []
    && var e := t[|t| - 1];
       if Timed(e) then e.Fired? && e.id == id && e.periodMs == p else IsRunning(t[..|t| - 1], id, p)
  }

  lemma {:induction false} TimesAreInOrder(t: seq<Event>, i: nat, j: nat)
    requires After(t).Some? && i < j < |t| && Timed(t[i]) && Timed(t[j])
    ensures t[i].at <= t[j].at
  {
    PrefixIsPossible(t, j);
    ReachedTime(t[..j], i);
  }

  lemma {:induction false} ReachedTime(t: seq<Event>, i: nat)
    requires After(t).Some? && i < |t| && Timed(t[i])
    ensures t[i].at <= After(t).value.now
    decreases |t|
  {
    if i < |t| - 1 {
      assert t[..|t| - 1][i] == t[i];
      ReachedTime(t[..|t| - 1], i);
    }
  }

  lemma {:induction false} RunningIsFiring(t: seq<Event>, id: nat)
    requires After(t).Some? && After(t).value.running == Some(id) && id in After(t).value.active
    ensures IsRunning(t, id, After(t).value.active[id].periodMs)
  {
    var less, e := t[..|t| - 1], t[|t| - 1];
    if !Timed(e) {
      HistoryIsSound(less);
      RunningIsFiring(less, id);
    }
  }

  /** A periodic timer is put back exactly its period after the end of its callback. */
  lemma RearmedAfterPeriod(t: seq<Event>, j: nat)
    requires After(t).Some? && j < |t| && t[j].Rearmed?
    ensures t[j].expiry == t[j].at + t[j].periodMs * 1_000_000 && IsRunning(t[..j], t[j].id, t[j].periodMs)
  {
    PrefixIsPossible(t, j);
    RunningIsFiring(t[..j], t[j].id);
  }

  /** Over a whole history, whose times are in order: ids are never reused, a cancelled timer
      never fires again, every firing is at or after the time the timer was last set to, once
      for each setting, and a periodic timer is set again for exactly its period after the
      end of its callback. */
  ghost predicate HistoryKept(t: seq<Event>) {
    && (forall i, j :: 0 <= i < j < |t| && t[i].Added? && t[j].Added? ==> t[i].id < t[j].id)
    && (forall i, j :: 0 <= i < j < |t| && t[i].Cancelled? && t[j].Fired? ==> t[i].id != t[j].id)
    && (forall j :: 0 <= j < |t| && t[j].Fired? ==>
          IsSet(t[..j], t[j].id, t[j].expiry, t[j].periodMs) && t[j].expiry <= t[j].at)
    && (forall i, j :: 0 <= i < j < |t| && Timed(t[i]) && Timed(t[j]) ==> t[i].at <= t[j].at)
    && (forall j :: 0 <= j < |t| && t[j].Rearmed? ==>
          t[j].expiry == t[j].at + t[j].periodMs * 1_000_000 && IsRunning(t[..j], t[j].id, t[j].periodMs))
  }

  lemma HistoryIsKept(t: seq<Event>)
    requires After(t).Some?
    ensures HistoryKept(t)
  {
    forall i, j | 0 <= i < j < |t| && t[i].Added? && t[j].Added? ensures t[i].id < t[j].id {
      IdsAreFresh(t, i, j);
    }
    forall i, j | 0 <= i < j < |t| && t[i].Cancelled? && t[j].Fired? ensures t[i].id != t[j].id {
      CancelledNeverFires(t, i, j);
    }
    forall j | 0 <= j < |t| && t[j].Fired?
      ensures IsSet(t[..j], t[j].id, t[j].expiry, t[j].periodMs) && t[j].expiry <= t[j].at
    {
      FiresAsSet(t, j);
    }
    forall i, j | 0 <= i < j < |t| && Timed(t[i]) && Timed(t[j]) ensures t[i].at <= t[j].at {
      TimesAreInOrder(t, i, j);
    }
    forall j | 0 <= j < |t| && t[j].Rearmed?
      ensures t[j].expiry == t[j].at + t[j].periodMs * 1_000_000 && IsRunning(t[..j], t[j].id, t[j].periodMs)
    {
      RearmedAfterPeriod(t, j);
    }
  }

  // ----- callbacks -----

  /** What a callback does: let time pass, add a timer, cancel a timer. */
  datatype Action = Wait(ns: nat) | Add(delayMs: nat, periodMs: nat) | Cancel(id: nat)

  datatype Effect = Effect(news: seq<Event>, book: Book, clock: nat)

  function Deed(b: Book, clock: nat, a: Action): Effect {
    match a
    case Wait(ns) => Effect([], b, clock + ns)
    case Add(delayMs, periodMs) =>
      var e := Added(b.next, clock + delayMs * MS, periodMs);
      Effect([e], Record(b, e), clock)
    case Cancel(id) =>
      if id in b.active then Effect([Cancelled(id)], Record(b, Cancelled(id)), clock) else Effect([], b, clock)
  }

  function Deeds(b: Book, clock: nat, actions: seq<Action>): Effect
    decreases |actions|
  {
    if actions == [] then Effect([], b, clock)
    else
      var e := Deed(b, clock, actions[0]);
      var d := Deeds(e.book, e.clock, actions[1..]);
      Effect(e.news + d.news, d.book, d.clock)
  }

  /** Part of the actions is done, with effect e; `left` is still to do. */
  ghost predicate Going(b: Book, clock: nat, actions: seq<Action>, left: seq<Action>, e: Effect) {
    var rest := Deeds(e.book, e.clock, left);
    Deeds(b, clock, actions) == Effect(e.news + rest.news, rest.book, rest.clock)
  }

  lemma GoesOn(b: Book, clock: nat, actions: seq<Action>, left: seq<Action>, e: Effect)
    requires Going(b, clock, actions, left, e) && left != []
    ensures
      var s := Deed(e.book, e.clock, left[0]);
      Going(b, clock, actions, left[1..], Effect(e.news + s.news, s.book, s.clock))
  {
  }

  /** Every timer added expires after a clock reading that the clock is now `ahead` of. */
  predicate AddsNothingDue(actions: seq<Action>, ahead: nat) {
    if actions == [] then true
    else match actions[0]
      case Wait(ns) => AddsNothingDue(actions[1..], ahead + ns)
      case Add(delayMs, _) => ahead + delayMs * MS > 0 && AddsNothingDue(actions[1..], ahead)
      case Cancel(_) => AddsNothingDue(actions[1..], ahead)
  }

  lemma {:induction false} LaterAddsNothingDue(actions: seq<Action>, ahead: nat, more: nat)
    requires AddsNothingDue(actions, ahead) && ahead <= more
    ensures AddsNothingDue(actions, more)
    decreases |actions|
  {
    if actions != [] {
      match actions[0]
      case Wait(ns) => LaterAddsNothingDue(actions[1..], ahead + ns, more + ns);
      case _ => LaterAddsNothingDue(actions[1..], ahead, more);
    }
  }

  /** From firing `eager` on, no callback adds a timer that is already due. */
  ghost predicate Patient(cb: nat -> seq<Action>, eager: nat) {
    forall k: nat :: eager <= k ==> AddsNothingDue(cb(k), 0)
  }

  lemma PatientCallback(cb: nat -> seq<Action>, eager: nat, k: nat, ahead: nat)
    requires Patient(cb, eager) && eager <= k
    ensures AddsNothingDue(cb(k), ahead)
  {
    LaterAddsNothingDue(cb(k), 0, ahead);
  }

  /** The event is one that the actions ask for. */
  ghost predicate Scripted(x: Event, actions: seq<Action>) {
    match x
    case Added(_, _, p) => exists d :: Add(d, p) in actions
    case Cancelled(id) => Cancel(id) in actions
    case _ => false
  }

  /** Where an active timer comes from: it was there before, or was added at time `since` or
      later. */
  ghost predicate Comes(id: nat, x: Timer, b: Book, since: nat, news: seq<Event>) {
    || (id in b.active && b.active[id] == x)
    || (b.next <= id && since <= x.expiry && Added(id, x.expiry, x.periodMs) in news)
  }

  /** The timers after some events: those before, less the cancelled, plus the added. */
  ghost predicate Evolved(b: Book, since: nat, e: Effect) {
    && e.book.running == b.running && b.next <= e.book.next && since <= e.clock && e.book.now == b.now
    && (forall id: nat :: Cancelled(id) in e.news ==> id !in e.book.active && id < e.book.next)
    && (forall id :: id in e.book.active ==> Comes(id, e.book.active[id], b, since, e.news))
    && (forall id :: id in e.book.active ==> id < e.book.next || id in b.active)
    && (forall id :: id in b.active ==>
          (id in e.book.active && e.book.active[id] == b.active[id]) || Cancelled(id) in e.news)
  }

  lemma DeedEvolves(b: Book, clock: nat, a: Action)
    requires Sound(b)
    ensures Evolved(b, clock, Deed(b, clock, a)) && Sound(Deed(b, clock, a).book)
  {
    if a.Add? {
      var e := Deed(b, clock, a);
      assert e.news[0] == Added(b.next, clock + a.delayMs * MS, a.periodMs);
    }
    if a.Cancel? && a.id in b.active {
      assert Deed(b, clock, a).news[0] == Cancelled(a.id);
    }
  }

  lemma EvolvedTwice(b: Book, clock: nat, e: Effect, d: Effect)
    requires Sound(b) && Sound(e.book) && Evolved(b, clock, e) && Evolved(e.book, e.clock, d)
    ensures Evolved(b, clock, Effect(e.news + d.news, d.book, d.clock))
  {
    forall id | id in d.book.active ensures Comes(id, d.book.active[id], b, clock, e.news + d.news) {
      assert Comes(id, d.book.active[id], e.book, e.clock, d.news);
      if id in e.book.active && e.book.active[id] == d.book.active[id] {
        assert Comes(id, e.book.active[id], b, clock, e.news);
      }
    }
  }

  lemma {:induction false} DeedsEvolve(b: Book, clock: nat, actions: seq<Action>)
    requires Sound(b)
    ensures Evolved(b, clock, Deeds(b, clock, actions)) && Sound(Deeds(b, clock, actions).book)
    decreases |actions|
  {
    if actions != [] {
      var e := Deed(b, clock, actions[0]);
      DeedEvolves(b, clock, actions[0]);
      DeedsEvolve(e.book, e.clock, actions[1..]);
      EvolvedTwice(b, clock, e, Deeds(e.book, e.clock, actions[1..]));
    }
  }

  lemma {:induction false} DeedsAreScripted(b: Book, clock: nat, actions: seq<Action>, x: Event)
    requires x in Deeds(b, clock, actions).news
    ensures Scripted(x, actions)
    decreases |actions|
  {
    var a := actions[0];
    var e := Deed(b, clock, a);
    assert a in actions;
    if x in e.news {
      if a.Add? { assert Add(a.delayMs, a.periodMs) in actions; }
    } else {
      DeedsAreScripted(e.book, e.clock, actions[1..], x);
      if x.Added? {
        var d :| Add(d, x.periodMs) in actions[1..];
        assert Add(d, x.periodMs) in actions;
      }
    }
  }

  ghost function DueIds(b: Book, now: nat): set<nat> {
    set id | id in b.active && b.active[id].expiry <= now
  }

  lemma {:induction false} DeedsAddNothingDue(b: Book, clock: nat, actions: seq<Action>, now: nat)
    requires now <= clock && AddsNothingDue(actions, clock - now)
    ensures DueIds(Deeds(b, clock, actions).book, now) <= DueIds(b, now)
    decreases |actions|
  {
    if actions != [] {
      var e := Deed(b, clock, actions[0]);
      assert DueIds(e.book, now) <= DueIds(b, now);
      DeedsAddNothingDue(e.book, e.clock, actions[1..], now);
    }
  }

  // ----- one drain of due timers -----

  /** What becomes of a timer after its callback. */
  function Ending(b: Book, id: nat, clock: nat, periodMs: nat): Event {
    if periodMs > 0 && id in b.active then Rearmed(id, clock + periodMs * MS, periodMs, clock) else Retired(id, clock)
  }

  /** Timer `id` fires and its callback does `actions`. */
  function Turn(b: Book, clock: nat, id: nat, actions: seq<Action>): Effect {
    if id !in b.active then Effect([], b, clock)
    else
      var fired := Fired(id, b.active[id].expiry, b.active[id].periodMs, clock);
      var d := Deeds(Record(b, fired), clock, actions);
      var last := Ending(d.book, id, d.clock, fired.periodMs);
      Effect([fired] + d.news + [last], Record(d.book, last), d.clock)
  }

  lemma TurnInParts(before: seq<Event>, b: Book, clock: nat, id: nat, actions: seq<Action>)
    requires id in b.active
    ensures
      var fired := Fired(id, b.active[id].expiry, b.active[id].periodMs, clock);
      var d := Deeds(Record(b, fired), clock, actions);
      var last := Ending(d.book, id, d.clock, fired.periodMs);
      before + Turn(b, clock, id, actions).news == before + [fired] + d.news + [last]
  {
    var t := Turn(b, clock, id, actions);
    var fired, last := t.news[0], t.news[|t.news| - 1];
    var d := Deeds(Record(b, fired), clock, actions);
    assert before + ([fired] + d.news + [last]) == before + [fired] + d.news + [last];
  }

  /** The timers `ids` fire one after the other; the k-th callback does cb(k). */
  function Drain(b: Book, clock: nat, ids: seq<nat>, cb: nat -> seq<Action>): Effect {
    if ids == [] then Effect([], b, clock)
    else
      var n := |ids| - 1;
      var d := Drain(b, clock, ids[..n], cb);
      var e := Turn(d.book, d.clock, ids[n], cb(n));
      Effect(d.news + e.news, e.book, e.clock)
  }

  ghost predicate Earliest(b: Book, id: nat) {
    id in b.active && forall other :: other in b.active ==> b.active[id].expiry <= b.active[other].expiry
  }

  /** Each of `ids` was, when its turn came, the earliest active timer, and due at `now`. */
  ghost predicate Drains(b: Book, clock: nat, now: nat, ids: seq<nat>, cb: nat -> seq<Action>) {
    ids != [] ==>
      var n := |ids| - 1;
      var d := Drain(b, clock, ids[..n], cb);
      && Drains(b, clock, now, ids[..n], cb)
      && Earliest(d.book, ids[n]) && d.book.active[ids[n]].expiry <= now
  }

  /** The drain so far, as its loop sees it. */
  ghost predicate Drained(b: Book, now: nat, ids: seq<nat>, cb: nat -> seq<Action>, e: Effect) {
    Drains(b, now, now, ids, cb) && e == Drain(b, now, ids, cb)
  }

  /** One firing of the drain: timer `id`, the earliest and due at `now`, with effect t. */
  ghost predicate Fires(e: Effect, id: nat, actions: seq<Action>, now: nat, t: Effect) {
    Earliest(e.book, id) && e.book.active[id].expiry <= now && t == Turn(e.book, e.clock, id, actions)
  }

  /** One turn of the loop, which fires a timer or does nothing. */
  lemma DrainedGrows(b: Book, now: nat, ids: seq<nat>, cb: nat -> seq<Action>, e: Effect, ran: bool, id: nat, t: Effect,
                     before: seq<Event>)
    returns (ids': seq<nat>, news: seq<Event>)
    requires Drained(b, now, ids, cb, e)
    requires if ran then Fires(e, id, cb(|ids|), now, t) else t == Effect([], e.book, e.clock)
    ensures Drained(b, now, ids', cb, Effect(news, t.book, t.clock))
    ensures |ids'| == (if ran then |ids| + 1 else |ids|) && before + e.news + t.news == before + news
  {
    news := e.news + t.news;
    ids' := if ran then ids + [id] else ids;
    assert (ids + [id])[..|ids|] == ids;
    assert before + e.news + t.news == before + (e.news + t.news);
  }

  /** Fired in nondecreasing expiry order, none early, none twice. */
  ghost predicate FiredInOrder(news: seq<Event>, now: nat) {
    && (forall i :: 0 <= i < |news| && news[i].Fired? ==> news[i].expiry <= now)
    && (forall i, j :: 0 <= i < j < |news| && news[i].Fired? && news[j].Fired? ==>
          news[i].expiry <= news[j].expiry && news[i].id != news[j].id)
  }

  /** What is active comes after what fired, and a timer that fired is not due again. */
  ghost predicate AllLater(news: seq<Event>, b: Book, now: nat) {
    && (forall x :: x in news && x.Fired? ==> x.id < b.next)
    && (forall x, id :: x in news && x.Fired? && id in b.active ==> x.expiry <= b.active[id].expiry)
    && (forall x :: x in news && x.Fired? && x.id in b.active ==> now < b.active[x.id].expiry)
  }

  ghost predicate FiredIn(news: seq<Event>, id: nat, expiry: nat, periodMs: nat) {
    exists at: nat :: Fired(id, expiry, periodMs, at) in news
  }

  /** Timer `id` was put back for exactly its period after the end of its callback. */
  ghost predicate PutBack(news: seq<Event>, id: nat, expiry: nat, periodMs: nat) {
    exists at: nat :: Rearmed(id, expiry, periodMs, at) in news && expiry == at + periodMs * 1_000_000
  }

  /** A timer that fired and was not cancelled is, if periodic, active and put back, and else
      gone; a cancelled one is gone. */
  ghost predicate AllRearmed(news: seq<Event>, b: Book) {
    && (forall x :: x in news && x.Fired? && Cancelled(x.id) !in news ==>
          if x.periodMs > 0
          then x.id in b.active && b.active[x.id].periodMs == x.periodMs
               && PutBack(news, x.id, b.active[x.id].expiry, x.periodMs)
          else x.id !in b.active)
    && (forall id: nat :: Cancelled(id) in news ==> id !in b.active && id < b.next)
  }

  /** Every timer active before is still waiting, was cancelled, or fired when it was set to. */
  ghost predicate AllServed(b0: Book, b: Book, news: seq<Event>) {
    forall id :: id in b0.active ==>
      || (id in b.active && b.active[id] == b0.active[id])
      || Cancelled(id) in news
      || FiredIn(news, id, b0.active[id].expiry, b0.active[id].periodMs)
  }

  /** Every active timer was so before, or was added, or put back for a later time. */
  ghost predicate AllCome(b0: Book, b: Book, news: seq<Event>, now: nat) {
    forall id :: id in b.active ==>
      || (id in b0.active && b0.active[id] == b.active[id])
      || Added(id, b.active[id].expiry, b.active[id].periodMs) in news
      || (now < b.active[id].expiry && PutBack(news, id, b.active[id].expiry, b.active[id].periodMs))
  }

  /** What fired was an active timer with that expiry and period, or one that a callback added. */
  ghost predicate FiredWereSet(b0: Book, news: seq<Event>) {
    forall x :: x in news && x.Fired? ==>
      || (x.id in b0.active && b0.active[x.id] == Timer(x.expiry, x.periodMs))
      || Added(x.id, x.expiry, x.periodMs) in news
  }

  /** Additions and cancellations are what the callbacks of the first n firings ask for. */
  ghost predicate FromCallbacks(news: seq<Event>, cb: nat -> seq<Action>, n: nat) {
    forall x :: x in news && (x.Added? || x.Cancelled?) ==> exists k: nat :: k < n && Scripted(x, cb(k))
  }

  ghost predicate Promised(b0: Book, d: Effect, now: nat, cb: nat -> seq<Action>, n: nat) {
    && FiredInOrder(d.news, now)
    && AllLater(d.news, d.book, now)
    && AllServed(b0, d.book, d.news)
    && AllCome(b0, d.book, d.news, now)
    && FiredWereSet(b0, d.news)
    && FromCallbacks(d.news, cb, n)
    && AllRearmed(d.news, d.book)
  }

  /** The events of one firing. */
  ghost predicate TurnedNews(b: Book, clock: nat, id: nat, actions: seq<Action>, news: seq<Event>) {
    && id in b.active && news != []
    && news[0] == Fired(id, b.active[id].expiry, b.active[id].periodMs, clock)
    && (forall i :: 0 < i < |news| ==> !news[i].Fired?)
    && (forall x :: x in news && (x.Added? || x.Cancelled?) ==> Scripted(x, actions))
  }

  /** What one firing changes. */
  ghost predicate Turned(b: Book, clock: nat, id: nat, actions: seq<Action>, e: Effect) {
    && TurnedNews(b, clock, id, actions, e.news)
    && e.clock == clock + Waited(actions) && e.book.now == e.clock
    && Sound(e.book) && e.book.running.None? && b.next <= e.book.next && clock <= e.clock
    && (forall j :: j in e.book.active && j != id ==> Comes(j, e.book.active[j], b, clock, e.news))
    && (forall j :: j in b.active && j != id ==>
          (j in e.book.active && e.book.active[j] == b.active[j]) || Cancelled(j) in e.news)
    && (id in e.book.active <==> b.active[id].periodMs > 0 && Cancelled(id) !in e.news)
    && (id in e.book.active ==>
          var p := b.active[id].periodMs;
          && e.book.active[id] == Timer(e.clock + p * 1_000_000, p)
          && Rearmed(id, e.clock + p * 1_000_000, p, e.clock) in e.news)
    && (forall j: nat :: Cancelled(j) in e.news ==> j !in e.book.active && j < e.book.next)
  }

  /** How long a callback lets time pass. */
  function Waited(actions: seq<Action>): nat
    decreases |actions|
  {
    if actions == [] then 0
    else (if actions[0].Wait? then actions[0].ns else 0) + Waited(actions[1..])
  }

  lemma {:induction false} DeedsTakeTime(b: Book, clock: nat, actions: seq<Action>)
    ensures Deeds(b, clock, actions).clock == clock + Waited(actions)
    decreases |actions|
  {
    if actions != [] {
      var e := Deed(b, clock, actions[0]);
      DeedsTakeTime(e.book, e.clock, actions[1..]);
    }
  }

  lemma TurnTellsNews(b: Book, clock: nat, id: nat, actions: seq<Action>)
    requires id in b.active
    ensures TurnedNews(b, clock, id, actions, Turn(b, clock, id, actions).news)
  {
    var fired := Fired(id, b.active[id].expiry, b.active[id].periodMs, clock);
    var d := Deeds(Record(b, fired), clock, actions);
    var news := Turn(b, clock, id, actions).news;
    forall x | x in d.news ensures Scripted(x, actions) {
      DeedsAreScripted(Record(b, fired), clock, actions, x);
    }
    forall i | 0 < i < |news| ensures !news[i].Fired? {
      if i <= |d.news| { assert news[i] == d.news[i - 1] && d.news[i - 1] in d.news; }
    }
  }

  /** What the end of a firing adds to what its callback did. */
  lemma EndingTurns(b: Book, clock: nat, id: nat, d: Effect)
    requires Sound(b) && b.running == Some(id) && id in b.active
    requires Evolved(b, clock, d) && Sound(d.book)
    ensures
      var last := Ending(d.book, id, d.clock, b.active[id].periodMs);
      var r := Record(d.book, last);
      && Sound(r) && r.running.None?
      && (forall j :: j in r.active && j != id ==> Comes(j, r.active[j], b, clock, d.news))
      && (forall j :: j in b.active && j != id ==> (j in r.active && r.active[j] == b.active[j]) || Cancelled(j) in d.news)
      && r.now == d.clock && last.id == id && !last.Cancelled?
      && (id in r.active <==> b.active[id].periodMs > 0 && Cancelled(id) !in d.news)
      && (id in r.active ==>
            var p := b.active[id].periodMs;
            r.active[id] == Timer(d.clock + p * 1_000_000, p) && last == Rearmed(id, d.clock + p * 1_000_000, p, d.clock))
      && (forall j: nat :: Cancelled(j) in d.news ==> j !in r.active && j < r.next)
  {
  }

  lemma TurnMembers(b: Book, clock: nat, id: nat, actions: seq<Action>, x: Event)
    requires id in b.active
    ensures
      var fired := Fired(id, b.active[id].expiry, b.active[id].periodMs, clock);
      var d := Deeds(Record(b, fired), clock, actions);
      var last := Ending(d.book, id, d.clock, fired.periodMs);
      x in Turn(b, clock, id, actions).news <==> x == fired || x in d.news || x == last
  {
    var e := Turn(b, clock, id, actions);
    assert e.news[|e.news| - 1] in e.news && e.news[0] in e.news;
  }

  lemma TurnTurns(b: Book, clock: nat, id: nat, actions: seq<Action>)
    requires Sound(b) && b.running.None? && id in b.active
    ensures Turned(b, clock, id, actions, Turn(b, clock, id, actions))
  {
    var fired := Fired(id, b.active[id].expiry, b.active[id].periodMs, clock);
    var c := Record(b, fired);
    var d := Deeds(c, clock, actions);
    var last := Ending(d.book, id, d.clock, fired.periodMs);
    var e := Turn(b, clock, id, actions);
    TurnTellsNews(b, clock, id, actions);
    DeedsEvolve(c, clock, actions);
    EndingTurns(c, clock, id, d);
    DeedsTakeTime(c, clock, actions);
    forall x ensures x in e.news <==> x == fired || x in d.news || x == last {
      TurnMembers(b, clock, id, actions, x);
    }
  }

  lemma TurnKeepsOrder(d: Effect, id: nat, actions: seq<Action>, e: Effect, now: nat)
    requires FiredInOrder(d.news, now) && AllLater(d.news, d.book, now) && now <= d.clock
    requires Turned(d.book, d.clock, id, actions, e) && d.book.active[id].expiry <= now
    ensures FiredInOrder(d.news + e.news, now)
  {
    var all := d.news + e.news;
    forall i, j | 0 <= i < j < |all| && all[i].Fired? && all[j].Fired?
      ensures all[i].expiry <= all[j].expiry && all[i].id != all[j].id
    {
      if j >= |d.news| {
        assert all[j] == e.news[j - |d.news|] && j == |d.news|;
        assert all[i] in d.news;
      }
    }
    forall i | 0 <= i < |all| && all[i].Fired? ensures all[i].expiry <= now {
      if i >= |d.news| { assert all[i] == e.news[i - |d.news|]; }
    }
  }

  lemma NewFiring(d: Effect, id: nat, actions: seq<Action>, e: Effect, x: Event)
    requires Turned(d.book, d.clock, id, actions, e) && x in d.news + e.news && x.Fired?
    ensures x in d.news || x == e.news[0]
  {
    if x !in d.news {
      var i :| 0 <= i < |e.news| && e.news[i] == x;
    }
  }

  lemma TurnKeepsLater(d: Effect, id: nat, actions: seq<Action>, e: Effect, now: nat)
    requires AllLater(d.news, d.book, now) && now <= d.clock && Sound(d.book)
    requires FiredInOrder(d.news, now)
    requires Turned(d.book, d.clock, id, actions, e) && Earliest(d.book, id) && d.book.active[id].expiry <= now
    ensures AllLater(d.news + e.news, e.book, now)
  {
    forall x | x in d.news + e.news && x.Fired?
      ensures x.id < e.book.next && x.expiry <= now
      ensures x.id in e.book.active ==> now < e.book.active[x.id].expiry
      ensures forall j :: j in e.book.active ==> x.expiry <= e.book.active[j].expiry
    {
      NewFiring(d, id, actions, e, x);
      forall j | j in e.book.active ensures x.expiry <= e.book.active[j].expiry {
        if j != id { assert Comes(j, e.book.active[j], d.book, d.clock, e.news); }
      }
      if x.id in e.book.active && x.id != id {
        assert Comes(x.id, e.book.active[x.id], d.book, d.clock, e.news);
      }
    }
  }

  lemma TurnKeepsServed(b0: Book, d: Effect, id: nat, actions: seq<Action>, e: Effect)
    requires AllServed(b0, d.book, d.news) && Turned(d.book, d.clock, id, actions, e)
    ensures AllServed(b0, e.book, d.news + e.news)
  {
    assert e.news[0] in d.news + e.news;
    forall j | j in b0.active && FiredIn(d.news, j, b0.active[j].expiry, b0.active[j].periodMs)
      ensures FiredIn(d.news + e.news, j, b0.active[j].expiry, b0.active[j].periodMs)
    {
      var at: nat :| Fired(j, b0.active[j].expiry, b0.active[j].periodMs, at) in d.news;
      assert Fired(j, b0.active[j].expiry, b0.active[j].periodMs, at) in d.news + e.news;
    }
  }

  lemma TurnKeepsCome(b0: Book, d: Effect, id: nat, actions: seq<Action>, e: Effect, now: nat)
    requires AllCome(b0, d.book, d.news, now) && Turned(d.book, d.clock, id, actions, e) && now <= d.clock
    ensures AllCome(b0, e.book, d.news + e.news, now)
  {
    forall j | j in e.book.active && j != id
      ensures || (j in b0.active && b0.active[j] == e.book.active[j])
              || Added(j, e.book.active[j].expiry, e.book.active[j].periodMs) in d.news + e.news
              || (now < e.book.active[j].expiry && PutBack(d.news + e.news, j, e.book.active[j].expiry, e.book.active[j].periodMs))
    {
      assert Comes(j, e.book.active[j], d.book, d.clock, e.news);
      if j in d.book.active && PutBack(d.news, j, d.book.active[j].expiry, d.book.active[j].periodMs) {
        PutBackStays(d.news, e.news, j, d.book.active[j].expiry, d.book.active[j].periodMs);
      }
    }
    if id in e.book.active { JustPutBack(d, id, actions, e); }
  }

  lemma PutBackStays(news: seq<Event>, more: seq<Event>, id: nat, expiry: nat, periodMs: nat)
    requires PutBack(news, id, expiry, periodMs)
    ensures PutBack(news + more, id, expiry, periodMs)
  {
    var at: nat :| Rearmed(id, expiry, periodMs, at) in news && expiry == at + periodMs * 1_000_000;
    assert Rearmed(id, expiry, periodMs, at) in news + more;
  }

  lemma JustPutBack(d: Effect, id: nat, actions: seq<Action>, e: Effect)
    requires Turned(d.book, d.clock, id, actions, e) && id in e.book.active
    ensures d.clock < e.book.active[id].expiry
    ensures PutBack(d.news + e.news, id, e.book.active[id].expiry, e.book.active[id].periodMs)
  {
    var p := d.book.active[id].periodMs;
    assert Rearmed(id, e.clock + p * 1_000_000, p, e.clock) in d.news + e.news;
  }

  lemma GoneStays(d: Effect, id: nat, actions: seq<Action>, e: Effect, j: nat)
    requires Turned(d.book, d.clock, id, actions, e) && j !in d.book.active && j < d.book.next
    ensures j !in e.book.active
  {
    assert forall k :: k in e.book.active && k != id ==> Comes(k, e.book.active[k], d.book, d.clock, e.news);
  }

  lemma TurnKeepsRearmed(d: Effect, id: nat, actions: seq<Action>, e: Effect, now: nat)
    requires AllRearmed(d.news, d.book) && AllLater(d.news, d.book, now)
    requires Turned(d.book, d.clock, id, actions, e) && d.book.active[id].expiry <= now
    ensures AllRearmed(d.news + e.news, e.book)
  {
    var news := d.news + e.news;
    forall j: nat | Cancelled(j) in news ensures j !in e.book.active && j < e.book.next {
      if Cancelled(j) in d.news { GoneStays(d, id, actions, e, j); }
    }
    forall x | x in news && x.Fired? && Cancelled(x.id) !in news
      ensures
        if x.periodMs > 0
        then x.id in e.book.active && e.book.active[x.id].periodMs == x.periodMs
             && PutBack(news, x.id, e.book.active[x.id].expiry, x.periodMs)
        else x.id !in e.book.active
    {
      NewFiring(d, id, actions, e, x);
      if x in d.news {
        if x.periodMs > 0 {
          PutBackStays(d.news, e.news, x.id, d.book.active[x.id].expiry, x.periodMs);
        } else {
          GoneStays(d, id, actions, e, x.id);
        }
      } else if x.periodMs > 0 {
        JustPutBack(d, id, actions, e);
      }
    }
  }

  lemma TurnKeepsSet(b0: Book, d: Effect, id: nat, actions: seq<Action>, e: Effect, now: nat)
    requires AllCome(b0, d.book, d.news, now) && FiredWereSet(b0, d.news)
    requires Turned(d.book, d.clock, id, actions, e) && d.book.active[id].expiry <= now
    ensures FiredWereSet(b0, d.news + e.news)
  {
    forall x | x in d.news + e.news && x.Fired?
      ensures (x.id in b0.active && b0.active[x.id] == Timer(x.expiry, x.periodMs))
              || Added(x.id, x.expiry, x.periodMs) in d.news + e.news
    {
      NewFiring(d, id, actions, e, x);
    }
  }

  lemma TurnKeepsCallbacks(d: Effect, id: nat, e: Effect, cb: nat -> seq<Action>, n: nat)
    requires FromCallbacks(d.news, cb, n) && Turned(d.book, d.clock, id, cb(n), e)
    ensures FromCallbacks(d.news + e.news, cb, n + 1)
  {
    forall x | x in d.news + e.news && (x.Added? || x.Cancelled?)
      ensures exists k: nat :: k < n + 1 && Scripted(x, cb(k))
    {
      if x in d.news {
        var k: nat :| k < n && Scripted(x, cb(k));
      } else {
        assert Scripted(x, cb(n));
      }
    }
  }

  /** Every drain: timers fire in nondecreasing expiry order, none early and none twice, each
      exactly as an active timer was set; every timer that was active fires, or is cancelled,
      or waits; and nothing is added or cancelled that no callback asked for. */
  lemma {:induction false} DrainKeepsPromises(b: Book, clock: nat, now: nat, ids: seq<nat>, cb: nat -> seq<Action>)
    requires Sound(b) && b.running.None? && now <= clock && Drains(b, clock, now, ids, cb)
    ensures
      var d := Drain(b, clock, ids, cb);
      && Sound(d.book) && d.book.running.None? && clock <= d.clock
      && Promised(b, d, now, cb, |ids|)
    decreases |ids|
  {
    if ids != [] {
      var n := |ids| - 1;
      DrainKeepsPromises(b, clock, now, ids[..n], cb);
      var d := Drain(b, clock, ids[..n], cb);
      var e := Turn(d.book, d.clock, ids[n], cb(n));
      TurnTurns(d.book, d.clock, ids[n], cb(n));
      TurnKeepsOrder(d, ids[n], cb(n), e, now);
      TurnKeepsLater(d, ids[n], cb(n), e, now);
      TurnKeepsServed(b, d, ids[n], cb(n), e);
      TurnKeepsCome(b, d, ids[n], cb(n), e, now);
      TurnKeepsSet(b, d, ids[n], cb(n), e, now);
      TurnKeepsCallbacks(d, ids[n], e, cb, n);
      TurnKeepsRearmed(d, ids[n], cb(n), e, now);
    }
  }

  /** One firing: its callback takes as long as it waits, and then a periodic timer not
      cancelled is set for exactly its period later, and any other is gone. */
  lemma TurnRearms(b: Book, clock: nat, id: nat, actions: seq<Action>)
    requires Sound(b) && b.running.None? && id in b.active
    ensures
      var e, p := Turn(b, clock, id, actions), b.active[id].periodMs;
      && e.clock == clock + Waited(actions)
      && (if p > 0 && Cancelled(id) !in e.news
          then id in e.book.active && e.book.active[id] == Timer(clock + Waited(actions) + p * 1_000_000, p)
          else id !in e.book.active)
  {
    TurnTurns(b, clock, id, actions);
  }

  /** A firing whose callback adds nothing already due leaves strictly fewer timers due. */
  lemma TurnShrinksDue(b: Book, clock: nat, id: nat, actions: seq<Action>, now: nat)
    requires Sound(b) && id in b.active && b.active[id].expiry <= now <= clock
    requires AddsNothingDue(actions, clock - now)
    ensures DueIds(Turn(b, clock, id, actions).book, now) <= DueIds(b, now) - {id}
    ensures |DueIds(Turn(b, clock, id, actions).book, now)| < |DueIds(b, now)|
  {
    var fired := Fired(id, b.active[id].expiry, b.active[id].periodMs, clock);
    DeedsEvolve(Record(b, fired), clock, actions);
    DeedsAddNothingDue(Record(b, fired), clock, actions, now);
    Fewer(DueIds(Turn(b, clock, id, actions).book, now), DueIds(b, now), id);
  }

  lemma {:induction false} Fewer(a: set<nat>, b: set<nat>, x: nat)
    requires a <= b - {x} && x in b
    ensures |a| < |b|
  {
    if a != {} {
      var y :| y in a;
      Fewer(a - {y}, b - {y}, x);
    }
  }

  lemma DrainIsSound(b: Book, clock: nat, now: nat, ids: seq<nat>, cb: nat -> seq<Action>)
    requires Sound(b) && b.running.None? && now <= clock && Drains(b, clock, now, ids, cb)
    ensures
      var d := Drain(b, clock, ids, cb);
      Sound(d.book) && d.book.running.None? && clock <= d.clock
  {
    DrainKeepsPromises(b, clock, now, ids, cb);
  }

  lemma LastTurnShrinksDue(b: Book, clock: nat, now: nat, ids: seq<nat>, cb: nat -> seq<Action>)
    requires Sound(b) && b.running.None? && now <= clock && Drains(b, clock, now, ids, cb)
    requires ids != [] && Patient(cb, 0)
    ensures |DueIds(Drain(b, clock, ids, cb).book, now)| < |DueIds(Drain(b, clock, ids[..|ids| - 1], cb).book, now)|
  {
    var n := |ids| - 1;
    DrainIsSound(b, clock, now, ids[..n], cb);
    var d := Drain(b, clock, ids[..n], cb);
    PatientCallback(cb, 0, n, d.clock - now);
    TurnShrinksDue(d.book, d.clock, ids[n], cb(n), now);
  }

  /** The number of due timers is a measure: when no callback adds a timer already due, a
      drain fires at most as many timers as were due, one less being due after each. */
  lemma {:induction false} DueIsAMeasure(b: Book, clock: nat, now: nat, ids: seq<nat>, cb: nat -> seq<Action>)
    requires Sound(b) && b.running.None? && now <= clock && Drains(b, clock, now, ids, cb)
    requires Patient(cb, 0)
    ensures |ids| + |DueIds(Drain(b, clock, ids, cb).book, now)| <= |DueIds(b, now)|
    decreases |ids|
  {
    if ids != [] {
      LastTurnShrinksDue(b, clock, now, ids, cb);
      DueIsAMeasure(b, clock, now, ids[..|ids| - 1], cb);
    }
  }

  // ----- a drain is a possible history -----

  /** The events `news` take the history from book b to book c. */
  ghost predicate Leads(t: seq<Event>, b: Book, news: seq<Event>, c: Book) {
    After(t) == Some(b) ==> After(t + news) == Some(c)
  }

  lemma OneLeads(t: seq<Event>, b: Book, e: Event)
    requires Possible(b, e)
    ensures Leads(t, b, [e], Record(b, e))
  {
    AfterAppend(t, e);
  }

  lemma LeadsOn(t: seq<Event>, b: Book, news: seq<Event>, c: Book, more: seq<Event>, d: Book)
    requires Leads(t, b, news, c) && Leads(t + news, c, more, d)
    ensures Leads(t, b, news + more, d)
  {
    assert t + (news + more) == t + news + more;
  }

  lemma {:induction false} DeedsArePossible(t: seq<Event>, b: Book, clock: nat, actions: seq<Action>)
    ensures Leads(t, b, Deeds(b, clock, actions).news, Deeds(b, clock, actions).book)
    decreases |actions|
  {
    if actions == [] {
      assert t + [] == t;
    } else {
      var e := Deed(b, clock, actions[0]);
      if e.news == [] { assert t + e.news == t; } else { OneLeads(t, b, e.news[0]); }
      DeedsArePossible(t + e.news, e.book, e.clock, actions[1..]);
      var d := Deeds(e.book, e.clock, actions[1..]);
      LeadsOn(t, b, e.news, e.book, d.news, d.book);
    }
  }

  lemma TurnIsPossible(t: seq<Event>, b: Book, clock: nat, id: nat, actions: seq<Action>)
    requires Sound(b) && b.running.None? && id in b.active && b.active[id].expiry <= clock && b.now <= clock
    ensures Leads(t, b, Turn(b, clock, id, actions).news, Turn(b, clock, id, actions).book)
  {
    var fired := Fired(id, b.active[id].expiry, b.active[id].periodMs, clock);
    var c := Record(b, fired);
    var d := Deeds(c, clock, actions);
    var last := Ending(d.book, id, d.clock, fired.periodMs);
    OneLeads(t, b, fired);
    DeedsArePossible(t + [fired], c, clock, actions);
    LeadsOn(t, b, [fired], c, d.news, d.book);
    DeedsKeepRunning(c, clock, actions);
    OneLeads(t + ([fired] + d.news), d.book, last);
    LeadsOn(t, b, [fired] + d.news, d.book, [last], Record(d.book, last));
  }

  lemma {:induction false} DrainIsPossible(t: seq<Event>, b: Book, clock: nat, now: nat, ids: seq<nat>, cb: nat -> seq<Action>)
    requires Sound(b) && b.running.None? && b.now <= clock && now <= clock && Drains(b, clock, now, ids, cb)
    ensures Leads(t, b, Drain(b, clock, ids, cb).news, Drain(b, clock, ids, cb).book)
    decreases |ids|
  {
    if ids == [] {
      assert t + [] == t;
    } else {
      var n := |ids| - 1;
      var d := Drain(b, clock, ids[..n], cb);
      var e := Turn(d.book, d.clock, ids[n], cb(n));
      DrainIsSound(b, clock, now, ids[..n], cb);
      DrainIsPossible(t, b, clock, now, ids[..n], cb);
      TurnIsPossible(t + d.news, d.book, d.clock, ids[n], cb(n));
      LeadsOn(t, b, d.news, d.book, e.news, e.book);
    }
  }

  /** A callback leaves the timer it runs for as it was, or cancels it. */
  lemma DeedsKeepRunning(b: Book, clock: nat, actions: seq<Action>)
    requires Sound(b) && b.running.Some?
    ensures
      var d := Deeds(b, clock, actions).book;
      var id := b.running.value;
      && d.running == b.running && d.now == b.now && clock <= Deeds(b, clock, actions).clock
      && (id in d.active ==> id in b.active && d.active[id] == b.active[id])
  {
    DeedsEvolve(b, clock, actions);
    var d := Deeds(b, clock, actions);
    var id := b.running.value;
    if id in d.book.active { assert Comes(id, d.book.active[id], b, clock, d.news); }
  }
}
