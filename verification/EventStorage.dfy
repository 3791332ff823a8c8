/** Quota enforcement of media/EventStorage.h: scan, oldest-first eviction, quota test. */
module EventStorage {
  import opened Queues
  import opened Recorder
  import opened RecorderProofs

  datatype Limits = Limits(bytes: nat, files: nat, freeBytes: nat)

  /** A parsed manifest; absent members have the defaults the scan gives them. */
  datatype Json = NotObject | Object(format: string, writeOk: bool, complete: bool, hasReason: bool)

  /** What deleting a file will do: delete it and its manifest, find it gone, throw, or
      delete it and throw at its manifest. */
  datatype Removal = Deleted | Absent | Stuck | Orphaned

  /** One directory entry. `manifest` is None when the manifest is missing, a symbolic link
      or not a regular file. */
  datatype Entry = Entry(
    path: string, nameMatches: bool, symlink: bool, regular: bool, size: nat, time: int,
    manifest: Option<(Json, nat)>, removal: Removal)

  datatype Item = Item(path: string, size: nat, time: int, removable: bool, removal: Removal)

  const FORMAT := "Annex-B H264"

  predicate Recognized(e: Entry) {
    e.nameMatches && !e.symlink && e.regular
  }

  /** A finalized event with all bytes written. */
  predicate Final(j: Json) {
    j.Object? && j.format == FORMAT && j.writeOk && j.complete && j.hasReason
  }

  function ItemOf(e: Entry, active: string): Item {
    var size := if e.manifest.Some? then e.size + e.manifest.value.1 else e.size;
    Item(e.path, size, e.time, e.manifest.Some? && Final(e.manifest.value.0) && e.path != active, e.removal)
  }

  function Scan(listing: seq<Entry>, active: string): seq<Item>
    decreases |listing|
  {
    if listing == [] then []
    else
      var rest := Scan(listing[..|listing| - 1], active);
      var e := listing[|listing| - 1];
      if Recognized(e) then rest + [ItemOf(e, active)] else rest
  }

  function Total(items: seq<Item>): nat {
    if items == [] then 0 else items[0].size + Total(items[1..])
  }

  predicate Eligible(i: Item) {
    i.removable && (i.removal.Deleted? || i.removal.Orphaned?)
  }

  /** The items eviction can delete, in order. */
  function Candidates(items: seq<Item>): (c: seq<Item>)
    ensures |c| <= |items|
  {
    if items == [] then []
    else if Eligible(items[0]) then [items[0]] + Candidates(items[1..])
    else Candidates(items[1..])
  }

  /** What is left when the first k candidates are deleted. */
  function Survivors(items: seq<Item>, k: nat): seq<Item> {
    if items == [] then []
    else if k > 0 && Eligible(items[0]) then Survivors(items[1..], k - 1)
    else [items[0]] + Survivors(items[1..], k)
  }

  /** The request: bytes about to be written, whether a new file is opened, the limits, and
      the bytes the file system reports free after k deletions; None when that query throws. */
  datatype Request = Request(incoming: nat, opening: bool, limits: Limits, free: seq<Option<nat>>)

  /** The tests before the free space is asked for. */
  predicate WithinQuota(q: Request, used: nat, count: nat) {
    && q.incoming <= q.limits.bytes
    && used <= q.limits.bytes - q.incoming
    && count <= q.limits.files
  }

  predicate Fits(q: Request, used: nat, count: nat, free: Option<nat>) {
    WithinQuota(q, used, count) && free.Some? && free.value >= q.limits.freeBytes + q.incoming
  }

  function CountAfter(q: Request, items: seq<Item>, k: nat): nat {
    |Survivors(items, k)| + if q.opening then 1 else 0
  }

  /** The quota test as a statement about the files that remain. */
  predicate FitsAfter(q: Request, items: seq<Item>, k: nat)
    requires k < |q.free|
  {
    Fits(q, Total(Survivors(items, k)), CountAfter(q, items, k), q.free[k])
  }

  /** The test of the free space throws after k deletions. */
  predicate ThrowsAfter(q: Request, items: seq<Item>, k: nat)
    requires k < |q.free|
  {
    WithinQuota(q, Total(Survivors(items, k)), CountAfter(q, items, k)) && q.free[k].None?
  }

  predicate Faulty(i: Item) {
    i.removable && (i.removal.Stuck? || i.removal.Orphaned?)
  }

  ghost predicate ByAge(items: seq<Item>) {
    forall i, j :: 0 <= i < j < |items| ==> items[i].time <= items[j].time
  }

  /** The loop went past the first n files, none of which made it throw, and deleted `removed`. */
  ghost predicate Reached(order: seq<Item>, removed: seq<Item>, n: nat) {
    && n <= |order|
    && removed == Candidates(order[..n])
    && forall j :: 0 <= j < n ==> !Faulty(order[j])
  }

  /** Deleting file n threw, when the request did not fit yet. */
  ghost predicate ThrewAt(q: Request, order: seq<Item>, removed: seq<Item>, n: nat)
    requires |q.free| > |order|
  {
    && n < |order| && Faulty(order[n])
    && Reached(order, Candidates(order[..n]), n)
    && removed == Candidates(order[..n + 1])
    && |Candidates(order[..n])| <= |order|
    && !FitsAfter(q, order, |Candidates(order[..n])|) && !ThrowsAfter(q, order, |Candidates(order[..n])|)
  }

  /** The request does not fit after fewer than n deletions, nor is its test stopped. */
  ghost predicate NotYet(q: Request, order: seq<Item>, n: nat) {
    n <= |q.free| && forall k :: 0 <= k < n ==> !FitsAfter(q, order, k) && !ThrowsAfter(q, order, k)
  }

  /** The candidates deleted are the shortest oldest-first prefix that makes the request
      fit, or all of them when nothing does, or those up to where something threw. */
  ghost predicate Greedy(q: Request, order: seq<Item>, removed: seq<Item>, verdict: Verdict)
    requires |q.free| > |order|
  {
    var all := Candidates(order);
    && removed <= all
    && NotYet(q, order, |removed|)
    && match verdict
       case Granted => FitsAfter(q, order, |removed|) && exists n :: Reached(order, removed, n)
       case Denied =>
         && removed == all && Reached(order, removed, |order|)
         && !FitsAfter(q, order, |all|) && !ThrowsAfter(q, order, |all|)
       case Raised =>
         || (ThrowsAfter(q, order, |removed|) && exists n :: Reached(order, removed, n))
         || exists n :: ThrewAt(q, order, removed, n)
  }

  // ----- counters against survivors -----

  lemma {:induction false} CandidatesConcat(a: seq<Item>, b: seq<Item>)
    ensures Candidates(a + b) == Candidates(a) + Candidates(b)
    decreases |a|
  {
    if a == [] {
      assert a + b == b;
    } else {
      assert (a + b)[1..] == a[1..] + b;
      CandidatesConcat(a[1..], b);
    }
  }

  /** Deleting one more candidate takes exactly its size and one file off the survivors. */
  lemma {:induction false} OneLess(items: seq<Item>, k: nat)
    requires k < |Candidates(items)|
    ensures |Survivors(items, k + 1)| == |Survivors(items, k)| - 1
    ensures Total(Survivors(items, k + 1)) + Candidates(items)[k].size == Total(Survivors(items, k))
  {
    var rest := items[1..];
    if !Eligible(items[0]) {
      OneLess(rest, k);
    } else if k > 0 {
      OneLess(rest, k - 1);
    } else {
      KeepAll(rest);
      KeepAll(items);
    }
  }

  lemma {:induction false} KeepAll(items: seq<Item>)
    ensures Survivors(items, 0) == items
  {
    if items != [] { KeepAll(items[1..]); }
  }

  lemma {:induction false} TotalConcat(a: seq<Item>, b: seq<Item>)
    ensures Total(a + b) == Total(a) + Total(b)
    decreases |a|
  {
    if a == [] {
      assert a + b == b;
    } else {
      assert (a + b)[1..] == a[1..] + b;
      TotalConcat(a[1..], b);
    }
  }

  lemma TotalInsert(a: seq<Item>, x: Item, b: seq<Item>)
    ensures Total(a + [x] + b) == Total(a + b) + x.size
  {
    TotalConcat(a, b);
    TotalConcat(a + [x], b);
    TotalConcat(a, [x]);
    assert Total([x]) == x.size + Total([]);
  }

  // ----- reserve() -----

  method ScanDirectory(listing: seq<Entry>, active: string) returns (items: seq<Item>, used: nat)
    ensures items == Scan(listing, active) && used == Total(items) && |items| <= |listing|
  {
    items, used := [], 0;
    for n := 0 to |listing|
      invariant items == Scan(listing[..n], active) && used == Total(items) && |items| <= n
    {
      assert listing[..n + 1][..n] == listing[..n];
      if Recognized(listing[n]) {
        var item := ItemOf(listing[n], active);
        TotalInsert(items, item, []);
        assert items + [item] + [] == items + [item] && items + [] == items;
        items := items + [item];
        used := used + item.size;
      }
    }
    assert listing[..|listing|] == listing;
  }

  lemma InsertKeepsAge(order: seq<Item>, at: nat, x: Item)
    requires ByAge(order) && at <= |order|
    requires at > 0 ==> order[at - 1].time <= x.time
    requires at < |order| ==> x.time < order[at].time
    ensures ByAge(order[..at] + [x] + order[at..])
  {
  }

  lemma InsertAdds(order: seq<Item>, at: nat, x: Item)
    requires at <= |order|
    ensures var r := order[..at] + [x] + order[at..];
            && multiset(r) == multiset(order) + multiset{x}
            && Total(r) == Total(order) + x.size
  {
    assert order == order[..at] + order[at..];
    TotalInsert(order[..at], x, order[at..]);
  }

  method InsertByAge(order: seq<Item>, x: Item) returns (r: seq<Item>)
    requires ByAge(order)
    ensures ByAge(r) && multiset(r) == multiset(order) + multiset{x}
    ensures |r| == |order| + 1 && Total(r) == Total(order) + x.size
  {
    var at := |order|;
    while at > 0 && order[at - 1].time > x.time
      invariant 0 <= at <= |order|
      invariant at < |order| ==> order[at].time > x.time
    {
      at := at - 1;
    }
    InsertKeepsAge(order, at, x);
    InsertAdds(order, at, x);
    r := order[..at] + [x] + order[at..];
  }

  lemma PrefixGrows(items: seq<Item>, n: nat)
    requires n < |items|
    ensures multiset(items[..n + 1]) == multiset(items[..n]) + multiset{items[n]}
    ensures Total(items[..n + 1]) == Total(items[..n]) + items[n].size
  {
    assert items[..n + 1] == items[..n] + [items[n]];
    TotalInsert(items[..n], items[n], []);
    assert items[..n] + [items[n]] + [] == items[..n + 1] && items[..n] + [] == items[..n];
  }

  method SortByAge(items: seq<Item>) returns (order: seq<Item>)
    ensures multiset(order) == multiset(items) && ByAge(order)
    ensures |order| == |items| && Total(order) == Total(items)
  {
    order := [];
    for n := 0 to |items|
      invariant multiset(order) == multiset(items[..n]) && ByAge(order)
      invariant |order| == n && Total(order) == Total(items[..n])
    {
      PrefixGrows(items, n);
      order := InsertByAge(order, items[n]);
    }
    assert items[..|items|] == items;
  }

  lemma CandidatesStep(order: seq<Item>, i: nat)
    requires i < |order|
    ensures Candidates(order[..i + 1]) == Candidates(order[..i]) + if Eligible(order[i]) then [order[i]] else []
    ensures Candidates(order[..i + 1]) <= Candidates(order)
    ensures Eligible(order[i]) ==>
      |Candidates(order[..i])| < |Candidates(order)| && Candidates(order)[|Candidates(order[..i])|] == order[i]
  {
    assert order[..i + 1] == order[..i] + [order[i]];
    assert order == order[..i + 1] + order[i + 1..];
    CandidatesConcat(order[..i], [order[i]]);
    CandidatesConcat(order[..i + 1], order[i + 1..]);
  }

  /** The eviction loop after i files: the counters describe what is left after deleting
      `removed`, and no shorter prefix would have fit. */
  ghost predicate Evicting(q: Request, order: seq<Item>, i: nat, removed: seq<Item>, used: nat, count: nat)
    requires |q.free| > |order|
  {
    && i <= |order|
    && Reached(order, removed, i)
    && removed <= Candidates(order)
    && used == Total(Survivors(order, |removed|))
    && count == CountAfter(q, order, |removed|)
    && NotYet(q, order, |removed|)
  }

  lemma EvictingSkips(q: Request, order: seq<Item>, i: nat, removed: seq<Item>, used: nat, count: nat)
    requires |q.free| > |order| && Evicting(q, order, i, removed, used, count)
    requires i < |order| && !Eligible(order[i]) && !Faulty(order[i])
    ensures Evicting(q, order, i + 1, removed, used, count)
  {
    CandidatesStep(order, i);
  }

  lemma EvictingTakes(q: Request, order: seq<Item>, i: nat, removed: seq<Item>, used: nat, count: nat)
    requires |q.free| > |order| && Evicting(q, order, i, removed, used, count)
    requires i < |order| && Eligible(order[i]) && |removed| <= |order|
    requires !FitsAfter(q, order, |removed|) && !ThrowsAfter(q, order, |removed|)
    ensures order[i].size <= used && 0 < count
    ensures Faulty(order[i]) ==> Greedy(q, order, removed + [order[i]], Raised)
    ensures !Faulty(order[i]) ==> Evicting(q, order, i + 1, removed + [order[i]], used - order[i].size, count - 1)
  {
    TakesOneMore(order, i, removed);
    NotYetMore(q, order, |removed|);
    NextIsHere(order, i);
    TakesItsSize(q, order, |removed|, used, count);
    if Faulty(order[i]) { ThrowsTaking(q, order, i, removed); }
  }

  lemma NotYetMore(q: Request, order: seq<Item>, n: nat)
    requires n < |q.free| && NotYet(q, order, n)
    requires !FitsAfter(q, order, n) && !ThrowsAfter(q, order, n)
    ensures NotYet(q, order, n + 1)
  {
  }

  lemma NextIsHere(order: seq<Item>, i: nat)
    requires i < |order| && Eligible(order[i])
    ensures |Candidates(order[..i])| < |Candidates(order)| && Candidates(order)[|Candidates(order[..i])|] == order[i]
  {
    CandidatesStep(order, i);
  }

  lemma TakesOneMore(order: seq<Item>, i: nat, removed: seq<Item>)
    requires i < |order| && Eligible(order[i]) && Reached(order, removed, i)
    ensures removed + [order[i]] == Candidates(order[..i + 1]) && removed + [order[i]] <= Candidates(order)
    ensures !Faulty(order[i]) ==> Reached(order, removed + [order[i]], i + 1)
  {
    CandidatesStep(order, i);
  }

  lemma TakesItsSize(q: Request, order: seq<Item>, k: nat, used: nat, count: nat)
    requires k < |Candidates(order)|
    requires used == Total(Survivors(order, k)) && count == CountAfter(q, order, k)
    ensures Candidates(order)[k].size <= used && 0 < count
    ensures used - Candidates(order)[k].size == Total(Survivors(order, k + 1))
    ensures count - 1 == CountAfter(q, order, k + 1)
  {
    OneLess(order, k);
  }

  lemma ThrowsTaking(q: Request, order: seq<Item>, i: nat, removed: seq<Item>)
    requires |q.free| > |order| && Reached(order, removed, i)
    requires i < |order| && Eligible(order[i]) && Faulty(order[i]) && |removed| <= |order|
    requires !FitsAfter(q, order, |removed|) && !ThrowsAfter(q, order, |removed|)
    ensures ThrewAt(q, order, removed + [order[i]], i)
  {
    TakesOneMore(order, i, removed);
  }

  lemma EvictingSticks(q: Request, order: seq<Item>, i: nat, removed: seq<Item>, used: nat, count: nat)
    requires |q.free| > |order| && Evicting(q, order, i, removed, used, count)
    requires i < |order| && Faulty(order[i]) && !Eligible(order[i]) && |removed| <= |order|
    requires !FitsAfter(q, order, |removed|) && !ThrowsAfter(q, order, |removed|)
    ensures Greedy(q, order, removed, Raised)
  {
    CandidatesStep(order, i);
    assert ThrewAt(q, order, removed, i);
  }

  method Evict(q: Request, order: seq<Item>, total: nat) returns (verdict: Verdict, removed: seq<Item>)
    requires |q.free| > |order| && total == Total(order)
    ensures Greedy(q, order, removed, verdict)
  {
    KeepAll(order);
    var used: nat, count: nat := total, |order| + if q.opening then 1 else 0;
    removed := [];
    var i := 0;
    while i < |order|
      invariant Evicting(q, order, i, removed, used, count)
    {
      var free := q.free[|removed|];
      if WithinQuota(q, used, count) && free.None? { return Raised, removed; }
      if Fits(q, used, count, free) { return Granted, removed; }
      var x := order[i];
      if x.removable && x.removal.Stuck? {
        EvictingSticks(q, order, i, removed, used, count);
        return Raised, removed;
      } else if Eligible(x) {
        EvictingTakes(q, order, i, removed, used, count);
        removed := removed + [x];
        if x.removal.Orphaned? { return Raised, removed; }
        used := used - x.size;
        count := count - 1;
      } else {
        EvictingSkips(q, order, i, removed, used, count);
      }
      i := i + 1;
    }
    assert order[..i] == order;
    if WithinQuota(q, used, count) && q.free[|removed|].None? { return Raised, removed; }
    verdict := if Fits(q, used, count, q.free[|removed|]) then Granted else Denied;
  }

  /** `scanned` is None when reading the directory throws; q.free[k] is what the file system
      reports free after k deletions. The order among files of equal age is whatever the
      sort leaves. */
  method Reserve(linked: bool, scanned: Option<seq<Entry>>, active: string, q: Request)
    returns (verdict: Verdict, removed: seq<Item>, order: seq<Item>)
    requires scanned.Some? ==> |q.free| > |scanned.value|
    ensures linked ==> verdict == Denied && removed == []
    ensures !linked && scanned.None? ==> verdict == Raised && removed == []
    ensures !linked && scanned.Some? ==>
      && multiset(order) == multiset(Scan(scanned.value, active)) && ByAge(order)
      && |order| <= |scanned.value|
      && Greedy(q, order, removed, verdict)
      && |removed| <= |order|
      && (verdict.Granted? ==> HasRoom(q, order, removed))
  {
    if linked { return Denied, [], []; }
    if scanned.None? { return Raised, [], []; }
    var items, used := ScanDirectory(scanned.value, active);
    order := SortByAge(items);
    verdict, removed := Evict(q, order, used);
    AnswersMeanLimits(q, order, removed, verdict);
  }

  // ----- what greedy eviction promises -----

  lemma {:induction false} SurvivorsShrink(items: seq<Item>, k: nat, m: nat)
    requires k <= m <= |Candidates(items)|
    ensures Total(Survivors(items, m)) <= Total(Survivors(items, k))
    ensures |Survivors(items, m)| <= |Survivors(items, k)|
    decreases m - k
  {
    if k < m {
      OneLess(items, k);
      SurvivorsShrink(items, k + 1, m);
    }
  }

  /** When nothing throws and deletions never shrink the reported free space, greedy
      eviction is optimal: it grants the request exactly when deleting every candidate would
      make it fit, and denies it otherwise. */
  lemma GreedyIsOptimal(q: Request, order: seq<Item>, removed: seq<Item>, verdict: Verdict)
    requires |q.free| > |order| && Greedy(q, order, removed, verdict)
    requires forall i :: 0 <= i < |q.free| ==> q.free[i].Some?
    requires forall i, j :: 0 <= i < j < |q.free| ==> q.free[i].value <= q.free[j].value
    requires forall x :: x in order ==> !Faulty(x)
    ensures verdict == if FitsAfter(q, order, |Candidates(order)|) then Granted else Denied
  {
    SurvivorsShrink(order, |removed|, |Candidates(order)|);
  }

  /** In general, a request is granted only when some number of oldest-first deletions fits,
      and denied only when none does. */
  lemma GreedyFindsAFit(q: Request, order: seq<Item>, removed: seq<Item>, verdict: Verdict)
    requires |q.free| > |order| && Greedy(q, order, removed, verdict)
    ensures verdict.Granted? ==> exists k :: 0 <= k <= |Candidates(order)| && FitsAfter(q, order, k)
    ensures verdict.Denied? ==> !exists k :: 0 <= k <= |Candidates(order)| && FitsAfter(q, order, k)
  {
  }

  lemma {:induction false} CandidateIsEligible(items: seq<Item>, x: Item)
    ensures x in Candidates(items) <==> x in items && Eligible(x)
  {
    if items != [] { CandidateIsEligible(items[1..], x); }
  }

  lemma {:induction false} CandidatesByAge(items: seq<Item>)
    requires ByAge(items)
    ensures ByAge(Candidates(items))
  {
    if items != [] {
      CandidatesByAge(items[1..]);
      forall j | 0 <= j < |Candidates(items[1..])|
        ensures items[0].time <= Candidates(items[1..])[j].time
      {
        CandidateIsEligible(items[1..], Candidates(items[1..])[j]);
      }
    }
  }

  lemma {:induction false} ScanComesFromListing(listing: seq<Entry>, active: string, x: Item)
    requires x in Scan(listing, active)
    ensures exists e :: e in listing && Recognized(e) && x == ItemOf(e, active)
    decreases |listing|
  {
    var e := listing[|listing| - 1];
    var less := listing[..|listing| - 1];
    if !(Recognized(e) && x == ItemOf(e, active)) {
      ScanComesFromListing(less, active, x);
      var f :| f in less && Recognized(f) && x == ItemOf(f, active);
      assert f in listing;
    } else {
      assert e in listing;
    }
  }

  /** Only finalized, fully written event files other than the active one are ever deleted,
      and none while an older candidate is kept. */
  lemma OnlyFinalEventsAreDeleted(listing: seq<Entry>, active: string, q: Request,
                                  order: seq<Item>, removed: seq<Item>, verdict: Verdict, k: nat)
    requires multiset(order) == multiset(Scan(listing, active)) && ByAge(order)
    requires |q.free| > |order| && Greedy(q, order, removed, verdict)
    requires k < |removed|
    ensures removed[k].path != active
    ensures exists e :: e in listing && Recognized(e) && removed[k] == ItemOf(e, active)
              && e.manifest.Some? && Final(e.manifest.value.0)
    ensures forall j :: |removed| <= j < |Candidates(order)| ==> removed[k].time <= Candidates(order)[j].time
  {
    var x := removed[k];
    assert x == Candidates(order)[k];
    CandidateIsEligible(order, x);
    assert x in multiset(order);
    ScanComesFromListing(listing, active, x);
    CandidatesByAge(order);
  }

  // ----- what the answers mean, limits written out -----

  /** Deleting the first k candidates takes exactly their bytes and k files. */
  lemma {:induction false} WhatSurvives(items: seq<Item>, k: nat)
    requires k <= |Candidates(items)|
    ensures Total(Survivors(items, k)) == Total(items) - Total(Candidates(items)[..k])
    ensures |Survivors(items, k)| == |items| - k
    decreases k
  {
    var all := Candidates(items);
    if k == 0 {
      KeepAll(items);
    } else {
      WhatSurvives(items, k - 1);
      OneLess(items, k - 1);
      assert all[..k] == all[..k - 1] + [all[k - 1]];
      TotalConcat(all[..k - 1], [all[k - 1]]);
    }
  }

  /** Once `removed` is gone there is room for the request, limit by limit. */
  ghost predicate HasRoom(q: Request, order: seq<Item>, removed: seq<Item>)
    requires |removed| <= |order| < |q.free|
  {
    && Total(order) - Total(removed) + q.incoming <= q.limits.bytes
    && |order| - |removed| + (if q.opening then 1 else 0) <= q.limits.files
    && q.free[|removed|].Some? && q.free[|removed|].value >= q.limits.freeBytes + q.incoming
  }

  /** A grant means room: what is left and the bytes to come are within the byte limit, the
      files left and a new one within the file limit, and the free space suffices. A denial
      means that one of the three fails even when every deletable file is gone. */
  lemma AnswersMeanLimits(q: Request, order: seq<Item>, removed: seq<Item>, verdict: Verdict)
    requires |q.free| > |order| && Greedy(q, order, removed, verdict)
    ensures |removed| <= |order|
    ensures verdict.Granted? ==> HasRoom(q, order, removed)
    ensures verdict.Denied? ==>
      && removed == Candidates(order)
      && (|| Total(order) - Total(removed) + q.incoming > q.limits.bytes
          || |order| - |removed| + (if q.opening then 1 else 0) > q.limits.files
          || (q.free[|removed|].Some? && q.free[|removed|].value < q.limits.freeBytes + q.incoming))
  {
    WhatSurvives(order, |removed|);
    assert Candidates(order)[..|removed|] == removed;
  }

  /** A file is deleted only while there is no room. */
  lemma DeletionsAreNeeded(q: Request, order: seq<Item>, removed: seq<Item>, verdict: Verdict, k: nat)
    requires |q.free| > |order| && Greedy(q, order, removed, verdict) && k < |removed|
    ensures
      || Total(order) - Total(removed[..k]) + q.incoming > q.limits.bytes
      || |order| - k + (if q.opening then 1 else 0) > q.limits.files
      || (q.free[k].Some? && q.free[k].value < q.limits.freeBytes + q.incoming)
  {
    WhatSurvives(order, k);
    assert Candidates(order)[..k] == removed[..k];
    assert !FitsAfter(q, order, k) && !ThrowsAfter(q, order, k);
  }

  /** The files counted are the regular ones of the right name that are no links, each with
      its manifest's bytes; one may be deleted exactly when its manifest is an object of the
      right format that says written, complete and why it ended, and it is not active. */
  ghost predicate Describes(x: Item, e: Entry, active: string) {
    && e.nameMatches && !e.symlink && e.regular
    && x.path == e.path && x.time == e.time && x.removal == e.removal
    && x.size == e.size + (if e.manifest.Some? then e.manifest.value.1 else 0)
    && (x.removable <==>
          && e.path != active
          && e.manifest.Some? && e.manifest.value.0.Object?
          && e.manifest.value.0.format == "Annex-B H264"
          && e.manifest.value.0.writeOk && e.manifest.value.0.complete && e.manifest.value.0.hasReason)
  }

  predicate Counted(e: Entry) {
    e.nameMatches && !e.symlink && e.regular
  }

  /** The scan's items are described, in order, by the entries at these places, and these are
      all that count. */
  ghost predicate Lists(listing: seq<Entry>, active: string, places: seq<nat>) {
    var items := Scan(listing, active);
    && |places| == |items|
    && (forall i :: 0 <= i < |places| ==> places[i] < |listing| && Describes(items[i], listing[places[i]], active))
    && (forall i, j :: 0 <= i < j < |places| ==> places[i] < places[j])
    && (forall n :: 0 <= n < |listing| && Counted(listing[n]) ==> n in places)
  }

  /** The scan lists exactly these, in the order of the directory. */
  lemma {:induction false} ScanDescribes(listing: seq<Entry>, active: string) returns (places: seq<nat>)
    ensures Lists(listing, active, places)
    decreases |listing|
  {
    places := [];
    if listing != [] {
      var less, e := listing[..|listing| - 1], listing[|listing| - 1];
      assert listing == less + [e];
      places := ScanDescribes(less, active);
      if Counted(e) {
        ListsOneMore(less, active, places, e);
        places := places + [|less|];
      } else {
        ListsAsBefore(less, active, places, e);
      }
    }
  }

  lemma ListsAsBefore(less: seq<Entry>, active: string, places: seq<nat>, e: Entry)
    requires Lists(less, active, places) && !Counted(e)
    ensures Lists(less + [e], active, places)
  {
    var listing := less + [e];
    assert listing[..|listing| - 1] == less;
  }

  lemma ListsOneMore(less: seq<Entry>, active: string, places: seq<nat>, e: Entry)
    requires Lists(less, active, places) && Counted(e)
    ensures Lists(less + [e], active, places + [|less|])
  {
    var listing := less + [e];
    assert listing[..|listing| - 1] == less;
    var more, items := places + [|less|], Scan(listing, active);
    assert items[..|places|] == Scan(less, active);
    assert Describes(items[|places|], e, active);
    forall n | 0 <= n < |listing| && Counted(listing[n]) ensures n in more {
      if n == |less| {
        assert more[|places|] == n;
      } else {
        assert n in places;
      }
    }
  }

  /** The candidates are exactly the deletable files whose deletion does not fail, in order. */
  lemma {:induction false} CandidatesAre(items: seq<Item>, x: Item)
    ensures multiset(Candidates(items))[x] ==
            if x.removable && x.removal != Absent && x.removal != Stuck then multiset(items)[x] else 0
    decreases |items|
  {
    if items != [] {
      assert items == [items[0]] + items[1..];
      CandidatesAre(items[1..], x);
    }
  }

  // ----- together with the recorder -----

  /** What a scan finds of manifest m. A manifest whose writing failed is missing or cut
      short, and a cut-short object does not parse. */
  ghost predicate FoundAs(m: Manifest, found: Option<(Json, nat)>) {
    if m.manifestOk then found.Some? && found.value.0 == Object(FORMAT, m.writeOk, m.complete, true)
    else found.Some? ==> found.value.0.NotObject?
  }

  /** names[i] is the path of the file of record i; other files in the directory are free. */
  ghost predicate Reflects(listing: seq<Entry>, log: seq<Record>, names: seq<string>) {
    && |names| == |log|
    && forall e, i :: e in listing && 0 <= i < |log| && log[i].Finished? && e.path == names[i] ==>
         FoundAs(log[i].manifest, e.manifest)
  }

  /** The file ended by itself with every byte and its manifest written. */
  predicate Natural(m: Manifest) {
    m.writeOk && m.manifestOk && (m.reason == TailComplete || m.reason == MaxDuration)
  }

  lemma FinalIsNatural(c: Config, events: seq<Event>, i: nat, found: Option<(Json, nat)>)
    requires i < |Run(c, events).local.log| && Run(c, events).local.log[i].Finished?
    requires FoundAs(Run(c, events).local.log[i].manifest, found)
    ensures (found.Some? && Final(found.value.0)) <==> Natural(Run(c, events).local.log[i].manifest)
  {
    EveryRunKeepsInv(c, events);
    var s := Run(c, events);
    assert RecordOk(c, s.local.log[i], s.shared.sent, s.shared.raised);
  }

  lemma {:induction false} IneligibleSurvives(items: seq<Item>, k: nat, x: Item)
    requires x in items && !Eligible(x)
    ensures x in Survivors(items, k)
  {
    if x != items[0] {
      IneligibleSurvives(items[1..], if k > 0 && Eligible(items[0]) then k - 1 else k, x);
    }
  }

  /** Over every run of the recorder and every quota enforcement on a directory holding its
      files: a file is deleted only if it ended by itself with every byte and its manifest
      written; one cut short by a gap, a restart, a timeout, a write error, the quota or
      shutdown, or whose manifest could not be written, survives, whatever else is there. */
  lemma DeletedFilesEndedNaturally(c: Config, events: seq<Event>, names: seq<string>, i: nat,
                                   listing: seq<Entry>, active: string, q: Request,
                                   order: seq<Item>, removed: seq<Item>, verdict: Verdict)
    requires i < |Run(c, events).local.log| && Run(c, events).local.log[i].Finished?
    requires Reflects(listing, Run(c, events).local.log, names)
    requires multiset(order) == multiset(Scan(listing, active))
    requires |q.free| > |order| && Greedy(q, order, removed, verdict)
    ensures
      var m := Run(c, events).local.log[i].manifest;
      && (forall x :: x in removed && x.path == names[i] ==> Natural(m))
      && (forall x :: x in Scan(listing, active) && x.path == names[i] && !Natural(m) ==>
            x !in removed && x in Survivors(order, |removed|))
  {
    var m := Run(c, events).local.log[i].manifest;
    forall x | x in order && x.path == names[i]
      ensures Eligible(x) ==> Natural(m)
      ensures !Natural(m) ==> x !in removed && x in Survivors(order, |removed|)
    {
      ItemTellsManifest(c, events, names, i, listing, active, order, x);
      CandidateIsEligible(order, x);
      if !Natural(m) { IneligibleSurvives(order, |removed|, x); }
    }
    forall x | x in removed ensures x in order && Eligible(x) {
      assert x in Candidates(order);
      CandidateIsEligible(order, x);
    }
    forall x | x in Scan(listing, active) ensures x in order {
      assert x in multiset(order);
    }
  }

  /** The recorder's file is up for deletion exactly when it ended naturally and is not the
      one being written. */
  lemma ItemTellsManifest(c: Config, events: seq<Event>, names: seq<string>, i: nat,
                          listing: seq<Entry>, active: string, order: seq<Item>, x: Item)
    requires i < |Run(c, events).local.log| && Run(c, events).local.log[i].Finished?
    requires Reflects(listing, Run(c, events).local.log, names)
    requires multiset(order) == multiset(Scan(listing, active)) && x in order && x.path == names[i]
    ensures x.removable <==> Natural(Run(c, events).local.log[i].manifest) && names[i] != active
  {
    assert x in multiset(order);
    ScanComesFromListing(listing, active, x);
    var e :| e in listing && Recognized(e) && x == ItemOf(e, active);
    FinalIsNatural(c, events, i, e.manifest);
  }
}
