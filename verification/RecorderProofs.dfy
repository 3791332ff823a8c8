/** What every run of the recorder guarantees about the files it writes. */
module RecorderProofs {
  import opened Queues
  import opened Recorder

  function Last(s: seq<Packet>): Packet
    requires s != []
  {
    s[|s| - 1]
  }

  function LastIndex(s: seq<Packet>): int {
    if s == [] then -1 else Last(s).index
  }

  // ----- the queue and its gap marks -----

  /** Entry i of `acc` is a submitted packet, after the entries before it, and carries the
      gap mark exactly when the packet submitted just before it is not the entry before it. */
  ghost predicate Placed(acc: seq<Packet>, sent: seq<Packet>, i: nat)
    requires i < |acc|
  {
    && acc[i].index < |sent| && sent[acc[i].index] == acc[i]
    && LastIndex(acc[..i]) < acc[i].index
    && (acc[i].gap <==> LastIndex(acc[..i]) != acc[i].index - 1)
  }

  /** `acc` lists the submitted packets the queue accepted, in order; an accepted packet
      carries the gap mark exactly when the one submitted just before it was refused. */
  ghost predicate AcceptedOk(acc: seq<Packet>, sent: seq<Packet>, gap: bool) {
    && (forall k :: 0 <= k < |sent| ==> sent[k].index == k)
    && (forall i :: 0 <= i < |acc| ==> Placed(acc, sent, i))
    && (gap <==> LastIndex(acc) != |sent| - 1)
  }

  ghost predicate Justified(c: Config, until: nat, raised: seq<nat>) {
    exists k :: 0 <= k < |raised| && raised[k] + c.tail == until
  }

  /** trigger_until_ is the largest end any accepted trigger asked for. */
  ghost predicate TriggersOk(c: Config, until: nat, raised: seq<nat>) {
    && (until == 0 || Justified(c, until, raised))
    && (forall k :: 0 <= k < |raised| ==> raised[k] + c.tail <= until)
  }

  ghost predicate QueueOk(q: Queue<Packet>, taken: seq<Packet>, sent: seq<Packet>, gap: bool) {
    && q.Wf() && q.capacity == QUEUE_CAPACITY
    && AcceptedOk(taken + q.items, sent, gap)
  }

  ghost predicate SharedInv(c: Config, s: Shared) {
    && QueueOk(s.queue, s.taken, s.sent, s.gap)
    && TriggersOk(c, s.triggerUntil, s.raised)
  }

  /** What other threads cannot do to a running iteration. */
  ghost predicate Grows(s: Shared, t: Shared) {
    && t.taken == s.taken
    && s.sent <= t.sent
    && s.raised <= t.raised
    && s.triggerUntil <= t.triggerUntil
  }

  lemma LastIsSubmitted(acc: seq<Packet>, sent: seq<Packet>, gap: bool)
    requires AcceptedOk(acc, sent, gap)
    ensures LastIndex(acc) < |sent|
  {
    if acc != [] { assert Placed(acc, sent, |acc| - 1); }
  }

  lemma AcceptedGrows(acc: seq<Packet>, sent: seq<Packet>, gap: bool, p: Packet)
    requires AcceptedOk(acc, sent, gap) && p.index == |sent| && p.gap == gap
    ensures AcceptedOk(acc + [p], sent + [p], false)
    ensures AcceptedOk(acc, sent + [p], true)
  {
    LastIsSubmitted(acc, sent, gap);
    var more, sent' := acc + [p], sent + [p];
    forall i | 0 <= i < |acc| ensures Placed(acc, sent', i) && Placed(more, sent', i) {
      assert Placed(acc, sent, i);
      assert more[..i] == acc[..i] && more[i] == acc[i];
    }
    assert more[..|acc|] == acc;
    assert Placed(more, sent', |acc|);
  }

  lemma SubmitKeepsQueue(q: Queue<Packet>, taken: seq<Packet>, sent: seq<Packet>, gap: bool, p: Packet)
    requires QueueOk(q, taken, sent, gap) && p.index == |sent| && p.gap == gap
    ensures QueueOk(q.TryPush(p), taken, sent + [p], !q.Accepts())
  {
    AcceptedGrows(taken + q.items, sent, gap, p);
    assert taken + (q.items + [p]) == taken + q.items + [p];
  }

  lemma SubmitKeepsShared(c: Config, s: Shared, size: nat, pts: nat, key: bool)
    requires SharedInv(c, s)
    ensures SharedInv(c, Outside(c, s, Submit(size, pts, key)))
  {
    SubmitKeepsQueue(s.queue, s.taken, s.sent, s.gap, Packet(|s.sent|, size, pts, key, s.gap));
  }

  lemma TriggerKeepsShared(c: Config, s: Shared, stamp: nat, seen: nat)
    requires SharedInv(c, s)
    ensures SharedInv(c, Outside(c, s, Trigger(stamp, seen)))
  {
    var t := Outside(c, s, Trigger(stamp, seen));
    if seen <= stamp {
      assert t.raised[|s.raised|] == stamp;
      if stamp + c.tail < s.triggerUntil {
        JustifiedGrows(c, s.triggerUntil, s.raised, t.raised);
      }
    }
  }

  lemma OutsideKeepsShared(c: Config, s: Shared, call: Call)
    requires SharedInv(c, s)
    ensures SharedInv(c, Outside(c, s, call)) && Grows(s, Outside(c, s, call))
  {
    match call
    case Submit(size, pts, key) => SubmitKeepsShared(c, s, size, pts, key);
    case Trigger(stamp, seen) => TriggerKeepsShared(c, s, stamp, seen);
    case Reset(cut) =>
    case Stop =>
  }

  lemma {:induction false} OthersKeepShared(c: Config, s: Shared, calls: seq<Call>)
    requires SharedInv(c, s)
    ensures SharedInv(c, Others(c, s, calls)) && Grows(s, Others(c, s, calls))
    decreases |calls|
  {
    if calls != [] {
      OutsideKeepsShared(c, s, calls[0]);
      OthersKeepShared(c, Outside(c, s, calls[0]), calls[1..]);
    }
  }

  /** p is the next packet run() sees after `taken`; without a gap mark it is the very
      next one submitted. */
  ghost predicate Follows(p: Packet, taken: seq<Packet>, sent: seq<Packet>) {
    && p.index < |sent| && sent[p.index] == p
    && LastIndex(taken) < p.index
    && (p.gap <==> LastIndex(taken) != p.index - 1)
    && (forall i :: 0 <= i < |taken| ==> taken[i].index < |sent| && sent[taken[i].index] == taken[i])
  }

  lemma PopFollows(c: Config, s: Shared)
    requires SharedInv(c, s)
    ensures SharedInv(c, Popped(s))
    ensures s.queue.items != [] ==> Follows(s.queue.items[0], s.taken, s.sent)
  {
    if s.queue.items != [] {
      var acc := s.taken + s.queue.items;
      assert Placed(acc, s.sent, |s.taken|);
      assert acc[..|s.taken|] == s.taken;
      assert acc[|s.taken|] == s.queue.items[0];
      assert s.taken + [s.queue.items[0]] + s.queue.items[1..] == acc;
      forall i | 0 <= i < |s.taken|
        ensures s.taken[i].index < |s.sent| && s.sent[s.taken[i].index] == s.taken[i]
      {
        assert Placed(acc, s.sent, i) && acc[i] == s.taken[i];
      }
    }
  }

  // ----- decodable runs of packets -----

  /** q comes after p, and the packet submitted just before q is p itself or one stamped
      before the reset in force, which run() skipped. */
  ghost predicate Linked(p: Packet, q: Packet, sent: seq<Packet>, cutoff: nat)
    requires q.index < |sent|
  {
    && p.index < q.index
    && (q.index == p.index + 1 || sent[q.index - 1].pts < cutoff)
  }

  /** Starts at a keyframe, contains submitted packets from the reset in force on only,
      each linked to the next. */
  ghost predicate Decodable(f: seq<Packet>, sent: seq<Packet>, cutoff: nat) {
    && f != [] && f[0].key
    && (forall i :: 0 <= i < |f| ==> f[i].index < |sent| && sent[f[i].index] == f[i])
    && (forall i :: 0 <= i < |f| ==> cutoff <= f[i].pts)
    && (forall i :: 0 < i < |f| ==> Linked(f[i - 1], f[i], sent, cutoff))
  }

  /** f ends with the last packet taken, or every later one was fenced off. */
  ghost predicate UpTo(f: seq<Packet>, taken: seq<Packet>, cutoff: nat) {
    && f != [] && taken != []
    && Last(f).index <= Last(taken).index
    && (Last(f) == Last(taken) || Last(taken).pts < cutoff)
  }

  lemma RunExtends(f: seq<Packet>, p: Packet, taken: seq<Packet>, sent: seq<Packet>, cutoff: nat)
    requires Decodable(f, sent, cutoff) && UpTo(f, taken, cutoff)
    requires Follows(p, taken, sent) && !p.gap && cutoff <= p.pts
    ensures Decodable(f + [p], sent, cutoff) && UpTo(f + [p], taken + [p], cutoff)
  {
    var g := f + [p];
    assert Last(taken).index == p.index - 1 && sent[p.index - 1] == Last(taken);
    assert Linked(Last(f), p, sent, cutoff);
    forall i | 0 < i < |g| ensures Linked(g[i - 1], g[i], sent, cutoff) {
      if i < |f| { assert Linked(f[i - 1], f[i], sent, cutoff); }
    }
  }

  lemma {:induction false} TrimKeepsRun(r: seq<Packet>, pre: nat, now: nat, taken: seq<Packet>, sent: seq<Packet>, cutoff: nat)
    requires Decodable(r, sent, cutoff) && UpTo(r, taken, cutoff)
    ensures Decodable(Trim(r, pre, now), sent, cutoff) && UpTo(Trim(r, pre, now), taken, cutoff)
    ensures Last(Trim(r, pre, now)) == Last(r)
    decreases |r|
  {
    if 1 < |r| {
      var n := NextKey(r, 1);
      if n < |r| && r[n].pts + pre < now {
        var q := r[n..];
        forall i | 0 < i < |q| ensures Linked(q[i - 1], q[i], sent, cutoff) {
          assert Linked(r[n + i - 1], r[n + i], sent, cutoff);
        }
        TrimKeepsRun(q, pre, now, taken, sent, cutoff);
      }
    }
  }

  // ----- the log -----

  /** The trigger value that is spent once the record is made. */
  function Mark(c: Config, r: Record): nat {
    match r
    case Attempt(until, _) => until
    case Finished(m) => m.covered
    case Fenced(cut) => cut + c.tail
  }

  /** A finished file is a decodable run with truthful first and last stamps, and its
      manifest says complete only for a natural end with every byte written. */
  ghost predicate ManifestOk(m: Manifest, sent: seq<Packet>) {
    && Decodable(m.packets, sent, m.cutoff)
    && m.startPts == m.packets[0].pts && m.endPts == Last(m.packets).pts
    && (m.complete <==> m.writeOk && (m.reason == TailComplete || m.reason == MaxDuration))
  }

  ghost predicate RecordOk(c: Config, r: Record, sent: seq<Packet>, raised: seq<nat>) {
    match r
    case Attempt(until, _) => Justified(c, until, raised)
    case Finished(m) => ManifestOk(m, sent)
    case Fenced(_) => true
  }

  /** Record `later` respects record `earlier`: an attempt needs a trigger value above
      every one already spent, and a file holds nothing from before a reset. */
  ghost predicate Respects(c: Config, earlier: Record, later: Record) {
    match later
    case Attempt(until, _) => Mark(c, earlier) < until
    case Finished(m) =>
      earlier.Fenced? ==> earlier.cut <= m.cutoff
    case Fenced(cut) => earlier.Fenced? ==> earlier.cut < cut
  }

  /** handled_until is the value some record spent. */
  ghost predicate HandledOk(c: Config, l: Local) {
    l.handled == 0 || exists i :: 0 <= i < |l.log| && Mark(c, l.log[i]) == l.handled
  }

  ghost predicate LogOk(c: Config, l: Local, sent: seq<Packet>, raised: seq<nat>) {
    && (forall i :: 0 <= i < |l.log| ==> RecordOk(c, l.log[i], sent, raised))
    && (forall i :: 0 <= i < |l.log| ==> Mark(c, l.log[i]) <= l.handled)
    && HandledOk(c, l)
    && (forall i :: 0 <= i < |l.log| ==> l.log[i].Fenced? ==> l.log[i].cut <= l.cutoff)
    && (forall i, j :: 0 <= i < j < |l.log| ==> Respects(c, l.log[i], l.log[j]))
  }

  ghost predicate FileOk(l: Local, taken: seq<Packet>, sent: seq<Packet>) {
    l.file.Open? ==>
      && l.file.good
      && Decodable(l.file.packets, sent, l.cutoff) && UpTo(l.file.packets, taken, l.cutoff)
      && l.startPts == l.file.packets[0].pts && l.lastPts == Last(l.file.packets).pts
  }

  ghost predicate RingOk(l: Local, taken: seq<Packet>, sent: seq<Packet>) {
    && TotalSize(l.ring) <= RING_LIMIT
    && (l.ring != [] ==> Decodable(l.ring, sent, l.cutoff) && UpTo(l.ring, taken, l.cutoff))
  }

  ghost predicate LocalInv(c: Config, l: Local, taken: seq<Packet>, sent: seq<Packet>, raised: seq<nat>) {
    && FileOk(l, taken, sent)
    && RingOk(l, taken, sent)
    && LogOk(c, l, sent, raised)
  }

  lemma LogGrows(c: Config, l: Local, m: Local, r: Record, sent: seq<Packet>, raised: seq<nat>)
    requires LogOk(c, l, sent, raised)
    requires m.log == l.log + [r] && l.handled <= m.handled && l.cutoff <= m.cutoff
    requires RecordOk(c, r, sent, raised) && Mark(c, r) <= m.handled
    requires m.handled == l.handled || m.handled == Mark(c, r)
    requires r.Attempt? ==> l.handled < r.until
    requires r.Finished? ==> l.cutoff == r.manifest.cutoff
    requires r.Fenced? ==> l.cutoff < r.cut <= m.cutoff
    ensures LogOk(c, m, sent, raised)
  {
    assert HandledOk(c, m) by {
      if m.handled == Mark(c, r) {
        assert m.log[|l.log|] == r;
      } else if l.handled != 0 {
        var i :| 0 <= i < |l.log| && Mark(c, l.log[i]) == l.handled;
        assert m.log[i] == l.log[i];
      }
    }
    forall i, j | 0 <= i < j < |m.log| ensures Respects(c, m.log[i], m.log[j]) {
      if j < |l.log| {
        assert Respects(c, l.log[i], l.log[j]);
      } else {
        assert m.log[i] == l.log[i];
      }
    }
  }

  lemma DecodableGrows(f: seq<Packet>, sent: seq<Packet>, more: seq<Packet>, cutoff: nat)
    requires Decodable(f, sent, cutoff) && sent <= more
    ensures Decodable(f, more, cutoff)
  {
    forall i | 0 < i < |f| ensures Linked(f[i - 1], f[i], more, cutoff) {
      assert Linked(f[i - 1], f[i], sent, cutoff);
      assert more[f[i].index - 1] == sent[f[i].index - 1];
    }
  }

  lemma LocalGrows(c: Config, l: Local, taken: seq<Packet>, s: Shared, t: Shared)
    requires LocalInv(c, l, taken, s.sent, s.raised)
    requires Grows(s, t)
    ensures LocalInv(c, l, taken, t.sent, t.raised)
  {
    if l.file.Open? { DecodableGrows(l.file.packets, s.sent, t.sent, l.cutoff); }
    if l.ring != [] { DecodableGrows(l.ring, s.sent, t.sent, l.cutoff); }
    forall i | 0 <= i < |l.log| ensures RecordOk(c, l.log[i], t.sent, t.raised) {
      assert RecordOk(c, l.log[i], s.sent, s.raised);
      match l.log[i]
      case Attempt(until, _) => JustifiedGrows(c, until, s.raised, t.raised);
      case Finished(m) => DecodableGrows(m.packets, s.sent, t.sent, m.cutoff);
      case Fenced(_) =>
    }
  }

  lemma JustifiedGrows(c: Config, until: nat, raised: seq<nat>, more: seq<nat>)
    requires Justified(c, until, raised) && raised <= more
    ensures Justified(c, until, more)
  {
    var k :| 0 <= k < |raised| && raised[k] + c.tail == until;
    assert more[k] == raised[k];
  }

  // ----- one iteration -----

  lemma FinishKeeps(c: Config, l: Local, reason: Reason, t: nat, ending: Closing,
                    taken: seq<Packet>, sent: seq<Packet>, raised: seq<nat>)
    requires l.file.Open? ==>
      && Decodable(l.file.packets, sent, l.cutoff) && UpTo(l.file.packets, taken, l.cutoff)
      && l.startPts == l.file.packets[0].pts && l.lastPts == Last(l.file.packets).pts
    requires RingOk(l, taken, sent) && LogOk(c, l, sent, raised)
    ensures var f := Finish(l, reason, t, ending);
      && LocalInv(c, f, taken, sent, raised)
      && LocalInv(c, Emptied(f), taken, sent, raised)
      && f.file.NoFile? && f.cutoff == l.cutoff
  {
    if l.file.Open? {
      var f := Finish(l, reason, t, ending);
      LogGrows(c, l, f, LatestRecord(f.log), sent, raised);
    }
  }

  function LatestRecord(log: seq<Record>): Record
    requires log != []
  {
    log[|log| - 1]
  }

  lemma FenceKeeps(c: Config, l: Local, cut: nat, t: nat, env: Env,
                   taken: seq<Packet>, sent: seq<Packet>, raised: seq<nat>)
    requires LocalInv(c, l, taken, sent, raised)
    ensures LocalInv(c, Fence(c, l, cut, t, env), taken, sent, raised)
  {
    if l.cutoff < cut {
      FinishKeeps(c, l, CaptureRestart, t, env.first, taken, sent, raised);
      var f := Emptied(Finish(l, CaptureRestart, t, env.first));
      LogGrows(c, f, Fence(c, l, cut, t, env), Fenced(cut), sent, raised);
    }
  }

  /** The state between taking packet p and writing it: the ring already ends with p, an
      open file does not. */
  ghost predicate Absorbed(c: Config, l: Local, p: Packet, taken: seq<Packet>, sent: seq<Packet>, raised: seq<nat>) {
    && FileOk(l, taken, sent)
    && (l.file.Open? ==> !p.gap)
    && RingOk(l, taken + [p], sent)
    && (l.ring != [] ==> Last(l.ring) == p)
    && LogOk(c, l, sent, raised)
    && l.cutoff <= p.pts
  }

  lemma AbsorbKeeps(c: Config, l: Local, p: Packet, taken: seq<Packet>, sent: seq<Packet>, raised: seq<nat>)
    requires LocalInv(c, l, taken, sent, raised) && Follows(p, taken, sent) && l.cutoff <= p.pts
    requires p.gap ==> l.file.NoFile? && l.ring == []
    ensures Absorbed(c, Absorb(c, l, p), p, taken, sent, raised)
  {
    var r := Push(l.ring, p);
    if l.ring != [] {
      RunExtends(l.ring, p, taken, sent, l.cutoff);
    }
    if r != [] {
      TrimKeepsRun(r, c.pre, p.pts, taken + [p], sent, l.cutoff);
    }
  }

  lemma SettleKeeps(c: Config, l: Local, p: Packet, until: nat, t: nat, env: Env,
                    taken: seq<Packet>, sent: seq<Packet>, raised: seq<nat>)
    requires l.file.Open? ==>
      && Decodable(l.file.packets, sent, l.cutoff) && UpTo(l.file.packets, taken, l.cutoff)
      && l.startPts == l.file.packets[0].pts && l.lastPts == Last(l.file.packets).pts
    requires RingOk(l, taken, sent) && LogOk(c, l, sent, raised)
    ensures LocalInv(c, Settle(l, p, until, t, env), taken, sent, raised)
  {
    if l.file.Open? {
      FinishKeeps(c, l, WriteError, t, env.second, taken, sent, raised);
      FinishKeeps(c, l, TailComplete, t, env.second, taken, sent, raised);
    }
  }

  lemma WriteKeeps(c: Config, l: Local, p: Packet, until: nat, t: nat, env: Env,
                   taken: seq<Packet>, sent: seq<Packet>, raised: seq<nat>)
    requires Absorbed(c, l, p, taken, sent, raised) && Follows(p, taken, sent) && l.file.Open?
    ensures
      var w := l.(file := Open(l.file.packets + [p], l.file.good && env.writeOk), lastPts := p.pts);
      LocalInv(c, Settle(w, p, until, t, env), taken + [p], sent, raised)
  {
    RunExtends(l.file.packets, p, taken, sent, l.cutoff);
    var w := l.(file := Open(l.file.packets + [p], l.file.good && env.writeOk), lastPts := p.pts);
    SettleKeeps(c, w, p, until, t, env, taken + [p], sent, raised);
  }

  /** Closing an open file together with the ring. */
  lemma AbandonKeeps(c: Config, l: Local, reason: Reason, t: nat, ending: Closing, p: Packet,
                     taken: seq<Packet>, sent: seq<Packet>, raised: seq<nat>)
    requires Absorbed(c, l, p, taken, sent, raised) && l.file.Open?
    ensures LocalInv(c, Emptied(Finish(l, reason, t, ending)), taken + [p], sent, raised)
  {
    FinishKeeps(c, Emptied(l), reason, t, ending, taken, sent, raised);
  }

  lemma OpenKeeps(c: Config, l: Local, p: Packet, until: nat, o: Outcome, t: nat, env: Env,
                  taken: seq<Packet>, sent: seq<Packet>, raised: seq<nat>)
    requires Absorbed(c, l, p, taken, sent, raised) && l.file.NoFile? && l.ring != []
    requires l.handled < until && Justified(c, until, raised)
    ensures LocalInv(c, Attempted(l, until, o), taken + [p], sent, raised)
    ensures
      var w := Attempted(l, until, o).(file := Open(l.ring, env.writeOk), startPts := l.ring[0].pts, lastPts := p.pts);
      LocalInv(c, Settle(w, p, until, t, env), taken + [p], sent, raised)
  {
    var a := Attempted(l, until, o);
    LogGrows(c, l, a, Attempt(until, o), sent, raised);
    var w := a.(file := Open(l.ring, env.writeOk), startPts := l.ring[0].pts, lastPts := p.pts);
    SettleKeeps(c, w, p, until, t, env, taken + [p], sent, raised);
  }

  lemma RouteKeeps(c: Config, l: Local, p: Packet, until: nat, t: nat, env: Env,
                   taken: seq<Packet>, sent: seq<Packet>, raised: seq<nat>)
    requires Absorbed(c, l, p, taken, sent, raised) && Follows(p, taken, sent)
    requires until == 0 || Justified(c, until, raised)
    ensures LocalInv(c, Route(l, p, until, t, env), taken + [p], sent, raised)
  {
    if l.file.Open? {
      AbandonKeeps(c, l, MaxDuration, t, env.second, p, taken, sent, raised);
      AbandonKeeps(c, l, if env.verdict.Denied? then StorageBudget else StorageError, t, env.second, p, taken, sent, raised);
      WriteKeeps(c, l, p, until, t, env, taken, sent, raised);
    } else if until > p.pts && until > l.handled && l.ring != [] {
      var o := if !env.verdict.Granted? then (if env.verdict.Denied? then Refused else Threw)
               else if !env.openOk then OpenFailed else Opened;
      OpenKeeps(c, l, p, until, o, t, env, taken, sent, raised);
    }
  }

  // ----- every run -----

  ghost predicate Inv(c: Config, s: State) {
    && SharedInv(c, s.shared)
    && LocalInv(c, s.local, s.shared.taken, s.shared.sent, s.shared.raised)
  }

  lemma SkipKeeps(c: Config, l: Local, p: Packet, taken: seq<Packet>, sent: seq<Packet>, raised: seq<nat>)
    requires LocalInv(c, l, taken, sent, raised) && Follows(p, taken, sent) && p.pts < l.cutoff
    ensures LocalInv(c, l, taken + [p], sent, raised)
  {
  }

  lemma AcceptedKeeps(c: Config, l: Local, p: Packet, v: Loads, env: Env,
                      taken: seq<Packet>, sent: seq<Packet>, raised: seq<nat>)
    requires LocalInv(c, l, taken, sent, raised) && Follows(p, taken, sent) && l.cutoff <= p.pts
    requires v.until == 0 || Justified(c, v.until, raised)
    ensures
      var g := if p.gap then Emptied(Finish(l, PacketGap, v.early, env.first)) else l;
      LocalInv(c, Route(Absorb(c, g, p), p, v.until, v.late, env), taken + [p], sent, raised)
  {
    FinishKeeps(c, l, PacketGap, v.early, env.first, taken, sent, raised);
    var g := if p.gap then Emptied(Finish(l, PacketGap, v.early, env.first)) else l;
    AbsorbKeeps(c, g, p, taken, sent, raised);
    RouteKeeps(c, Absorb(c, g, p), p, v.until, v.late, env, taken, sent, raised);
  }

  lemma EmptyPopKeeps(c: Config, l: Local, v: Loads, env: Env,
                      taken: seq<Packet>, sent: seq<Packet>, raised: seq<nat>)
    requires LocalInv(c, l, taken, sent, raised)
    ensures LocalInv(c, Output(Upkeep(c, l, None, v.early, env), None, v.until, v.closed, v.late, env), taken, sent, raised)
  {
    FinishKeeps(c, l, InputTimeout, v.early, env.first, taken, sent, raised);
    var i := Idle(l, v.early, env);
    FinishKeeps(c, i, Shutdown, v.late, env.second, taken, sent, raised);
  }

  lemma BodyKeeps(c: Config, l: Local, item: Option<Packet>, v: Loads, env: Env,
                  taken: seq<Packet>, sent: seq<Packet>, raised: seq<nat>)
    requires LocalInv(c, l, taken, sent, raised)
    requires item.Some? ==> Follows(item.value, taken, sent)
    requires v.until == 0 || Justified(c, v.until, raised)
    ensures LocalInv(c, Body(c, l, item, v, env), if item.Some? then taken + [item.value] else taken, sent, raised)
  {
    FenceKeeps(c, l, v.cut, v.early, env, taken, sent, raised);
    var fenced := Fence(c, l, v.cut, v.early, env);
    match item
    case None => EmptyPopKeeps(c, fenced, v, env, taken, sent, raised);
    case Some(p) =>
      if fenced.cutoff <= p.pts {
        AcceptedKeeps(c, fenced, p, v, env, taken, sent, raised);
      } else {
        SkipKeeps(c, fenced, p, taken, sent, raised);
      }
  }

  lemma FollowsGrows(p: Packet, taken: seq<Packet>, sent: seq<Packet>, more: seq<Packet>)
    requires Follows(p, taken, sent) && sent <= more
    ensures Follows(p, taken, more)
  {
  }

  /** What an iteration may rely on about the shared state it ends with. */
  lemma IterationSees(c: Config, s: Shared, env: Env)
    requires SharedInv(c, s)
    ensures var t := AtEnd(c, s, env);
            var v := LoadsOf(c, s, env);
            && SharedInv(c, t) && Grows(s, t.(taken := s.taken))
            && t.taken == (if s.queue.items == [] then s.taken else s.taken + [s.queue.items[0]])
            && (s.queue.items != [] ==> Follows(s.queue.items[0], s.taken, t.sent))
            && (v.until == 0 || Justified(c, v.until, t.raised))
            && s.triggerUntil <= v.early <= v.until <= v.late
  {
    PopFollows(c, s);
    OthersKeepShared(c, Popped(s), env.gap1);
    OthersKeepShared(c, AtFence(c, s, env), env.gap2);
    OthersKeepShared(c, AtIntake(c, s, env), env.gap3);
    OthersKeepShared(c, AtDecision(c, s, env), env.gap4);
    var v := LoadsOf(c, s, env);
    if v.until != 0 {
      JustifiedGrows(c, v.until, AtDecision(c, s, env).raised, AtEnd(c, s, env).raised);
    }
    if s.queue.items != [] {
      FollowsGrows(s.queue.items[0], s.taken, s.sent, AtEnd(c, s, env).sent);
    }
  }

  lemma IterateKeeps(c: Config, s: State, env: Env)
    requires Inv(c, s) && !s.done
    ensures Inv(c, Iterate(c, s, env))
  {
    var t := AtEnd(c, s.shared, env);
    IterationSees(c, s.shared, env);
    LocalGrows(c, s.local, s.shared.taken, s.shared, t.(taken := s.shared.taken));
    BodyKeeps(c, s.local, s.shared.queue.Front(), LoadsOf(c, s.shared, env), env, s.shared.taken, t.sent, t.raised);
  }

  /** The invariant of every run of submits, refusals, triggers, resets, timeouts, write
      failures and shutdown, with calls of other threads landing inside iterations. */
  lemma {:induction false} EveryRunKeepsInv(c: Config, events: seq<Event>)
    ensures Inv(c, Run(c, events))
    decreases |events|
  {
    if events != [] {
      var before := Run(c, events[..|events| - 1]);
      EveryRunKeepsInv(c, events[..|events| - 1]);
      match events[|events| - 1]
      case FromOutside(call) =>
        OutsideKeepsShared(c, before.shared, call);
        LocalGrows(c, before.local, before.shared.taken, before.shared, Outside(c, before.shared, call));
      case Iteration(env) =>
        if !before.done { IterateKeeps(c, before, env); }
    }
  }
}
