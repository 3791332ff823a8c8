/** The promises of the event recorder, over every run. */
module RecorderTheorems {
  import opened Queues
  import opened Recorder
  import opened RecorderProofs
  import opened RecorderWindow

  /** A queued packet carries the gap mark exactly when the packet submitted before it was
      refused, that is, never handed to run() and not waiting in the queue. */
  lemma GapMarksRefusedPredecessor(c: Config, events: seq<Event>, i: nat)
    requires i < |Run(c, events).shared.queue.items|
    ensures
      var s := Run(c, events).shared;
      var p := s.queue.items[i];
      && p.index < |s.sent|
      && (p.gap <==> p.index > 0 && s.sent[p.index - 1] !in s.taken + s.queue.items)
  {
    EveryRunKeepsInv(c, events);
    QueuedMarkIsExact(c, Run(c, events).shared, i);
  }

  lemma QueuedMarkIsExact(c: Config, s: Shared, i: nat)
    requires SharedInv(c, s) && i < |s.queue.items|
    ensures
      var p := s.queue.items[i];
      && p.index < |s.sent|
      && (p.gap <==> p.index > 0 && s.sent[p.index - 1] !in s.taken + s.queue.items)
  {
    var acc := s.taken + s.queue.items;
    assert acc[|s.taken| + i] == s.queue.items[i];
    GapMarkIsExact(acc, s.sent, s.gap, |s.taken| + i);
  }

  lemma GapMarkIsExact(acc: seq<Packet>, sent: seq<Packet>, gap: bool, at: nat)
    requires AcceptedOk(acc, sent, gap) && at < |acc|
    ensures acc[at].index < |sent|
    ensures acc[at].gap <==> acc[at].index > 0 && sent[acc[at].index - 1] !in acc
  {
    var p := acc[at];
    assert Placed(acc, sent, at);
    if p.index > 0 && sent[p.index - 1] in acc {
      var k :| 0 <= k < |acc| && acc[k] == sent[p.index - 1];
      if at <= k {
        AcceptedRises(acc, sent, gap, at, k);
      } else if k + 1 < at {
        AcceptedRises(acc, sent, gap, k, k + 1);
        AcceptedRises(acc, sent, gap, k + 1, at);
      }
      assert k + 1 == at;
      assert Last(acc[..at]) == acc[k];
    } else if p.index > 0 && at > 0 {
      assert Placed(acc, sent, at - 1);
      assert Last(acc[..at]) == acc[at - 1] == sent[acc[at - 1].index];
    }
  }

  lemma {:induction false} AcceptedRises(acc: seq<Packet>, sent: seq<Packet>, gap: bool, i: nat, j: nat)
    requires AcceptedOk(acc, sent, gap) && i <= j < |acc|
    ensures i < j ==> acc[i].index < acc[j].index
    decreases j
  {
    if i < j {
      AcceptedRises(acc, sent, gap, i, j - 1);
      assert Placed(acc, sent, j);
      assert Last(acc[..j]) == acc[j - 1];
    }
  }

  /** f is an unbroken stretch of what was submitted, and starts at a keyframe. */
  ghost predicate Contiguous(f: seq<Packet>, sent: seq<Packet>) {
    && f != [] && f[0].key
    && f[0].index + |f| <= |sent|
    && f == sent[f[0].index..f[0].index + |f|]
  }

  /** No packet submitted during the span of f is stamped before `cutoff`. */
  ghost predicate NoneEarly(f: seq<Packet>, sent: seq<Packet>, cutoff: nat) {
    && f != [] && Last(f).index < |sent|
    && forall i :: f[0].index <= i <= Last(f).index ==> cutoff <= sent[i].pts
  }

  ghost predicate Numbered(sent: seq<Packet>) {
    forall k :: 0 <= k < |sent| ==> sent[k].index == k
  }

  lemma {:induction false} IndicesRise(f: seq<Packet>, sent: seq<Packet>, cutoff: nat, i: nat, j: nat)
    requires Decodable(f, sent, cutoff) && i <= j < |f|
    ensures f[i].index + (j - i) <= f[j].index
    decreases j
  {
    if i < j {
      IndicesRise(f, sent, cutoff, i, j - 1);
      assert Linked(f[j - 1], f[j], sent, cutoff);
    }
  }

  lemma {:induction false} UnbrokenWhenNoneEarly(f: seq<Packet>, sent: seq<Packet>, cutoff: nat)
    requires Decodable(f, sent, cutoff) && NoneEarly(f, sent, cutoff)
    ensures Contiguous(f, sent)
  {
    var n := 1;
    while n < |f|
      invariant 1 <= n <= |f|
      invariant forall i :: 0 <= i < n ==> f[i].index == f[0].index + i
    {
      assert Linked(f[n - 1], f[n], sent, cutoff);
      IndicesRise(f, sent, cutoff, 0, n);
      IndicesRise(f, sent, cutoff, n, |f| - 1);
      n := n + 1;
    }
    assert f[|f| - 1].index < |sent|;
  }

  lemma NoneEarlyWhenUnbroken(f: seq<Packet>, sent: seq<Packet>, cutoff: nat)
    requires Decodable(f, sent, cutoff) && Contiguous(f, sent) && Numbered(sent)
    ensures NoneEarly(f, sent, cutoff)
  {
    var a := f[0].index;
    assert Last(f) == sent[a + |f| - 1];
    forall i | a <= i <= Last(f).index ensures cutoff <= sent[i].pts {
      assert f[i - a] == sent[i];
    }
  }

  lemma {:induction false} NoneEarlyWhenOrdered(f: seq<Packet>, sent: seq<Packet>, cutoff: nat)
    requires Decodable(f, sent, cutoff) && Ordered(sent)
    ensures NoneEarly(f, sent, cutoff)
  {
    forall i | f[0].index <= i <= Last(f).index ensures cutoff <= sent[i].pts {
      assert sent[f[0].index] == f[0];
      if f[0].index < i { assert sent[f[0].index].pts <= sent[i].pts; }
    }
  }

  /** f, recorded under the reset `cutoff`, is decodable, and unbroken if and only if no
      packet submitted during its span was stamped before that reset; hence always when the
      encoder stamps in order. */
  ghost predicate FileIsSound(f: seq<Packet>, sent: seq<Packet>, cutoff: nat) {
    && Decodable(f, sent, cutoff)
    && (Contiguous(f, sent) <==> NoneEarly(f, sent, cutoff))
    && (Ordered(sent) ==> Contiguous(f, sent))
  }

  lemma DecodableIsSound(f: seq<Packet>, sent: seq<Packet>, cutoff: nat)
    requires Decodable(f, sent, cutoff) && Numbered(sent)
    ensures FileIsSound(f, sent, cutoff)
  {
    if NoneEarly(f, sent, cutoff) { UnbrokenWhenNoneEarly(f, sent, cutoff); }
    if Contiguous(f, sent) { NoneEarlyWhenUnbroken(f, sent, cutoff); }
    if Ordered(sent) { NoneEarlyWhenOrdered(f, sent, cutoff); }
  }

  /** Every file of every run, finished or still open, starts at a keyframe and is an
      unbroken stretch of the submitted packets, exactly unless a packet submitted during its
      span was stamped before the reset in force; when the encoder stamps in order there is
      no such packet. */
  lemma EveryFileIsContiguous(c: Config, events: seq<Event>)
    ensures
      var s := Run(c, events);
      && (forall i :: 0 <= i < |s.local.log| && s.local.log[i].Finished? ==>
            FileIsSound(s.local.log[i].manifest.packets, s.shared.sent, s.local.log[i].manifest.cutoff))
      && (s.local.file.Open? ==> FileIsSound(s.local.file.packets, s.shared.sent, s.local.cutoff))
  {
    EveryRunKeepsInv(c, events);
    var s := Run(c, events);
    if s.local.file.Open? { DecodableIsSound(s.local.file.packets, s.shared.sent, s.local.cutoff); }
    forall i | 0 <= i < |s.local.log| && s.local.log[i].Finished?
      ensures FileIsSound(s.local.log[i].manifest.packets, s.shared.sent, s.local.log[i].manifest.cutoff)
    {
      assert RecordOk(c, s.local.log[i], s.shared.sent, s.shared.raised);
      DecodableIsSound(s.local.log[i].manifest.packets, s.shared.sent, s.local.log[i].manifest.cutoff);
    }
  }

  /** Every manifest of every run tells the truth about its file. */
  lemma EveryManifestIsTrue(c: Config, events: seq<Event>, i: nat)
    requires i < |Run(c, events).local.log| && Run(c, events).local.log[i].Finished?
    ensures ManifestOk(Run(c, events).local.log[i].manifest, Run(c, events).shared.sent)
  {
    EveryRunKeepsInv(c, events);
    var s := Run(c, events);
    assert RecordOk(c, s.local.log[i], s.shared.sent, s.shared.raised);
  }

  /** A trigger value is spent once: every attempt to open a file needs a value above those
      of all earlier attempts and above every value a finished file had covered. */
  lemma TriggersAreSpentOnce(c: Config, events: seq<Event>, i: nat, j: nat)
    requires i < j < |Run(c, events).local.log|
    requires Run(c, events).local.log[j].Attempt?
    ensures
      var log := Run(c, events).local.log;
      match log[i]
      case Attempt(until, _) => until < log[j].until
      case Finished(m) => m.covered < log[j].until
      case Fenced(cut) => cut + c.tail < log[j].until
  {
    EveryRunKeepsInv(c, events);
    var log := Run(c, events).local.log;
    assert Respects(c, log[i], log[j]);
  }

  /** After a reset at `cut` was taken, files hold only packets stamped at or after it, also
      the file still open, and a file is opened only for an accepted trigger stamped strictly
      after it. */
  lemma ResetsFenceFiles(c: Config, events: seq<Event>, i: nat)
    requires i < |Run(c, events).local.log| && Run(c, events).local.log[i].Fenced?
    ensures
      var s := Run(c, events);
      && Fences(c, s.local.log, s.shared.raised, i)
      && (s.local.file.Open? ==> forall p :: p in s.local.file.packets ==> s.local.log[i].cut <= p.pts)
  {
    EveryRunKeepsInv(c, events);
    var s := Run(c, events);
    forall j | i < j < |s.local.log| ensures RespectsReset(c, s.local.log[i].cut, s.local.log[j], s.shared.raised) {
      assert Respects(c, s.local.log[i], s.local.log[j]);
      assert RecordOk(c, s.local.log[j], s.shared.sent, s.shared.raised);
      if s.local.log[j].Attempt? {
        var k :| 0 <= k < |s.shared.raised| && s.shared.raised[k] + c.tail == s.local.log[j].until;
        assert s.local.log[i].cut < s.shared.raised[k];
      }
    }
  }

  /** Record r respects the reset at `cut`. */
  ghost predicate RespectsReset(c: Config, cut: nat, r: Record, raised: seq<nat>) {
    && (r.Finished? ==> forall p :: p in r.manifest.packets ==> cut <= p.pts)
    && (r.Attempt? ==> exists k :: 0 <= k < |raised| && raised[k] + c.tail == r.until && cut < raised[k])
  }

  ghost predicate Fences(c: Config, log: seq<Record>, raised: seq<nat>, i: nat)
    requires i < |log| && log[i].Fenced?
  {
    forall j :: i < j < |log| ==> RespectsReset(c, log[i].cut, log[j], raised)
  }

  /** The fate of every accepted trigger: its value is still above handled_until, so that the
      next packet before it can open a file; or some attempt to open a file, some finished
      file, or some reset not before it has spent it. None is lost without a record. */
  lemma EveryTriggerHasAFate(c: Config, events: seq<Event>, k: nat)
    requires k < |Run(c, events).shared.raised|
    ensures
      var s := Run(c, events);
      var stamp := s.shared.raised[k];
      && stamp + c.tail <= s.shared.triggerUntil
      && (0 < stamp + c.tail <= s.local.handled ==>
            exists i :: 0 <= i < |s.local.log| && Spends(c, s.local.log[i], stamp))
  {
    EveryRunKeepsInv(c, events);
    var s := Run(c, events);
    var stamp := s.shared.raised[k];
    if 0 < stamp + c.tail <= s.local.handled {
      var i :| 0 <= i < |s.local.log| && Mark(c, s.local.log[i]) == s.local.handled;
      assert Spends(c, s.local.log[i], stamp);
    }
  }

  ghost predicate Spends(c: Config, r: Record, stamp: nat) {
    match r
    case Attempt(until, _) => stamp + c.tail <= until
    case Finished(m) => stamp + c.tail <= m.covered
    case Fenced(cut) => stamp <= cut
  }

  /** In any state whatever, an event never lowers handled_until or the cutoff, and never
      rewrites the log. */
  lemma EventsOnlyAdvance(c: Config, s: State, e: Event)
    ensures
      var t := Next(c, s, e);
      && s.local.handled <= t.local.handled
      && s.local.cutoff <= t.local.cutoff
      && s.local.log <= t.local.log
  {
    if e.Iteration? && !s.done {
      var env := e.env;
      var v := LoadsOf(c, s.shared, env);
      var item := s.shared.queue.Front();
      FinishAdvances(s.local, CaptureRestart, v.early, env.first);
      var fenced := Fence(c, s.local, v.cut, v.early, env);
      UpkeepAdvances(c, fenced, item, v.early, env);
      OutputAdvances(Upkeep(c, fenced, item, v.early, env), item, v.until, v.closed, v.late, env);
    }
  }

  ghost predicate Advances(l: Local, m: Local) {
    l.handled <= m.handled && l.cutoff <= m.cutoff && l.log <= m.log
  }

  lemma FinishAdvances(l: Local, reason: Reason, t: nat, ending: Closing)
    ensures Advances(l, Finish(l, reason, t, ending))
  {
  }

  lemma UpkeepAdvances(c: Config, l: Local, item: Option<Packet>, early: nat, env: Env)
    ensures Advances(l, Upkeep(c, l, item, early, env))
  {
    FinishAdvances(l, InputTimeout, early, env.first);
    FinishAdvances(l, PacketGap, early, env.first);
  }

  lemma OutputAdvances(l: Local, item: Option<Packet>, until: nat, closed: bool, late: nat, env: Env)
    ensures Advances(l, Output(l, item, until, closed, late, env))
  {
    FinishAdvances(l, Shutdown, late, env.second);
  }

  /** Memory stays bounded: at most 120 queued packets and a 16 MiB ring. */
  lemma MemoryIsBounded(c: Config, events: seq<Event>)
    ensures |Run(c, events).shared.queue.items| <= 120
    ensures TotalSize(Run(c, events).local.ring) <= 16 * 1024 * 1024
  {
    EveryRunKeepsInv(c, events);
  }

  // ----- the limits of the promises, by example -----

  function Quiet(): Env {
    Env(false, false, false, Granted, true, true, Closing(true, true), Closing(true, true), [], [], [], [])
  }

  lemma RunExtend(c: Config, events: seq<Event>, e: Event)
    ensures Run(c, events + [e]) == Next(c, Run(c, events), e)
  {
    var all := events + [e];
    assert all[..|all| - 1] == events;
  }

  /** An encoder that stamps out of order can leave a hole: the packet stamped before a
      reset already taken is skipped while the file around it stays open. */
  lemma OutOfOrderStampsLeaveHole() returns (events: seq<Event>)
    ensures
      var s := Run(Config(0, 10), events);
      && !Ordered(s.shared.sent)
      && s.local.file.Open? && Decodable(s.local.file.packets, s.shared.sent, s.local.cutoff)
      && !Contiguous(s.local.file.packets, s.shared.sent)
  {
    var c := Config(0, 10);
    var e0 := FromOutside(Reset(60));
    var e1 := FromOutside(Trigger(200, 60));
    var go := Iteration(Quiet());
    events := [e0];
    var s0 := Next(c, Init(), e0);
    assert events == [] + [e0];
    RunExtend(c, [], e0);
    RunExtend(c, events, e1);
    events := events + [e1];
    var s1 := Next(c, s0, e1);
    var l0 := s1.local;
    events, s1 := SubmitAndTake(c, events, s1, 1, 100, true);
    var p0 := Packet(0, 1, 100, true, false);
    assert s1.local.file == Open([p0], true);
    events, s1 := SubmitAndTake(c, events, s1, 1, 50, false);
    var p1 := Packet(1, 1, 50, false, false);
    assert s1.shared.sent == [p0, p1] && s1.local.file == Open([p0], true);
    events, s1 := SubmitAndTake(c, events, s1, 1, 120, false);
    var p2 := Packet(2, 1, 120, false, false);
    assert s1.shared.sent == [p0, p1, p2];
    assert s1.local.file == Open([p0, p2], true);
    EveryFileIsContiguous(c, events);
    assert s1.shared.sent[0..2][1] == p1;
  }

  lemma SubmitAndTake(c: Config, events: seq<Event>, s: State, size: nat, pts: nat, key: bool) returns (more: seq<Event>, t: State)
    requires s == Run(c, events)
    requires s.shared.queue == Empty(QUEUE_CAPACITY).(high := s.shared.queue.high)
    requires !s.done && s.shared.queue.high <= 1
    ensures t == Run(c, more)
    ensures t == Iterate(c, State(Outside(c, s.shared, Submit(size, pts, key)), s.local, false), Quiet())
    ensures t.shared.queue == Empty(QUEUE_CAPACITY).(high := t.shared.queue.high) && t.shared.queue.high <= 1
    ensures t.shared.sent == s.shared.sent + [Packet(|s.shared.sent|, size, pts, key, s.shared.gap)]
    ensures !t.done && !t.shared.gap && t.shared.resetPts == s.shared.resetPts
    ensures t.shared.triggerUntil == s.shared.triggerUntil && t.shared.raised == s.shared.raised
    ensures t.shared.taken == s.shared.taken + [Packet(|s.shared.sent|, size, pts, key, s.shared.gap)]
    ensures t.local == Body(c, s.local, Some(Packet(|s.shared.sent|, size, pts, key, s.shared.gap)),
                            Loads(s.shared.resetPts, s.shared.triggerUntil, s.shared.triggerUntil, false, s.shared.triggerUntil), Quiet())
  {
    var sub := FromOutside(Submit(size, pts, key));
    var go := Iteration(Quiet());
    RunExtend(c, events, sub);
    RunExtend(c, events + [sub], go);
    more := events + [sub] + [go];
    t := Next(c, Next(c, s, sub), go);
  }
}
