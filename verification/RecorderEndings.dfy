/** How recordings end: at their tail, with triggers raised while the file is being closed,
    and at shutdown, with packets submitted while run() is leaving. Both are exact. */
module RecorderEndings {
  import opened Queues
  import opened Recorder
  import opened RecorderProofs
  import opened RecorderTheorems

  // ----- the tail -----

  /** The trigger passed its fence test. */
  predicate Passes(call: Call) {
    call.Trigger? && call.seen <= call.stamp
  }

  ghost predicate NonePast(c: Config, calls: seq<Call>, bound: nat) {
    forall k :: 0 <= k < |calls| && Passes(calls[k]) ==> calls[k].stamp + c.tail <= bound
  }

  lemma {:induction false} OthersRaiseTo(c: Config, s: Shared, calls: seq<Call>, bound: nat)
    ensures Others(c, s, calls).triggerUntil <= bound <==> s.triggerUntil <= bound && NonePast(c, calls, bound)
    decreases |calls|
  {
    if calls != [] {
      OthersRaiseTo(c, Outside(c, s, calls[0]), calls[1..], bound);
      assert NonePast(c, calls, bound) <==>
        (Passes(calls[0]) ==> calls[0].stamp + c.tail <= bound) && NonePast(c, calls[1..], bound) by {
        if NonePast(c, calls[1..], bound) && (Passes(calls[0]) ==> calls[0].stamp + c.tail <= bound) {
          forall k | 0 <= k < |calls| && Passes(calls[k]) ensures calls[k].stamp + c.tail <= bound {
            if k > 0 { assert calls[1..][k - 1] == calls[k]; }
          }
        }
      }
    }
  }

  predicate IsTail(r: Record) {
    r.Finished? && r.manifest.reason == TailComplete
  }

  /** The log grew by records none of which is a file closed at its tail. */
  ghost predicate NoTail(l: Local, m: Local) {
    l.log <= m.log && forall k :: |l.log| <= k < |m.log| ==> !IsTail(m.log[k])
  }

  lemma FinishHasNoTail(l: Local, reason: Reason, t: nat, ending: Closing)
    requires reason != TailComplete
    ensures NoTail(l, Finish(l, reason, t, ending))
  {
  }

  lemma FenceHasNoTail(c: Config, l: Local, cut: nat, t: nat, env: Env)
    ensures NoTail(l, Fence(c, l, cut, t, env))
  {
    FinishHasNoTail(l, CaptureRestart, t, env.first);
  }

  lemma UpkeepHasNoTail(c: Config, l: Local, item: Option<Packet>, early: nat, env: Env)
    ensures NoTail(l, Upkeep(c, l, item, early, env))
  {
    FinishHasNoTail(l, InputTimeout, early, env.first);
    FinishHasNoTail(l, PacketGap, early, env.first);
  }

  /** Record r is a file closed at its tail: packet p, which reached `until`, is its last,
      and closing it spent the value `late`. */
  ghost predicate ClosesAt(r: Record, p: Packet, until: nat, late: nat) {
    && IsTail(r) && r.manifest.packets != [] && Last(r.manifest.packets) == p && r.manifest.endPts == p.pts
    && until <= p.pts && r.manifest.covered == late
  }

  lemma SettleTails(l: Local, p: Packet, until: nat, t: nat, env: Env, k: nat)
    requires l.file.Open? ==> l.file.packets != [] && Last(l.file.packets) == p && l.lastPts == p.pts
    requires |l.log| <= k < |Settle(l, p, until, t, env).log| && IsTail(Settle(l, p, until, t, env).log[k])
    ensures ClosesAt(Settle(l, p, until, t, env).log[k], p, until, t)
  {
  }

  lemma OpeningHasNoTail(l: Local, p: Packet, until: nat, t: nat, env: Env)
    requires until > p.pts
    ensures NoTail(l, Settle(l, p, until, t, env))
  {
    FinishHasNoTail(l, WriteError, t, env.second);
  }

  lemma RouteTails(l: Local, p: Packet, until: nat, t: nat, env: Env, k: nat)
    requires |l.log| <= k < |Route(l, p, until, t, env).log| && IsTail(Route(l, p, until, t, env).log[k])
    ensures ClosesAt(Route(l, p, until, t, env).log[k], p, until, t)
  {
    if l.file.Open? {
      if !env.expired && !(env.checkDue && !env.verdict.Granted?) {
        SettleTails(l.(file := Open(l.file.packets + [p], l.file.good && env.writeOk), lastPts := p.pts), p, until, t, env, k);
      }
    } else if until > p.pts && until > l.handled && l.ring != [] && env.verdict.Granted? && env.openOk {
      var w := Attempted(l, until, Opened).(file := Open(l.ring, env.writeOk), startPts := l.ring[0].pts, lastPts := p.pts);
      OpeningHasNoTail(w, p, until, t, env);
    }
  }

  lemma BodyTails(c: Config, l: Local, item: Option<Packet>, v: Loads, env: Env, k: nat)
    requires |l.log| <= k < |Body(c, l, item, v, env).log| && IsTail(Body(c, l, item, v, env).log[k])
    ensures item.Some? && ClosesAt(Body(c, l, item, v, env).log[k], item.value, v.until, v.late)
  {
    var f := Fence(c, l, v.cut, v.early, env);
    var u := Upkeep(c, f, item, v.early, env);
    FenceHasNoTail(c, l, v.cut, v.early, env);
    UpkeepHasNoTail(c, f, item, v.early, env);
    OutputAdvances(u, item, v.until, v.closed, v.late, env);
    if k >= |u.log| {
      FinishHasNoTail(u, Shutdown, v.late, env.second);
      if item.Some? && item.value.pts >= u.cutoff { RouteTails(u, item.value, v.until, v.late, env, k); }
    }
  }

  /** Over every run, for every iteration that closes a file at its tail: the file ends with
      the packet popped, which had reached the tail the iteration read; closing it spends
      every trigger raised so far; and the file serves all the triggers it spends, that is,
      none of them asked for more, if and only if no trigger that asked for more took effect
      between the load of trigger_until_ and the reload in finish(). */
  lemma TailServesSpentTriggers(c: Config, events: seq<Event>, env: Env, k: nat)
    requires !Run(c, events).done
    requires |Run(c, events).local.log| <= k < |Iterate(c, Run(c, events), env).local.log|
    requires IsTail(Iterate(c, Run(c, events), env).local.log[k])
    ensures
      var s, t := Run(c, events), Iterate(c, Run(c, events), env);
      var m := t.local.log[k].manifest;
      && s.shared.queue.items != [] && m.packets != [] && Last(m.packets) == s.shared.queue.items[0]
      && m.endPts == s.shared.queue.items[0].pts
      && (forall i :: 0 <= i < |t.shared.raised| ==> t.shared.raised[i] + c.tail <= m.covered)
      && (m.covered <= m.endPts <==> NonePast(c, env.gap4, m.endPts))
  {
    var s := Run(c, events);
    var v := LoadsOf(c, s.shared, env);
    EveryRunKeepsInv(c, events);
    BodyTails(c, s.local, s.shared.queue.Front(), v, env, k);
    IterationSees(c, s.shared, env);
    OthersRaiseTo(c, AtDecision(c, s.shared, env), env.gap4, s.shared.queue.items[0].pts);
  }

  /** A trigger is lost that way: it is accepted while the file is being closed, the file
      ends before the trigger's own stamp, and a keyframe within its tail opens no file,
      because its value is spent. */
  lemma TriggerLostAtTail() returns (events: seq<Event>)
    ensures
      var c := Config(0, 10);
      var s := Run(c, events);
      && |s.local.log| == 2 && IsTail(s.local.log[1]) && s.local.log[1].manifest.endPts == 110
      && s.shared.raised == [100, 115] && s.local.handled == 125
      && s.local.file.NoFile? && s.shared.queue.items == []
      && |s.shared.taken| == 3 && s.shared.taken[2].key && s.shared.taken[2].pts == 120
  {
    var e1, s1 := FileOpens();
    var e2, s2 := FileCloses(e1, s1);
    var s3;
    events, s3 := SubmitAndTake(Config(0, 10), e2, s2, 1, 120, true);
  }

  /** A file is recorded for a trigger stamped 100. */
  lemma FileOpens() returns (events: seq<Event>, s: State)
    ensures s == Run(Config(0, 10), events) && !s.done
    ensures s.shared == Shared(Empty(QUEUE_CAPACITY).(high := 1), false, 110, 0, s.shared.sent, s.shared.taken, [100])
    ensures |s.shared.sent| == |s.shared.taken| == 1
    ensures s.local.file.Open? && s.local.file.good && s.local.lastPts == 95 && s.local.cutoff == 0
    ensures s.local.handled == 110 && s.local.log == [Attempt(110, Opened)]
  {
    var c := Config(0, 10);
    var e0 := FromOutside(Trigger(100, 0));
    assert [] + [e0] == [e0];
    RunExtend(c, [], e0);
    events, s := SubmitAndTake(c, [e0], Next(c, Init(), e0), 1, 95, true);
  }

  /** It is closed by a packet stamped 110, while a trigger stamped 115 takes effect. */
  lemma FileCloses(events: seq<Event>, s: State) returns (more: seq<Event>, t: State)
    requires s == Run(Config(0, 10), events) && !s.done
    requires s.shared == Shared(Empty(QUEUE_CAPACITY).(high := 1), false, 110, 0, s.shared.sent, s.shared.taken, [100])
    requires |s.shared.sent| == |s.shared.taken| == 1
    requires s.local.file.Open? && s.local.file.good && s.local.cutoff == 0
    requires s.local.handled == 110 && s.local.log == [Attempt(110, Opened)]
    ensures t == Run(Config(0, 10), more) && !t.done
    ensures t.shared == Shared(Empty(QUEUE_CAPACITY).(high := 1), false, 125, 0, t.shared.sent, t.shared.taken, [100, 115])
    ensures |t.shared.sent| == |t.shared.taken| == 2
    ensures t.local.file.NoFile? && t.local.handled == 125 && t.local.cutoff == 0
    ensures |t.local.log| == 2 && IsTail(t.local.log[1]) && t.local.log[1].manifest.endPts == 110
  {
    var c := Config(0, 10);
    var sub := FromOutside(Submit(1, 110, false));
    var env := Quiet().(gap4 := [Trigger(115, 0)]);
    RunExtend(c, events, sub);
    RunExtend(c, events + [sub], Iteration(env));
    more := events + [sub] + [Iteration(env)];
    var u := Next(c, s, sub);
    LateTrigger(c, u, env);
    t := Next(c, u, Iteration(env));
  }

  lemma LateTrigger(c: Config, s: State, env: Env)
    requires env == Quiet().(gap4 := [Trigger(115, 0)]) && c == Config(0, 10)
    ensures AtDecision(c, s.shared, env) == Popped(s.shared)
    ensures AtEnd(c, s.shared, env) == Outside(c, Popped(s.shared), Trigger(115, 0))
  {
    var p := Popped(s.shared);
    assert Others(c, p, []) == p;
    var t := Outside(c, p, Trigger(115, 0));
    assert [Trigger(115, 0)][1..] == [];
    assert Others(c, t, []) == t;
  }

  // ----- shutdown -----

  /** Some submission comes before the queue is closed. */
  predicate SubmitsFirst(calls: seq<Call>) {
    && calls != []
    && match calls[0]
       case Submit(_, _, _) => true
       case Stop => false
       case _ => SubmitsFirst(calls[1..])
  }

  lemma {:induction false} OthersFill(c: Config, s: Shared, calls: seq<Call>)
    requires s.queue.capacity > 0
    ensures Others(c, s, calls).queue.items == [] <==>
      s.queue.items == [] && (s.queue.closed || !SubmitsFirst(calls))
    decreases |calls|
  {
    if calls != [] {
      OthersFill(c, Outside(c, s, calls[0]), calls[1..]);
    }
  }

  lemma {:induction false} OthersConcat(c: Config, s: Shared, a: seq<Call>, b: seq<Call>)
    ensures Others(c, s, a + b) == Others(c, Others(c, s, a), b)
    decreases |a|
  {
    if a == [] {
      assert a + b == b;
    } else {
      assert (a + b)[1..] == a[1..] + b;
      OthersConcat(c, Outside(c, s, a[0]), a[1..], b);
    }
  }

  /** When run() leaves its loop, every packet the queue ever accepted has been taken if and
      only if the queue was already closed when that last iteration found it empty, or no
      packet was submitted between that pop and the closing. */
  lemma ShutdownDrains(c: Config, events: seq<Event>, env: Env)
    requires !Run(c, events).done && Iterate(c, Run(c, events), env).done
    ensures
      var s, t := Run(c, events), Iterate(c, Run(c, events), env);
      t.shared.queue.items == [] <==>
        s.shared.queue.closed || !SubmitsFirst(env.gap1 + env.gap2 + env.gap3 + env.gap4)
  {
    var s := Run(c, events);
    EveryRunKeepsInv(c, events);
    OthersConcat(c, Popped(s.shared), env.gap1, env.gap2);
    OthersConcat(c, Popped(s.shared), env.gap1 + env.gap2, env.gap3);
    OthersConcat(c, Popped(s.shared), env.gap1 + env.gap2 + env.gap3, env.gap4);
    OthersFill(c, Popped(s.shared), env.gap1 + env.gap2 + env.gap3 + env.gap4);
  }

  /** A packet is lost that way: accepted, never taken, and run() is gone. */
  lemma PacketLostAtShutdown() returns (events: seq<Event>)
    ensures
      var s := Run(Config(0, 10), events);
      s.done && |s.shared.sent| == 1 && s.shared.queue.items == s.shared.sent && s.shared.taken == []
  {
    var c := Config(0, 10);
    var env := Quiet().(gap1 := [Submit(1, 5, true), Stop]);
    var e := Iteration(env);
    events := [e];
    assert [] + [e] == [e];
    RunExtend(c, [], e);
    var p := Popped(Init().shared);
    var s1 := Outside(c, p, Submit(1, 5, true));
    var s2 := Outside(c, s1, Stop);
    assert env.gap1[1..] == [Stop] && [Stop][1..] == [];
    assert Others(c, s2, []) == s2 && Others(c, s1, [Stop]) == s2 && Others(c, p, env.gap1) == s2;
  }
}
