/** When the recorder opens a file and when it closes one: the outcome of every iteration, in
    terms of the packet popped, the values loaded, and what the clock, the quota and the disk
    say. */
module RecorderDecisions {
  import opened Queues
  import opened Recorder
  import opened RecorderProofs
  import opened RecorderWindow

  // ----- submitting and raising -----

  /** A packet is accepted exactly when the queue is open and holds fewer than 120, carries
      the gap mark, and leaves it exactly if it was refused; a trigger is heard exactly when
      it is not before the reset it saw, and then raises trigger_until_ to its end. */
  lemma CallsDecide(c: Config, events: seq<Event>, call: Call)
    ensures
      var s := Run(c, events).shared;
      var t := Outside(c, s, call);
      match call
      case Submit(size, pts, key) =>
        var room := !s.queue.closed && |s.queue.items| < 120;
        && t.queue.items == s.queue.items + (if room then [Packet(|s.sent|, size, pts, key, s.gap)] else [])
        && t.gap == !room && t.queue.closed == s.queue.closed
        && t.triggerUntil == s.triggerUntil && t.resetPts == s.resetPts
      case Trigger(stamp, seen) =>
        && t.queue == s.queue && t.gap == s.gap && t.resetPts == s.resetPts
        && (stamp < seen ==> t.triggerUntil == s.triggerUntil)
        && (stamp >= seen && stamp + c.tail > s.triggerUntil ==> t.triggerUntil == stamp + c.tail)
        && (stamp >= seen && stamp + c.tail <= s.triggerUntil ==> t.triggerUntil == s.triggerUntil)
      case Reset(cut) =>
        t.queue == s.queue && t.gap == s.gap && t.triggerUntil == s.triggerUntil && t.resetPts == cut
      case Stop =>
        && t.queue.items == s.queue.items && t.queue.closed && t.gap == s.gap
        && t.triggerUntil == s.triggerUntil && t.resetPts == s.resetPts
  {
    EveryRunKeepsInv(c, events);
  }

  // ----- records -----

  /** Record k closes a file with these packets for this reason. */
  predicate ClosesWith(log: seq<Record>, k: nat, packets: seq<Packet>, reason: Reason) {
    && k < |log| && log[k].Finished?
    && log[k].manifest.packets == packets && log[k].manifest.reason == reason
  }

  ghost predicate NoAttempt(l: Local, m: Local) {
    l.log <= m.log && forall k :: |l.log| <= k < |m.log| ==> !m.log[k].Attempt?
  }

  function Larger(a: nat, b: nat): nat {
    if a < b then b else a
  }

  // ----- the fence -----

  lemma FenceFacts(c: Config, l: Local, cut: nat, early: nat, env: Env)
    ensures
      var m := Fence(c, l, cut, early, env);
      && NoAttempt(l, m)
      && (cut <= l.cutoff ==> m == l)
      && (cut > l.cutoff ==>
            && m.cutoff == cut && m.file.NoFile? && m.ring == [] && m.log[|m.log| - 1] == Fenced(cut)
            && m.handled == Larger(if l.file.Open? then Larger(l.handled, early) else l.handled, cut + c.tail)
            && (l.file.Open? ==> ClosesWith(m.log, |l.log|, l.file.packets, CaptureRestart))
            && |m.log| == |l.log| + (if l.file.Open? then 2 else 1))
  {
  }

  // ----- upkeep -----

  lemma GapFacts(c: Config, l: Local, p: Packet, early: nat, env: Env)
    requires l.cutoff <= p.pts
    ensures
      var m := Upkeep(c, l, Some(p), early, env);
      && NoAttempt(l, m) && m.cutoff == l.cutoff
      && (!p.gap || l.file.NoFile? ==> m.file == l.file && m.handled == l.handled && m.log == l.log)
      && (p.gap && l.file.Open? ==>
            && m.file.NoFile? && m.handled == Larger(l.handled, early)
            && |m.log| == |l.log| + 1 && ClosesWith(m.log, |l.log|, l.file.packets, PacketGap))
  {
  }

  // ----- opening -----

  function OutcomeOf(env: Env): Outcome {
    if env.verdict.Denied? then Refused
    else if env.verdict.Raised? then Threw
    else if env.openOk then Opened
    else OpenFailed
  }

  /** What follows from m to t when no file is open. */
  ghost predicate OpensIfAsked(m: Local, p: Packet, until: nat, env: Env, t: Local) {
    var asked := until > p.pts && until > m.handled && m.ring != [];
    && m.log <= t.log && t.ring == m.ring && t.cutoff == m.cutoff
    && (!asked ==> t == m)
    && (asked ==>
          && |t.log| > |m.log| && t.log[|m.log|] == Attempt(until, OutcomeOf(env)) && t.handled >= until
          && (OutcomeOf(env) != Opened ==> t.file.NoFile? && |t.log| == |m.log| + 1)
          && (OutcomeOf(env) == Opened && env.writeOk ==>
                && t.file == Open(m.ring, true) && t.startPts == m.ring[0].pts && t.lastPts == p.pts
                && |t.log| == |m.log| + 1)
          && (OutcomeOf(env) == Opened && !env.writeOk ==>
                && t.file.NoFile? && |t.log| == |m.log| + 2 && ClosesWith(t.log, |m.log| + 1, m.ring, WriteError)))
  }

  lemma RouteOpens(m: Local, p: Packet, until: nat, late: nat, env: Env)
    requires m.file.NoFile?
    ensures OpensIfAsked(m, p, until, env, Route(m, p, until, late, env))
  {
  }

  /** The trigger value spent by the time packet p is about to open a file: closing a file for
      a reset or a gap spends the value loaded then, and a reset spends its tail. */
  function SpentBefore(c: Config, l: Local, p: Packet, v: Loads): nat {
    var reset := v.cut > l.cutoff;
    var closed := if l.file.Open? && (reset || p.gap) then Larger(l.handled, v.early) else l.handled;
    if reset then Larger(closed, v.cut + c.tail) else closed
  }

  /** Iteration env of state s takes packet p: it pops it and it is not before the reset. */
  ghost predicate TakesIn(s: State, v: Loads, p: Packet) {
    && !s.done && s.shared.queue.items != [] && s.shared.queue.items[0] == p
    && s.local.cutoff <= p.pts && v.cut <= p.pts
  }

  /** No file is open when packet p is to be written. */
  predicate Idles(l: Local, p: Packet, v: Loads) {
    l.file.NoFile? || v.cut > l.cutoff || p.gap
  }

  /** The outcome for the whole iteration, from l to t. */
  ghost predicate Opens(c: Config, l: Local, p: Packet, v: Loads, env: Env, t: Local) {
    var asked := v.until > p.pts && v.until > SpentBefore(c, l, p, v) && t.ring != [];
    && l.log <= t.log
    && (asked <==> exists k :: |l.log| <= k < |t.log| && t.log[k].Attempt?)
    && (forall k :: |l.log| <= k < |t.log| && t.log[k].Attempt? ==> t.log[k] == Attempt(v.until, OutcomeOf(env)))
    && (t.file.Open? <==> asked && OutcomeOf(env) == Opened && env.writeOk)
    && (t.file.Open? ==>
          && t.file == Open(t.ring, true) && Last(t.ring) == p
          && t.startPts == t.ring[0].pts && t.lastPts == p.pts)
    && (asked && OutcomeOf(env) == Opened && !env.writeOk ==> ClosesWith(t.log, |t.log| - 1, t.ring, WriteError))
  }

  lemma UpkeepEndsWith(c: Config, l: Local, p: Packet, early: nat, env: Env,
                       taken: seq<Packet>, sent: seq<Packet>, raised: seq<nat>)
    requires LocalInv(c, l, taken, sent, raised) && Follows(p, taken, sent) && l.cutoff <= p.pts
    ensures var m := Upkeep(c, l, Some(p), early, env); m.ring != [] ==> Last(m.ring) == p
  {
    FinishKeeps(c, l, PacketGap, early, env.first, taken, sent, raised);
    var g := if p.gap then Emptied(Finish(l, PacketGap, early, env.first)) else l;
    AbsorbKeeps(c, g, p, taken, sent, raised);
  }

  lemma BodyOpens(c: Config, l: Local, p: Packet, v: Loads, env: Env,
                  taken: seq<Packet>, sent: seq<Packet>, raised: seq<nat>)
    requires LocalInv(c, l, taken, sent, raised) && Follows(p, taken, sent)
    requires l.cutoff <= p.pts && v.cut <= p.pts && Idles(l, p, v)
    ensures Opens(c, l, p, v, env, Body(c, l, Some(p), v, env))
  {
    var f := Fence(c, l, v.cut, v.early, env);
    var m := Upkeep(c, f, Some(p), v.early, env);
    var t := Route(m, p, v.until, v.late, env);
    FenceFacts(c, l, v.cut, v.early, env);
    FenceKeeps(c, l, v.cut, v.early, env, taken, sent, raised);
    GapFacts(c, f, p, v.early, env);
    UpkeepEndsWith(c, f, p, v.early, env, taken, sent, raised);
    RouteOpens(m, p, v.until, v.late, env);
    assert m.handled == SpentBefore(c, l, p, v);
    OpensThrough(c, l, m, p, v, env, t);
  }

  lemma OpensThrough(c: Config, l: Local, m: Local, p: Packet, v: Loads, env: Env, t: Local)
    requires NoAttempt(l, m) && m.file.NoFile? && m.handled == SpentBefore(c, l, p, v)
    requires m.ring != [] ==> Last(m.ring) == p
    requires OpensIfAsked(m, p, v.until, env, t)
    ensures Opens(c, l, p, v, env, t)
  {
    var asked := v.until > p.pts && v.until > m.handled && m.ring != [];
    if asked {
      assert t.log[|m.log|].Attempt?;
    }
    forall k | |l.log| <= k < |t.log| && t.log[k].Attempt?
      ensures asked && t.log[k] == Attempt(v.until, OutcomeOf(env))
    {
    }
  }

  /** Over every run: an iteration that takes packet p with no file open makes an attempt to
      open one if and only if the loaded trigger value is past p and not yet spent and the
      ring, which p ends, is not empty; the quota and the disk fix the outcome; and exactly if
      it could be opened and written a file is open afterwards, holding the ring. */
  lemma FileOpensWhenAsked(c: Config, events: seq<Event>, env: Env, p: Packet)
    requires TakesIn(Run(c, events), LoadsOf(c, Run(c, events).shared, env), p)
    requires Idles(Run(c, events).local, p, LoadsOf(c, Run(c, events).shared, env))
    ensures
      var s := Run(c, events);
      Opens(c, s.local, p, LoadsOf(c, s.shared, env), env, Iterate(c, s, env).local)
  {
    var s := Run(c, events);
    EveryRunKeepsInv(c, events);
    PopFollows(c, s.shared);
    BodyOpens(c, s.local, p, LoadsOf(c, s.shared, env), env, s.shared.taken, s.shared.sent, s.shared.raised);
  }

  // ----- closing -----

  /** From l to t the open file of l is closed for this reason, with these packets, and that
      is all that happened to the log. */
  ghost predicate ClosesFor(l: Local, t: Local, packets: seq<Packet>, reason: Reason) {
    t.file.NoFile? && |t.log| == |l.log| + 1 && l.log <= t.log && ClosesWith(t.log, |l.log|, packets, reason)
  }

  /** A packet for an open file: the duration and the quota are tested first and give up ring
      and file; else the packet is written, and a failed write or the tail ends the file. */
  ghost predicate Continues(l: Local, p: Packet, until: nat, env: Env, t: Local)
    requires l.file.Open?
  {
    var packets := l.file.packets + [p];
    if env.expired then ClosesFor(l, t, l.file.packets, MaxDuration) && t.ring == []
    else if env.checkDue && env.verdict.Denied? then ClosesFor(l, t, l.file.packets, StorageBudget) && t.ring == []
    else if env.checkDue && env.verdict.Raised? then ClosesFor(l, t, l.file.packets, StorageError) && t.ring == []
    else if !env.writeOk then ClosesFor(l, t, packets, WriteError)
    else if until <= p.pts then ClosesFor(l, t, packets, TailComplete)
    else t.file == Open(packets, true) && t.lastPts == p.pts && t.log == l.log && t.handled == l.handled
  }

  lemma RouteContinues(m: Local, p: Packet, until: nat, late: nat, env: Env)
    requires m.file.Open? && m.file.good
    ensures Continues(m, p, until, env, Route(m, p, until, late, env))
  {
  }

  /** Over every run: an iteration that takes packet p while a file is open, and neither a
      reset nor a gap has just ended it. */
  lemma OpenFileContinues(c: Config, events: seq<Event>, env: Env, p: Packet)
    requires TakesIn(Run(c, events), LoadsOf(c, Run(c, events).shared, env), p)
    requires !Idles(Run(c, events).local, p, LoadsOf(c, Run(c, events).shared, env))
    ensures
      var s := Run(c, events);
      Continues(s.local, p, LoadsOf(c, s.shared, env).until, env, Iterate(c, s, env).local)
  {
    var s := Run(c, events);
    var v := LoadsOf(c, s.shared, env);
    EveryRunKeepsInv(c, events);
    FenceFacts(c, s.local, v.cut, v.early, env);
    GapFacts(c, s.local, p, v.early, env);
    var m := Upkeep(c, s.local, Some(p), v.early, env);
    RouteContinues(m, p, v.until, v.late, env);
    ContinuesFrom(s.local, m, p, v.until, env, Route(m, p, v.until, v.late, env));
  }

  lemma ContinuesFrom(l: Local, m: Local, p: Packet, until: nat, env: Env, t: Local)
    requires l.file.Open? && m.file == l.file && m.log == l.log && m.handled == l.handled
    requires Continues(m, p, until, env, t)
    ensures Continues(l, p, until, env, t)
  {
  }

  /** Over every run: a reset ends an open file first of all, and is always taken. */
  lemma ResetClosesFile(c: Config, events: seq<Event>, env: Env)
    requires !Run(c, events).done
    ensures
      var s, t := Run(c, events), Iterate(c, Run(c, events), env);
      var cut := LoadsOf(c, s.shared, env).cut;
      && t.local.cutoff == Larger(s.local.cutoff, cut)
      && (cut > s.local.cutoff ==>
            && Fenced(cut) in t.local.log[|s.local.log|..]
            && (s.local.file.Open? ==>
                  ClosesWith(t.local.log, |s.local.log|, s.local.file.packets, CaptureRestart)))
  {
    var s := Run(c, events);
    var v := LoadsOf(c, s.shared, env);
    var item := s.shared.queue.Front();
    var f := Fence(c, s.local, v.cut, v.early, env);
    FenceFacts(c, s.local, v.cut, v.early, env);
    UpkeepAddsTo(c, f, item, v.early, env);
    var m := Upkeep(c, f, item, v.early, env);
    OutputAddsTo(m, item, v.until, v.closed, v.late, env);
    var t := Output(m, item, v.until, v.closed, v.late, env);
    if v.cut > s.local.cutoff {
      assert t.log[|f.log| - 1] == Fenced(v.cut);
      assert t.log[|s.local.log|..][|f.log| - 1 - |s.local.log|] == t.log[|f.log| - 1];
    }
  }

  lemma UpkeepAddsTo(c: Config, l: Local, item: Option<Packet>, early: nat, env: Env)
    ensures l.log <= Upkeep(c, l, item, early, env).log && Upkeep(c, l, item, early, env).cutoff == l.cutoff
  {
  }

  lemma OutputAddsTo(l: Local, item: Option<Packet>, until: nat, closed: bool, late: nat, env: Env)
    ensures l.log <= Output(l, item, until, closed, late, env).log
    ensures Output(l, item, until, closed, late, env).cutoff == l.cutoff
  {
  }

  /** Over every run: a gap ends an open file that a reset has not just ended. */
  lemma GapClosesFile(c: Config, events: seq<Event>, env: Env, p: Packet)
    requires TakesIn(Run(c, events), LoadsOf(c, Run(c, events).shared, env), p) && p.gap
    requires Run(c, events).local.file.Open?
    requires LoadsOf(c, Run(c, events).shared, env).cut <= Run(c, events).local.cutoff
    ensures
      var l, t := Run(c, events).local, Iterate(c, Run(c, events), env).local;
      ClosesWith(t.log, |l.log|, l.file.packets, PacketGap)
  {
    var s := Run(c, events);
    var v := LoadsOf(c, s.shared, env);
    FenceFacts(c, s.local, v.cut, v.early, env);
    GapFacts(c, s.local, p, v.early, env);
    OutputAddsTo(Upkeep(c, s.local, Some(p), v.early, env), Some(p), v.until, v.closed, v.late, env);
  }

  /** Over every run: an iteration that finds the queue empty ends an open file exactly when
      the input has timed out, which also empties the ring, or when the queue is closed, and
      that is also when run() leaves. */
  lemma EmptyQueueDecides(c: Config, events: seq<Event>, env: Env)
    requires !Run(c, events).done && Run(c, events).shared.queue.items == []
    requires LoadsOf(c, Run(c, events).shared, env).cut <= Run(c, events).local.cutoff
    ensures
      var s, t := Run(c, events), Iterate(c, Run(c, events), env);
      var closed := LoadsOf(c, s.shared, env).closed;
      && (t.done <==> closed)
      && (env.timedOut ==> t.local.ring == []) && (!env.timedOut ==> t.local.ring == s.local.ring)
      && (s.local.file.Open? ==>
            if env.timedOut then ClosesFor(s.local, t.local, s.local.file.packets, InputTimeout)
            else if closed then ClosesFor(s.local, t.local, s.local.file.packets, Shutdown)
            else t.local == s.local)
  {
  }

  /** A packet before the reset in force changes nothing but what the reset itself does, and
      an iteration that pops a packet never ends run(). */
  lemma EarlyPacketIsSkipped(c: Config, events: seq<Event>, env: Env)
    requires !Run(c, events).done && Run(c, events).shared.queue.items != []
    ensures
      var s, t := Run(c, events), Iterate(c, Run(c, events), env);
      && !t.done
      && (LoadsOf(c, s.shared, env).cut <= s.local.cutoff && s.shared.queue.items[0].pts < s.local.cutoff ==>
            t.local == s.local)
  {
  }

  // ----- the ring -----

  /** The pre-event ring is given up only when its window is larger than 16 MiB. */
  lemma RingKeptUpToLimit(c: Config, l: Local, p: Packet, taken: seq<Packet>, sent: seq<Packet>)
    requires WindowInv(c, l, taken, sent) && Follows(p, taken, sent) && Ordered(sent)
    ensures exists w :: IsWindow(w, l.since + [p], c.pre)
              && Absorb(c, l, p).ring == if TotalSize(w) > 16777216 then [] else w
  {
    PushedIsWindow(c, l, p, taken, sent);
  }
}
