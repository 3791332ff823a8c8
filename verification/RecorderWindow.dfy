/** The pre-event ring against its definition: a window over everything accepted since the
    ring was last cleared. */
module RecorderWindow {
  import opened Queues
  import opened Recorder
  import opened RecorderProofs

  ghost predicate Ordered(s: seq<Packet>) {
    forall i, j :: 0 <= i < j < |s| ==> s[i].pts <= s[j].pts
  }

  predicate Old(q: Packet, pre: nat, now: nat) {
    q.pts + pre < now
  }

  /** Position k starts the window over s: the last keyframe old enough to cover the
      pre-event time before s's newest packet, or the first keyframe when none is old
      enough, or the end when there is no keyframe. */
  ghost predicate StartsWindow(s: seq<Packet>, pre: nat, k: nat) {
    if |s| == 0 then k == 0
    else
      var now := Last(s).pts;
      && k <= |s|
      && (k < |s| ==> s[k].key && (Old(s[k], pre, now) || forall j :: 0 <= j < k ==> !s[j].key))
      && (k < |s| ==> forall j :: k < j < |s| && s[j].key ==> !Old(s[j], pre, now))
      && (k == |s| ==> forall j :: 0 <= j < |s| ==> !s[j].key)
  }

  ghost predicate IsWindow(ring: seq<Packet>, s: seq<Packet>, pre: nat) {
    && |ring| <= |s|
    && ring == s[|s| - |ring|..]
    && StartsWindow(s, pre, |s| - |ring|)
  }

  /** The definition leaves no choice. */
  lemma WindowIsUnique(s: seq<Packet>, pre: nat, k: nat, m: nat)
    requires StartsWindow(s, pre, k) && StartsWindow(s, pre, m)
    ensures k == m
  {
  }

  /** The state of the trimming loop: position k is a keyframe nothing before which is needed. */
  ghost predicate MayStart(s: seq<Packet>, pre: nat, k: nat)
    requires s != []
  {
    k < |s| && s[k].key && (Old(s[k], pre, Last(s).pts) || forall j :: 0 <= j < k ==> !s[j].key)
  }

  /** The loop stops at k: the next keyframe, if there is one, is too young. */
  predicate Settled(s: seq<Packet>, pre: nat, k: nat)
    requires k < |s|
  {
    var n := NextKey(s[k..], 1);
    n < |s| - k ==> !Old(s[k + n], pre, Last(s).pts)
  }

  /** Every keyframe after the next one is younger still, so the window starts at k. */
  lemma StopsAtStart(s: seq<Packet>, pre: nat, k: nat)
    requires s != [] && Ordered(s) && MayStart(s, pre, k) && Settled(s, pre, k)
    ensures IsWindow(s[k..], s, pre)
  {
    var r := s[k..];
    var n := NextKey(r, 1);
    forall j | k < j < |s| && s[j].key ensures !Old(s[j], pre, Last(s).pts) {
      assert r[j - k] == s[j];
      assert n <= j - k;
      assert s[k + n].pts <= s[j].pts;
    }
  }

  /** The loop, from position k to the position m where it stops. */
  lemma {:induction false} TrimStops(s: seq<Packet>, pre: nat, k: nat) returns (m: nat)
    requires s != [] && MayStart(s, pre, k)
    ensures k <= m < |s| && MayStart(s, pre, m) && Settled(s, pre, m)
    ensures Trim(s[k..], pre, Last(s).pts) == s[m..]
    decreases |s| - k
  {
    m := k;
    if !Settled(s, pre, k) {
      var r, n := s[k..], NextKey(s[k..], 1);
      assert r[n] == s[k + n] && r[n..] == s[k + n..];
      m := TrimStops(s, pre, k + n);
    }
  }

  lemma TrimReachesStart(s: seq<Packet>, pre: nat, k: nat)
    requires s != [] && Ordered(s) && MayStart(s, pre, k)
    ensures IsWindow(Trim(s[k..], pre, Last(s).pts), s, pre)
  {
    var m := TrimStops(s, pre, k);
    StopsAtStart(s, pre, m);
  }

  /** One packet: pushing and trimming incrementally yields the window over the longer list. */
  lemma PushAndTrimIsWindow(ring: seq<Packet>, s: seq<Packet>, pre: nat, p: Packet)
    requires IsWindow(ring, s, pre) && Ordered(s + [p])
    ensures IsWindow(Trim(Push(ring, p), pre, p.pts), s + [p], pre)
  {
    var t := s + [p];
    var k := |s| - |ring|;
    if Push(ring, p) != [] {
      assert Push(ring, p) == t[k..];
      if k < |s| {
        assert t[k] == s[k];
        assert Last(s).pts <= p.pts by { assert t[|s| - 1].pts <= t[|s|].pts; }
      }
      assert MayStart(t, pre, k);
      TrimReachesStart(t, pre, k);
    }
  }

  // ----- every run -----

  ghost predicate SinceOk(l: Local, taken: seq<Packet>, sent: seq<Packet>) {
    && (forall i :: 0 <= i < |l.since| ==> l.since[i].index < |sent| && sent[l.since[i].index] == l.since[i])
    && (forall i, j :: 0 <= i < j < |l.since| ==> l.since[i].index < l.since[j].index)
    && (forall i :: 0 <= i < |l.since| ==> l.since[i].index <= LastIndex(taken))
  }

  ghost predicate WindowInv(c: Config, l: Local, taken: seq<Packet>, sent: seq<Packet>) {
    && SinceOk(l, taken, sent)
    && (Ordered(sent) ==> IsWindow(l.ring, l.since, c.pre))
  }

  lemma SinceIsOrdered(l: Local, taken: seq<Packet>, sent: seq<Packet>)
    requires SinceOk(l, taken, sent) && Ordered(sent)
    ensures Ordered(l.since)
  {
    forall i, j | 0 <= i < j < |l.since| ensures l.since[i].pts <= l.since[j].pts {
      assert sent[l.since[i].index].pts <= sent[l.since[j].index].pts;
    }
  }

  lemma SinceGrows(l: Local, p: Packet, taken: seq<Packet>, sent: seq<Packet>)
    requires SinceOk(l, taken, sent) && Follows(p, taken, sent)
    ensures SinceOk(l.(since := l.since + [p]), taken + [p], sent)
  {
  }

  lemma PushedIsWindow(c: Config, l: Local, p: Packet, taken: seq<Packet>, sent: seq<Packet>)
    requires WindowInv(c, l, taken, sent) && Follows(p, taken, sent) && Ordered(sent)
    ensures IsWindow(Trim(Push(l.ring, p), c.pre, p.pts), l.since + [p], c.pre)
  {
    SinceGrows(l, p, taken, sent);
    SinceIsOrdered(l.(since := l.since + [p]), taken + [p], sent);
    PushAndTrimIsWindow(l.ring, l.since, c.pre, p);
  }

  lemma AbsorbKeepsWindow(c: Config, l: Local, p: Packet, taken: seq<Packet>, sent: seq<Packet>)
    requires WindowInv(c, l, taken, sent) && Follows(p, taken, sent)
    ensures WindowInv(c, Absorb(c, l, p), taken + [p], sent)
  {
    SinceGrows(l, p, taken, sent);
    if Ordered(sent) { PushedIsWindow(c, l, p, taken, sent); }
  }

  lemma RouteKeepsWindow(c: Config, l: Local, p: Packet, until: nat, late: nat, env: Env,
                         taken: seq<Packet>, sent: seq<Packet>)
    requires WindowInv(c, l, taken, sent)
    ensures WindowInv(c, Route(l, p, until, late, env), taken, sent)
  {
    var r := Route(l, p, until, late, env);
    assert (r.ring == l.ring && r.since == l.since) || (r.ring == [] && r.since == []);
  }

  lemma FinishKeepsWindow(c: Config, l: Local, reason: Reason, t: nat, ending: Closing,
                          taken: seq<Packet>, sent: seq<Packet>)
    requires WindowInv(c, l, taken, sent)
    ensures WindowInv(c, Finish(l, reason, t, ending), taken, sent)
    ensures WindowInv(c, Emptied(Finish(l, reason, t, ending)), taken, sent)
  {
    var f := Finish(l, reason, t, ending);
    assert f.ring == l.ring && f.since == l.since;
  }

  lemma FenceKeepsWindow(c: Config, l: Local, cut: nat, t: nat, env: Env, taken: seq<Packet>, sent: seq<Packet>)
    requires WindowInv(c, l, taken, sent)
    ensures WindowInv(c, Fence(c, l, cut, t, env), taken, sent)
  {
    var f := Fence(c, l, cut, t, env);
    assert (f.ring == l.ring && f.since == l.since) || (f.ring == [] && f.since == []);
  }

  lemma TakenGrows(c: Config, l: Local, p: Packet, taken: seq<Packet>, sent: seq<Packet>)
    requires WindowInv(c, l, taken, sent) && Follows(p, taken, sent)
    ensures WindowInv(c, l, taken + [p], sent)
  {
  }

  /** What a packet that is not fenced off goes through. */
  function Accepted(c: Config, l: Local, p: Packet, v: Loads, env: Env): Local {
    var g := if p.gap then Emptied(Finish(l, PacketGap, v.early, env.first)) else l;
    Route(Absorb(c, g, p), p, v.until, v.late, env)
  }

  lemma AcceptedIsBody(c: Config, l: Local, p: Packet, v: Loads, env: Env)
    ensures Output(Upkeep(c, l, Some(p), v.early, env), Some(p), v.until, v.closed, v.late, env)
            == if p.pts < l.cutoff then l else Accepted(c, l, p, v, env)
  {
  }

  lemma AcceptedKeepsWindow(c: Config, l: Local, p: Packet, v: Loads, env: Env, taken: seq<Packet>, sent: seq<Packet>)
    requires WindowInv(c, l, taken, sent) && Follows(p, taken, sent)
    ensures WindowInv(c, Accepted(c, l, p, v, env), taken + [p], sent)
  {
    FinishKeepsWindow(c, l, PacketGap, v.early, env.first, taken, sent);
    var g := if p.gap then Emptied(Finish(l, PacketGap, v.early, env.first)) else l;
    AbsorbKeepsWindow(c, g, p, taken, sent);
    RouteKeepsWindow(c, Absorb(c, g, p), p, v.until, v.late, env, taken + [p], sent);
  }

  lemma PacketKeepsWindow(c: Config, l: Local, p: Packet, v: Loads, env: Env, taken: seq<Packet>, sent: seq<Packet>)
    requires WindowInv(c, l, taken, sent) && Follows(p, taken, sent)
    ensures WindowInv(c, if p.pts < l.cutoff then l else Accepted(c, l, p, v, env), taken + [p], sent)
  {
    if l.cutoff <= p.pts {
      AcceptedKeepsWindow(c, l, p, v, env, taken, sent);
    } else {
      TakenGrows(c, l, p, taken, sent);
    }
  }

  lemma BodyKeepsWindow(c: Config, l: Local, item: Option<Packet>, v: Loads, env: Env,
                        taken: seq<Packet>, sent: seq<Packet>)
    requires WindowInv(c, l, taken, sent)
    requires item.Some? ==> Follows(item.value, taken, sent)
    ensures WindowInv(c, Body(c, l, item, v, env), if item.Some? then taken + [item.value] else taken, sent)
  {
    var fenced := Fence(c, l, v.cut, v.early, env);
    FenceKeepsWindow(c, l, v.cut, v.early, env, taken, sent);
    match item
    case None =>
      FinishKeepsWindow(c, fenced, InputTimeout, v.early, env.first, taken, sent);
      FinishKeepsWindow(c, Idle(fenced, v.early, env), Shutdown, v.late, env.second, taken, sent);
    case Some(p) =>
      AcceptedIsBody(c, fenced, p, v, env);
      PacketKeepsWindow(c, fenced, p, v, env, taken, sent);
  }

  lemma WindowShrinks(c: Config, l: Local, taken: seq<Packet>, sent: seq<Packet>, more: seq<Packet>)
    requires WindowInv(c, l, taken, sent) && sent <= more
    ensures WindowInv(c, l, taken, more)
  {
    if Ordered(more) {
      assert Ordered(sent) by {
        forall i, j | 0 <= i < j < |sent| ensures sent[i].pts <= sent[j].pts {
          assert more[i] == sent[i] && more[j] == sent[j];
        }
      }
    }
  }

  /** Over every run whose packets were submitted in stamp order, after every event, the
      incrementally kept ring is the window over the packets accepted since the last clear. */
  lemma {:induction false} RingIsWindow(c: Config, events: seq<Event>)
    ensures var s := Run(c, events);
            WindowInv(c, s.local, s.shared.taken, s.shared.sent)
    decreases |events|
  {
    if events == [] { return; }
    var s := Run(c, events[..|events| - 1]);
    RingIsWindow(c, events[..|events| - 1]);
    EveryRunKeepsInv(c, events[..|events| - 1]);
    match events[|events| - 1]
    case FromOutside(call) =>
      OutsideKeepsShared(c, s.shared, call);
      WindowShrinks(c, s.local, s.shared.taken, s.shared.sent, Outside(c, s.shared, call).sent);
    case Iteration(env) =>
      if s.done { return; }
      var t := Iterate(c, s, env).shared;
      IterationSees(c, s.shared, env);
      WindowShrinks(c, s.local, s.shared.taken, s.shared.sent, t.sent);
      BodyKeepsWindow(c, s.local, s.shared.queue.Front(), LoadsOf(c, s.shared, env), env, s.shared.taken, t.sent);
  }
}
