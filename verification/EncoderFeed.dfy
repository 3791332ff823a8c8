/** onPacket in media/VideoService.cpp hands every usable sample of the encoder first to the
    recorder and then to the live source. This module puts the two together: what an event
    file lacks of the encoder's output, and what a live source is offered of it. */
module EncoderFeed {
  import opened Queues
  import opened Recorder
  import opened RecorderProofs
  import opened RecorderTheorems
  import RecorderEndings
  import V = VideoService

  /** The usable samples, in encoder order. */
  function Usable(samples: seq<Option<V.Packet>>): seq<V.Packet> {
    if samples == [] then []
    else
      var s := samples[|samples| - 1];
      Usable(samples[..|samples| - 1]) + if s.Some? then [s.value] else []
  }

  /** How many usable samples come before position k. */
  function Rank(samples: seq<Option<V.Packet>>, k: nat): nat
    requires k <= |samples|
  {
    |Usable(samples[..k])|
  }

  lemma RankStep(samples: seq<Option<V.Packet>>, k: nat)
    requires k < |samples|
    ensures Rank(samples, k + 1) == Rank(samples, k) + if samples[k].Some? then 1 else 0
    ensures Rank(samples, |samples|) == |Usable(samples)|
  {
    assert samples[..k + 1][..k] == samples[..k];
    assert samples[..|samples|] == samples;
  }

  /** A usable sample sits at its rank among the usable ones. */
  lemma {:induction false} UsableAtRank(samples: seq<Option<V.Packet>>, k: nat)
    requires k < |samples| && samples[k].Some?
    ensures Rank(samples, k) < |Usable(samples)| && Usable(samples)[Rank(samples, k)] == samples[k].value
    decreases |samples|
  {
    var less := samples[..|samples| - 1];
    if k < |less| {
      assert less[..k] == samples[..k];
      UsableAtRank(less, k);
    }
  }

  /** Every usable sample has been submitted to the recorder, in encoder order. */
  ghost predicate Feeds(samples: seq<Option<V.Packet>>, sent: seq<Packet>) {
    && |sent| == |Usable(samples)|
    && forall i :: 0 <= i < |sent| ==> V.Packet(sent[i].pts, sent[i].key) == Usable(samples)[i]
  }

  // ----- the recorder and the live source together -----

  /** What other threads do: the encoder's callback, which serves both; the RTSP server's
      callbacks; and triggers, resets and the stop. Nobody else submits packets. */
  datatype Happening =
    | Encoded(packet: Option<V.Packet>, size: nat, queued: nat, pushOk: bool)
    | Configured(found: bool)
    | Unprepared
    | Triggered(stamp: nat, seen: nat)
    | WasReset(cut: nat)
    | Stopped

  /** What it does to the recorder. */
  function CallsOf(h: Happening): seq<Call> {
    match h
    case Encoded(packet, size, _, _) => if packet.Some? then [Submit(size, packet.value.pts, packet.value.key)] else []
    case Configured(_) => []
    case Unprepared => []
    case Triggered(stamp, seen) => [Trigger(stamp, seen)]
    case WasReset(cut) => [Reset(cut)]
    case Stopped => [Stop]
  }

  /** What it does to the live source. */
  function SourceAfter(v: V.State, h: Happening): V.State {
    match h
    case Encoded(packet, _, queued, pushOk) => V.Next(v, V.Sample(packet, queued, pushOk))
    case Configured(found) => V.Next(v, V.Configure(found))
    case Unprepared => V.Next(v, V.Unprepare)
    case _ => v
  }

  function Calls(hs: seq<Happening>): seq<Call>
    decreases |hs|
  {
    if hs == [] then [] else CallsOf(hs[0]) + Calls(hs[1..])
  }

  function SourceAfterAll(v: V.State, hs: seq<Happening>): V.State
    decreases |hs|
  {
    if hs == [] then v else SourceAfterAll(SourceAfter(v, hs[0]), hs[1..])
  }

  datatype Joint = Joint(recorder: State, source: V.State)

  /** Something outside, or one pass of run() with things happening in its gaps. */
  datatype Step = Outside(h: Happening) | Pass(env: Env, g1: seq<Happening>, g2: seq<Happening>, g3: seq<Happening>, g4: seq<Happening>)

  function EnvOf(e: Step): Env
    requires e.Pass?
  {
    e.env.(gap1 := Calls(e.g1), gap2 := Calls(e.g2), gap3 := Calls(e.g3), gap4 := Calls(e.g4))
  }

  function JointNext(c: Config, j: Joint, e: Step): Joint {
    match e
    case Outside(h) =>
      Joint(j.recorder.(shared := Others(c, j.recorder.shared, CallsOf(h))), SourceAfter(j.source, h))
    case Pass(env, g1, g2, g3, g4) =>
      if j.recorder.done then j
      else
        Joint(Iterate(c, j.recorder, EnvOf(e)),
              SourceAfterAll(SourceAfterAll(SourceAfterAll(SourceAfterAll(j.source, g1), g2), g3), g4))
  }

  function JointRun(c: Config, steps: seq<Step>): Joint {
    if steps == [] then Joint(Recorder.Init(), V.Init())
    else JointNext(c, JointRun(c, steps[..|steps| - 1]), steps[|steps| - 1])
  }

  lemma UsableAppend(samples: seq<Option<V.Packet>>, s: Option<V.Packet>)
    ensures Usable(samples + [s]) == Usable(samples) + if s.Some? then [s.value] else []
  {
    assert (samples + [s])[..|samples|] == samples;
  }

  lemma FeedsOn(samples: seq<Option<V.Packet>>, sent: seq<Packet>, p: Packet)
    requires Feeds(samples, sent)
    ensures Feeds(samples + [Some(V.Packet(p.pts, p.key))], sent + [p])
    ensures Feeds(samples + [None], sent)
  {
    UsableAppend(samples, Some(V.Packet(p.pts, p.key)));
    UsableAppend(samples, None);
  }

  /** What one happening adds to the samples and to the submitted packets. */
  lemma HappeningAdds(c: Config, s: Shared, v: V.State, h: Happening)
    ensures SourceAfter(v, h).samples == v.samples + if h.Encoded? then [h.packet] else []
    ensures
      var sent := Others(c, s, CallsOf(h)).sent;
      if h.Encoded? && h.packet.Some?
      then sent == s.sent + [Packet(|s.sent|, h.size, h.packet.value.pts, h.packet.value.key, s.gap)]
      else sent == s.sent
  {
    var calls := CallsOf(h);
    if calls != [] {
      assert calls[1..] == [];
      assert Others(c, s, calls) == Recorder.Outside(c, s, calls[0]);
    }
  }

  lemma HappeningFeeds(c: Config, s: Shared, v: V.State, h: Happening)
    requires Feeds(v.samples, s.sent)
    ensures Feeds(SourceAfter(v, h).samples, Others(c, s, CallsOf(h)).sent)
  {
    HappeningAdds(c, s, v, h);
    if h.Encoded? {
      var q := if h.packet.Some? then h.packet.value else V.Packet(0, false);
      FeedsOn(v.samples, s.sent, Packet(|s.sent|, h.size, q.pts, q.key, s.gap));
    }
  }

  /** A usable sample is submitted as it is pushed, and nothing else is, so onPacket keeps the
      recorder fed with exactly the usable samples. */
  lemma {:induction false} HappeningsFeed(c: Config, s: Shared, v: V.State, hs: seq<Happening>)
    requires Feeds(v.samples, s.sent)
    ensures Feeds(SourceAfterAll(v, hs).samples, Others(c, s, Calls(hs)).sent)
    decreases |hs|
  {
    if hs != [] {
      HappeningFeeds(c, s, v, hs[0]);
      RecorderEndings.OthersConcat(c, s, CallsOf(hs[0]), Calls(hs[1..]));
      HappeningsFeed(c, Others(c, s, CallsOf(hs[0])), SourceAfter(v, hs[0]), hs[1..]);
    }
  }

  lemma StepFeeds(c: Config, j: Joint, e: Step)
    requires Feeds(j.source.samples, j.recorder.shared.sent)
    ensures Feeds(JointNext(c, j, e).source.samples, JointNext(c, j, e).recorder.shared.sent)
  {
    match e
    case Outside(h) => HappeningFeeds(c, j.recorder.shared, j.source, h);
    case Pass(_, g1, g2, g3, g4) =>
      if !j.recorder.done {
        var s, env := j.recorder.shared, EnvOf(e);
        HappeningsFeed(c, Popped(s), j.source, g1);
        var v1 := SourceAfterAll(j.source, g1);
        HappeningsFeed(c, AtFence(c, s, env), v1, g2);
        var v2 := SourceAfterAll(v1, g2);
        HappeningsFeed(c, AtIntake(c, s, env), v2, g3);
        HappeningsFeed(c, AtDecision(c, s, env), SourceAfterAll(v2, g3), g4);
      }
  }

  lemma {:induction false} EveryJointRunFeeds(c: Config, steps: seq<Step>)
    ensures Feeds(JointRun(c, steps).source.samples, JointRun(c, steps).recorder.shared.sent)
    decreases |steps|
  {
    if steps != [] {
      EveryJointRunFeeds(c, steps[..|steps| - 1]);
      StepFeeds(c, JointRun(c, steps[..|steps| - 1]), steps[|steps| - 1]);
    }
  }

  /** In a joint run the recorder makes a run of its own, so its promises hold. */
  lemma {:induction false} RecorderRuns(c: Config, steps: seq<Step>) returns (events: seq<Event>)
    ensures JointRun(c, steps).recorder == Run(c, events)
    decreases |steps|
  {
    events := [];
    if steps != [] {
      var less := RecorderRuns(c, steps[..|steps| - 1]);
      var j := JointRun(c, steps[..|steps| - 1]);
      events := less;
      match steps[|steps| - 1]
      case Outside(h) =>
        var calls, s := CallsOf(h), j.recorder.shared;
        if calls != [] {
          assert calls[1..] == [];
          assert Others(c, s, calls) == Recorder.Outside(c, s, calls[0]);
          events := less + [FromOutside(calls[0])];
          RunExtend(c, less, FromOutside(calls[0]));
        } else {
          assert Others(c, s, calls) == s;
        }
      case Pass(_, _, _, _, _) =>
        if !j.recorder.done {
          events := less + [Iteration(EnvOf(steps[|steps| - 1]))];
          RunExtend(c, less, Iteration(EnvOf(steps[|steps| - 1])));
        }
    }
  }

  /** And the live source a run of its own. */
  lemma {:induction false} SourceRuns(c: Config, steps: seq<Step>) returns (events: seq<V.Event>)
    ensures JointRun(c, steps).source == V.Run(events)
    decreases |steps|
  {
    events := [];
    if steps != [] {
      events := SourceRuns(c, steps[..|steps| - 1]);
      match steps[|steps| - 1]
      case Outside(h) => events := SourceRunsOn(events, [h]);
      case Pass(_, g1, g2, g3, g4) =>
        if !JointRun(c, steps[..|steps| - 1]).recorder.done {
          events := SourceRunsOn(events, g1);
          events := SourceRunsOn(events, g2);
          events := SourceRunsOn(events, g3);
          events := SourceRunsOn(events, g4);
        }
    }
  }

  lemma {:induction false} SourceRunsOn(events: seq<V.Event>, hs: seq<Happening>) returns (more: seq<V.Event>)
    ensures V.Run(more) == SourceAfterAll(V.Run(events), hs)
    decreases |hs|
  {
    more := events;
    if hs != [] {
      var one := SourceRunsOne(events, hs[0]);
      more := SourceRunsOn(one, hs[1..]);
    }
  }

  lemma SourceRunsOne(events: seq<V.Event>, h: Happening) returns (more: seq<V.Event>)
    ensures V.Run(more) == SourceAfter(V.Run(events), h)
  {
    match h
    case Encoded(packet, _, queued, pushOk) =>
      V.RunAppend(events, V.Sample(packet, queued, pushOk));
      more := events + [V.Sample(packet, queued, pushOk)];
    case Configured(found) =>
      V.RunAppend(events, V.Configure(found));
      more := events + [V.Configure(found)];
    case Unprepared =>
      V.RunAppend(events, V.Unprepare);
      more := events + [V.Unprepare];
    case _ => more := events;
  }

  // ----- what files lack -----

  /** Sample k is in file f. */
  ghost predicate Holds(f: seq<Packet>, samples: seq<Option<V.Packet>>, k: nat)
    requires k < |samples|
  {
    samples[k].Some? && exists i :: 0 <= i < |f| && f[i].index == Rank(samples, k)
  }

  /** Sample k lies between the first and the last packet of f. */
  ghost predicate Spans(f: seq<Packet>, samples: seq<Option<V.Packet>>, k: nat)
    requires f != [] && k < |samples|
  {
    f[0].index < Rank(samples, k + 1) && Rank(samples, k) <= Last(f).index
  }

  lemma UnbrokenLacksUnusable(f: seq<Packet>, sent: seq<Packet>, samples: seq<Option<V.Packet>>, k: nat)
    requires Contiguous(f, sent) && Numbered(sent) && Feeds(samples, sent) && k < |samples|
    ensures Spans(f, samples, k) ==> (Holds(f, samples, k) <==> samples[k].Some?)
    ensures Holds(f, samples, k) ==> Spans(f, samples, k)
  {
    RankStep(samples, k);
    var a := f[0].index;
    assert Last(f) == sent[a + |f| - 1];
    forall i | 0 <= i < |f| ensures f[i].index == a + i {
      assert f[i] == sent[a + i];
    }
    if samples[k].Some? && Spans(f, samples, k) {
      assert f[Rank(samples, k) - a].index == Rank(samples, k);
    }
  }

  /** File f, recorded under the reset `cutoff`, against the encoder's samples: it holds
      nothing from outside its span, and within it exactly the usable samples. */
  ghost predicate LacksOnlyUnusable(f: seq<Packet>, samples: seq<Option<V.Packet>>) {
    && f != []
    && forall k :: 0 <= k < |samples| ==>
         && (Spans(f, samples, k) ==> (Holds(f, samples, k) <==> samples[k].Some?))
         && (Holds(f, samples, k) ==> Spans(f, samples, k))
  }

  ghost predicate FedFile(f: seq<Packet>, sent: seq<Packet>, cutoff: nat, samples: seq<Option<V.Packet>>) {
    NoneEarly(f, sent, cutoff) ==> LacksOnlyUnusable(f, samples)
  }

  lemma SoundLacksOnlyUnusable(f: seq<Packet>, sent: seq<Packet>, cutoff: nat, samples: seq<Option<V.Packet>>)
    requires FileIsSound(f, sent, cutoff) && Numbered(sent) && Feeds(samples, sent)
    ensures FedFile(f, sent, cutoff, samples)
  {
    if !NoneEarly(f, sent, cutoff) { return; }
    forall k | 0 <= k < |samples|
      ensures Spans(f, samples, k) ==> (Holds(f, samples, k) <==> samples[k].Some?)
      ensures Holds(f, samples, k) ==> Spans(f, samples, k)
    {
      UnbrokenLacksUnusable(f, sent, samples, k);
    }
  }

  /** Over every joint run, for every event file, finished or still open, if no packet
      submitted during its span was stamped before the reset in force: of the encoder's
      samples within its span the file holds exactly the usable ones, and it holds nothing
      else. So it follows the encoder without a break unless a sample could not be used. */
  lemma FilesLackOnlyUnusableSamples(c: Config, steps: seq<Step>)
    ensures
      var s, samples := JointRun(c, steps).recorder, JointRun(c, steps).source.samples;
      && (forall i :: 0 <= i < |s.local.log| && s.local.log[i].Finished? ==>
            FedFile(s.local.log[i].manifest.packets, s.shared.sent, s.local.log[i].manifest.cutoff, samples))
      && (s.local.file.Open? ==> FedFile(s.local.file.packets, s.shared.sent, s.local.cutoff, samples))
  {
    var events := RecorderRuns(c, steps);
    EveryJointRunFeeds(c, steps);
    EveryRunKeepsInv(c, events);
    EveryFileIsContiguous(c, events);
    var s, samples := JointRun(c, steps).recorder, JointRun(c, steps).source.samples;
    forall i | 0 <= i < |s.local.log| && s.local.log[i].Finished?
      ensures FedFile(s.local.log[i].manifest.packets, s.shared.sent, s.local.log[i].manifest.cutoff, samples)
    {
      SoundLacksOnlyUnusable(s.local.log[i].manifest.packets, s.shared.sent, s.local.log[i].manifest.cutoff, samples);
    }
    if s.local.file.Open? {
      SoundLacksOnlyUnusable(s.local.file.packets, s.shared.sent, s.local.cutoff, samples);
    }
  }

  ghost predicate IsFile(l: Local, f: seq<Packet>) {
    || (l.file.Open? && l.file.packets == f)
    || exists i :: 0 <= i < |l.log| && l.log[i].Finished? && l.log[i].manifest.packets == f
  }

  /** The packet a file holds for sample k is that sample. */
  lemma HeldPacketIsSample(c: Config, steps: seq<Step>, f: seq<Packet>, n: nat, k: nat)
    requires IsFile(JointRun(c, steps).recorder.local, f) && n < |f|
    requires k < |JointRun(c, steps).source.samples| && JointRun(c, steps).source.samples[k].Some?
    requires f[n].index == Rank(JointRun(c, steps).source.samples, k)
    ensures V.Packet(f[n].pts, f[n].key) == JointRun(c, steps).source.samples[k].value
  {
    var events := RecorderRuns(c, steps);
    EveryJointRunFeeds(c, steps);
    EveryRunKeepsInv(c, events);
    var s := Run(c, events);
    if !(s.local.file.Open? && s.local.file.packets == f) {
      var i :| 0 <= i < |s.local.log| && s.local.log[i].Finished? && s.local.log[i].manifest.packets == f;
      assert RecordOk(c, s.local.log[i], s.shared.sent, s.shared.raised);
    }
    UsableAtRank(JointRun(c, steps).source.samples, k);
  }

  // ----- a file that lacks a sample -----

  lemma JointExtend(c: Config, steps: seq<Step>, e: Step)
    ensures JointRun(c, steps + [e]) == JointNext(c, JointRun(c, steps), e)
  {
    assert (steps + [e])[..|steps|] == steps;
  }

  /** One usable sample, encoded and taken by run(). */
  lemma EncodeAndTake(c: Config, steps: seq<Step>, pts: nat, key: bool) returns (more: seq<Step>)
    requires var s := JointRun(c, steps).recorder;
             && s.shared.queue == Empty(QUEUE_CAPACITY).(high := s.shared.queue.high)
             && !s.done && s.shared.queue.high <= 1
    ensures
      var s, t := JointRun(c, steps).recorder, JointRun(c, more).recorder;
      var p := Packet(|s.shared.sent|, 1, pts, key, s.shared.gap);
      var until := s.shared.triggerUntil;
      && t.shared.queue == Empty(QUEUE_CAPACITY).(high := t.shared.queue.high) && t.shared.queue.high <= 1
      && !t.done && !t.shared.gap && t.shared.resetPts == s.shared.resetPts && t.shared.triggerUntil == until
      && t.shared.sent == s.shared.sent + [p]
      && t.local == Body(c, s.local, Some(p), Loads(s.shared.resetPts, until, until, false, until), Quiet())
      && JointRun(c, more).source.samples == JointRun(c, steps).source.samples + [Some(V.Packet(pts, key))]
  {
    var events := RecorderRuns(c, steps);
    var s := JointRun(c, steps).recorder;
    var events', t := SubmitAndTake(c, events, s, 1, pts, key);
    var encoded := Outside(Encoded(Some(V.Packet(pts, key)), 1, 0, true));
    var pass := Pass(Quiet(), [], [], [], []);
    JointExtend(c, steps, encoded);
    JointExtend(c, steps + [encoded], pass);
    more := steps + [encoded] + [pass];
    assert EnvOf(pass) == Quiet();
    var call := Submit(1, pts, key);
    assert [call][1..] == [] && Others(c, s.shared, [call]) == Recorder.Outside(c, s.shared, call);
    assert JointRun(c, more).recorder == t;
  }

  /** A file is opened by a keyframe. */
  lemma FileStarts() returns (steps: seq<Step>)
    ensures
      var j := JointRun(Config(0, 10), steps);
      var p := Packet(0, 1, 95, true, false);
      && j.recorder.shared.queue == Empty(QUEUE_CAPACITY).(high := j.recorder.shared.queue.high)
      && j.recorder.shared.queue.high <= 1 && !j.recorder.done && !j.recorder.shared.gap
      && j.recorder.shared.resetPts == 0 && j.recorder.shared.triggerUntil == 110
      && j.recorder.shared.sent == [p] && j.recorder.local.file == Open([p], true) && j.recorder.local.cutoff == 0
      && j.source.samples == [Some(V.Packet(95, true))]
  {
    var c := Config(0, 10);
    var trigger := Outside(Triggered(100, 0));
    JointExtend(c, [], trigger);
    assert [] + [trigger] == [trigger];
    var shared := Recorder.Init().shared;
    assert [Trigger(100, 0)][1..] == [];
    assert Others(c, shared, [Trigger(100, 0)]) == Recorder.Outside(c, shared, Trigger(100, 0));
    steps := EncodeAndTake(c, [trigger], 95, true);
  }

  /** An event file, still open, that lacks the second of three samples: it could not be
      used, and the packet after it, a delta, was recorded all the same. */
  lemma FileLacksASample() returns (steps: seq<Step>)
    ensures
      var j := JointRun(Config(0, 10), steps);
      && j.recorder.local.file.Open? && |j.recorder.local.file.packets| == 2
      && !j.recorder.local.file.packets[1].key
      && |j.source.samples| == 3
      && Spans(j.recorder.local.file.packets, j.source.samples, 1)
      && !Holds(j.recorder.local.file.packets, j.source.samples, 1)
  {
    var c := Config(0, 10);
    var lost := Outside(Encoded(None, 0, 0, true));
    var before := FileStarts();
    JointExtend(c, before, lost);
    var s := JointRun(c, before).recorder;
    assert Others(c, s.shared, []) == s.shared;
    steps := EncodeAndTake(c, before + [lost], 96, false);
    var j := JointRun(c, steps);
    assert j.recorder.local.file == Open([Packet(0, 1, 95, true, false), Packet(1, 1, 96, false, false)], true);
    LostAtOne(j.source.samples, j.recorder.local.file.packets);
  }

  lemma LostAtOne(samples: seq<Option<V.Packet>>, f: seq<Packet>)
    requires |samples| == 3 && samples[0].Some? && samples[1].None?
    requires |f| == 2 && f[0].index == 0 && f[1].index == 1
    ensures Spans(f, samples, 1) && !Holds(f, samples, 1)
  {
    RankStep(samples, 0);
    RankStep(samples, 1);
  }
}
