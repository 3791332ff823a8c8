/** Live forwarding in media/VideoService.cpp: which encoded packets reach an RTSP source.
    Every callback holds rtsp_mutex_ for the part modelled here, so each is one step. */
module VideoService {
  import opened Queues

  const MAX_QUEUED: nat := 1048576

  /** One sample from the encoder; None stands for a sample that cannot be mapped or has no
      time stamp, which is dropped without trace. */
  datatype Packet = Packet(pts: nat, key: bool)

  /** A packet pushed to a live source: which source, the place of the packet among all
      samples, the stamp it was sent with, and whether the source took it. */
  datatype Offer = Offer(source: nat, index: nat, packet: Packet, outPts: int, ok: bool)

  /** rtsp_input_, waiting_key_ and rtsp_base_ (None is the clock's "no time"). The sources
      are numbered in order of configuration; `samples` and `offers` are history. */
  datatype State = State(
    input: Option<nat>, waiting: bool, base: Option<nat>, sources: nat,
    samples: seq<Option<Packet>>, offers: seq<Offer>)

  datatype Event =
    | Configure(found: bool)
    | Unprepare
    | Sample(packet: Option<Packet>, queued: nat, pushOk: bool)

  function Init(): State {
    State(None, true, Some(0), 0, [], [])
  }

  function Push(s: State, p: Packet, index: nat, pushOk: bool): State
    requires s.input.Some?
  {
    var base := if s.waiting && s.base.None? then p.pts else s.base.GetOr(0);
    s.(base := Some(base), waiting := !pushOk,
       offers := s.offers + [Offer(s.input.value, index, p, p.pts - base, pushOk)])
  }

  function Next(s: State, e: Event): State {
    match e
    case Configure(found) =>
      s.(input := if found then Some(s.sources) else None, sources := s.sources + 1, waiting := true, base := None)
    case Unprepare =>
      s.(input := None, waiting := true)
    case Sample(packet, queued, pushOk) =>
      var t := s.(samples := s.samples + [packet]);
      if packet.None? || s.input.None? then t
      else if queued > MAX_QUEUED then t.(waiting := true)
      else if s.waiting && !packet.value.key then t
      else Push(t, packet.value, |s.samples|, pushOk)
  }

  function Run(events: seq<Event>): State
    decreases |events|
  {
    if events == [] then Init() else Next(Run(events[..|events| - 1]), events[|events| - 1])
  }

  // ----- invariants -----

  /** Nothing usable was lost between two positions. */
  ghost predicate OnlyUnusable(samples: seq<Option<Packet>>, from: nat, to: nat)
    requires to <= |samples|
  {
    forall k :: from < k < to ==> samples[k].None?
  }

  /** A delta packet may only continue what the same source just took. */
  ghost predicate Continues(s: State, j: nat)
    requires j < |s.offers|
  {
    var o := s.offers[j];
    && o.index < |s.samples| && s.samples[o.index] == Some(o.packet)
    && (j > 0 ==> s.offers[j - 1].index < o.index && s.offers[j - 1].source <= o.source)
    && (!o.packet.key ==>
          && j > 0
          && s.offers[j - 1].source == o.source && s.offers[j - 1].ok
          && OnlyUnusable(s.samples, s.offers[j - 1].index, o.index))
  }

  /** Two packets of one source keep their distance in time; its first is a key sent at 0. */
  ghost predicate Rebased(s: State, j: nat)
    requires j < |s.offers|
  {
    var o := s.offers[j];
    if j > 0 && s.offers[j - 1].source == o.source
    then o.packet.pts - o.outPts == s.offers[j - 1].packet.pts - s.offers[j - 1].outPts
    else o.packet.key && o.outPts == 0
  }

  function Last(s: State): Offer
    requires s.offers != []
  {
    s.offers[|s.offers| - 1]
  }

  ghost predicate Inv(s: State) {
    && (forall j :: 0 <= j < |s.offers| ==> Continues(s, j))
    && (forall j :: 0 <= j < |s.offers| ==> Rebased(s, j))
    && (s.offers != [] ==> Last(s).index < |s.samples| && Last(s).source < s.sources)
    && (s.input.Some? ==>
          && s.input.value < s.sources
          && (s.offers != [] ==> Last(s).source <= s.input.value)
          && (s.base.None? ==> s.offers == [] || Last(s).source < s.input.value)
          && (s.base.Some? ==> s.offers != [] && Last(s).source == s.input.value
                               && s.base.value == Last(s).packet.pts - Last(s).outPts))
    && (!s.waiting ==>
          && s.input.Some? && s.base.Some?
          && Last(s).ok && OnlyUnusable(s.samples, Last(s).index, |s.samples|))
  }

  /** What was offered before stays justified. */
  lemma OffersStay(s: State, t: State)
    requires Inv(s) && s.samples <= t.samples && s.offers <= t.offers
    ensures forall j :: 0 <= j < |s.offers| ==> Continues(t, j) && Rebased(t, j)
  {
    forall j | 0 <= j < |s.offers| ensures Continues(t, j) && Rebased(t, j) {
      assert Continues(s, j) && Rebased(s, j);
    }
  }

  lemma PushKeepsInv(s: State, p: Packet, pushOk: bool)
    requires Inv(s) && s.input.Some? && (p.key || !s.waiting)
    ensures Inv(Push(s.(samples := s.samples + [Some(p)]), p, |s.samples|, pushOk))
  {
    var t := Push(s.(samples := s.samples + [Some(p)]), p, |s.samples|, pushOk);
    OffersStay(s, t);
  }

  lemma NextKeepsInv(s: State, e: Event)
    requires Inv(s)
    ensures Inv(Next(s, e))
  {
    match e
    case Configure(_) => OffersStay(s, Next(s, e));
    case Unprepare => OffersStay(s, Next(s, e));
    case Sample(packet, queued, pushOk) =>
      if packet.Some? && s.input.Some? && queued <= MAX_QUEUED && (packet.value.key || !s.waiting) {
        PushKeepsInv(s, packet.value, pushOk);
      } else {
        OffersStay(s, Next(s, e));
      }
  }

  lemma {:induction false} EveryRunKeepsInv(events: seq<Event>)
    ensures Inv(Run(events))
    decreases |events|
  {
    if events != [] {
      EveryRunKeepsInv(events[..|events| - 1]);
      NextKeepsInv(Run(events[..|events| - 1]), events[|events| - 1]);
    }
  }

  // ----- the promises -----

  /** Over every run of configurations, teardowns, overflows and failed pushes: a delta
      packet is offered to a source only right after a packet that same source took, with
      nothing but unusable samples in between; hence directly after it in encoder order if
      and only if no unusable sample came between. */
  lemma DeltasContinueWhatWasTaken(events: seq<Event>, j: nat)
    requires j < |Run(events).offers| && !Run(events).offers[j].packet.key
    ensures
      var s := Run(events);
      && j > 0
      && var p, o := s.offers[j - 1], s.offers[j];
         && p.source == o.source && p.ok
         && p.index < o.index <= |s.samples|
         && OnlyUnusable(s.samples, p.index, o.index)
         && (o.index == p.index + 1 <==> forall k :: p.index < k < o.index ==> s.samples[k].Some?)
  {
    EveryRunKeepsInv(events);
    assert Continues(Run(events), j);
    var p, o := Run(events).offers[j - 1], Run(events).offers[j];
    if o.index != p.index + 1 {
      assert Run(events).samples[p.index + 1].None?;
    }
  }

  /** The first packet a source is offered is a keyframe, sent with time 0. */
  lemma SourcesStartWithKey(events: seq<Event>, j: nat)
    requires j < |Run(events).offers|
    requires forall i :: 0 <= i < j ==> Run(events).offers[i].source != Run(events).offers[j].source
    ensures Run(events).offers[j].packet.key && Run(events).offers[j].outPts == 0
  {
    EveryRunKeepsInv(events);
    assert Rebased(Run(events), j);
  }

  ghost predicate Ordered(samples: seq<Option<Packet>>) {
    forall i, j :: 0 <= i < j < |samples| && samples[i].Some? && samples[j].Some? ==>
      samples[i].value.pts <= samples[j].value.pts
  }

  /** All packets of one source are shifted by the same amount, and when the encoder stamps
      in order the shifted stamps never go below zero or backwards. */
  lemma {:induction false} ShiftIsConstant(events: seq<Event>, i: nat, j: nat)
    requires i <= j < |Run(events).offers|
    requires Run(events).offers[i].source == Run(events).offers[j].source
    ensures
      var a, b := Run(events).offers[i], Run(events).offers[j];
      && a.packet.pts - a.outPts == b.packet.pts - b.outPts
      && (Ordered(Run(events).samples) ==> 0 <= a.outPts <= b.outPts)
    decreases j
  {
    var s := Run(events);
    EveryRunKeepsInv(events);
    assert Continues(s, j) && Rebased(s, j);
    if i < j {
      SourceBetween(s, i, j);
      ShiftIsConstant(events, i, j - 1);
      assert Continues(s, j - 1);
    } else if j > 0 && s.offers[j - 1].source == s.offers[j].source {
      ShiftIsConstant(events, j - 1, j - 1);
      assert Continues(s, j - 1);
    }
  }

  lemma {:induction false} SourceBetween(s: State, i: nat, j: nat)
    requires Inv(s) && i < j < |s.offers| && s.offers[i].source == s.offers[j].source
    ensures s.offers[j - 1].source == s.offers[j].source
  {
    var k := i;
    while k < j - 1
      invariant i <= k < j && s.offers[i].source <= s.offers[k].source
    {
      k := k + 1;
      assert Continues(s, k);
    }
    assert Continues(s, j);
  }

  /** A sample lost before the forwarding code sees it is the one way a source is handed a
      delta packet whose reference it never got. */
  lemma LostSampleBreaksTheStream() returns (events: seq<Event>)
    ensures
      var s := Run(events);
      |s.offers| == 2 && !s.offers[1].packet.key && s.offers[1].index == s.offers[0].index + 2
  {
    var e0, e1 := Configure(true), Sample(Some(Packet(0, true)), 0, true);
    var e2, e3 := Sample(None, 0, true), Sample(Some(Packet(2, false)), 0, true);
    events := [e0, e1, e2, e3];
    assert events[..3] == [e0, e1, e2] && [e0, e1, e2][..2] == [e0, e1];
    assert [e0, e1][..1] == [e0] && [e0][..0] == [];
    assert Run([e0]) == Next(Run([]), e0);
    assert Run([e0, e1]) == Next(Run([e0]), e1);
    assert Run([e0, e1, e2]) == Next(Run([e0, e1]), e2);
  }

  lemma RunAppend(events: seq<Event>, e: Event)
    ensures Run(events + [e]) == Next(Run(events), e)
  {
    assert (events + [e])[..|events|] == events;
  }

  // ----- when a sample is offered -----

  /** By the events alone: the last configuration found a source and no teardown followed. */
  ghost predicate Connected(events: seq<Event>) {
    exists k :: 0 <= k < |events| && events[k] == Configure(true) && OnlySamples(events, k + 1)
  }

  ghost predicate OnlySamples(events: seq<Event>, from: nat) {
    forall j :: from <= j < |events| ==> events[j].Sample?
  }

  /** By the events alone: a keyframe was taken by the source connected now, and no usable
      sample after it met an overfull source or a failed push. */
  ghost predicate Flowing(events: seq<Event>) {
    exists k :: 0 <= k < |events|
      && Connected(events[..k])
      && events[k].Sample? && events[k].packet.Some? && events[k].packet.value.key && Accepted(events[k])
      && Undisturbed(events, k + 1)
  }

  predicate Accepted(e: Event) {
    e.Sample? && e.queued <= 1048576 && e.pushOk
  }

  ghost predicate Undisturbed(events: seq<Event>, from: nat) {
    forall j :: from <= j < |events| ==> events[j].Sample? && (events[j].packet.None? || Accepted(events[j]))
  }

  lemma ConnectedAppend(events: seq<Event>, e: Event)
    ensures Connected(events + [e]) <==> e == Configure(true) || (e.Sample? && Connected(events))
  {
    var all := events + [e];
    if Connected(all) {
      var k :| 0 <= k < |all| && all[k] == Configure(true) && OnlySamples(all, k + 1);
      if k < |events| {
        assert all[|events|] == e;
        assert forall j :: k + 1 <= j < |events| ==> events[j] == all[j];
      }
    }
    if e == Configure(true) {
      assert all[|events|] == e && OnlySamples(all, |events| + 1);
    }
    if e.Sample? && Connected(events) {
      var k :| 0 <= k < |events| && events[k] == Configure(true) && OnlySamples(events, k + 1);
      assert all[k] == Configure(true) && OnlySamples(all, k + 1);
    }
  }

  /** Flowing after one more event: this event starts it or leaves it undisturbed. */
  ghost predicate StillFlowing(events: seq<Event>, e: Event) {
    && e.Sample?
    && (e.packet.None? || Accepted(e))
    && (Flowing(events) || (Connected(events) && e.packet.Some? && e.packet.value.key))
  }

  lemma FlowingEndsSo(events: seq<Event>, e: Event)
    requires Flowing(events + [e])
    ensures StillFlowing(events, e)
  {
    var all := events + [e];
    var k :| 0 <= k < |all| && Connected(all[..k])
      && all[k].Sample? && all[k].packet.Some? && all[k].packet.value.key && Accepted(all[k])
      && Undisturbed(all, k + 1);
    if k < |events| {
      assert all[|events|] == e && all[..k] == events[..k];
      assert forall j :: k + 1 <= j < |events| ==> events[j] == all[j];
    } else {
      assert all[..k] == events;
    }
  }

  lemma FlowingGoesOn(events: seq<Event>, e: Event)
    requires StillFlowing(events, e)
    ensures Flowing(events + [e])
  {
    var all := events + [e];
    if Flowing(events) {
      var k :| 0 <= k < |events| && Connected(events[..k])
        && events[k].Sample? && events[k].packet.Some? && events[k].packet.value.key && Accepted(events[k])
        && Undisturbed(events, k + 1);
      assert all[..k] == events[..k] && all[k] == events[k] && Undisturbed(all, k + 1);
    } else {
      var k := |events|;
      assert all[..k] == events && all[k] == e && Undisturbed(all, k + 1);
    }
  }

  lemma FlowingIsConnected(events: seq<Event>)
    requires Flowing(events)
    ensures Connected(events)
  {
    var k :| 0 <= k < |events| && Connected(events[..k]) && events[k].Sample? && Undisturbed(events, k + 1);
    var c :| 0 <= c < k && events[..k][c] == Configure(true) && OnlySamples(events[..k], c + 1);
    assert events[c] == Configure(true);
    OnlySamplesJoin(events, c + 1, k);
  }

  lemma OnlySamplesJoin(events: seq<Event>, from: nat, k: nat)
    requires from <= k < |events| && events[k].Sample?
    requires OnlySamples(events[..k], from) && Undisturbed(events, k + 1)
    ensures OnlySamples(events, from)
  {
    forall j | from <= j < k ensures events[j].Sample? {
      assert events[j] == events[..k][j];
    }
  }

  /** Over every run the two members of the object that decide are what the events say. */
  lemma {:induction false} MembersFollowEvents(events: seq<Event>)
    ensures Run(events).input.Some? <==> Connected(events)
    ensures !Run(events).waiting <==> Flowing(events)
    decreases |events|
  {
    if events != [] {
      var before, e := events[..|events| - 1], events[|events| - 1];
      assert events == before + [e];
      MembersFollowEvents(before);
      RunAppend(before, e);
      ConnectedAppend(before, e);
      if Flowing(before) { FlowingIsConnected(before); }
      if Flowing(events) { FlowingEndsSo(before, e); }
      if StillFlowing(before, e) { FlowingGoesOn(before, e); }
    }
  }

  /** Over every run: a sample is offered if and only if it is usable, a source is connected
      and holds at most 1048576 bytes, and it is a keyframe or the stream is flowing; then it
      is offered once, as it is; and nothing but a sample makes an offer. */
  lemma OfferedExactlyWhen(events: seq<Event>, e: Event)
    ensures
      var s, t := Run(events), Run(events + [e]);
      if e.Sample? && e.packet.Some? && Connected(events) && e.queued <= 1048576 && (e.packet.value.key || Flowing(events))
      then
        && |t.offers| == |s.offers| + 1 && s.offers <= t.offers
        && Last(t).packet == e.packet.value && Last(t).ok == e.pushOk && Last(t).index == |s.samples|
      else t.offers == s.offers
  {
    MembersFollowEvents(events);
    RunAppend(events, e);
  }

  /** After a teardown, or a configuration that found no source, nothing is offered until a
      configuration finds one. */
  lemma {:induction false} NothingIsOfferedUnprepared(events: seq<Event>, e: Event, more: seq<Event>)
    requires e == Unprepare || e == Configure(false)
    requires Configure(true) !in more
    ensures Run(events + [e] + more).offers == Run(events).offers
    ensures !Connected(events + [e] + more)
    decreases |more|
  {
    if more == [] {
      assert events + [e] + more == events + [e];
      OfferedExactlyWhen(events, e);
      ConnectedAppend(events, e);
    } else {
      var less, x := more[..|more| - 1], more[|more| - 1];
      assert events + [e] + more == events + [e] + less + [x];
      NothingIsOfferedUnprepared(events, e, less);
      OfferedExactlyWhen(events + [e] + less, x);
      ConnectedAppend(events + [e] + less, x);
    }
  }

  /** The object of media/VideoService.cpp. Whatever callbacks it gets, its state is that of a
      run, so the promises above hold of its offers. */
  class VideoService {
    var rtspInput: Option<nat>
    var waitingKey: bool
    var rtspBase: Option<nat>
    var sources: nat
    var samples: seq<Option<Packet>>
    var offers: seq<Offer>
    ghost var history: seq<Event>

    ghost function Abs(): State
      reads this
    {
      State(rtspInput, waitingKey, rtspBase, sources, samples, offers)
    }

    ghost predicate Valid()
      reads this
    {
      Abs() == Run(history) && Inv(Abs())
    }

    constructor ()
      ensures Valid() && history == []
    {
      rtspInput, waitingKey, rtspBase, sources, samples, offers, history := None, true, Some(0), 0, [], [], [];
    }

    ghost method Happened(e: Event)
      requires Abs() == Next(Run(history), e)
      modifies `history
      ensures Valid() && history == old(history) + [e]
    {
      RunAppend(history, e);
      history := history + [e];
      EveryRunKeepsInv(history);
    }

    method ConfigureMedia(found: bool)
      requires Valid()
      modifies this
      ensures Valid() && history == old(history) + [Configure(found)]
    {
      rtspInput := if found then Some(sources) else None;
      sources := sources + 1;
      waitingKey := true;
      rtspBase := None;
      Happened(Configure(found));
    }

    method UnprepareMedia()
      requires Valid()
      modifies this
      ensures Valid() && history == old(history) + [Unprepare]
    {
      if rtspInput.Some? { rtspInput := None; }
      waitingKey := true;
      Happened(Unprepare);
    }

    method OnPacket(packet: Option<Packet>, queued: nat, pushOk: bool)
      requires Valid()
      modifies this
      ensures Valid() && history == old(history) + [Sample(packet, queued, pushOk)]
    {
      var index := |samples|;
      samples := samples + [packet];
      if packet.Some? && rtspInput.Some? {
        Forward(packet.value, index, queued, pushOk);
      }
      Happened(Sample(packet, queued, pushOk));
    }

    /** The part under rtsp_mutex_, once there is a source. */
    method Forward(p: Packet, index: nat, queued: nat, pushOk: bool)
      requires rtspInput.Some? && (waitingKey || rtspBase.Some?)
      modifies `waitingKey, `rtspBase, `offers
      ensures
        var s := old(Abs());
        Abs() == if queued > MAX_QUEUED then s.(waiting := true)
                 else if s.waiting && !p.key then s
                 else Push(s, p, index, pushOk)
    {
      if queued > MAX_QUEUED {
        waitingKey := true;
        return;
      }
      if waitingKey && !p.key { return; }
      if waitingKey {
        waitingKey := false;
        if rtspBase.None? { rtspBase := Some(p.pts); }
      }
      offers := offers + [Offer(rtspInput.value, index, p, p.pts - rtspBase.value, pushOk)];
      if !pushOk { waitingKey := true; }
    }
  }
}
