/** Safety of the generation protocol over every interleaving. */
module PipelineProofs {
  import opened Queues
  import opened Pipeline

  /** Epochs in the log never fall, and every increment is a strict one. */
  ghost predicate EpochsOk(log: seq<Note>, epoch: nat) {
    && (forall i :: 0 <= i < |log| ==> log[i].epoch <= epoch)
    && (forall i, j :: 0 <= i < j < |log| ==> log[i].epoch <= log[j].epoch)
    && (forall i, j :: 0 <= i < j < |log| && log[j].Bump? ==> log[i].epoch < log[j].epoch)
  }

  /** No epoch increment at places a .. b - 1 of the log. */
  ghost predicate NoBump(log: seq<Note>, a: nat, b: nat)
    requires b <= |log|
  {
    forall m :: a <= m < b ==> !log[m].Bump?
  }

  // ----- frames -----

  /** A frame carries the epoch of the moment it was tagged, and a used sequence number. */
  ghost predicate FrameOk(f: Frame, log: seq<Note>, sequence: nat) {
    && f.tagged < |log| && log[f.tagged] == Tag(f.generation)
    && 1 <= f.sequence <= sequence
  }

  predicate InHand(i: Inference) {
    i.Popped? || i.Admitted? || i.Judged?
  }

  predicate Held(c: Capture) {
    c.Stored? || c.Offering?
  }

  ghost predicate AllOk(fs: seq<Frame>, log: seq<Note>, sequence: nat) {
    forall i :: 0 <= i < |fs| ==> FrameOk(fs[i], log, sequence)
  }

  ghost predicate PopsOk(pops: seq<Pop>, log: seq<Note>, sequence: nat) {
    forall i :: 0 <= i < |pops| ==> FrameOk(pops[i].frame, log, sequence)
  }

  ghost predicate CaptureOk(k: Capture, log: seq<Note>, sequence: nat) {
    && (k.Tagged? ==> k.at < |log| && log[k.at] == Tag(k.generation))
    && (Held(k) ==> FrameOk(k.frame, log, sequence))
  }

  ghost predicate InferenceOk(i: Inference, log: seq<Note>, sequence: nat) {
    InHand(i) || i.Disabling? ==> FrameOk(i.frame, log, sequence)
  }

  ghost predicate FramesOk(s: State) {
    && CaptureOk(s.camera.phase, s.past.log, s.camera.sequence)
    && AllOk(s.queue.items, s.past.log, s.camera.sequence)
    && InferenceOk(s.worker.phase, s.past.log, s.camera.sequence)
    && PopsOk(s.past.pops, s.past.log, s.camera.sequence)
  }

  /** A step writes at most one note and never takes back a sequence number. */
  ghost predicate Grows(s: State, t: State) {
    && s.camera.sequence <= t.camera.sequence
    && ((t.past.log == s.past.log && t.epoch == s.epoch)
        || (|t.past.log| == |s.past.log| + 1 && t.past.log == s.past.log + [t.past.log[|s.past.log|]]
            && t.past.log[|s.past.log|].epoch == t.epoch
            && t.epoch == s.epoch + if t.past.log[|s.past.log|].Bump? then 1 else 0))
  }

  lemma CaptureGrows(s: State, e: CaptureStep)
    requires CaptureCan(s, e) && s.queue.Wf()
    ensures Grows(s, CaptureNext(s, e))
  {
  }

  lemma InferenceGrows(c: Config, s: State, e: InferenceStep)
    requires InferenceCan(s, e)
    ensures Grows(s, InferenceNext(c, s, e))
  {
  }

  lemma ControlGrows(s: State, e: ControlStep)
    requires ControlCan(s, e)
    ensures Grows(s, ControlNext(s, e))
  {
  }

  lemma StepGrows(c: Config, s: State, e: Step)
    requires Enabled(s, e) && s.queue.Wf()
    ensures Grows(s, Next(c, s, e))
  {
    match e
    case ByCapture(k) => CaptureGrows(s, k);
    case ByInference(i) => InferenceGrows(c, s, i);
    case ByControl(k) => ControlGrows(s, k);
  }

  lemma EpochsGrow(s: State, t: State)
    requires EpochsOk(s.past.log, s.epoch) && Grows(s, t)
    ensures EpochsOk(t.past.log, t.epoch)
  {
  }

  /** What a thread leaves alone stays well tagged as the log grows. */
  lemma FramesGrow(s: State, log: seq<Note>, sequence: nat)
    requires FramesOk(s) && s.past.log <= log && s.camera.sequence <= sequence
    ensures CaptureOk(s.camera.phase, log, sequence) && AllOk(s.queue.items, log, sequence)
    ensures InferenceOk(s.worker.phase, log, sequence) && PopsOk(s.past.pops, log, sequence)
  {
  }

  lemma CaptureKeepsFrames(s: State, e: CaptureStep)
    requires CaptureCan(s, e) && s.queue.Wf() && FramesOk(s)
    ensures FramesOk(CaptureNext(s, e))
  {
    var t := CaptureNext(s, e);
    FramesGrow(s, t.past.log, t.camera.sequence);
    assert CaptureOk(t.camera.phase, t.past.log, t.camera.sequence);
    assert AllOk(t.queue.items, t.past.log, t.camera.sequence);
    assert t.worker.phase == s.worker.phase && t.past.pops == s.past.pops;
  }

  lemma InferenceKeepsFrames(c: Config, s: State, e: InferenceStep)
    requires InferenceCan(s, e) && FramesOk(s)
    ensures FramesOk(InferenceNext(c, s, e))
  {
    var t := InferenceNext(c, s, e);
    FramesGrow(s, t.past.log, t.camera.sequence);
    assert t.camera.phase == s.camera.phase;
    assert AllOk(t.queue.items, t.past.log, t.camera.sequence);
    assert InferenceOk(t.worker.phase, t.past.log, t.camera.sequence);
    assert PopsOk(t.past.pops, t.past.log, t.camera.sequence);
  }

  lemma ControlKeepsFrames(s: State, e: ControlStep)
    requires ControlCan(s, e) && FramesOk(s)
    ensures FramesOk(ControlNext(s, e))
  {
    var t := ControlNext(s, e);
    FramesGrow(s, t.past.log, t.camera.sequence);
    assert AllOk(t.queue.items, t.past.log, t.camera.sequence);
  }

  lemma NextKeepsFrames(c: Config, s: State, e: Step)
    requires Enabled(s, e) && s.queue.Wf() && FramesOk(s)
    ensures FramesOk(Next(c, s, e))
  {
    match e
    case ByCapture(k) => CaptureKeepsFrames(s, k);
    case ByInference(i) => InferenceKeepsFrames(c, s, i);
    case ByControl(k) => ControlKeepsFrames(s, k);
  }

  // ----- order -----

  /** The newest frame inference has seen. */
  function Top(i: Inference, pops: seq<Pop>): nat {
    if InHand(i) then i.frame.sequence
    else if pops == [] then 0
    else pops[|pops| - 1].frame.sequence
  }

  /** The newest frame that may already be in the queue. */
  function Offered(s: State): int {
    if Held(s.camera.phase) then s.camera.sequence - 1 else s.camera.sequence
  }

  ghost predicate Rising(items: seq<Frame>, lo: int, hi: int) {
    && lo <= hi
    && (forall i :: 0 <= i < |items| ==> lo < items[i].sequence <= hi)
    && (forall i, j :: 0 <= i < j < |items| ==> items[i].sequence < items[j].sequence)
  }

  ghost predicate PopsRise(i: Inference, pops: seq<Pop>) {
    && (forall i, j :: 0 <= i < j < |pops| ==> pops[i].frame.sequence < pops[j].frame.sequence)
    && (InHand(i) ==> forall k :: 0 <= k < |pops| ==> pops[k].frame.sequence < i.frame.sequence)
  }

  /** Frames move through the pipeline in capture order and inference sees each at most once. */
  ghost predicate OrderOk(s: State) {
    && Rising(s.queue.items, Top(s.worker.phase, s.past.pops), Offered(s))
    && (Held(s.camera.phase) ==> s.camera.phase.frame.sequence == s.camera.sequence)
    && PopsRise(s.worker.phase, s.past.pops)
  }

  lemma PushRises(q: Queue<Frame>, f: Frame, lo: int)
    requires q.Wf() && Rising(q.items, lo, f.sequence - 1)
    ensures Rising(q.PushLatest(f).items, lo, f.sequence)
  {
  }

  lemma OfferKeepsOrder(s: State)
    requires CaptureCan(s, OfferFrame) && s.queue.Wf() && OrderOk(s)
    ensures OrderOk(CaptureNext(s, OfferFrame))
  {
    PushRises(s.queue, s.camera.phase.frame, Top(s.worker.phase, s.past.pops));
  }

  lemma CaptureKeepsOrder(s: State, e: CaptureStep)
    requires CaptureCan(s, e) && s.queue.Wf() && OrderOk(s)
    ensures OrderOk(CaptureNext(s, e))
  {
    if e.OfferFrame? {
      OfferKeepsOrder(s);
    } else {
      var t := CaptureNext(s, e);
      assert t.worker.phase == s.worker.phase && t.past.pops == s.past.pops;
      assert t.queue.items == s.queue.items || t.queue.items == [];
      assert Offered(s) <= Offered(t);
    }
  }

  lemma PopKeepsOrder(c: Config, s: State)
    requires InferenceCan(s, PopFrame) && OrderOk(s)
    ensures OrderOk(InferenceNext(c, s, PopFrame))
  {
    var t := InferenceNext(c, s, PopFrame);
    var f := t.worker.phase.frame;
    assert Top(s.worker.phase, s.past.pops) < f.sequence <= Offered(s);
    forall k | 0 <= k < |s.past.pops| ensures s.past.pops[k].frame.sequence < f.sequence {
      assert s.past.pops[k].frame.sequence <= s.past.pops[|s.past.pops| - 1].frame.sequence;
    }
  }

  /** What the other inference steps do to the order of frames: nothing, or move the frame
      in hand to the list of pops, and perhaps empty the queue. */
  lemma InferenceMoves(c: Config, s: State, e: InferenceStep)
    requires InferenceCan(s, e) && !e.PopFrame?
    ensures
      var t := InferenceNext(c, s, e);
      && t.camera.phase == s.camera.phase && t.camera.sequence == s.camera.sequence
      && (t.queue.items == s.queue.items || t.queue.items == [])
      && ((t.past.pops == s.past.pops && InHand(t.worker.phase) == InHand(s.worker.phase)
           && (InHand(t.worker.phase) ==> t.worker.phase.frame == s.worker.phase.frame))
          || (InHand(s.worker.phase) && !InHand(t.worker.phase)
              && |t.past.pops| == |s.past.pops| + 1 && t.past.pops == s.past.pops + [t.past.pops[|s.past.pops|]]
              && t.past.pops[|s.past.pops|].frame == s.worker.phase.frame))
  {
  }

  lemma InferenceKeepsOrder(c: Config, s: State, e: InferenceStep)
    requires InferenceCan(s, e) && OrderOk(s)
    ensures OrderOk(InferenceNext(c, s, e))
  {
    if e.PopFrame? {
      PopKeepsOrder(c, s);
    } else {
      InferenceMoves(c, s, e);
      MovesKeepOrder(s, InferenceNext(c, s, e));
    }
  }

  lemma MovesKeepOrder(s: State, t: State)
    requires OrderOk(s) && t.camera.phase == s.camera.phase && t.camera.sequence == s.camera.sequence
    requires t.queue.items == s.queue.items || t.queue.items == []
    requires (t.past.pops == s.past.pops && InHand(t.worker.phase) == InHand(s.worker.phase)
               && (InHand(t.worker.phase) ==> t.worker.phase.frame == s.worker.phase.frame))
             || (InHand(s.worker.phase) && !InHand(t.worker.phase)
                 && |t.past.pops| == |s.past.pops| + 1 && t.past.pops == s.past.pops + [t.past.pops[|s.past.pops|]]
                 && t.past.pops[|s.past.pops|].frame == s.worker.phase.frame)
    ensures OrderOk(t)
  {
    assert Top(t.worker.phase, t.past.pops) == Top(s.worker.phase, s.past.pops);
    assert PopsRise(t.worker.phase, t.past.pops);
  }

  lemma ControlKeepsOrder(s: State, e: ControlStep)
    requires ControlCan(s, e) && OrderOk(s)
    ensures OrderOk(ControlNext(s, e))
  {
    var t := ControlNext(s, e);
    assert t.worker.phase == s.worker.phase && t.past.pops == s.past.pops;
    assert t.queue.items == s.queue.items || t.queue.items == [];
  }

  // ----- the published detection -----

  /** The published frame, its number and its detections are one triple; it is of the
      current epoch, or of the last one when inference has switched itself off. */
  ghost predicate TripleOk(s: State) {
    && (s.view.frame.None? <==> s.view.number == 0)
    && (s.view.frame.None? <==> s.view.detections.Nothing?)
    && (s.view.frame.Some? ==>
          var f := s.view.frame.value;
          && f.sequence == s.view.number && s.view.detections == Of(f.sequence)
          && (f.generation == s.epoch || (f.generation + 1 == s.epoch && !s.enabled)))
  }

  /** A frame that was admitted keeps the flag on for as long as the epoch stands. */
  ghost predicate AdmittedOk(s: State) {
    && (s.worker.phase.Admitted? || s.worker.phase.Judged? || s.worker.phase.Disabling? ==>
          s.worker.phase.frame.generation == s.epoch ==> s.enabled)
    && (InHand(s.worker.phase) || s.worker.phase.Disabling? ==>
          s.worker.phase.frame.generation <= s.epoch && 1 <= s.worker.phase.frame.sequence)
  }

  /** A result shown beyond its generation outlived a self-disable, the increment that made
      the current epoch. */
  ghost predicate OutlivedOk(s: State) {
    s.view.frame.Some? && s.view.frame.value.generation != s.epoch ==> Bump(s.epoch, true) in s.past.log
  }

  ghost predicate DetectionOk(s: State) {
    TripleOk(s) && AdmittedOk(s) && OutlivedOk(s)
  }

  lemma GenerationsAreOld(s: State)
    requires FramesOk(s) && EpochsOk(s.past.log, s.epoch)
    ensures forall i :: 0 <= i < |s.queue.items| ==> s.queue.items[i].generation <= s.epoch && 1 <= s.queue.items[i].sequence
  {
    forall i | 0 <= i < |s.queue.items| ensures s.queue.items[i].generation <= s.epoch {
      assert FrameOk(s.queue.items[i], s.past.log, s.camera.sequence);
    }
  }

  lemma CaptureKeepsDetection(s: State, e: CaptureStep)
    requires CaptureCan(s, e) && s.queue.Wf() && DetectionOk(s)
    ensures DetectionOk(CaptureNext(s, e))
  {
  }

  lemma InferenceKeepsTriple(c: Config, s: State, e: InferenceStep)
    requires InferenceCan(s, e) && TripleOk(s) && AdmittedOk(s)
    ensures TripleOk(InferenceNext(c, s, e))
  {
  }

  lemma InferenceKeepsOutlived(c: Config, s: State, e: InferenceStep)
    requires InferenceCan(s, e) && TripleOk(s) && AdmittedOk(s) && OutlivedOk(s)
    ensures OutlivedOk(InferenceNext(c, s, e))
  {
    var t := InferenceNext(c, s, e);
    assert s.past.log <= t.past.log;
    if e.DisableSelf? && t.epoch != s.epoch {
      assert t.past.log[|s.past.log|] == Bump(t.epoch, true);
    }
  }

  lemma InferenceKeepsAdmitted(c: Config, s: State, e: InferenceStep)
    requires InferenceCan(s, e) && AdmittedOk(s)
    requires forall i :: 0 <= i < |s.queue.items| ==> s.queue.items[i].generation <= s.epoch && 1 <= s.queue.items[i].sequence
    ensures AdmittedOk(InferenceNext(c, s, e))
  {
  }

  lemma ControlKeepsDetection(s: State, e: ControlStep)
    requires ControlCan(s, e) && DetectionOk(s)
    ensures DetectionOk(ControlNext(s, e))
  {
  }

  // ----- confirmations -----

  predicate Counts(p: Pop, g: nat) {
    p.verdict == Published(true) && p.frame.generation == g
  }

  /** How many of the latest pops, without interruption, were published with a person in
      generation g. */
  function Streak(pops: seq<Pop>, g: nat): (n: nat)
    ensures n <= |pops|
  {
    if pops != [] && Counts(pops[|pops| - 1], g) then Streak(pops[..|pops| - 1], g) + 1 else 0
  }

  lemma {:induction false} StreakMeans(pops: seq<Pop>, g: nat, n: nat)
    ensures Streak(pops, g) >= n <==> n <= |pops| && forall j :: |pops| - n <= j < |pops| ==> Counts(pops[j], g)
    decreases n
  {
    if n > 0 && pops != [] {
      var less := pops[..|pops| - 1];
      StreakMeans(less, g, n - 1);
      if n <= |pops| && forall j :: |pops| - n <= j < |pops| ==> Counts(pops[j], g) {
        assert Counts(pops[|pops| - 1], g);
        assert forall j :: |less| - (n - 1) <= j < |less| ==> Counts(less[j], g);
      }
      if Streak(pops, g) >= n {
        forall j | |pops| - n <= j < |pops| ensures Counts(pops[j], g) {
          if j < |less| { assert Counts(less[j], g); }
        }
      }
    }
  }

  lemma StreakAppend(pops: seq<Pop>, p: Pop, g: nat)
    ensures Streak(pops + [p], g) == if Counts(p, g) then Streak(pops, g) + 1 else 0
  {
    assert (pops + [p])[..|pops|] == pops;
  }

  function Min(a: nat, b: nat): nat {
    if a < b then a else b
  }

  /** The counter is the streak of the current generation, capped at the threshold. */
  ghost predicate StreakOk(c: Config, s: State) {
    && (s.worker.generation.None? ==> s.worker.confirmed == 0 && s.past.pops == [] && !InHand(s.worker.phase))
    && (s.worker.generation.Some? ==> s.worker.confirmed == Min(c.confirm, Streak(s.past.pops, s.worker.generation.value)))
    && (InHand(s.worker.phase) ==> s.worker.generation == Some(s.worker.phase.frame.generation))
    && (!InHand(s.worker.phase) && s.past.pops != [] ==> s.worker.generation == Some(s.past.pops[|s.past.pops| - 1].frame.generation))
    && (!InHand(s.worker.phase) && s.past.pops == [] ==> s.worker.generation.None?)
  }

  lemma PopKeepsStreak(c: Config, s: State)
    requires InferenceCan(s, PopFrame) && StreakOk(c, s)
    ensures StreakOk(c, InferenceNext(c, s, PopFrame))
  {
  }

  lemma PublishKeepsStreak(c: Config, s: State, person: bool)
    requires ConfigOk(c) && InHand(s.worker.phase) && StreakOk(c, s)
    ensures StreakOk(c, Publish(c, s, s.worker.phase.frame, person))
  {
    StreakAppend(s.past.pops, Pop(s.worker.phase.frame, Published(person)), s.worker.phase.frame.generation);
  }

  lemma DiscardKeepsStreak(c: Config, s: State, t: State)
    requires InHand(s.worker.phase) && StreakOk(c, s) && !InHand(t.worker.phase)
    requires t.worker.confirmed == 0 && t.worker.generation == s.worker.generation && t.past.pops == s.past.pops + [Pop(s.worker.phase.frame, Dropped)]
    ensures StreakOk(c, t)
  {
    StreakAppend(s.past.pops, Pop(s.worker.phase.frame, Dropped), s.worker.phase.frame.generation);
  }

  lemma SameKeepsStreak(c: Config, s: State, t: State)
    requires StreakOk(c, s)
    requires t.worker.confirmed == s.worker.confirmed && t.past.pops == s.past.pops && t.worker.generation == s.worker.generation
    requires InHand(t.worker.phase) == InHand(s.worker.phase) && (InHand(t.worker.phase) ==> t.worker.phase.frame == s.worker.phase.frame)
    ensures StreakOk(c, t)
  {
  }

  ghost predicate Drops(s: State, t: State)
    requires InHand(s.worker.phase)
  {
    && !InHand(t.worker.phase) && t.worker.confirmed == 0 && t.worker.generation == s.worker.generation
    && t.past.pops == s.past.pops + [Pop(s.worker.phase.frame, Dropped)]
  }

  /** The steps that can end the handling of a frame: they drop it, admit it or publish it. */
  lemma ConcludingCases(c: Config, s: State, e: InferenceStep)
    requires InferenceCan(s, e)
    requires e.AdmitFrame? || e.PublishResult? || e.ExpireFrame? || e.Throw?
    ensures InHand(s.worker.phase)
    ensures
      var t := InferenceNext(c, s, e);
      || Drops(s, t)
      || t == s.(worker := s.worker.(phase := Admitted(s.worker.phase.frame)))
      || (s.worker.phase.Judged? && t == Publish(c, s, s.worker.phase.frame, s.worker.phase.person))
  {
  }

  lemma ConcludedKeepsStreak(c: Config, s: State, t: State)
    requires ConfigOk(c) && StreakOk(c, s) && InHand(s.worker.phase)
    requires || Drops(s, t)
             || t == s.(worker := s.worker.(phase := Admitted(s.worker.phase.frame)))
             || (s.worker.phase.Judged? && t == Publish(c, s, s.worker.phase.frame, s.worker.phase.person))
    ensures StreakOk(c, t)
  {
    if Drops(s, t) {
      DiscardKeepsStreak(c, s, t);
    } else if t == s.(worker := s.worker.(phase := Admitted(s.worker.phase.frame))) {
      SameKeepsStreak(c, s, t);
    } else {
      PublishKeepsStreak(c, s, s.worker.phase.person);
    }
  }

  lemma InferenceKeepsStreak(c: Config, s: State, e: InferenceStep)
    requires ConfigOk(c) && InferenceCan(s, e) && StreakOk(c, s)
    ensures StreakOk(c, InferenceNext(c, s, e))
  {
    if e.PopFrame? {
      PopKeepsStreak(c, s);
    } else if e.Infer? || e.DisableSelf? || e.ClearAfterErrors? {
      SameKeepsStreak(c, s, InferenceNext(c, s, e));
    } else {
      ConcludingCases(c, s, e);
      ConcludedKeepsStreak(c, s, InferenceNext(c, s, e));
    }
  }

  // ----- publications and triggers -----

  /** Pop j concluded before place `at` of the log was tagged in the epoch of that place. */
  ghost predicate Fresh(s: State, j: nat, at: nat)
    requires j < |s.past.pops| && at <= |s.past.log|
  {
    s.past.pops[j].verdict.Published? && NoBump(s.past.log, s.past.pops[j].frame.tagged, at)
  }

  /** What a publication noted at place i of the log stands for. */
  ghost predicate NoteOk(c: Config, s: State, i: nat)
    requires i < |s.past.log|
  {
    match s.past.log[i]
    case Publication(_, k, triggered) =>
      && 1 <= k <= |s.past.pops| && Fresh(s, k - 1, i)
      && var n := Streak(s.past.pops[..k], s.past.pops[k - 1].frame.generation);
         && (triggered <==> c.video && c.confirm <= n)
         && forall j :: k - n <= j < k ==> Fresh(s, j, i)
    case _ => true
  }

  ghost predicate NotesOk(c: Config, s: State) {
    forall i :: 0 <= i < |s.past.log| ==> NoteOk(c, s, i)
  }

  lemma NoteStaysOk(c: Config, s: State, t: State, i: nat)
    requires i < |s.past.log| && NoteOk(c, s, i) && s.past.log <= t.past.log && s.past.pops <= t.past.pops
    ensures NoteOk(c, t, i)
  {
    if s.past.log[i].Publication? {
      var k := s.past.log[i].pops;
      assert t.past.pops[..k] == s.past.pops[..k];
      assert Fresh(t, k - 1, i);
      var n := Streak(s.past.pops[..k], s.past.pops[k - 1].frame.generation);
      forall j | k - n <= j < k ensures Fresh(t, j, i) {
        assert Fresh(s, j, i);
        assert t.past.pops[j] == s.past.pops[j];
      }
    }
  }

  /** Frames of the current epoch were tagged after its last increment. */
  lemma CurrentIsFresh(s: State, t: State, j: nat)
    requires EpochsOk(s.past.log, s.epoch) && s.past.log <= t.past.log && j < |t.past.pops| && t.past.pops[j].verdict.Published?
    requires FrameOk(t.past.pops[j].frame, s.past.log, s.camera.sequence) && t.past.pops[j].frame.generation == s.epoch
    ensures Fresh(t, j, |s.past.log|)
  {
  }

  lemma PublicationIsFresh(c: Config, s: State, f: Frame, person: bool)
    requires ConfigOk(c) && FramesOk(s) && EpochsOk(s.past.log, s.epoch) && StreakOk(c, s)
    requires InHand(s.worker.phase) && f == s.worker.phase.frame && f.generation == s.epoch
    ensures NoteOk(c, Publish(c, s, f, person), |s.past.log|)
  {
    var t := Publish(c, s, f, person);
    var k := |t.past.pops|;
    assert t.past.pops[..k] == t.past.pops;
    StreakAppend(s.past.pops, t.past.pops[k - 1], f.generation);
    CurrentIsFresh(s, t, k - 1);
    var n := Streak(t.past.pops, f.generation);
    StreakMeans(t.past.pops, f.generation, n);
    forall j | k - n <= j < k ensures Fresh(t, j, |s.past.log|) {
      assert Counts(t.past.pops[j], f.generation);
      if j < k - 1 {
        assert t.past.pops[j] == s.past.pops[j];
        assert FrameOk(s.past.pops[j].frame, s.past.log, s.camera.sequence);
      }
      CurrentIsFresh(s, t, j);
    }
  }

  lemma NotesStayOk(c: Config, s: State, t: State)
    requires NotesOk(c, s) && s.past.log <= t.past.log && s.past.pops <= t.past.pops
    ensures forall i :: 0 <= i < |s.past.log| ==> NoteOk(c, t, i)
  {
    forall i | 0 <= i < |s.past.log| ensures NoteOk(c, t, i) {
      NoteStaysOk(c, s, t, i);
    }
  }

  lemma NewNoteIsOk(c: Config, s: State, e: Step)
    requires ConfigOk(c) && Enabled(s, e) && s.queue.Wf() && FramesOk(s) && EpochsOk(s.past.log, s.epoch) && StreakOk(c, s)
    requires |Next(c, s, e).past.log| == |s.past.log| + 1
    ensures NoteOk(c, Next(c, s, e), |s.past.log|)
  {
    StepKeepsPops(c, s, e);
    if Next(c, s, e).past.log[|s.past.log|].Publication? {
      PublicationIsFresh(c, s, s.worker.phase.frame, s.worker.phase.person);
    }
  }

  lemma NextKeepsNotes(c: Config, s: State, e: Step)
    requires ConfigOk(c) && Enabled(s, e) && s.queue.Wf() && FramesOk(s) && EpochsOk(s.past.log, s.epoch) && StreakOk(c, s) && NotesOk(c, s)
    ensures NotesOk(c, Next(c, s, e))
  {
    StepGrows(c, s, e);
    StepKeepsPops(c, s, e);
    NotesStayOk(c, s, Next(c, s, e));
    if |Next(c, s, e).past.log| > |s.past.log| { NewNoteIsOk(c, s, e); }
  }

  /** Only publishing writes a publication note. */
  lemma StepKeepsPops(c: Config, s: State, e: Step)
    requires Enabled(s, e) && s.queue.Wf()
    ensures
      var t := Next(c, s, e);
      && s.past.pops <= t.past.pops
      && (|t.past.log| > |s.past.log| && t.past.log[|s.past.log|].Publication? ==>
            && InHand(s.worker.phase) && s.worker.phase.Judged? && s.worker.phase.frame.generation == s.epoch
            && t == Publish(c, s, s.worker.phase.frame, s.worker.phase.person))
  {
    match e
    case ByCapture(k) => CaptureKeepsPops(s, k);
    case ByInference(i) => InferenceKeepsPops(c, s, i);
    case ByControl(k) => ControlKeepsPops(s, k);
  }

  lemma CaptureKeepsPops(s: State, k: CaptureStep)
    requires CaptureCan(s, k) && s.queue.Wf()
    ensures CaptureNext(s, k).past.pops == s.past.pops
    ensures |CaptureNext(s, k).past.log| > |s.past.log| ==> !CaptureNext(s, k).past.log[|s.past.log|].Publication?
  {
  }

  lemma ControlKeepsPops(s: State, k: ControlStep)
    requires ControlCan(s, k)
    ensures ControlNext(s, k).past.pops == s.past.pops
    ensures |ControlNext(s, k).past.log| > |s.past.log| ==> !ControlNext(s, k).past.log[|s.past.log|].Publication?
  {
  }

  lemma InferenceKeepsPops(c: Config, s: State, i: InferenceStep)
    requires InferenceCan(s, i)
    ensures
      var t := InferenceNext(c, s, i);
      && s.past.pops <= t.past.pops
      && (|t.past.log| > |s.past.log| && t.past.log[|s.past.log|].Publication? ==>
            && InHand(s.worker.phase) && s.worker.phase.Judged? && s.worker.phase.frame.generation == s.epoch
            && t == Publish(c, s, s.worker.phase.frame, s.worker.phase.person))
  {
  }

  // ----- previews -----

  ghost predicate PreviewsOk(s: State) {
    && (forall i :: 0 <= i < |s.jobs| ==> s.jobs[i].detections == Of(s.jobs[i].frame.sequence))
    && (forall i :: 0 <= i < |s.past.previews| ==>
          var p := s.past.previews[i];
          p.job.detections == Of(p.job.frame.sequence) && p.job.frame.generation == p.epoch && p.enabled)
  }

  lemma ControlKeepsPreviews(s: State, e: ControlStep)
    requires ControlCan(s, e) && DetectionOk(s) && PreviewsOk(s)
    ensures PreviewsOk(ControlNext(s, e))
  {
  }

  // ----- every interleaving -----

  ghost predicate Inv(c: Config, s: State) {
    EpochsOk(s.past.log, s.epoch) && FramesOk(s) && OrderOk(s) && DetectionOk(s) && StreakOk(c, s) && NotesOk(c, s) && PreviewsOk(s)
  }

  lemma NextKeepsOrder(c: Config, s: State, e: Step)
    requires Enabled(s, e) && s.queue.Wf() && OrderOk(s)
    ensures OrderOk(Next(c, s, e))
  {
    match e
    case ByCapture(k) => CaptureKeepsOrder(s, k);
    case ByInference(i) => InferenceKeepsOrder(c, s, i);
    case ByControl(k) => ControlKeepsOrder(s, k);
  }

  lemma NextKeepsDetection(c: Config, s: State, e: Step)
    requires Enabled(s, e) && s.queue.Wf() && FramesOk(s) && EpochsOk(s.past.log, s.epoch) && DetectionOk(s)
    ensures DetectionOk(Next(c, s, e))
  {
    match e
    case ByCapture(k) => CaptureKeepsDetection(s, k);
    case ByInference(i) =>
      GenerationsAreOld(s);
      InferenceKeepsTriple(c, s, i);
      InferenceKeepsOutlived(c, s, i);
      InferenceKeepsAdmitted(c, s, i);
    case ByControl(k) => ControlKeepsDetection(s, k);
  }

  lemma NextKeepsStreak(c: Config, s: State, e: Step)
    requires ConfigOk(c) && Enabled(s, e) && s.queue.Wf() && StreakOk(c, s)
    ensures StreakOk(c, Next(c, s, e))
  {
    match e
    case ByCapture(k) => SameKeepsStreak(c, s, CaptureNext(s, k));
    case ByInference(i) => InferenceKeepsStreak(c, s, i);
    case ByControl(k) => SameKeepsStreak(c, s, ControlNext(s, k));
  }

  lemma OthersKeepPreviews(s: State, t: State)
    requires PreviewsOk(s) && t.jobs == s.jobs && t.past.previews == s.past.previews
    ensures PreviewsOk(t)
  {
  }

  lemma NextKeepsPreviews(c: Config, s: State, e: Step)
    requires Enabled(s, e) && s.queue.Wf() && DetectionOk(s) && PreviewsOk(s)
    ensures PreviewsOk(Next(c, s, e))
  {
    match e
    case ByCapture(k) => OthersKeepPreviews(s, CaptureNext(s, k));
    case ByInference(i) => OthersKeepPreviews(s, InferenceNext(c, s, i));
    case ByControl(k) => ControlKeepsPreviews(s, k);
  }

  lemma NextKeepsInv(c: Config, s: State, e: Step)
    requires ConfigOk(c) && Enabled(s, e) && s.queue.Wf() && Inv(c, s)
    ensures Inv(c, Next(c, s, e))
  {
    StepGrows(c, s, e);
    EpochsGrow(s, Next(c, s, e));
    NextKeepsFrames(c, s, e);
    NextKeepsOrder(c, s, e);
    NextKeepsDetection(c, s, e);
    NextKeepsStreak(c, s, e);
    NextKeepsNotes(c, s, e);
    NextKeepsPreviews(c, s, e);
  }

  lemma {:induction false} EveryRunKeepsInv(c: Config, steps: seq<Step>)
    requires ConfigOk(c)
    ensures Inv(c, Run(c, steps))
    decreases |steps|
  {
    if steps != [] {
      EveryRunKeepsInv(c, steps[..|steps| - 1]);
      if Enabled(Run(c, steps[..|steps| - 1]), steps[|steps| - 1]) {
        NextKeepsInv(c, Run(c, steps[..|steps| - 1]), steps[|steps| - 1]);
      }
    }
  }

  /** A publication triggers an event exactly when video runs and the last event_confirm
      frames popped by inference, this one included, were all published with a person in the
      region and share one generation; and then no start, stop, camera restart, capture
      failure or self-disable raised the epoch between the tagging of any of them and the
      trigger. */
  lemma TriggersAreConfirmed(c: Config, steps: seq<Step>, i: nat)
    requires ConfigOk(c)
    requires i < |Run(c, steps).past.log| && Run(c, steps).past.log[i].Publication?
    ensures Run(c, steps).past.log[i].pops <= |Run(c, steps).past.pops|
    ensures Run(c, steps).past.log[i].triggered <==> c.video && Confirmed(c, Run(c, steps), Run(c, steps).past.log[i].pops)
    ensures Run(c, steps).past.log[i].triggered ==> Undisturbed(c, Run(c, steps), i)
  {
    EveryRunKeepsInv(c, steps);
    NotesMeanConfirmed(c, Run(c, steps), i);
  }

  /** The last event_confirm of the first k pops were published with a person, in one generation. */
  ghost predicate Confirmed(c: Config, s: State, k: nat)
    requires k <= |s.past.pops|
  {
    && 1 <= c.confirm <= k
    && forall j :: k - c.confirm <= j < k ==>
         && s.past.pops[j].verdict == Published(true)
         && s.past.pops[j].frame.generation == s.past.pops[k - 1].frame.generation
  }

  ghost predicate Undisturbed(c: Config, s: State, i: nat)
    requires i < |s.past.log| && s.past.log[i].Publication? && s.past.log[i].pops <= |s.past.pops|
  {
    var k := s.past.log[i].pops;
    forall j, m :: 0 <= k - c.confirm <= j < k && s.past.pops[j].frame.tagged <= m < i ==> !s.past.log[m].Bump?
  }

  lemma NotesMeanConfirmed(c: Config, s: State, i: nat)
    requires ConfigOk(c) && NotesOk(c, s)
    requires i < |s.past.log| && s.past.log[i].Publication?
    ensures s.past.log[i].pops <= |s.past.pops|
    ensures s.past.log[i].triggered <==> c.video && Confirmed(c, s, s.past.log[i].pops)
    ensures s.past.log[i].triggered ==> Undisturbed(c, s, i)
  {
    assert NoteOk(c, s, i);
    var k := s.past.log[i].pops;
    var g := s.past.pops[k - 1].frame.generation;
    StreakMeans(s.past.pops[..k], g, c.confirm);
    if c.confirm <= k {
      assert (forall j :: k - c.confirm <= j < k ==> Counts(s.past.pops[..k][j], g)) <==> Confirmed(c, s, k) by {
        assert forall j :: 0 <= j < k ==> s.past.pops[..k][j] == s.past.pops[j];
      }
    }
    if s.past.log[i].triggered {
      forall j, m | 0 <= k - c.confirm <= j < k && s.past.pops[j].frame.tagged <= m < i ensures !s.past.log[m].Bump? {
        assert Fresh(s, j, i);
      }
    }
  }

  /** No stale result is ever published: between the tagging of a frame and the publication
      of its result the epoch was not raised. */
  lemma NothingStaleIsPublished(c: Config, steps: seq<Step>, i: nat)
    requires ConfigOk(c)
    requires i < |Run(c, steps).past.log| && Run(c, steps).past.log[i].Publication?
    ensures PublishedFresh(Run(c, steps), i)
  {
    EveryRunKeepsInv(c, steps);
    NotesMeanFresh(c, Run(c, steps), i);
  }

  /** Place i of the log is the publication of a pop tagged in the same epoch. */
  ghost predicate PublishedFresh(s: State, i: nat)
    requires i < |s.past.log| && s.past.log[i].Publication?
  {
    var k := s.past.log[i].pops;
    && 1 <= k <= |s.past.pops| && s.past.pops[k - 1].verdict.Published?
    && forall m :: s.past.pops[k - 1].frame.tagged <= m < i ==> !s.past.log[m].Bump?
  }

  lemma NotesMeanFresh(c: Config, s: State, i: nat)
    requires NotesOk(c, s) && i < |s.past.log| && s.past.log[i].Publication?
    ensures PublishedFresh(s, i)
  {
    assert NoteOk(c, s, i);
    assert Fresh(s, s.past.log[i].pops - 1, i);
  }

  /** The published triple is always consistent: its frame is of the current generation, or
      of the one before, and then inference is off and the last epoch increment was its own
      self-disable. The frames inference handles, hence the sequence numbers it publishes,
      strictly increase over the whole run. */
  lemma PublishedStateIsConsistent(c: Config, steps: seq<Step>)
    requires ConfigOk(c)
    ensures
      var s := Run(c, steps);
      && (s.view.frame.Some? <==> s.view.number != 0)
      && (s.view.frame.Some? ==>
            var f := s.view.frame.value;
            && f.sequence == s.view.number && s.view.detections == Of(f.sequence)
            && (f.generation != s.epoch ==>
                  f.generation + 1 == s.epoch && !s.enabled && LastBumpIsSelfDisable(s.past.log)))
      && (forall i, j :: 0 <= i < j < |s.past.pops| ==> s.past.pops[i].frame.sequence < s.past.pops[j].frame.sequence)
  {
    EveryRunKeepsInv(c, steps);
    var s := Run(c, steps);
    if s.view.frame.Some? && s.view.frame.value.generation != s.epoch {
      var i :| 0 <= i < |s.past.log| && s.past.log[i] == Bump(s.epoch, true);
      assert NoBump(s.past.log, i + 1, |s.past.log|);
    }
  }

  ghost predicate LastBumpIsSelfDisable(log: seq<Note>) {
    exists i :: 0 <= i < |log| && log[i].Bump? && log[i].selfDisable && NoBump(log, i + 1, |log|)
  }

  /** A preview pairs an image with the detections of that very frame, and is sent only
      while the frame's generation is current and inference is on. */
  lemma PreviewsMatchTheirFrame(c: Config, steps: seq<Step>, i: nat)
    requires ConfigOk(c) && i < |Run(c, steps).past.previews|
    ensures
      var p := Run(c, steps).past.previews[i];
      p.job.detections == Of(p.job.frame.sequence) && p.job.frame.generation == p.epoch && p.enabled
  {
    EveryRunKeepsInv(c, steps);
  }
}
