/** The generation protocol of app/VisionPipeline.cpp: the capture, inference, control and
    snapshot threads share the epoch, the enable flag and the published detection. Every
    section under state_mutex_, every queue operation and every flag access is one step. */
module Pipeline {
  import opened Queues

  /** A captured frame. `tagged` is the place in the log of the step that gave it its
      generation; no branch reads it. */
  datatype Frame = Frame(sequence: nat, generation: nat, tagged: nat)

  /** The detections of one frame, named by its sequence number. */
  datatype Detections = Nothing | Of(sequence: nat)

  /** event_confirm, whether video runs, and the size of the inference queue. */
  datatype Config = Config(confirm: nat, video: bool, capacity: nat)

  /** Copy failures in a row before the device is given up; reopening it, which must come
      before the next copy, starts the count again. */
  const MAX_FAILURES := 5

  /** Inference errors in a row before inference switches itself off. */
  const MAX_ERRORS := 3

  predicate ConfigOk(c: Config) {
    c.confirm >= 1 && c.capacity >= 1
  }

  datatype Capture =
    | Idle
    | Tagged(generation: nat, at: nat)
    | Stored(frame: Frame)
    | Offering(frame: Frame)
    | CaptureClears

  datatype Inference =
    | Waiting
    | Popped(frame: Frame)
    | Admitted(frame: Frame)
    | Judged(frame: Frame, person: bool)
    | Disabling(frame: Frame)
    | InferenceClears

  /** How inference ended for a frame it popped. */
  datatype Verdict = Dropped | Published(person: bool)

  datatype Pop = Pop(frame: Frame, verdict: Verdict)

  /** History: epoch increments (telling the self-disable of inference from the others),
      tags, and publications (with the number of pops concluded by then, and whether an event
      was triggered), each with the epoch it leaves. */
  datatype Note = Bump(epoch: nat, selfDisable: bool) | Tag(epoch: nat) | Publication(epoch: nat, pops: nat, triggered: bool)

  datatype Job = Job(frame: Frame, detections: Detections)

  /** A preview sent to a client, with the epoch and flag at its final check. */
  datatype Preview = Preview(job: Job, epoch: nat, enabled: bool)

  /** What the other threads can see of the results: latest_, detections_,
      detection_sequence_ and detection_frame_. */
  datatype View = View(latest: Option<Frame>, detections: Detections, number: nat, frame: Option<Frame>)

  /** The capture thread: where it is, and its frame and failure counters. */
  datatype Camera = Camera(phase: Capture, sequence: nat, failures: nat)

  /** The inference thread: where it is, and its locals. */
  datatype Worker = Worker(phase: Inference, confirmed: nat, generation: Option<nat>, errors: nat)

  datatype History = History(pops: seq<Pop>, log: seq<Note>, previews: seq<Preview>)

  datatype State = State(
    running: bool, enabled: bool, epoch: nat, restartAsked: bool,
    view: View, queue: Queue<Frame>, camera: Camera, worker: Worker, jobs: seq<Job>, past: History)

  datatype CaptureStep = Restart | TagFrame | CopyFails | StoreFrame | TestEnabled | OfferFrame | ClearQueue

  datatype InferenceStep =
    | PopFrame | AdmitFrame | ExpireFrame | Infer(person: bool) | Throw | PublishResult(late: bool)
    | DisableSelf | ClearAfterErrors

  /** Commands, the snapshot thread, and shutdown. */
  datatype ControlStep = Switch(on: bool) | AskRestart | TakePreview | SendPreview | DropPreview | StopRunning | CloseQueue

  datatype Step = ByCapture(c: CaptureStep) | ByInference(i: InferenceStep) | ByControl(k: ControlStep)

  function Init(c: Config): State {
    State(true, true, 0, false, View(None, Nothing, 0, None), Empty(c.capacity),
          Camera(Idle, 0, 0), Worker(Waiting, 0, None, 0), [], History([], [], []))
  }

  predicate CaptureCan(s: State, e: CaptureStep) {
    match e
    case Restart => s.camera.phase.Idle? && s.restartAsked
    case TagFrame => s.camera.phase.Idle?
    case CopyFails => s.camera.phase.Tagged?
    case StoreFrame => s.camera.phase.Tagged?
    case TestEnabled => s.camera.phase.Stored?
    case OfferFrame => s.camera.phase.Offering?
    case ClearQueue => s.camera.phase.CaptureClears?
  }

  predicate InferenceCan(s: State, e: InferenceStep) {
    match e
    case PopFrame => s.worker.phase.Waiting? && s.queue.items != []
    case AdmitFrame => s.worker.phase.Popped?
    case ExpireFrame => s.worker.phase.Admitted?
    case Infer(_) => s.worker.phase.Admitted?
    case Throw => s.worker.phase.Admitted? || s.worker.phase.Judged?
    case PublishResult(_) => s.worker.phase.Judged?
    case DisableSelf => s.worker.phase.Disabling?
    case ClearAfterErrors => s.worker.phase.InferenceClears?
  }

  predicate ControlCan(s: State, e: ControlStep) {
    match e
    case TakePreview => s.view.frame.Some?
    case SendPreview => s.jobs != []
    case DropPreview => s.jobs != []
    case _ => true
  }

  predicate Enabled(s: State, e: Step) {
    match e
    case ByCapture(c) => CaptureCan(s, c)
    case ByInference(i) => InferenceCan(s, i)
    case ByControl(k) => ControlCan(s, k)
  }

  function Noted(p: History, n: Note): History {
    p.(log := p.log + [n])
  }

  /** What every epoch increment but the self-disable does with the published result. */
  function Invalidated(s: State): State {
    s.(epoch := s.epoch + 1, view := View(s.view.latest, Nothing, 0, None), past := Noted(s.past, Bump(s.epoch + 1, false)))
  }

  /** Invalidation by the capture thread, which forgets the latest frame as well and has yet
      to clear the queue. */
  function GivenUp(s: State): State {
    s.(epoch := s.epoch + 1, view := View(None, Nothing, 0, None), past := Noted(s.past, Bump(s.epoch + 1, false)),
       camera := Camera(CaptureClears, s.camera.sequence, 0))
  }

  /** The frame in hand is done with and was not published. */
  function Discarded(s: State): State
    requires !s.worker.phase.Waiting? && !s.worker.phase.InferenceClears?
  {
    s.(worker := s.worker.(phase := Waiting, confirmed := 0),
       past := s.past.(pops := s.past.pops + [Pop(s.worker.phase.frame, Dropped)]))
  }

  function Confirm(c: Config, confirmed: nat, person: bool): nat {
    if !person then 0 else if confirmed + 1 < c.confirm then confirmed + 1 else c.confirm
  }

  function Publish(c: Config, s: State, f: Frame, person: bool): State {
    var n := Confirm(c, s.worker.confirmed, person);
    var pops := s.past.pops + [Pop(f, Published(person))];
    s.(view := View(s.view.latest, Of(f.sequence), f.sequence, Some(f)),
       worker := s.worker.(phase := Waiting, confirmed := n),
       past := s.past.(pops := pops, log := s.past.log + [Publication(s.epoch, |pops|, n >= c.confirm && c.video)]))
  }

  function CaptureNext(s: State, e: CaptureStep): State
    requires CaptureCan(s, e) && s.queue.Wf()
  {
    match e
    case Restart => GivenUp(s).(restartAsked := false)
    case TagFrame =>
      s.(camera := s.camera.(phase := Tagged(s.epoch, |s.past.log|)), past := Noted(s.past, Tag(s.epoch)))
    case CopyFails =>
      if s.camera.failures + 1 >= MAX_FAILURES then GivenUp(s)
      else s.(camera := s.camera.(phase := Idle, failures := s.camera.failures + 1))
    case StoreFrame =>
      var f := Frame(s.camera.sequence + 1, s.camera.phase.generation, s.camera.phase.at);
      s.(camera := Camera(Stored(f), s.camera.sequence + 1, 0), view := s.view.(latest := Some(f)))
    case TestEnabled =>
      s.(camera := s.camera.(phase := if s.enabled then Offering(s.camera.phase.frame) else Idle))
    case OfferFrame => s.(queue := s.queue.PushLatest(s.camera.phase.frame), camera := s.camera.(phase := Idle))
    case ClearQueue => s.(queue := s.queue.Clear(), camera := s.camera.(phase := Idle))
  }

  function InferenceNext(c: Config, s: State, e: InferenceStep): State
    requires InferenceCan(s, e)
  {
    match e
    case PopFrame =>
      var f := s.queue.items[|s.queue.items| - 1];
      var same := s.worker.generation == Some(f.generation);
      s.(queue := s.queue.PopLatest(),
         worker := Worker(Popped(f), if same then s.worker.confirmed else 0, Some(f.generation), s.worker.errors))
    case AdmitFrame =>
      if !s.enabled || s.worker.phase.frame.generation != s.epoch then Discarded(s)
      else s.(worker := s.worker.(phase := Admitted(s.worker.phase.frame)))
    case ExpireFrame => Discarded(s)
    case Infer(person) => s.(worker := s.worker.(phase := Judged(s.worker.phase.frame, person), errors := 0))
    case Throw =>
      var n := s.worker.errors + 1;
      var t := Discarded(s);
      if n >= MAX_ERRORS then t.(worker := t.worker.(phase := Disabling(s.worker.phase.frame), errors := n))
      else t.(worker := t.worker.(errors := n))
    case PublishResult(late) =>
      if !s.running || !s.enabled || s.worker.phase.frame.generation != s.epoch || late then Discarded(s)
      else Publish(c, s, s.worker.phase.frame, s.worker.phase.person)
    case DisableSelf =>
      var t := s.(worker := s.worker.(phase := InferenceClears));
      if s.worker.phase.frame.generation == s.epoch
      then t.(enabled := false, epoch := s.epoch + 1, past := Noted(s.past, Bump(s.epoch + 1, true)))
      else t
    case ClearAfterErrors =>
      s.(queue := s.queue.Clear(), worker := s.worker.(phase := Waiting, errors := 0))
  }

  function ControlNext(s: State, e: ControlStep): State
    requires ControlCan(s, e)
  {
    match e
    case Switch(on) => Invalidated(s).(enabled := on, queue := s.queue.Clear())
    case AskRestart => s.(restartAsked := true)
    case TakePreview => s.(jobs := s.jobs + [Job(s.view.frame.value, s.view.detections)])
    case SendPreview =>
      var j := s.jobs[0];
      if j.frame.generation != s.epoch || !s.enabled then s.(jobs := s.jobs[1..])
      else s.(jobs := s.jobs[1..], past := s.past.(previews := s.past.previews + [Preview(j, s.epoch, s.enabled)]))
    case DropPreview => s.(jobs := s.jobs[1..])
    case StopRunning => s.(running := false)
    case CloseQueue => s.(queue := s.queue.Close(true))
  }

  function Next(c: Config, s: State, e: Step): State
    requires Enabled(s, e) && s.queue.Wf()
  {
    match e
    case ByCapture(k) => CaptureNext(s, k)
    case ByInference(i) => InferenceNext(c, s, i)
    case ByControl(k) => ControlNext(s, k)
  }

  lemma PushKeepsQueue(q: Queue<Frame>, f: Frame)
    requires q.Wf()
    ensures q.PushLatest(f).Wf() && q.PopLatest().Wf() && q.Clear().Wf() && q.Close(true).Wf()
  {
  }

  lemma NextKeepsQueue(c: Config, s: State, e: Step)
    requires Enabled(s, e) && s.queue.Wf()
    ensures Next(c, s, e).queue.Wf()
  {
    var q := Next(c, s, e).queue;
    if s.camera.phase.Offering? { PushKeepsQueue(s.queue, s.camera.phase.frame); }
    match e
    case ByCapture(k) =>
      assert q == s.queue || q == s.queue.Clear() || (k.OfferFrame? && q == s.queue.PushLatest(s.camera.phase.frame));
    case ByInference(i) => assert q == s.queue || q == s.queue.Clear() || q == s.queue.PopLatest();
    case ByControl(k) => assert q == s.queue || q == s.queue.Clear() || q == s.queue.Close(true);
  }

  /** Steps that are not enabled do not happen. */
  function Run(c: Config, steps: seq<Step>): (s: State)
    requires ConfigOk(c)
    ensures s.queue.Wf()
    decreases |steps|
  {
    if steps == [] then Init(c)
    else
      var s := Run(c, steps[..|steps| - 1]);
      var e := steps[|steps| - 1];
      if Enabled(s, e) then
        NextKeepsQueue(c, s, e);
        Next(c, s, e)
      else s
  }
}
