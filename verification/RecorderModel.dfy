/** The event recorder of media/EventRecorder.h as a state machine.

    One event is either a call from another thread or one whole iteration of run().
    An iteration touches shared state in five places: the pop, the load of reset_pts_, a
    load of trigger_until_ inside the first finish() that closes a file, the load of
    trigger_until_ at the end of the ring upkeep, and a load inside a later finish().
    Between them the other threads may do anything, so an iteration carries the calls
    that land in each of the four gaps. Clock tests, disk and quota results are inputs. */
module Recorder {
  import opened Queues

  const QUEUE_CAPACITY: nat := 120
  const RING_LIMIT: nat := 16 * 1024 * 1024

  /** An encoded packet. `index` is its place in the order of submission; it stands for the
      identity of the packet and no branch reads it. */
  datatype Packet = Packet(index: nat, size: nat, pts: nat, key: bool, gap: bool)

  /** pre_ns_ and tail_ns_. */
  datatype Config = Config(pre: nat, tail: nat)

  // ----- what the threads share -----

  /** `sent`, `taken` and `raised` are history: all packets submitted, the packets run() has
      popped, and the stamps of the triggers that were not fenced off. */
  datatype Shared = Shared(
    queue: Queue<Packet>, gap: bool, triggerUntil: nat, resetPts: nat,
    sent: seq<Packet>, taken: seq<Packet>, raised: seq<nat>)

  /** A call from another thread. The fence test of a trigger is a separate load, so the
      reset_pts_ value `seen` by it may be out of date when the trigger takes effect. */
  datatype Call =
    | Submit(size: nat, pts: nat, key: bool)
    | Trigger(stamp: nat, seen: nat)
    | Reset(cut: nat)
    | Stop

  function Outside(c: Config, s: Shared, call: Call): Shared {
    match call
    case Submit(size, pts, key) =>
      var p := Packet(|s.sent|, size, pts, key, s.gap);
      s.(queue := s.queue.TryPush(p), gap := !s.queue.Accepts(), sent := s.sent + [p])
    case Trigger(stamp, seen) =>
      if stamp < seen then s
      else s.(triggerUntil := Max(s.triggerUntil, stamp + c.tail), raised := s.raised + [stamp])
    case Reset(cut) => s.(resetPts := cut)
    case Stop => s.(queue := s.queue.Close(false))
  }

  function Others(c: Config, s: Shared, calls: seq<Call>): Shared
    decreases |calls|
  {
    if calls == [] then s else Others(c, Outside(c, s, calls[0]), calls[1..])
  }

  // ----- what only run() touches -----

  datatype Reason =
    | CaptureRestart | InputTimeout | PacketGap | MaxDuration
    | StorageBudget | StorageError | WriteError | TailComplete | Shutdown

  predicate Completes(r: Reason) {
    r == TailComplete || r == MaxDuration
  }

  datatype Outcome = Opened | OpenFailed | Refused | Threw

  /** What finish() writes to the manifest and publishes; `covered` is the value of
      trigger_until_ it read, `packets` the packets issued to the file, `cutoff` the reset
      in force while it was open. */
  datatype Manifest = Manifest(
    packets: seq<Packet>, startPts: nat, endPts: nat, reason: Reason,
    writeOk: bool, complete: bool, manifestOk: bool, covered: nat, cutoff: nat)

  /** History of run(): attempts to open a file, finished files, and resets taken. */
  datatype Record =
    | Attempt(until: nat, outcome: Outcome)
    | Finished(manifest: Manifest)
    | Fenced(cut: nat)

  datatype File = NoFile | Open(packets: seq<Packet>, good: bool)

  /** The locals of run(). `since` and `log` are history: the packets accepted since the
      ring was last cleared, and the records above. The byte counter is TotalSize(ring). */
  datatype Local = Local(
    ring: seq<Packet>, file: File, startPts: nat, lastPts: nat,
    cutoff: nat, handled: nat, since: seq<Packet>, log: seq<Record>)

  /** What the clock, the disk and the other threads do during one iteration. */
  datatype Env = Env(
    timedOut: bool, expired: bool, checkDue: bool, verdict: Verdict, openOk: bool,
    writeOk: bool, first: Closing, second: Closing,
    gap1: seq<Call>, gap2: seq<Call>, gap3: seq<Call>, gap4: seq<Call>)

  datatype Verdict = Granted | Denied | Raised

  /** How closing a file and writing its manifest went. An iteration can close two files:
      one it found open, and one it opened itself. */
  datatype Closing = Closing(closeOk: bool, manifestOk: bool)

  function TotalSize(r: seq<Packet>): nat {
    if r == [] then 0 else r[0].size + TotalSize(r[1..])
  }

  /** The first keyframe at or after position i, or the end. */
  function NextKey(r: seq<Packet>, i: nat): (n: nat)
    requires i <= |r|
    ensures i <= n <= |r|
    ensures n < |r| ==> r[n].key
    ensures forall k :: i <= k < n ==> !r[k].key
    decreases |r| - i
  {
    if i == |r| || r[i].key then i else NextKey(r, i + 1)
  }

  /** Drops whole groups of pictures from the front while the next keyframe is still older
      than the requested pre-event start. */
  function Trim(r: seq<Packet>, pre: nat, now: nat): seq<Packet>
    decreases |r|
  {
    if |r| <= 1 then r
    else
      var n := NextKey(r, 1);
      if n == |r| || r[n].pts + pre >= now then r else Trim(r[n..], pre, now)
  }

  function Push(r: seq<Packet>, p: Packet): seq<Packet> {
    if p.key || r != [] then r + [p] else r
  }

  function Emptied(l: Local): Local {
    l.(ring := [], since := [])
  }

  function Finish(l: Local, reason: Reason, t: nat, ending: Closing): Local {
    match l.file
    case NoFile => l
    case Open(packets, good) =>
      var ok := good && ending.closeOk;
      var m := Manifest(packets, l.startPts, l.lastPts, reason, ok, Completes(reason) && ok, ending.manifestOk, t, l.cutoff);
      l.(file := NoFile, handled := Max(l.handled, t), log := l.log + [Finished(m)])
  }

  function Fence(c: Config, l: Local, cut: nat, t: nat, env: Env): Local {
    if cut <= l.cutoff then l
    else
      var f := Emptied(Finish(l, CaptureRestart, t, env.first));
      f.(cutoff := cut, handled := Max(f.handled, cut + c.tail), log := f.log + [Fenced(cut)])
  }

  function Idle(l: Local, t: nat, env: Env): Local {
    if env.timedOut then Emptied(Finish(l, InputTimeout, t, env.first)) else l
  }

  function Absorb(c: Config, l: Local, p: Packet): Local {
    var kept := Trim(Push(l.ring, p), c.pre, p.pts);
    if TotalSize(kept) > RING_LIMIT then Emptied(l) else l.(ring := kept, since := l.since + [p])
  }

  function Settle(l: Local, p: Packet, until: nat, t: nat, env: Env): Local {
    if !l.file.Open? then l
    else if !l.file.good then Finish(l, WriteError, t, env.second)
    else if p.pts >= until then Finish(l, TailComplete, t, env.second)
    else l
  }

  function Attempted(l: Local, until: nat, o: Outcome): Local {
    l.(handled := until, log := l.log + [Attempt(until, o)])
  }

  function Route(l: Local, p: Packet, until: nat, t: nat, env: Env): Local {
    if l.file.Open? then
      if env.expired then Emptied(Finish(l, MaxDuration, t, env.second))
      else if env.checkDue && !env.verdict.Granted? then
        Emptied(Finish(l, if env.verdict.Denied? then StorageBudget else StorageError, t, env.second))
      else
        Settle(l.(file := Open(l.file.packets + [p], l.file.good && env.writeOk), lastPts := p.pts), p, until, t, env)
    else if until > p.pts && until > l.handled && l.ring != [] then
      if !env.verdict.Granted? then Attempted(l, until, if env.verdict.Denied? then Refused else Threw)
      else if !env.openOk then Attempted(l, until, OpenFailed)
      else
        Settle(Attempted(l, until, Opened).(file := Open(l.ring, env.writeOk), startPts := l.ring[0].pts, lastPts := p.pts),
               p, until, t, env)
    else l
  }

  // ----- the whole recorder -----

  datatype State = State(shared: Shared, local: Local, done: bool)

  datatype Event = FromOutside(call: Call) | Iteration(env: Env)

  function Init(): State {
    State(Shared(Empty(QUEUE_CAPACITY), false, 0, 0, [], [], []),
          Local([], NoFile, 0, 0, 0, 0, [], []), false)
  }

  function Popped(s: Shared): Shared {
    match s.queue.Front()
    case None => s
    case Some(p) => s.(queue := s.queue.Pop(), taken := s.taken + [p])
  }

  /** The values one iteration loads from the shared state, in the order it loads them. */
  datatype Loads = Loads(cut: nat, early: nat, until: nat, closed: bool, late: nat)

  /** From the fence to the size cap. A packet from before the cutoff is skipped whole. */
  function Upkeep(c: Config, l: Local, item: Option<Packet>, early: nat, env: Env): Local {
    match item
    case None => Idle(l, early, env)
    case Some(p) =>
      if p.pts < l.cutoff then l
      else Absorb(c, if p.gap then Emptied(Finish(l, PacketGap, early, env.first)) else l, p)
  }

  function Output(l: Local, item: Option<Packet>, until: nat, closed: bool, late: nat, env: Env): Local {
    match item
    case None => if closed then Finish(l, Shutdown, late, env.second) else l
    case Some(p) => if p.pts < l.cutoff then l else Route(l, p, until, late, env)
  }

  /** The loop body as seen by run(): the popped packet, the loaded values, and the rest. */
  function Body(c: Config, l: Local, item: Option<Packet>, v: Loads, env: Env): Local {
    Output(Upkeep(c, Fence(c, l, v.cut, v.early, env), item, v.early, env), item, v.until, v.closed, v.late, env)
  }

  /** The shared state at the four loads of an iteration. */
  function AtFence(c: Config, s: Shared, env: Env): Shared {
    Others(c, Popped(s), env.gap1)
  }

  function AtIntake(c: Config, s: Shared, env: Env): Shared {
    Others(c, AtFence(c, s, env), env.gap2)
  }

  function AtDecision(c: Config, s: Shared, env: Env): Shared {
    Others(c, AtIntake(c, s, env), env.gap3)
  }

  function AtEnd(c: Config, s: Shared, env: Env): Shared {
    Others(c, AtDecision(c, s, env), env.gap4)
  }

  function LoadsOf(c: Config, s: Shared, env: Env): Loads {
    Loads(AtFence(c, s, env).resetPts, AtIntake(c, s, env).triggerUntil,
          AtDecision(c, s, env).triggerUntil, AtDecision(c, s, env).queue.closed,
          AtEnd(c, s, env).triggerUntil)
  }

  function Iterate(c: Config, s: State, env: Env): State {
    if s.done then s
    else
      var item := s.shared.queue.Front();
      var v := LoadsOf(c, s.shared, env);
      State(AtEnd(c, s.shared, env), Body(c, s.local, item, v, env), item.None? && v.closed)
  }

  function Next(c: Config, s: State, e: Event): State {
    match e
    case FromOutside(call) => s.(shared := Outside(c, s.shared, call))
    case Iteration(env) => Iterate(c, s, env)
  }

  function Run(c: Config, events: seq<Event>): State
    decreases |events|
  {
    if events == [] then Init() else Next(c, Run(c, events[..|events| - 1]), events[|events| - 1])
  }
}
