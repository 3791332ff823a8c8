/** The recorder object: the methods of media/EventRecorder.h, each proved to do exactly
    what the state machine of module Recorder says. */
module EventRecorders {
  import opened Queues
  import opened Recorder

  lemma {:induction false} TotalSizeAppend(r: seq<Packet>, p: Packet)
    ensures TotalSize(r + [p]) == TotalSize(r) + p.size
    decreases |r|
  {
    if r == [] {
      assert r + [p] == [p];
      assert TotalSize([p]) == p.size + TotalSize([]);
    } else {
      assert (r + [p])[1..] == r[1..] + [p];
      TotalSizeAppend(r[1..], p);
    }
  }

  class EventRecorder {
    const c: Config
    const queue: BoundedQueue<Packet>
    var gap: bool
    var triggerUntil: nat
    var resetPts: nat
    var sent: seq<Packet>  // history; not ghost because a packet is named by its place in it
    ghost var taken: seq<Packet>
    ghost var raised: seq<nat>

    // The locals of run().
    var ring: seq<Packet>
    var bytes: nat
    var file: File
    var startPts: nat
    var lastPts: nat
    var cutoff: nat
    var handledUntil: nat
    var done: bool
    ghost var since: seq<Packet>
    ghost var log: seq<Record>

    ghost function Shared(): Shared
      reads this, queue
    {
      Recorder.Shared(queue.State(), gap, triggerUntil, resetPts, sent, taken, raised)
    }

    ghost function Local(): Local
      reads this
    {
      Recorder.Local(ring, file, startPts, lastPts, cutoff, handledUntil, since, log)
    }

    ghost function State(): State
      reads this, queue
    {
      Recorder.State(Shared(), Local(), done)
    }

    /** The byte counter is the exact sum of the ring; every update of it stays a nat. */
    ghost predicate Valid()
      reads this, queue
    {
      && queue.Valid() && queue.capacity == QUEUE_CAPACITY
      && bytes == TotalSize(ring)
    }

    constructor (pre: nat, tail: nat)
      ensures Valid() && fresh(queue)
      ensures c == Config(pre, tail) && State() == Init()
    {
      c := Config(pre, tail);
      queue := new BoundedQueue<Packet>(QUEUE_CAPACITY);
      gap, triggerUntil, resetPts, sent, taken, raised := false, 0, 0, [], [], [];
      ring, bytes, file, startPts, lastPts := [], 0, NoFile, 0, 0;
      cutoff, handledUntil, done, since, log := 0, 0, false, [], [];
    }

    // ----- called by other threads -----

    method Submit(size: nat, pts: nat, key: bool)
      requires Valid()
      modifies `gap, `sent, queue
      ensures Valid() && Local() == old(Local()) && done == old(done)
      ensures Shared() == Outside(c, old(Shared()), Call.Submit(size, pts, key))
    {
      var p := Packet(|sent|, size, pts, key, gap);
      gap := false;
      var accepted := queue.TryPush(p);
      if !accepted { gap := true; }
      sent := sent + [p];
    }

    method Reset(pts: nat)
      requires Valid()
      modifies `resetPts
      ensures Valid() && Local() == old(Local()) && done == old(done)
      ensures Shared() == Outside(c, old(Shared()), Call.Reset(pts))
    {
      resetPts := pts;
    }

    /** `seen` is what the fence test loaded from reset_pts_. The compare-exchange loop is
        one atomic maximum, which module TriggerRace justifies. */
    method Trigger(pts: nat, seen: nat)
      requires Valid()
      modifies `triggerUntil, `raised
      ensures Valid() && Local() == old(Local()) && done == old(done)
      ensures Shared() == Outside(c, old(Shared()), Call.Trigger(pts, seen))
    {
      if pts < seen { return; }
      if triggerUntil < pts + c.tail {
        triggerUntil := pts + c.tail;
      }
      raised := raised + [pts];
    }

    method Stop()
      requires Valid()
      modifies queue
      ensures Valid() && Local() == old(Local()) && done == old(done)
      ensures Shared() == Outside(c, old(Shared()), Call.Stop)
    {
      queue.Close(false);
    }

    /** The other threads get to run. */
    method Interleave(calls: seq<Call>)
      requires Valid()
      modifies `gap, `sent, `triggerUntil, `raised, `resetPts, queue
      ensures Valid() && Local() == old(Local()) && done == old(done)
      ensures Shared() == Others(c, old(Shared()), calls)
    {
      var i := 0;
      while i < |calls|
        invariant 0 <= i <= |calls|
        invariant Valid() && Local() == old(Local()) && done == old(done)
        invariant Others(c, Shared(), calls[i..]) == Others(c, old(Shared()), calls)
      {
        match calls[i] {
          case Submit(size, pts, key) => Submit(size, pts, key);
          case Trigger(stamp, seen) => Trigger(stamp, seen);
          case Reset(cut) => Reset(cut);
          case Stop => Stop();
        }
        assert calls[i..][1..] == calls[i + 1..];
        i := i + 1;
      }
    }

    // ----- run() -----

    method ClearRing()
      modifies `ring, `bytes, `since
      ensures Local() == Emptied(old(Local())) && bytes == 0
    {
      ring, bytes, since := [], 0, [];
    }

    method Finish(reason: Reason, ending: Closing)
      modifies `file, `handledUntil, `log
      ensures Local() == Recorder.Finish(old(Local()), reason, triggerUntil, ending)
    {
      if file.NoFile? { return; }
      var success := file.good && ending.closeOk;
      var manifest := Manifest(file.packets, startPts, lastPts, reason, success,
                               (reason == TailComplete || reason == MaxDuration) && success,
                               ending.manifestOk, triggerUntil, cutoff);
      log := log + [Finished(manifest)];
      handledUntil := Max(handledUntil, triggerUntil);
      file := NoFile;
    }

    method TrimRing(now: nat)
      requires bytes == TotalSize(ring)
      modifies `ring, `bytes
      ensures ring == Trim(old(ring), c.pre, now) && bytes == TotalSize(ring)
    {
      while |ring| > 1
        invariant bytes == TotalSize(ring)
        invariant Trim(ring, c.pre, now) == Trim(old(ring), c.pre, now)
        decreases |ring|
      {
        var next := NextKey(ring, 1);
        if next == |ring| || ring[next].pts + c.pre >= now { break; }
        ghost var before := ring;
        var count := next;
        while count > 0
          invariant 0 <= count <= next <= |before|
          invariant ring == before[next - count..] && bytes == TotalSize(ring)
        {
          bytes := bytes - ring[0].size;
          ring := ring[1..];
          count := count - 1;
        }
      }
    }

    /** Push, trim, and the size cap. */
    method UpdateRing(p: Packet)
      requires bytes == TotalSize(ring)
      modifies `ring, `bytes, `since
      ensures Local() == Absorb(c, old(Local()), p)
      ensures bytes == TotalSize(ring) && bytes <= RING_LIMIT
    {
      if p.key || ring != [] {
        TotalSizeAppend(ring, p);
        ring := ring + [p];
        bytes := bytes + p.size;
      }
      TrimRing(p.pts);
      since := since + [p];
      if bytes > RING_LIMIT {
        ClearRing();
      }
    }

    /** From the duration test to the end of the loop body. */
    method WriteOut(p: Packet, until: nat, env: Env)
      requires Valid()
      modifies `ring, `bytes, `since, `file, `handledUntil, `log, `startPts, `lastPts
      ensures Valid()
      ensures Local() == Route(old(Local()), p, until, triggerUntil, env)
    {
      if file.Open? && env.expired {
        Finish(MaxDuration, env.second);
        ClearRing();
        return;
      }
      if file.NoFile? && until > p.pts && until > handledUntil && ring != [] {
        if !env.verdict.Granted? {
          handledUntil := until;
          log := log + [Attempt(until, if env.verdict.Denied? then Refused else Threw)];
          return;
        }
        handledUntil := until;
        if !env.openOk {
          log := log + [Attempt(until, OpenFailed)];
          return;
        }
        log := log + [Attempt(until, Opened)];
        startPts := ring[0].pts;
        file := Open(ring, env.writeOk);
        lastPts := p.pts;
      } else if file.Open? {
        if env.checkDue && !env.verdict.Granted? {
          Finish(if env.verdict.Denied? then StorageBudget else StorageError, env.second);
          ClearRing();
          return;
        }
        file := Open(file.packets + [p], file.good && env.writeOk);
        lastPts := p.pts;
      }
      if file.Open? && !file.good {
        Finish(WriteError, env.second);
      }
      if file.Open? && p.pts >= until {
        Finish(TailComplete, env.second);
      }
    }

    method TakeReset(requested: nat, env: Env)
      requires Valid()
      modifies `ring, `bytes, `since, `file, `handledUntil, `log, `cutoff
      ensures Valid()
      ensures Local() == Fence(c, old(Local()), requested, triggerUntil, env)
    {
      if requested > cutoff {
        Finish(CaptureRestart, env.first);
        ClearRing();
        cutoff := requested;
        handledUntil := Max(handledUntil, cutoff + c.tail);
        log := log + [Fenced(cutoff)];
      }
    }

    /** The timeout test for an empty queue; the gap test and the ring for a packet. */
    method TakePacket(item: Option<Packet>, env: Env)
      requires Valid()
      modifies `ring, `bytes, `since, `file, `handledUntil, `log
      ensures Valid()
      ensures Local() == Upkeep(c, old(Local()), item, triggerUntil, env)
    {
      if item.None? {
        if env.timedOut {
          Finish(InputTimeout, env.first);
          ClearRing();
        }
      } else if item.value.pts >= cutoff {
        if item.value.gap {
          Finish(PacketGap, env.first);
          ClearRing();
        }
        UpdateRing(item.value);
      }
    }

    /** The pop and the two loads before the ring upkeep. */
    method NextItem(env: Env) returns (item: Option<Packet>, requested: nat)
      requires Valid()
      modifies `taken, `gap, `sent, `triggerUntil, `raised, `resetPts, queue
      ensures Valid() && done == old(done) && Local() == old(Local())
      ensures item == old(Shared()).queue.Front()
      ensures requested == AtFence(c, old(Shared()), env).resetPts
      ensures Shared() == AtIntake(c, old(Shared()), env)
    {
      item := queue.Pop();
      if item.Some? { taken := taken + [item.value]; }
      Interleave(env.gap1);
      requested := resetPts;
      Interleave(env.gap2);
    }

    /** The file work for a packet; the final finish() once the queue is closed and drained. */
    method Conclude(item: Option<Packet>, until: nat, closed: bool, env: Env)
      requires Valid()
      modifies `ring, `bytes, `since, `file, `handledUntil, `log, `startPts, `lastPts, `done
      ensures Valid() && done == (old(done) || (item.None? && closed))
      ensures Local() == Output(old(Local()), item, until, closed, triggerUntil, env)
    {
      if item.None? {
        if closed {
          done := true;
          Finish(Shutdown, env.second);
        }
      } else if item.value.pts >= cutoff {
        WriteOut(item.value, until, env);
      }
    }

    /** From the pop to the size cap. */
    method Intake(env: Env) returns (item: Option<Packet>)
      requires Valid()
      modifies this, queue
      ensures Valid() && done == old(done)
      ensures item == old(Shared()).queue.Front()
      ensures Shared() == AtIntake(c, old(Shared()), env)
      ensures Local() == Upkeep(c, Fence(c, old(Local()), AtFence(c, old(Shared()), env).resetPts, triggerUntil, env),
                                item, triggerUntil, env)
    {
      var requested;
      item, requested := NextItem(env);
      TakeReset(requested, env);
      TakePacket(item, env);
    }

    /** From the load of trigger_until_ to the end. */
    method Deliver(item: Option<Packet>, env: Env)
      requires Valid()
      modifies this, queue
      ensures Valid()
      ensures
        var s3 := Others(c, old(Shared()), env.gap3);
        && Shared() == Others(c, s3, env.gap4)
        && Local() == Output(old(Local()), item, s3.triggerUntil, s3.queue.closed, triggerUntil, env)
        && done == (old(done) || (item.None? && s3.queue.closed))
    {
      Interleave(env.gap3);
      var until, closed := triggerUntil, queue.closed;
      Interleave(env.gap4);
      Conclude(item, until, closed, env);
    }

    /** One pass of the loop in run(), with the calls of other threads in its four gaps. */
    method Iteration(env: Env)
      requires Valid() && !done
      modifies this, queue
      ensures Valid() && State() == Iterate(c, old(State()), env)
    {
      var item := Intake(env);
      Deliver(item, env);
    }
  }
}
