/** What decides the fate of a connection: each closing from the event that causes it, and the
    outcome of sends, reads and accepts, with the limits written out. */
module TcpDecisions {
  import opened Framing
  import opened TcpModel
  import opened TcpProofs

  // ----- closings -----

  function Flatten(reactions: seq<seq<Action>>): seq<Action> {
    if reactions == [] then [] else reactions[0] + Flatten(reactions[1..])
  }

  /** The calls made during event e. */
  function ActionsOf(e: Event): seq<Action> {
    match e
    case Readable(_, _, reactions, _) => Flatten(reactions)
    case Task(actions) => actions
    case _ => []
  }

  /** One of the calls closes the connection: its send was broken on output still to go, or
      its response does not fit, or the connection was done. */
  ghost predicate ClosedBy(acts: seq<Action>, x: Closing) {
    match x.reason
    case SendFailed =>
      x.client.out != "" && exists a :: a in acts && a.id == x.client.id && !a.Retain? && a.sent == Broken
    case OutOverflow =>
      exists a :: a in acts && a.Send? && a.id == x.client.id && |x.client.out| + |a.data| > 65536
    case Drained => true
    case _ => false
  }

  /** Event e is at the connection x was. */
  ghost predicate At(s: Server, fd: int, x: Closing) {
    fd in s.clients && s.clients[fd].id == x.client.id
  }

  /** Event e, in state s, is what closes x. */
  ghost predicate Warranted(s: Server, e: Event, x: Closing) {
    match x.reason
    case SendFailed =>
      || ClosedBy(ActionsOf(e), x)
      || ((e.Readable? || e.Writable?) && e.sent == Broken && x.client.out != "" && At(s, e.fd, x))
    case OutOverflow => ClosedBy(ActionsOf(e), x)
    case RecvFailed => e.Readable? && Failed in e.recvs && At(s, e.fd, x)
    case BadFraming => e.Readable? && At(s, e.fd, x) && TooLong(Split(x.client.received))
    case Hangup => e.Error? && At(s, e.fd, x)
    case NotRegistered => e.Connect? && !e.registered && x.client.id == s.next
    case Drained => x.client.eof && x.client.pending == 0 && x.client.out == ""
    case InOverflow => false
  }

  /** The closings t has beyond those of s. */
  ghost predicate OnlyMore(s: Server, t: Server, acts: seq<Action>) {
    s.closed <= t.closed && forall k :: |s.closed| <= k < |t.closed| ==> ClosedBy(acts, t.closed[k])
  }

  lemma ClosedByMore(acts: seq<Action>, more: seq<Action>, x: Closing)
    requires ClosedBy(acts, x) && forall a :: a in acts ==> a in more
    ensures ClosedBy(more, x)
  {
  }

  lemma ActCloses(s: Server, a: Action)
    requires Linked(s)
    ensures OnlyMore(s, Act(s, a), [a])
  {
    if a.id in s.ids {
      var x := Act(s, a).closed;
      assert a in [a];
    }
  }

  lemma {:induction false} ActAllCloses(s: Server, actions: seq<Action>)
    requires Linked(s)
    ensures OnlyMore(s, ActAll(s, actions), actions)
    decreases |actions|
  {
    if actions != [] {
      var s1, t := Act(s, actions[0]), ActAll(s, actions);
      ActCloses(s, actions[0]);
      ActAllCloses(s1, actions[1..]);
      forall k | |s.closed| <= k < |t.closed| ensures ClosedBy(actions, t.closed[k]) {
        if k < |s1.closed| {
          assert t.closed[k] == s1.closed[k];
          ClosedByMore([actions[0]], actions, t.closed[k]);
        } else {
          ClosedByMore(actions[1..], actions, t.closed[k]);
        }
      }
    }
  }

  /** Closed during delivery to `id`: by a call, or for framing. */
  ghost predicate Delivered(s: Server, t: Server, id: nat, acts: seq<Action>) {
    && s.closed <= t.closed
    && forall k :: |s.closed| <= k < |t.closed| ==>
         ClosedBy(acts, t.closed[k]) || (t.closed[k].reason == BadFraming && t.closed[k].client.id == id)
  }

  lemma DeliveredTwice(s: Server, s1: Server, t: Server, id: nat, a: seq<Action>, b: seq<Action>)
    requires Delivered(s, s1, id, a) && Delivered(s1, t, id, b)
    ensures Delivered(s, t, id, a + b)
  {
    forall k | |s.closed| <= k < |t.closed|
      ensures ClosedBy(a + b, t.closed[k]) || (t.closed[k].reason == BadFraming && t.closed[k].client.id == id)
    {
      if k < |s1.closed| {
        assert t.closed[k] == s1.closed[k];
        if ClosedBy(a, t.closed[k]) { ClosedByMore(a, a + b, t.closed[k]); }
      } else if ClosedBy(b, t.closed[k]) {
        ClosedByMore(b, a + b, t.closed[k]);
      }
    }
  }

  lemma {:induction false} DeliverCloses(s: Server, fd: int, reactions: seq<seq<Action>>, id: nat)
    requires Linked(s) && (fd in s.clients ==> s.clients[fd].id == id)
    ensures Delivered(s, Deliver(s, fd, reactions), id, Flatten(reactions))
    ensures fd in Deliver(s, fd, reactions).clients ==> Deliver(s, fd, reactions).clients[fd].id == id
    decreases if fd in s.clients then |s.clients[fd].input| else 0
  {
    if fd !in s.clients { return; }
    var c := s.clients[fd];
    var pos := Newline(c.input, 0);
    if pos <= MAX_LINE && pos < |c.input| {
      InversePut(s.clients, s.ids, fd, Consumed(c));
      var s1 := s.(clients := s.clients[fd := Consumed(c)]);
      if pos == 0 || reactions == [] {
        DeliverCloses(s1, fd, reactions, id);
      } else {
        var s2 := ActAll(s1, reactions[0]);
        ActAllCloses(s1, reactions[0]);
        DeliverCloses(s2, fd, reactions[1..], id);
        DeliveredTwice(s1, s2, Deliver(s2, fd, reactions[1..]), id, reactions[0], Flatten(reactions[1..]));
      }
    }
  }

  /** The last flush of a read. */
  lemma FinishReadCloses(s: Server, fd: int, sent: Sent, id: nat)
    requires fd in s.clients ==> s.clients[fd].id == id
    ensures
      var t := FinishRead(s, fd, sent);
      && s.closed <= t.closed
      && forall k :: |s.closed| <= k < |t.closed| ==>
           && t.closed[k].client.id == id
           && (t.closed[k].reason == Drained
               || (t.closed[k].reason == SendFailed && sent == Broken && t.closed[k].client.out != ""))
  {
    if fd in s.clients {
      var c := s.clients[fd].(reading := false);
      FlushEnds(c, sent);
      SettleCloses(s, fd, Flush(c, sent));
    }
  }

  lemma SettleCloses(s: Server, fd: int, f: Fate)
    ensures Settle(s, fd, f).closed == s.closed + if f.Dead? then [Closing(f.client, f.reason)] else []
  {
  }

  lemma FlushEnds(c: Client, sent: Sent)
    ensures
      var f := Flush(c, sent);
      && f.client.id == c.id
      && (f.Dead? ==> f.reason == Drained || (f.reason == SendFailed && sent == Broken && f.client.out != ""))
  {
  }

  lemma {:induction false} ReceiveFails(c: Client, recvs: seq<Recv>, n: nat)
    ensures Receive(c, recvs, n).Dead? ==>
      Receive(c, recvs, n).reason == InOverflow || (Receive(c, recvs, n).reason == RecvFailed && Failed in recvs)
    decreases n
  {
    if n > 0 && recvs != [] {
      match recvs[0]
      case Data(bytes) =>
        var d := c.(input := c.input + Chunk(bytes), received := c.received + Chunk(bytes));
        if |d.input| <= MAX_IN { ReceiveFails(d, recvs[1..], n - 1); }
      case Interrupted => ReceiveFails(c, recvs[1..], n - 1);
      case _ =>
    }
  }

  /** Closed while reading, apart from framing and lasting properties. */
  ghost predicate CausedByRead(s: Server, e: Event, x: Closing)
    requires e.Readable?
  {
    || ClosedBy(Flatten(e.reactions), x)
    || (At(s, e.fd, x) && match x.reason
                          case SendFailed => e.sent == Broken && x.client.out != ""
                          case RecvFailed => Failed in e.recvs
                          case BadFraming => true
                          case Drained => true
                          case InOverflow => true
                          case _ => false)
  }

  lemma ReadCloses(s: Server, e: Event)
    requires Linked(s) && e.Readable?
    ensures
      var t := Read(s, e.fd, e.recvs, e.reactions, e.sent);
      s.closed <= t.closed && forall k :: |s.closed| <= k < |t.closed| ==> CausedByRead(s, e, t.closed[k])
  {
    if e.fd in s.clients {
      var id, c0 := s.clients[e.fd].id, s.clients[e.fd].(reading := true);
      ReceiveKeepsId(c0, e.recvs, READS);
      ReceiveFails(c0, e.recvs, READS);
      var f := Receive(c0, e.recvs, READS);
      if f.Alive? {
        InversePut(s.clients, s.ids, e.fd, f.client);
        var s1 := s.(clients := s.clients[e.fd := f.client]);
        var s2 := Deliver(s1, e.fd, e.reactions);
        DeliverCloses(s1, e.fd, e.reactions, id);
        FinishReadCloses(s2, e.fd, e.sent, id);
        var t := FinishRead(s2, e.fd, e.sent);
        forall k | |s.closed| <= k < |t.closed| ensures CausedByRead(s, e, t.closed[k]) {
          if k < |s2.closed| { assert t.closed[k] == s2.closed[k]; }
        }
      }
    }
  }

  /** What one event makes of the list of closings. */
  ghost predicate Caused(s: Server, e: Event, x: Closing) {
    match e
    case Readable(_, _, _, _) => CausedByRead(s, e, x)
    case Writable(fd, sent) =>
      At(s, fd, x) && (x.reason == Drained || (x.reason == SendFailed && sent == Broken && x.client.out != ""))
    case Error(fd) => x.reason == Hangup && At(s, fd, x)
    case Connect(_, registered) => x.reason == NotRegistered && !registered && x.client.id == s.next
    case Task(actions) => ClosedBy(actions, x)
  }

  lemma EventCloses(s: Server, e: Event, k: nat)
    requires Linked(s) && Enabled(s, e) && |s.closed| <= k < |Next(s, e).closed|
    ensures s.closed <= Next(s, e).closed && Caused(s, e, Next(s, e).closed[k])
  {
    match e
    case Readable(_, _, _, _) => ReadCloses(s, e);
    case Task(actions) => ActAllCloses(s, actions);
    case _ =>
  }

  lemma CausedIsWarranted(s: Server, e: Event, x: Closing)
    requires Caused(s, e, x)
    requires x.reason != InOverflow
    requires x.reason == BadFraming ==> TooLong(Split(x.client.received))
    requires x.reason == Drained ==> x.client.eof && x.client.pending == 0 && x.client.out == ""
    ensures Warranted(s, e, x)
  {
  }

  lemma ClosedFacts(x: Closing)
    requires ClosedOk(x)
    ensures x.reason != InOverflow
    ensures x.reason == BadFraming ==> TooLong(Split(x.client.received))
    ensures x.reason == Drained ==> x.client.eof && x.client.pending == 0 && x.client.out == ""
  {
    FrameMeansSplit(x.client.received);
  }

  /** Over every run, every closing follows from the event that makes it: a broken send on
      nonempty output, a response that takes the output beyond 65536 bytes, a failed read, a
      hangup, a failed registration, a piece that is too long, or being done; each for that
      very connection. */
  lemma ClosingsFollowFromEvents(states: seq<Server>, events: seq<Event>, i: nat, k: nat)
    requires IsRun(states, events) && i < |events|
    requires |states[i].closed| <= k < |states[i + 1].closed|
    ensures states[i].closed <= states[i + 1].closed
    ensures Warranted(states[i], events[i], states[i + 1].closed[k])
  {
    EveryRunKeepsInv(states, events, i + 1);
    EventCloses(states[i], events[i], k);
    ClosedFacts(states[i + 1].closed[k]);
    CausedIsWarranted(states[i], events[i], states[i + 1].closed[k]);
  }

  // ----- outcomes -----

  function LesserOf(a: nat, b: nat): nat {
    if a < b then a else b
  }

  /** What one send makes of connection c, found at fd in s, in state t: a broken send on
      output still to go closes it; else the bytes the kernel took leave the buffer, and a
      connection that is half-closed, not being read, with no job and no output left is done;
      any other stays, and waits to be writable exactly while output is left. */
  ghost predicate SendDecides(s: Server, fd: int, c: Client, sent: Sent, t: Server) {
    var n := if sent.Took? then LesserOf(sent.n, |c.out|) else 0;
    var d := c.(out := c.out[n..], wire := c.wire + c.out[..n]);
    && t.clients - {fd} == s.clients - {fd}
    && (if c.out != "" && sent == Broken then
          fd !in t.clients && t.closed == s.closed + [Closing(c, SendFailed)]
        else if c.eof && !c.reading && c.pending == 0 && n == |c.out| then
          fd !in t.clients && t.closed == s.closed + [Closing(d, Drained)]
        else
          fd in t.clients && t.clients[fd] == d.(wantRead := !c.eof, wantWrite := n < |c.out|) && t.closed == s.closed)
  }

  lemma FlushDecides(s: Server, fd: int, c: Client, sent: Sent, served: seq<Served>)
    requires fd in s.clients
    ensures SendDecides(s, fd, c, sent, Settle(s, fd, Flush(c, sent)).(served := served))
  {
    var n := if sent.Took? then LesserOf(sent.n, |c.out|) else 0;
    assert n == TakenOf(c.out, sent);
    assert |c.out[n..]| == |c.out| - n;
  }

  /** A writable connection: over every run. */
  lemma WritableDecides(states: seq<Server>, events: seq<Event>, i: nat)
    requires IsRun(states, events) && i < |events| && events[i].Writable? && events[i].fd in states[i].clients
    ensures SendDecides(states[i], events[i].fd, states[i].clients[events[i].fd], events[i].sent, states[i + 1])
  {
    FlushDecides(states[i], events[i].fd, states[i].clients[events[i].fd], events[i].sent, states[i].served);
  }

  /** Hence a send that would block keeps an open connection that is not done, with its
      output as it was and waiting to be writable exactly if there is any. */
  lemma BusyKeeps(states: seq<Server>, events: seq<Event>, i: nat)
    requires IsRun(states, events) && i < |events| && events[i].Writable? && events[i].fd in states[i].clients
    requires events[i].sent == Busy
    ensures
      var fd := events[i].fd;
      var c := states[i].clients[fd];
      && fd in states[i + 1].clients
      && states[i + 1].clients[fd].out == c.out && states[i + 1].clients[fd].wire == c.wire
      && (states[i + 1].clients[fd].wantWrite <==> c.out != "")
      && states[i + 1].closed == states[i].closed
  {
    WritableDecides(states, events, i);
    EveryRunKeepsInv(states, events, i);
    var c := states[i].clients[events[i].fd];
    assert ClientOk(c) && !c.reading;
    assert c.out[0..] == c.out && c.wire + c.out[..0] == c.wire;
  }

  /** A response for a connection: an unknown number is ignored, one that does not fit closes
      the connection, any other is appended and sent. */
  lemma SendCallDecides(s: Server, id: nat, data: string, sent: Sent)
    requires Linked(s)
    ensures
      var t := Act(s, Send(id, data, sent));
      if id !in s.ids then t == s
      else
        var fd := s.ids[id];
        var c := s.clients[fd];
        if |c.out| + |data| > 65536 then
          t.clients == s.clients - {fd} && t.closed == s.closed + [Closing(c, OutOverflow)]
        else SendDecides(s, fd, c.(out := c.out + data), sent, t)
  {
    if id in s.ids {
      var fd := s.ids[id];
      FlushDecides(s, fd, s.clients[fd].(out := s.clients[fd].out + data), sent, s.served + [Taken(id, data)]);
    }
  }

  /** A released job may let a connection go. */
  lemma ReleaseCallDecides(s: Server, id: nat, sent: Sent)
    requires Linked(s)
    ensures
      var t := Act(s, Release(id, sent));
      if id !in s.ids then t == s
      else
        var fd := s.ids[id];
        var c := s.clients[fd];
        SendDecides(s, fd, c.(pending := if c.pending > 0 then c.pending - 1 else 0), sent, t)
  {
    if id in s.ids {
      var fd := s.ids[id];
      var c := s.clients[fd];
      FlushDecides(s, fd, c.(pending := if c.pending > 0 then c.pending - 1 else 0), sent, s.served + [Released(id)]);
    }
  }

  /** A connection is refused exactly when sixteen are open; else it gets the next number, and
      stays exactly when it could be registered. Over every run. */
  lemma ConnectDecides(states: seq<Server>, events: seq<Event>, i: nat)
    requires IsRun(states, events) && i < |events| && events[i].Connect?
    ensures
      var s, t, e := states[i], states[i + 1], events[i];
      && (|s.clients| == 16 ==> t == s)
      && (|s.clients| < 16 ==>
            && t.next == s.next + 1
            && (if e.registered
                then t.clients.Keys == s.clients.Keys + {e.fd} && t.clients[e.fd].id == s.next && t.ids == s.ids[s.next := e.fd]
                else t.clients == s.clients && t.ids == s.ids && |t.closed| == |s.closed| + 1))
      && |s.clients| <= 16
  {
    EveryRunKeepsInv(states, events, i);
    var s, e := states[i], events[i];
    if |s.clients| < 16 && !e.registered {
      var c := NewClient(s.next);
      assert s.clients[e.fd := c] - {e.fd} == s.clients;
      assert s.next !in s.ids;
      assert s.ids[s.next := e.fd] - {s.next} == s.ids;
    }
  }

  // ----- reading -----

  /** The bytes of one result: at most 4096. */
  function BytesIn(r: Recv): string {
    if !r.Data? then "" else if |r.bytes| > 4096 then r.bytes[..4096] else r.bytes
  }

  function BytesOf(recvs: seq<Recv>): string {
    if recvs == [] then "" else BytesIn(recvs[0]) + BytesOf(recvs[1..])
  }

  /** A result that carries data or was interrupted. */
  predicate GoesOn(r: Recv) {
    r.Data? || r.Interrupted?
  }

  function With(c: Client, bytes: string): Client {
    c.(input := c.input + bytes, received := c.received + bytes)
  }

  lemma WithNothing(c: Client)
    ensures With(c, "") == c
  {
    assert c.input + "" == c.input && c.received + "" == c.received;
  }

  lemma WithMore(c: Client, a: string, b: string)
    ensures With(With(c, a), b) == With(c, a + b)
  {
    assert c.input + a + b == c.input + (a + b);
    assert c.received + a + b == c.received + (a + b);
  }

  lemma ReceiveGoesOn(c: Client, recvs: seq<Recv>, n: nat)
    requires 0 < n <= 4 && |c.input| <= 8192 + (4 - n) * 4096 && recvs != [] && GoesOn(recvs[0])
    ensures Receive(c, recvs, n) == Receive(With(c, BytesIn(recvs[0])), recvs[1..], n - 1)
  {
    WithNothing(c);
  }

  /** What the result after the first k makes of the connection. */
  function Stopped(d: Client, recvs: seq<Recv>, k: nat, n: nat): Fate {
    if k < n && k < |recvs| && recvs[k].Failed? then Dead(d, RecvFailed)
    else if k < n && k < |recvs| && recvs[k].Eof? then Alive(d.(eof := true))
    else Alive(d)
  }

  /** One read event goes on for at most four results, as long as they carry data or were
      interrupted, and appends all of their bytes; then the end of the stream is noted, and
      a failure closes the connection. */
  lemma {:induction false} ReceiveDecides(c: Client, recvs: seq<Recv>, n: nat) returns (k: nat)
    requires n <= 4 && |c.input| <= 8192 + (4 - n) * 4096
    ensures k <= n && k <= |recvs| && forall i :: 0 <= i < k ==> GoesOn(recvs[i])
    ensures k < n && k < |recvs| ==> !GoesOn(recvs[k])
    ensures Receive(c, recvs, n) == Stopped(With(c, BytesOf(recvs[..k])), recvs, k, n)
    decreases n
  {
    if n > 0 && recvs != [] && GoesOn(recvs[0]) {
      var b := BytesIn(recvs[0]);
      ReceiveGoesOn(c, recvs, n);
      var m := ReceiveDecides(With(c, b), recvs[1..], n - 1);
      k := m + 1;
      GoOnLater(recvs, m);
      StoppedLater(With(c, b), recvs, m, n);
      WithMore(c, b, BytesOf(recvs[1..][..m]));
      OneMore(recvs, m);
    } else {
      k := 0;
      ReceiveStops(c, recvs, n);
      assert recvs[..0] == [];
    }
  }

  lemma ReceiveStops(c: Client, recvs: seq<Recv>, n: nat)
    requires n > 0 && recvs != [] ==> !GoesOn(recvs[0])
    ensures Receive(c, recvs, n) == Stopped(With(c, ""), recvs, 0, n)
  {
    WithNothing(c);
  }

  lemma GoOnLater(recvs: seq<Recv>, m: nat)
    requires recvs != [] && GoesOn(recvs[0]) && m < |recvs|
    requires forall i :: 0 <= i < m ==> GoesOn(recvs[1..][i])
    ensures forall i :: 0 <= i < m + 1 ==> GoesOn(recvs[i])
  {
    forall i | 0 <= i < m + 1 ensures GoesOn(recvs[i]) {
      if i > 0 { assert GoesOn(recvs[1..][i - 1]); }
    }
  }

  lemma StoppedLater(c: Client, recvs: seq<Recv>, m: nat, n: nat)
    requires recvs != [] && n > 0 && m < |recvs|
    ensures Stopped(With(c, BytesOf(recvs[1..][..m])), recvs[1..], m, n - 1)
         == Stopped(With(c, BytesOf(recvs[1..][..m])), recvs, m + 1, n)
  {
  }

  lemma OneMore(recvs: seq<Recv>, m: nat)
    requires m < |recvs|
    ensures BytesOf(recvs[..m + 1]) == BytesIn(recvs[0]) + BytesOf(recvs[1..][..m])
  {
    assert recvs[..m + 1][0] == recvs[0] && recvs[..m + 1][1..] == recvs[1..][..m];
  }

  /** Delivery reads nothing more. */
  lemma {:induction false} DeliverKeepsReceived(s: Server, fd: int, reactions: seq<seq<Action>>)
    requires Linked(s) && fd in s.clients
    ensures
      var t := Deliver(s, fd, reactions);
      fd in t.clients ==> t.clients[fd].received == s.clients[fd].received && t.clients[fd].eof == s.clients[fd].eof
    decreases |s.clients[fd].input|
  {
    var c := s.clients[fd];
    var pos := Newline(c.input, 0);
    if pos <= MAX_LINE && pos < |c.input| {
      InversePut(s.clients, s.ids, fd, Consumed(c));
      var s1 := s.(clients := s.clients[fd := Consumed(c)]);
      if pos == 0 || reactions == [] {
        DeliverKeepsReceived(s1, fd, reactions);
      } else if fd in ActAll(s1, reactions[0]).clients {
        DeliverKeepsReceived(ActAll(s1, reactions[0]), fd, reactions[1..]);
      }
    }
  }

  /** Over every run, a connection still open after a read event has received, on top of what
      it had, all bytes of at most four results up to the first that carries none and was
      not interrupted, and it is half-closed exactly if it was or that one was the end. */
  lemma ReadTakes(states: seq<Server>, events: seq<Event>, i: nat) returns (k: nat)
    requires IsRun(states, events) && i < |events| && events[i].Readable?
    requires events[i].fd in states[i].clients && events[i].fd in states[i + 1].clients
    ensures
      var recvs, fd := events[i].recvs, events[i].fd;
      var c, d := states[i].clients[fd], states[i + 1].clients[fd];
      && k <= 4 && k <= |recvs|
      && (forall j :: 0 <= j < k ==> GoesOn(recvs[j]))
      && (k < 4 && k < |recvs| ==> !GoesOn(recvs[k]))
      && d.received == c.received + BytesOf(recvs[..k])
      && (d.eof <==> c.eof || (k < 4 && k < |recvs| && recvs[k].Eof?))
  {
    EveryRunKeepsInv(states, events, i);
    var s, e := states[i], events[i];
    var c := s.clients[e.fd].(reading := true);
    assert ClientOk(s.clients[e.fd]) && !s.clients[e.fd].reading;
    RestIsStable(c.input);
    k := ReceiveDecides(c, e.recvs, 4);
    ReceiveKeepsId(c, e.recvs, READS);
    var f := Receive(c, e.recvs, READS);
    if f.Alive? {
      InversePut(s.clients, s.ids, e.fd, f.client);
      var s1 := s.(clients := s.clients[e.fd := f.client]);
      DeliverKeepsReceived(s1, e.fd, e.reactions);
      var s2 := Deliver(s1, e.fd, e.reactions);
      if e.fd in s2.clients { FlushKeepsRest(s2.clients[e.fd].(reading := false), e.sent); }
    }
  }
}
