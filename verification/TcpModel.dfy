/** The connection table of core/reactor/TcpServer.h as a state machine: accepting,
    reading, callbacks, partial writes, retained jobs, closing and descriptor reuse.
    Results of system calls are inputs. */
module TcpModel {
  import opened Framing

  const MAX_OUT := 65536
  const MAX_IN := 65536
  const MAX_CLIENTS := 16
  const READS := 4
  const BUFFER := 4096

  /** A connection. `wantRead` and `wantWrite` are its epoll registration; `wire`, `received`
      and `messages` are history: the bytes the kernel took, the bytes read, and the messages
      handed to the callback. */
  datatype Client = Client(
    id: nat, input: string, out: string, eof: bool, reading: bool, pending: nat,
    wantRead: bool, wantWrite: bool,
    wire: string, received: string, messages: seq<string>)

  datatype Reason =
    | Drained | SendFailed | OutOverflow | RecvFailed | InOverflow | BadFraming | Hangup | NotRegistered

  datatype Closing = Closing(client: Client, reason: Reason)

  /** A call for a known connection that was not answered by closing it for overflow: a
      response taken, a job retained, a job released. */
  datatype Served = Taken(id: nat, data: string) | Retained(id: nat) | Released(id: nat)

  /** clients_, ids_ and next_; `closed` and `served` are history: the closed connections and
      the calls served, in their order. */
  datatype Server = Server(
    clients: map<int, Client>, ids: map<nat, int>, next: nat, closed: seq<Closing>, served: seq<Served>)

  function DataOf(v: Served): string {
    if v.Taken? then v.data else ""
  }

  function JobsAfter(jobs: nat, v: Served): nat {
    match v
    case Taken(_, _) => jobs
    case Retained(_) => jobs + 1
    case Released(_) => if jobs > 0 then jobs - 1 else 0
  }

  /** All data taken for connection `id`, and no other, in order. */
  function Owed(served: seq<Served>, id: nat): string {
    if served == [] then ""
    else
      var v := served[|served| - 1];
      Owed(served[..|served| - 1], id) + if v.id == id then DataOf(v) else ""
  }

  /** The jobs retained for connection `id` and not yet released; a release too many counts
      for nothing. */
  function Jobs(served: seq<Served>, id: nat): nat {
    if served == [] then 0
    else
      var v := served[|served| - 1];
      var jobs := Jobs(served[..|served| - 1], id);
      if v.id == id then JobsAfter(jobs, v) else jobs
  }

  lemma ServedAppend(served: seq<Served>, v: Served, id: nat)
    ensures Owed(served + [v], id) == Owed(served, id) + if v.id == id then DataOf(v) else ""
    ensures Jobs(served + [v], id) == if v.id == id then JobsAfter(Jobs(served, id), v) else Jobs(served, id)
  {
    assert (served + [v])[..|served|] == served;
  }

  /** What send() does: takes up to n bytes, takes none for now, or fails. */
  datatype Sent = Took(n: nat) | Busy | Broken

  /** What recv() does. */
  datatype Recv = Data(bytes: string) | Eof | Interrupted | Again | Failed

  /** What the message callback and queued tasks do to the server. */
  datatype Action = Send(id: nat, data: string, sent: Sent) | Retain(id: nat) | Release(id: nat, sent: Sent)

  datatype Fate = Alive(client: Client) | Dead(client: Client, reason: Reason)

  // ----- one client -----

  /** The bytes of the buffer the kernel takes. */
  function TakenOf(out: string, sent: Sent): nat {
    if sent.Took? then (if sent.n < |out| then sent.n else |out|) else 0
  }

  function Flush(c: Client, sent: Sent): Fate {
    if c.out != "" && sent.Broken? then Dead(c, SendFailed)
    else
      var n := TakenOf(c.out, sent);
      var d := c.(out := c.out[n..], wire := c.wire + c.out[..n]);
      if d.eof && !d.reading && d.pending == 0 && d.out == "" then Dead(d, Drained)
      else Alive(d.(wantRead := !d.eof, wantWrite := d.out != ""))
  }

  function Chunk(bytes: string): string {
    if |bytes| > BUFFER then bytes[..BUFFER] else bytes
  }

  function Receive(c: Client, recvs: seq<Recv>, n: nat): Fate
    decreases n
  {
    if n == 0 || recvs == [] then Alive(c)
    else match recvs[0]
      case Data(bytes) =>
        var d := c.(input := c.input + Chunk(bytes), received := c.received + Chunk(bytes));
        if |d.input| > MAX_IN then Dead(d, InOverflow) else Receive(d, recvs[1..], n - 1)
      case Eof => Alive(c.(eof := true))
      case Interrupted => Receive(c, recvs[1..], n - 1)
      case Again => Alive(c)
      case Failed => Dead(c, RecvFailed)
  }

  // ----- the table -----

  function Close(s: Server, fd: int, c: Client, reason: Reason): Server {
    s.(clients := s.clients - {fd}, ids := s.ids - {c.id}, closed := s.closed + [Closing(c, reason)])
  }

  function Settle(s: Server, fd: int, f: Fate): Server {
    match f
    case Alive(c) => s.(clients := s.clients[fd := c])
    case Dead(c, reason) => Close(s, fd, c, reason)
  }

  function FlushAt(s: Server, fd: int, sent: Sent): Server {
    if fd !in s.clients then s else Settle(s, fd, Flush(s.clients[fd], sent))
  }

  /** The two maps agree on who is connected. */
  ghost predicate Inverse(clients: map<int, Client>, ids: map<nat, int>) {
    && (forall fd :: fd in clients ==> clients[fd].id in ids && ids[clients[fd].id] == fd)
    && (forall id :: id in ids ==> ids[id] in clients && clients[ids[id]].id == id)
  }

  /** The maps agree, and the numbers in use are below the next one. */
  ghost predicate Linked(s: Server) {
    Inverse(s.clients, s.ids) && forall id :: id in s.ids ==> id < s.next
  }

  lemma InversePut(clients: map<int, Client>, ids: map<nat, int>, fd: int, c: Client)
    requires Inverse(clients, ids) && fd in clients && c.id == clients[fd].id
    ensures Inverse(clients[fd := c], ids)
  {
  }

  lemma InverseRemove(clients: map<int, Client>, ids: map<nat, int>, fd: int)
    requires Inverse(clients, ids) && fd in clients
    ensures Inverse(clients - {fd}, ids - {clients[fd].id})
  {
    var id := clients[fd].id;
    forall g | g in clients && g != fd ensures clients[g].id != id {
    }
  }

  lemma InverseAdd(clients: map<int, Client>, ids: map<nat, int>, fd: int, c: Client)
    requires Inverse(clients, ids) && fd !in clients && c.id !in ids
    ensures Inverse(clients[fd := c], ids[c.id := fd])
  {
  }

  lemma SettleLinks(s: Server, fd: int, f: Fate)
    requires Linked(s) && fd in s.clients && f.client.id == s.clients[fd].id
    ensures Linked(Settle(s, fd, f))
  {
    if f.Alive? { InversePut(s.clients, s.ids, fd, f.client); } else { InverseRemove(s.clients, s.ids, fd); }
  }

  /** An action settles at most one connection. */
  function ActFate(c: Client, a: Action): Fate {
    match a
    case Send(_, data, sent) =>
      if |c.out| + |data| > MAX_OUT then Dead(c, OutOverflow)
      else Flush(c.(out := c.out + data), sent)
    case Retain(_) => Alive(c.(pending := c.pending + 1))
    case Release(_, sent) => Flush(c.(pending := if c.pending > 0 then c.pending - 1 else 0), sent)
  }

  /** The action is served: the connection is known and its buffer has room for a response. */
  predicate Serves(s: Server, a: Action)
    requires Linked(s)
  {
    a.id in s.ids && (a.Send? ==> |s.clients[s.ids[a.id]].out| + |a.data| <= MAX_OUT)
  }

  function EntryOf(a: Action): Served {
    match a
    case Send(id, data, _) => Taken(id, data)
    case Retain(id) => Retained(id)
    case Release(id, _) => Released(id)
  }

  function Act(s: Server, a: Action): Server
    requires Linked(s)
  {
    if a.id !in s.ids then s
    else
      var t := Settle(s, s.ids[a.id], ActFate(s.clients[s.ids[a.id]], a));
      if Serves(s, a) then t.(served := s.served + [EntryOf(a)]) else t
  }

  /** Actions neither read input nor take a descriptor; at most they close connections. */
  ghost predicate OnlyServes(s: Server, t: Server) {
    forall fd :: fd in t.clients ==>
      && fd in s.clients
      && t.clients[fd].input == s.clients[fd].input
      && t.clients[fd].id == s.clients[fd].id
      && t.clients[fd].reading == s.clients[fd].reading
      && t.clients[fd].received == s.clients[fd].received
      && t.clients[fd].eof == s.clients[fd].eof
  }

  lemma FlushKeepsRest(c: Client, sent: Sent)
    ensures var d := Flush(c, sent).client;
            d.id == c.id && d.input == c.input && d.reading == c.reading && d.received == c.received && d.eof == c.eof
  {
  }

  lemma SettleServes(s: Server, fd: int, f: Fate)
    requires fd in s.clients
    requires f.client.id == s.clients[fd].id && f.client.input == s.clients[fd].input && f.client.reading == s.clients[fd].reading
    requires f.client.received == s.clients[fd].received && f.client.eof == s.clients[fd].eof
    ensures OnlyServes(s, Settle(s, fd, f))
  {
  }

  lemma ActServes(s: Server, a: Action)
    requires Linked(s)
    ensures Linked(Act(s, a)) && OnlyServes(s, Act(s, a))
  {
    if a.id in s.ids {
      var fd := s.ids[a.id];
      var c := s.clients[fd];
      if a.Send? { FlushKeepsRest(c.(out := c.out + a.data), a.sent); }
      if a.Release? { FlushKeepsRest(c.(pending := if c.pending > 0 then c.pending - 1 else 0), a.sent); }
      SettleLinks(s, fd, ActFate(c, a));
      SettleServes(s, fd, ActFate(c, a));
    }
  }

  function ActAll(s: Server, actions: seq<Action>): (r: Server)
    requires Linked(s)
    ensures Linked(r) && OnlyServes(s, r)
    decreases |actions|
  {
    if actions == [] then s
    else
      ActServes(s, actions[0]);
      ActAll(Act(s, actions[0]), actions[1..])
  }

  /** The client after its first buffered line has been handed over. */
  function Consumed(c: Client): Client
    requires Newline(c.input, 0) < |c.input|
  {
    var pos := Newline(c.input, 0);
    c.(input := c.input[pos + 1..], messages := if pos == 0 then c.messages else c.messages + [c.input[..pos]])
  }

  /** The delivery loop; `reactions` says what the callback does for each message. */
  function Deliver(s: Server, fd: int, reactions: seq<seq<Action>>): (r: Server)
    requires Linked(s)
    ensures Linked(r)
    decreases if fd in s.clients then |s.clients[fd].input| else 0
  {
    if fd !in s.clients then s
    else
      var c := s.clients[fd];
      var pos := Newline(c.input, 0);
      if pos > MAX_LINE then (InverseRemove(s.clients, s.ids, fd); Close(s, fd, c, BadFraming))
      else if pos == |c.input| then s
      else
        InversePut(s.clients, s.ids, fd, Consumed(c));
        var s1 := s.(clients := s.clients[fd := Consumed(c)]);
        if pos == 0 then Deliver(s1, fd, reactions)
        else if reactions == [] then Deliver(s1, fd, reactions)
        else Deliver(ActAll(s1, reactions[0]), fd, reactions[1..])
  }

  function Read(s: Server, fd: int, recvs: seq<Recv>, reactions: seq<seq<Action>>, sent: Sent): Server
    requires Linked(s)
  {
    if fd !in s.clients then s
    else match Receive(s.clients[fd].(reading := true), recvs, READS)
      case Dead(c, reason) => Settle(s, fd, Dead(c, reason))
      case Alive(c) =>
        ReceiveKeepsId(s.clients[fd].(reading := true), recvs, READS);
        InversePut(s.clients, s.ids, fd, c);
        FinishRead(Deliver(s.(clients := s.clients[fd := c]), fd, reactions), fd, sent)
  }

  function FinishRead(s: Server, fd: int, sent: Sent): Server {
    if fd !in s.clients then s
    else Settle(s, fd, Flush(s.clients[fd].(reading := false), sent))
  }

  lemma {:induction false} ReceiveKeepsId(c: Client, recvs: seq<Recv>, n: nat)
    ensures Receive(c, recvs, n).client.id == c.id
    decreases n
  {
    if n > 0 && recvs != [] {
      match recvs[0]
      case Data(bytes) =>
        var d := c.(input := c.input + Chunk(bytes), received := c.received + Chunk(bytes));
        if |d.input| <= MAX_IN { ReceiveKeepsId(d, recvs[1..], n - 1); }
      case Interrupted => ReceiveKeepsId(c, recvs[1..], n - 1);
      case _ =>
    }
  }

  function NewClient(id: nat): Client {
    Client(id, "", "", false, false, 0, true, false, "", "", [])
  }

  /** accept4() returned fd; the kernel never returns a descriptor that is still open. */
  function Accept(s: Server, fd: int, registered: bool): Server {
    if |s.clients| >= MAX_CLIENTS then s
    else
      var c := NewClient(s.next);
      var t := s.(clients := s.clients[fd := c], ids := s.ids[s.next := fd], next := s.next + 1);
      if registered then t else Close(t, fd, c, NotRegistered)
  }

  lemma ReadLinks(s: Server, fd: int, recvs: seq<Recv>, reactions: seq<seq<Action>>, sent: Sent)
    requires Linked(s)
    ensures Linked(Read(s, fd, recvs, reactions, sent))
  {
    if fd in s.clients {
      var f := Receive(s.clients[fd].(reading := true), recvs, READS);
      ReceiveKeepsId(s.clients[fd].(reading := true), recvs, READS);
      match f
      case Dead(c, reason) => SettleLinks(s, fd, f);
      case Alive(c) =>
        InversePut(s.clients, s.ids, fd, c);
        FinishReadLinks(Deliver(s.(clients := s.clients[fd := c]), fd, reactions), fd, sent);
    }
  }

  lemma CloseLinks(s: Server, fd: int, reason: Reason)
    requires fd in s.clients
    ensures Linked(s) ==> Linked(Close(s, fd, s.clients[fd], reason))
  {
    if Linked(s) { InverseRemove(s.clients, s.ids, fd); }
  }

  lemma FlushLinks(s: Server, fd: int, sent: Sent)
    ensures Linked(s) ==> Linked(FlushAt(s, fd, sent))
  {
    if Linked(s) && fd in s.clients {
      FlushKeepsRest(s.clients[fd], sent);
      SettleLinks(s, fd, Flush(s.clients[fd], sent));
    }
  }

  lemma FinishReadLinks(s: Server, fd: int, sent: Sent)
    requires Linked(s)
    ensures Linked(FinishRead(s, fd, sent))
  {
    if fd in s.clients {
      FlushKeepsRest(s.clients[fd].(reading := false), sent);
      SettleLinks(s, fd, Flush(s.clients[fd].(reading := false), sent));
    }
  }

  lemma AcceptLinks(s: Server, fd: int, registered: bool)
    requires Linked(s) && fd !in s.clients
    ensures Linked(Accept(s, fd, registered))
  {
    if |s.clients| < MAX_CLIENTS {
      var c := NewClient(s.next);
      InverseAdd(s.clients, s.ids, fd, c);
      if !registered { InverseRemove(s.clients[fd := c], s.ids[c.id := fd], fd); }
    }
  }

  // ----- runs -----

  datatype Event =
    | Connect(fd: int, registered: bool)
    | Readable(fd: int, recvs: seq<Recv>, reactions: seq<seq<Action>>, sent: Sent)
    | Writable(fd: int, sent: Sent)
    | Error(fd: int)
    | Task(actions: seq<Action>)

  predicate Enabled(s: Server, e: Event) {
    match e
    case Connect(fd, _) => fd !in s.clients
    case _ => true
  }

  function Next(s: Server, e: Event): Server
    requires Linked(s) && Enabled(s, e)
  {
    match e
    case Connect(fd, registered) => Accept(s, fd, registered)
    case Readable(fd, recvs, reactions, sent) => Read(s, fd, recvs, reactions, sent)
    case Writable(fd, sent) => FlushAt(s, fd, sent)
    case Error(fd) => if fd in s.clients then Close(s, fd, s.clients[fd], Hangup) else s
    case Task(actions) => ActAll(s, actions)
  }

  function Init(): Server {
    Server(map[], map[], 1, [], [])
  }
}
