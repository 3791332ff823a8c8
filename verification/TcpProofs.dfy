/** What every run of the connection table guarantees. */
module TcpProofs {
  import opened Framing
  import opened TcpModel

  // ----- one connection -----

  /** Nothing complete is left in the buffer, and it is not too long. */
  ghost predicate Quiet(input: string) {
    Frame(input) == Framed([], input, false)
  }

  /** The messages handed over and the buffer are what the received stream yields. */
  ghost predicate InStep(received: string, messages: seq<string>, input: string, reading: bool) {
    && Frame(received) == After(messages, Frame(input))
    && (!reading ==> Quiet(input))
  }

  /** What the kernel took and what it has yet to take. */
  function Sum(c: Client): string {
    c.wire + c.out
  }

  /** The output buffer is bounded, and the messages handed over are those of the received
      stream so far. */
  ghost predicate Ledger(c: Client) {
    && |c.out| <= MAX_OUT
    && InStep(c.received, c.messages, c.input, c.reading)
  }

  /** A connection between the statements of a handler; outside readClient it also waits
      for the right events, and a half-closed one still has work. */
  ghost predicate ClientOk(c: Client) {
    && Ledger(c)
    && (c.wantWrite <==> c.out != "")
    && (!c.reading ==> c.wantRead == !c.eof && (c.eof ==> c.pending > 0 || c.out != ""))
  }

  /** What is true of a connection when it is closed. */
  ghost predicate ClosedOk(x: Closing) {
    var c := x.client;
    && c.messages <= Frame(c.received).lines
    && x.reason != InOverflow
    && (x.reason == Drained ==>
          && c.eof && c.pending == 0 && c.out == ""
          && Frame(c.received) == Framed(c.messages, c.input, false))
    && (x.reason == BadFraming ==> Frame(c.received).overlong && c.messages == Frame(c.received).lines)
  }

  ghost predicate SameAccount(c: Client, d: Client) {
    Sum(d) == Sum(c) && d.pending == c.pending
  }

  ghost predicate FateOk(c: Client, f: Fate) {
    && f.client.id == c.id && SameAccount(c, f.client)
    && (f.Alive? ==> ClientOk(f.client) && f.client.reading == c.reading)
    && (f.Dead? ==> ClosedOk(Closing(f.client, f.reason)))
  }

  lemma Resplit(wire: string, out: string, n: nat)
    requires n <= |out|
    ensures wire + out[..n] + out[n..] == wire + out
  {
    assert out == out[..n] + out[n..];
    assert wire + out[..n] + out[n..] == wire + (out[..n] + out[n..]);
  }

  lemma FlushKeepsLedger(c: Client, sent: Sent)
    requires Ledger(c)
    ensures Ledger(Flush(c, sent).client) && Sum(Flush(c, sent).client) == Sum(c)
  {
    Resplit(c.wire, c.out, TakenOf(c.out, sent));
  }

  /** Outside readClient everything received has been framed. */
  lemma SettledIsFramed(c: Client)
    requires Ledger(c) && !c.reading
    ensures Frame(c.received) == Framed(c.messages, c.input, false)
  {
    assert c.messages + [] == c.messages;
  }

  lemma FlushIsOk(c: Client, sent: Sent)
    requires Ledger(c)
    ensures FateOk(c, Flush(c, sent))
  {
    FlushKeepsLedger(c, sent);
    if !c.reading { SettledIsFramed(Flush(c, sent).client); }
  }

  // ----- the table -----

  ghost predicate ClientsOk(clients: map<int, Client>) {
    forall fd :: fd in clients ==> ClientOk(clients[fd])
  }

  /** Each connection number is used once. */
  ghost predicate ClosedAllOk(closed: seq<Closing>, ids: map<nat, int>, next: nat) {
    && (forall id :: id in ids ==> id < next)
    && (forall k :: 0 <= k < |closed| ==> ClosedOk(closed[k]))
    && (forall k :: 0 <= k < |closed| ==> closed[k].client.id < next && closed[k].client.id !in ids)
    && (forall i, j :: 0 <= i < j < |closed| ==> closed[i].client.id != closed[j].client.id)
  }

  /** The connection has been given what it is owed, or still holds it, and counts its jobs. */
  ghost predicate Settled(c: Client, served: seq<Served>) {
    Sum(c) == Owed(served, c.id) && c.pending == Jobs(served, c.id)
  }

  /** So it is for every connection, open or closed; and nothing is owed to a connection that
      does not exist yet. */
  ghost predicate AllSettled(clients: map<int, Client>, closed: seq<Closing>, served: seq<Served>, next: nat) {
    && (forall fd :: fd in clients ==> Settled(clients[fd], served))
    && (forall k :: 0 <= k < |closed| ==> Settled(closed[k].client, served))
    && (forall id :: next <= id ==> Owed(served, id) == "" && Jobs(served, id) == 0)
  }

  ghost predicate Inv(s: Server) {
    && Linked(s)
    && AllSettled(s.clients, s.closed, s.served, s.next)
    && |s.clients| <= MAX_CLIENTS
    && ClientsOk(s.clients)
    && ClosedAllOk(s.closed, s.ids, s.next)
  }

  /** Only the connection at fd, if any, is inside readClient. */
  ghost predicate OnlyReading(s: Server, fd: int) {
    forall g :: g in s.clients && g != fd ==> !s.clients[g].reading
  }

  ghost predicate NoneReading(s: Server) {
    forall g :: g in s.clients ==> !s.clients[g].reading
  }

  lemma PutKeepsCount(clients: map<int, Client>, fd: int, c: Client)
    requires fd in clients
    ensures |clients[fd := c]| == |clients|
  {
    assert clients[fd := c].Keys == clients.Keys;
    assert |clients[fd := c].Keys| == |clients.Keys|;
  }

  lemma RemoveLowersCount(clients: map<int, Client>, fd: int)
    ensures |clients - {fd}| <= |clients|
  {
    assert (clients - {fd}).Keys == clients.Keys - {fd};
    assert |(clients - {fd}).Keys| <= |clients.Keys|;
  }

  lemma PutKeepsInv(s: Server, fd: int, c: Client)
    requires Inv(s) && fd in s.clients && c.id == s.clients[fd].id && ClientOk(c) && SameAccount(s.clients[fd], c)
    ensures Inv(s.(clients := s.clients[fd := c]))
  {
    InversePut(s.clients, s.ids, fd, c);
    PutKeepsCount(s.clients, fd, c);
  }

  lemma ClosedGrows(closed: seq<Closing>, ids: map<nat, int>, next: nat, x: Closing)
    requires ClosedAllOk(closed, ids, next) && x.client.id in ids && ClosedOk(x)
    ensures ClosedAllOk(closed + [x], ids - {x.client.id}, next)
  {
  }

  lemma CloseKeepsInv(s: Server, fd: int, c: Client, reason: Reason)
    requires Inv(s) && fd in s.clients && c.id == s.clients[fd].id && ClosedOk(Closing(c, reason)) && SameAccount(s.clients[fd], c)
    ensures Inv(Close(s, fd, c, reason))
  {
    InverseRemove(s.clients, s.ids, fd);
    RemoveLowersCount(s.clients, fd);
    ClosedGrows(s.closed, s.ids, s.next, Closing(c, reason));
  }

  lemma SettleKeepsInv(s: Server, fd: int, f: Fate)
    requires Inv(s) && fd in s.clients && FateOk(s.clients[fd], f)
    ensures Inv(Settle(s, fd, f))
  {
    match f
    case Alive(c) => PutKeepsInv(s, fd, c);
    case Dead(c, reason) => CloseKeepsInv(s, fd, c, reason);
  }

  lemma ClosingIsOk(c: Client, reason: Reason)
    requires Ledger(c) && reason != Drained && reason != BadFraming && reason != InOverflow
    ensures ClosedOk(Closing(c, reason))
  {
  }

  lemma PutServed(s: Server, v: Served, c: Client)
    requires Inv(s) && v.id in s.ids && Gains(s.clients[s.ids[v.id]], v, c)
    ensures AllSettled(s.clients[s.ids[v.id] := c], s.closed, s.served + [v], s.next)
  {
    ServedGrows(s, v);
  }

  lemma CloseServed(s: Server, v: Served, x: Closing)
    requires Inv(s) && v.id in s.ids && Gains(s.clients[s.ids[v.id]], v, x.client)
    ensures AllSettled(s.clients - {s.ids[v.id]}, s.closed + [x], s.served + [v], s.next)
  {
    ServedGrows(s, v);
    var fd := s.ids[v.id];
    assert fd in s.clients && Settled(s.clients[fd], s.served);
    assert Settled(x.client, s.served + [v]);
  }

  /** Connection d is c after call v. */
  ghost predicate Gains(c: Client, v: Served, d: Client) {
    d.id == c.id == v.id && Sum(d) == Sum(c) + DataOf(v) && d.pending == JobsAfter(c.pending, v)
  }

  /** A call for one connection changes no other's account. */
  lemma ServedGrows(s: Server, v: Served)
    requires Inv(s) && v.id in s.ids
    ensures
      var more := s.served + [v];
      && Owed(more, v.id) == Owed(s.served, v.id) + DataOf(v)
      && Jobs(more, v.id) == JobsAfter(Jobs(s.served, v.id), v)
      && (forall fd :: fd in s.clients && fd != s.ids[v.id] ==> Settled(s.clients[fd], more))
      && (forall k :: 0 <= k < |s.closed| ==> Settled(s.closed[k].client, more))
      && (forall id :: s.next <= id ==> Owed(more, id) == "" && Jobs(more, id) == 0)
  {
    forall id
      ensures Owed(s.served + [v], id) == Owed(s.served, id) + if v.id == id then DataOf(v) else ""
      ensures Jobs(s.served + [v], id) == if v.id == id then JobsAfter(Jobs(s.served, id), v) else Jobs(s.served, id)
    {
      ServedAppend(s.served, v, id);
    }
  }

  lemma ServedLives(s: Server, v: Served, c: Client)
    requires Inv(s) && v.id in s.ids && Gains(s.clients[s.ids[v.id]], v, c) && ClientOk(c)
    ensures Inv(s.(clients := s.clients[s.ids[v.id] := c], served := s.served + [v]))
  {
    var fd := s.ids[v.id];
    InversePut(s.clients, s.ids, fd, c);
    PutKeepsCount(s.clients, fd, c);
    PutServed(s, v, c);
  }

  lemma ServedDies(s: Server, v: Served, x: Closing)
    requires Inv(s) && v.id in s.ids && Gains(s.clients[s.ids[v.id]], v, x.client) && ClosedOk(x)
    ensures Inv(Close(s, s.ids[v.id], x.client, x.reason).(served := s.served + [v]))
  {
    var fd := s.ids[v.id];
    InverseRemove(s.clients, s.ids, fd);
    RemoveLowersCount(s.clients, fd);
    ClosedGrows(s.closed, s.ids, s.next, x);
    CloseServed(s, v, x);
  }

  lemma KnownIsOk(s: Server, id: nat)
    requires Inv(s) && id in s.ids
    ensures s.ids[id] in s.clients && s.clients[s.ids[id]].id == id && ClientOk(s.clients[s.ids[id]])
  {
    var fd := s.ids[id];
    assert fd in s.clients;
    assert ClientOk(s.clients[fd]);
  }

  /** f is a rightful outcome for connection c once entry v is in its history. */
  ghost predicate ServedWell(c: Client, v: Served, f: Fate) {
    && Gains(c, v, f.client)
    && (f.Alive? ==> ClientOk(f.client))
    && (f.Dead? ==> ClosedOk(Closing(f.client, f.reason)))
  }

  lemma FlushServesWell(c: Client, v: Served, d: Client, sent: Sent)
    requires Ledger(d) && Gains(c, v, d)
    ensures ServedWell(c, v, Flush(d, sent))
  {
    FlushIsOk(d, sent);
    OutcomeServesWell(c, v, d, Flush(d, sent));
  }

  lemma OutcomeServesWell(c: Client, v: Served, d: Client, f: Fate)
    requires FateOk(d, f) && Gains(c, v, d)
    ensures ServedWell(c, v, f)
  {
  }

  lemma SendGains(c: Client, data: string, d: Client)
    requires Ledger(c) && |c.out| + |data| <= MAX_OUT && d == c.(out := c.out + data)
    ensures Ledger(d) && Gains(c, Taken(c.id, data), d)
  {
    assert Sum(d) == Sum(c) + data;
  }

  lemma ReleaseGains(c: Client, d: Client)
    requires Ledger(c) && d == c.(pending := if c.pending > 0 then c.pending - 1 else 0)
    ensures Ledger(d) && Gains(c, Released(c.id), d)
  {
    assert Sum(c) + "" == Sum(c);
  }

  /** What a call that is served does to its connection. */
  lemma ServedIsOk(c: Client, a: Action)
    requires ClientOk(c) && a.id == c.id
    requires a.Send? ==> |c.out| + |a.data| <= MAX_OUT
    ensures ServedWell(c, EntryOf(a), ActFate(c, a))
  {
    match a
    case Send(_, data, sent) =>
      var d := c.(out := c.out + data);
      SendGains(c, data, d);
      FlushServesWell(c, EntryOf(a), d, sent);
    case Retain(_) => assert Sum(c) + "" == Sum(c);
    case Release(_, sent) =>
      var d := c.(pending := if c.pending > 0 then c.pending - 1 else 0);
      ReleaseGains(c, d);
      FlushServesWell(c, EntryOf(a), d, sent);
  }

  lemma ActKeepsInv(s: Server, a: Action)
    requires Inv(s)
    ensures Inv(Act(s, a))
  {
    if a.id in s.ids {
      KnownIsOk(s, a.id);
      var fd := s.ids[a.id];
      var c := s.clients[fd];
      if Serves(s, a) {
        ServedIsOk(c, a);
        var f := ActFate(c, a);
        if f.Alive? { ServedLives(s, EntryOf(a), f.client); } else { ServedDies(s, EntryOf(a), Closing(f.client, f.reason)); }
      } else {
        ClosingIsOk(c, OutOverflow);
        CloseKeepsInv(s, fd, c, OutOverflow);
      }
    }
  }

  lemma {:induction false} ActAllKeepsInv(s: Server, actions: seq<Action>)
    requires Inv(s)
    ensures Inv(ActAll(s, actions))
    decreases |actions|
  {
    if actions != [] {
      ActKeepsInv(s, actions[0]);
      ActAllKeepsInv(Act(s, actions[0]), actions[1..]);
    }
  }

  // ----- reading -----

  /** The reads of one event append at most four buffers to both the input buffer and the
      received stream, so the limit on the input buffer is never met. */
  lemma {:induction false} ReceiveAppends(c: Client, recvs: seq<Recv>, n: nat) returns (d: string)
    requires n <= READS && |c.input| <= MAX_LINE + (READS - n) * BUFFER
    ensures
      var r := Receive(c, recvs, n);
      && r.client == c.(input := c.input + d, received := c.received + d, eof := r.client.eof)
      && |r.client.input| <= 24576
      && (r.Dead? ==> r.reason == RecvFailed)
    decreases n
  {
    d := "";
    assert c.input + "" == c.input && c.received + "" == c.received;
    if n > 0 && recvs != [] {
      match recvs[0]
      case Data(bytes) =>
        var b := Chunk(bytes);
        var more := ReceiveAppends(c.(input := c.input + b, received := c.received + b), recvs[1..], n - 1);
        d := b + more;
        assert c.input + b + more == c.input + d && c.received + b + more == c.received + d;
      case Interrupted => d := ReceiveAppends(c, recvs[1..], n - 1);
      case _ =>
    }
  }

  lemma ReceiveIsOk(c: Client, recvs: seq<Recv>)
    requires ClientOk(c) && !c.reading
    ensures
      var r := Receive(c.(reading := true), recvs, READS);
      && FateOk(c.(reading := true), r) && |r.client.input| <= 24576
  {
    RestIsStable(c.input);
    var d := ReceiveAppends(c.(reading := true), recvs, READS);
    FrameConcat(c.received, d);
    var r := Receive(c.(reading := true), recvs, READS);
    assert c.messages + [] == c.messages;
    assert Frame(c.received) == Framed(c.messages, c.input, false);
    assert Frame(r.client.received) == After(c.messages, Frame(c.input + d));
    assert Ledger(r.client);
    if r.Dead? { ClosingIsOk(r.client, r.reason); }
  }

  lemma AfterCons(messages: seq<string>, line: string, f: Framed)
    ensures After(messages, Cons(line, f)) == After(if line == "" then messages else messages + [line], f)
  {
    var first := if line == "" then [] else [line];
    assert messages + (first + f.lines) == messages + first + f.lines;
    assert messages + [] == messages;
  }

  lemma ConsumedIsOk(c: Client)
    requires ClientOk(c) && c.reading
    requires Newline(c.input, 0) < |c.input| && Newline(c.input, 0) <= MAX_LINE
    ensures ClientOk(Consumed(c)) && Consumed(c).reading && Consumed(c).id == c.id
  {
    var pos := Newline(c.input, 0);
    AfterCons(c.messages, c.input[..pos], Frame(c.input[pos + 1..]));
    assert Frame(c.input) == Cons(c.input[..pos], Frame(c.input[pos + 1..]));
    assert Frame(c.received) == After(Consumed(c).messages, Frame(Consumed(c).input));
  }

  lemma OverlongIsOk(c: Client)
    requires ClientOk(c)
    requires Frame(c.input).overlong && Frame(c.input).lines == []
    ensures ClosedOk(Closing(c, BadFraming))
  {
    assert c.messages + [] == c.messages;
  }

  /** The state of the delivery loop. */
  ghost predicate Delivering(s: Server, fd: int) {
    Inv(s) && OnlyReading(s, fd) && (fd in s.clients ==> s.clients[fd].reading)
  }

  lemma ConsumeKeepsDelivering(s: Server, fd: int)
    requires Delivering(s, fd) && fd in s.clients
    requires var c := s.clients[fd]; Newline(c.input, 0) < |c.input| && Newline(c.input, 0) <= MAX_LINE
    ensures Delivering(s.(clients := s.clients[fd := Consumed(s.clients[fd])]), fd)
  {
    ConsumedIsOk(s.clients[fd]);
    PutKeepsInv(s, fd, Consumed(s.clients[fd]));
  }

  lemma ReactKeepsDelivering(s: Server, fd: int, actions: seq<Action>)
    requires Delivering(s, fd)
    ensures Delivering(ActAll(s, actions), fd)
  {
    ActAllKeepsInv(s, actions);
  }

  lemma QuietWhenPlain(input: string)
    requires Newline(input, 0) == |input| <= MAX_LINE
    ensures Quiet(input)
  {
  }

  lemma {:induction false} DeliverKeepsInv(s: Server, fd: int, reactions: seq<seq<Action>>)
    requires Delivering(s, fd)
    ensures Delivering(Deliver(s, fd, reactions), fd)
    ensures fd in Deliver(s, fd, reactions).clients ==> Quiet(Deliver(s, fd, reactions).clients[fd].input)
    decreases if fd in s.clients then |s.clients[fd].input| else 0
  {
    if fd !in s.clients { return; }
    var c := s.clients[fd];
    var pos := Newline(c.input, 0);
    if pos > MAX_LINE {
      OverlongIsOk(c);
      CloseKeepsInv(s, fd, c, BadFraming);
    } else if pos == |c.input| {
      QuietWhenPlain(c.input);
    } else {
      var s1 := s.(clients := s.clients[fd := Consumed(c)]);
      ConsumeKeepsDelivering(s, fd);
      if pos == 0 || reactions == [] {
        DeliverKeepsInv(s1, fd, reactions);
      } else {
        ReactKeepsDelivering(s1, fd, reactions[0]);
        DeliverKeepsInv(ActAll(s1, reactions[0]), fd, reactions[1..]);
      }
    }
  }

  lemma FinishReadKeepsInv(s: Server, fd: int, sent: Sent)
    requires Inv(s) && OnlyReading(s, fd)
    requires fd in s.clients ==> s.clients[fd].reading && Quiet(s.clients[fd].input)
    ensures Inv(FinishRead(s, fd, sent)) && NoneReading(FinishRead(s, fd, sent))
  {
    if fd in s.clients {
      EndedIsOk(s.clients[fd], sent);
      var f := Flush(s.clients[fd].(reading := false), sent);
      if f.Alive? { EndedLives(s, fd, f.client); } else { EndedDies(s, fd, f.client, f.reason); }
    }
  }

  /** The last flush of a read, for the connection alone. */
  lemma EndedIsOk(c: Client, sent: Sent)
    requires ClientOk(c) && Quiet(c.input)
    ensures
      var f := Flush(c.(reading := false), sent);
      && f.client.id == c.id && SameAccount(c, f.client)
      && (f.Alive? ==> ClientOk(f.client) && !f.client.reading)
      && (f.Dead? ==> ClosedOk(Closing(f.client, f.reason)))
  {
    FlushIsOk(c.(reading := false), sent);
  }

  lemma EndedLives(s: Server, fd: int, c: Client)
    requires Inv(s) && OnlyReading(s, fd) && fd in s.clients
    requires c.id == s.clients[fd].id && SameAccount(s.clients[fd], c) && ClientOk(c) && !c.reading
    ensures Inv(s.(clients := s.clients[fd := c])) && NoneReading(s.(clients := s.clients[fd := c]))
  {
    PutKeepsInv(s, fd, c);
  }

  lemma EndedDies(s: Server, fd: int, c: Client, reason: Reason)
    requires Inv(s) && OnlyReading(s, fd) && fd in s.clients
    requires c.id == s.clients[fd].id && SameAccount(s.clients[fd], c) && ClosedOk(Closing(c, reason))
    ensures Inv(Close(s, fd, c, reason)) && NoneReading(Close(s, fd, c, reason))
  {
    CloseKeepsInv(s, fd, c, reason);
  }

  lemma ReadKeepsInv(s: Server, fd: int, recvs: seq<Recv>, reactions: seq<seq<Action>>, sent: Sent)
    requires Inv(s) && NoneReading(s)
    ensures Inv(Read(s, fd, recvs, reactions, sent)) && NoneReading(Read(s, fd, recvs, reactions, sent))
  {
    if fd in s.clients {
      ReceiveIsOk(s.clients[fd], recvs);
      match Receive(s.clients[fd].(reading := true), recvs, READS)
      case Dead(c, reason) => CloseKeepsInv(s, fd, c, reason);
      case Alive(c) =>
        PutKeepsInv(s, fd, c);
        var s1 := s.(clients := s.clients[fd := c]);
        DeliverKeepsInv(s1, fd, reactions);
        FinishReadKeepsInv(Deliver(s1, fd, reactions), fd, sent);
    }
  }

  // ----- events -----

  lemma AddKeepsInv(s: Server, fd: int, c: Client)
    requires Inv(s) && fd !in s.clients && c.id == s.next && ClientOk(c) && Sum(c) == "" && c.pending == 0 && |s.clients| < MAX_CLIENTS
    ensures Inv(s.(clients := s.clients[fd := c], ids := s.ids[c.id := fd], next := s.next + 1))
  {
    assert c.id !in s.ids;
    InverseAdd(s.clients, s.ids, fd, c);
    AddRaisesCount(s.clients, fd, c);
    NextGrows(s.closed, s.ids, s.next, fd);
    assert ClientsOk(s.clients[fd := c]);
  }

  lemma AddRaisesCount(clients: map<int, Client>, fd: int, c: Client)
    requires fd !in clients
    ensures |clients[fd := c]| == |clients| + 1
  {
    assert clients[fd := c].Keys == clients.Keys + {fd};
    assert |clients[fd := c].Keys| == |clients.Keys| + 1;
  }

  lemma NextGrows(closed: seq<Closing>, ids: map<nat, int>, next: nat, fd: int)
    requires ClosedAllOk(closed, ids, next)
    ensures ClosedAllOk(closed, ids[next := fd], next + 1)
  {
  }

  lemma RegisterKeepsInv(s: Server, fd: int)
    requires Inv(s) && NoneReading(s) && fd !in s.clients && |s.clients| < MAX_CLIENTS
    ensures
      var c := NewClient(s.next);
      var t := s.(clients := s.clients[fd := c], ids := s.ids[c.id := fd], next := s.next + 1);
      Inv(t) && NoneReading(t) && Ledger(c)
  {
    assert Frame("") == Framed([], "", false);
    AddKeepsInv(s, fd, NewClient(s.next));
  }

  lemma AcceptKeepsInv(s: Server, fd: int, registered: bool)
    requires Inv(s) && NoneReading(s) && fd !in s.clients
    ensures Inv(Accept(s, fd, registered)) && NoneReading(Accept(s, fd, registered))
  {
    if |s.clients| < MAX_CLIENTS {
      RegisterKeepsInv(s, fd);
      if !registered {
        var c := NewClient(s.next);
        var t := s.(clients := s.clients[fd := c], ids := s.ids[c.id := fd], next := s.next + 1);
        ClosingIsOk(c, NotRegistered);
        CloseKeepsInv(t, fd, c, NotRegistered);
      }
    }
  }

  lemma NextKeepsInv(s: Server, e: Event)
    requires Inv(s) && NoneReading(s) && Enabled(s, e)
    ensures Inv(Next(s, e)) && NoneReading(Next(s, e))
  {
    match e
    case Connect(fd, registered) => AcceptKeepsInv(s, fd, registered);
    case Readable(fd, recvs, reactions, sent) => ReadKeepsInv(s, fd, recvs, reactions, sent);
    case Writable(fd, sent) =>
      if fd in s.clients {
        FlushIsOk(s.clients[fd], sent);
        SettleKeepsInv(s, fd, Flush(s.clients[fd], sent));
      }
    case Error(fd) =>
      if fd in s.clients {
        ClosingIsOk(s.clients[fd], Hangup);
        CloseKeepsInv(s, fd, s.clients[fd], Hangup);
      }
    case Task(actions) => ActAllKeepsInv(s, actions);
  }

  /** The states some sequence of events leads to, one state per event. */
  ghost predicate IsRun(states: seq<Server>, events: seq<Event>) {
    && |states| == |events| + 1
    && states[0] == Init()
    && forall i :: 0 <= i < |events| ==>
         && Linked(states[i]) && Enabled(states[i], events[i])
         && states[i + 1] == Next(states[i], events[i])
  }

  lemma {:induction false} EveryRunKeepsInv(states: seq<Server>, events: seq<Event>, i: nat)
    requires IsRun(states, events) && i < |states|
    ensures Inv(states[i]) && NoneReading(states[i])
    decreases i
  {
    if i > 0 {
      EveryRunKeepsInv(states, events, i - 1);
      NextKeepsInv(states[i - 1], events[i - 1]);
    }
  }

  // ----- the promises -----

  /** Over every run: the two maps are inverse to each other, at most 16 clients are
      connected, and a connection number is never used twice, whatever descriptors are
      reused. */
  lemma TableIsConsistent(states: seq<Server>, events: seq<Event>, i: nat)
    requires IsRun(states, events) && i < |states|
    ensures
      var s := states[i];
      && Inverse(s.clients, s.ids) && |s.clients| <= 16
      && (forall id :: id in s.ids ==> id < s.next)
      && (forall j, k :: 0 <= j < k < |s.closed| ==> s.closed[j].client.id != s.closed[k].client.id)
      && (forall k :: 0 <= k < |s.closed| ==> s.closed[k].client.id !in s.ids)
  {
    EveryRunKeepsInv(states, events, i);
  }

  /** Over every run, between events: what the kernel took of a connection, followed by its
      output buffer, is the data of the responses taken for that connection number and no
      other, in the order of the calls, whatever descriptor it has; the buffer holds at most
      65536 bytes, and while it holds any the connection waits to become writable. A
      half-closed connection that is still open has a retained job or unsent bytes. */
  lemma ResponsesAreConserved(states: seq<Server>, events: seq<Event>, i: nat, fd: int)
    requires IsRun(states, events) && i < |states| && fd in states[i].clients
    ensures
      var c := states[i].clients[fd];
      && c.wire + c.out == Owed(states[i].served, c.id)
      && c.pending == Jobs(states[i].served, c.id)
      && |c.out| <= 65536
      && (c.wantWrite <==> c.out != "")
      && (c.wantRead <==> !c.eof)
      && (c.eof ==> c.pending > 0 || c.out != "")
  {
    EveryRunKeepsInv(states, events, i);
  }

  /** Over every run, between events: the messages handed over for an open connection are
      the nonempty complete lines of everything it has received, however that was cut into
      reads; no piece was too long, and only the unfinished last piece is buffered. */
  lemma OpenConnectionsAreFramed(states: seq<Server>, events: seq<Event>, i: nat, fd: int)
    requires IsRun(states, events) && i < |states| && fd in states[i].clients
    ensures
      var c := states[i].clients[fd];
      var pieces := Split(c.received);
      && c.messages == Messages(Complete(pieces))
      && !TooLong(pieces)
      && c.input == pieces[|pieces| - 1] && |c.input| <= 8192
  {
    EveryRunKeepsInv(states, events, i);
    var c := states[i].clients[fd];
    SettledIsFramed(c);
    FrameMeansSplit(c.received);
  }

  /** Over every run, for every closed connection: what was handed over is a prefix of its
      messages, and all of them when it was given up for framing, which happens only for a
      piece that is too long; the limit on the input buffer is never what closes it; and a
      connection closed for being drained had received everything it was owed. */
  lemma ClosingsAreJustified(states: seq<Server>, events: seq<Event>, i: nat, k: nat)
    requires IsRun(states, events) && i < |states| && k < |states[i].closed|
    ensures
      var c, reason := states[i].closed[k].client, states[i].closed[k].reason;
      var pieces := Split(c.received);
      && c.messages <= Messages(Complete(pieces))
      && c.wire + c.out == Owed(states[i].served, c.id)
      && reason != InOverflow
      && (reason == BadFraming ==> TooLong(pieces) && c.messages == Messages(Complete(pieces)))
      && (reason == Drained ==>
            && c.eof && Jobs(states[i].served, c.id) == 0 && c.wire == Owed(states[i].served, c.id)
            && c.messages == Messages(Complete(pieces)) && !TooLong(pieces))
  {
    EveryRunKeepsInv(states, events, i);
    FrameMeansSplit(states[i].closed[k].client.received);
  }
}
