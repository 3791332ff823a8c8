/** The server object of core/reactor/TcpServer.h, each method proved against the
    connection table of module TcpModel. */
module TcpServers {
  import opened Framing
  import opened TcpModel

  lemma PutPut(m: map<int, Client>, fd: int, c: Client, d: Client)
    ensures m[fd := c][fd := d] == m[fd := d]
    ensures m[fd := c] - {fd} == m - {fd}
  {
  }

  lemma SettleAfterPut(s: Server, fd: int, c: Client, f: Fate)
    requires fd in s.clients && f.client.id == s.clients[fd].id && c.id == s.clients[fd].id
    ensures Settle(s.(clients := s.clients[fd := c]), fd, f) == Settle(s, fd, f)
  {
    PutPut(s.clients, fd, c, f.client);
  }

  class TcpServer {
    var clients: map<int, Client>
    var ids: map<nat, int>
    var next: nat
    ghost var closed: seq<Closing>
    ghost var served: seq<Served>

    ghost function Abs(): Server
      reads this
    {
      Server(clients, ids, next, closed, served)
    }

    constructor ()
      ensures Abs() == Init() && Linked(Abs())
    {
      clients, ids, next, closed, served := map[], map[], 1, [], [];
    }

    method CloseClient(fd: int, ghost reason: Reason)
      modifies this
      ensures Abs() == if fd in old(clients) then Close(old(Abs()), fd, old(clients)[fd], reason) else old(Abs())
    {
      if fd !in clients { return; }
      ids := ids - {clients[fd].id};
      closed := closed + [Closing(clients[fd], reason)];
      clients := clients - {fd};
    }

    method Update(fd: int, c: Client)
      modifies `clients
      ensures Abs() == old(Abs()).(clients := old(clients)[fd := c])
    {
      clients := clients[fd := c];
    }

    method FlushClient(fd: int, sent: Sent)
      modifies this
      ensures Abs() == FlushAt(old(Abs()), fd, sent)
      ensures old(Linked(Abs())) ==> Linked(Abs())
    {
      FlushLinks(Abs(), fd, sent);
      if fd !in clients { return; }
      var c := clients[fd];
      ghost var f := Flush(c, sent);
      assert c.out == "" ==> c.(wire := c.wire + c.out[..0], out := c.out[0..]) == c;
      if c.out != "" {
        if sent.Broken? {
          CloseClient(fd, SendFailed);
          return;
        }
        var n := TakenOf(c.out, sent);
        c := c.(wire := c.wire + c.out[..n], out := c.out[n..]);
        Update(fd, c);
      }
      SettleAfterPut(old(Abs()), fd, c, f);
      if c.eof && !c.reading && c.pending == 0 && c.out == "" {
        assert f == Dead(c, Drained);
        CloseClient(fd, Drained);
        PutPut(old(clients), fd, c, c);
        return;
      }
      assert f == Alive(c.(wantRead := !c.eof, wantWrite := c.out != ""));
      Update(fd, c.(wantRead := !c.eof, wantWrite := c.out != ""));
    }

    method SendResponse(id: nat, data: string, sent: Sent) returns (ok: bool)
      requires Linked(Abs())
      modifies this
      ensures Abs() == Act(old(Abs()), Send(id, data, sent)) && Linked(Abs())
      ensures ok <==> id in ids
    {
      ActServes(Abs(), Send(id, data, sent));
      if id !in ids { return false; }
      var fd := ids[id];
      var c := clients[fd];
      if |c.out| + |data| > MAX_OUT {
        CloseClient(fd, OutOverflow);
        return false;
      }
      var d := c.(out := c.out + data);
      Update(fd, d);
      FlushClient(fd, sent);
      FlushKeepsRest(d, sent);
      SettleAfterPut(old(Abs()), fd, d, Flush(d, sent));
      served := served + [Taken(id, data)];
      ok := id in ids;
    }

    method RetainJob(id: nat)
      requires Linked(Abs())
      modifies this
      ensures Abs() == Act(old(Abs()), Retain(id)) && Linked(Abs())
    {
      ActServes(Abs(), Retain(id));
      if id in ids {
        Update(ids[id], clients[ids[id]].(pending := clients[ids[id]].pending + 1));
        served := served + [Retained(id)];
      }
    }

    method ReleaseJob(id: nat, sent: Sent)
      requires Linked(Abs())
      modifies this
      ensures Abs() == Act(old(Abs()), Release(id, sent)) && Linked(Abs())
    {
      ActServes(Abs(), Release(id, sent));
      if id !in ids { return; }
      var fd := ids[id];
      var c := clients[fd];
      c := c.(pending := if c.pending > 0 then c.pending - 1 else 0);
      Update(fd, c);
      FlushClient(fd, sent);
      FlushKeepsRest(c, sent);
      SettleAfterPut(old(Abs()), fd, c, Flush(c, sent));
      served := served + [Released(id)];
    }

    /** What a callback or a queued task does. */
    method Perform(actions: seq<Action>)
      requires Linked(Abs())
      modifies this
      ensures Abs() == ActAll(old(Abs()), actions) && Linked(Abs())
    {
      var k := 0;
      while k < |actions|
        invariant 0 <= k <= |actions| && Linked(Abs())
        invariant ActAll(Abs(), actions[k..]) == ActAll(old(Abs()), actions)
      {
        assert actions[k..][1..] == actions[k + 1..];
        match actions[k] {
          case Send(id, data, sent) => var ok := SendResponse(id, data, sent);
          case Retain(id) => RetainJob(id);
          case Release(id, sent) => ReleaseJob(id, sent);
        }
        k := k + 1;
      }
    }

    /** A descriptor reported an error or a hangup. */
    method OnError(fd: int)
      requires Linked(Abs())
      modifies this
      ensures Linked(Abs()) && Abs() == Next(old(Abs()), Error(fd))
    {
      if fd in clients { CloseLinks(Abs(), fd, Hangup); }
      CloseClient(fd, Hangup);
    }

    method AcceptClient(fd: int, registered: bool)
      requires Linked(Abs()) && fd !in clients
      modifies this
      ensures Abs() == Accept(old(Abs()), fd, registered) && Linked(Abs())
    {
      AcceptLinks(Abs(), fd, registered);
      if |clients| >= MAX_CLIENTS { return; }
      var c := NewClient(next);
      next := next + 1;
      Update(fd, c);
      ids := ids[c.id := fd];
      if !registered { CloseClient(fd, NotRegistered); }
    }

    /** The recv() loop. False when the connection was closed. */
    method ReceiveAll(fd: int, recvs: seq<Recv>) returns (open: bool)
      requires fd in clients
      modifies this
      ensures
        var f := Receive(old(clients)[fd], recvs, READS);
        open == f.Alive? && Abs() == Settle(old(Abs()), fd, f)
    {
      var start := clients[fd];
      var i := 0;
      while i < READS && i < |recvs|
        invariant 0 <= i <= READS && i <= |recvs| && fd in clients
        invariant Abs() == old(Abs()).(clients := old(clients)[fd := clients[fd]])
        invariant clients[fd].id == start.id
        invariant Receive(clients[fd], recvs[i..], READS - i) == Receive(start, recvs, READS)
      {
        assert recvs[i..][1..] == recvs[i + 1..];
        var c := clients[fd];
        match recvs[i] {
          case Data(bytes) =>
            Update(fd, c.(input := c.input + Chunk(bytes), received := c.received + Chunk(bytes)));
            if |clients[fd].input| > MAX_IN {
              CloseClient(fd, InOverflow);
              return false;
            }
          case Eof =>
            Update(fd, c.(eof := true));
            return true;
          case Interrupted =>
          case Again => return true;
          case Failed =>
            CloseClient(fd, RecvFailed);
            return false;
        }
        i := i + 1;
      }
      return true;
    }

    /** The delivery loop; the callback's reaction to the next message is the head of the list. */
    method DeliverAll(fd: int, reactions: seq<seq<Action>>)
      requires Linked(Abs())
      modifies this
      ensures Linked(Abs()) && Abs() == Deliver(old(Abs()), fd, reactions)
    {
      var left := reactions;
      while fd in clients
        invariant Linked(Abs())
        invariant Deliver(Abs(), fd, left) == Deliver(old(Abs()), fd, reactions)
        decreases if fd in clients then |clients[fd].input| + 1 else 0
      {
        var c := clients[fd];
        var pos := Newline(c.input, 0);
        if pos == |c.input| {
          if |c.input| > MAX_LINE {
            InverseRemove(clients, ids, fd);
            CloseClient(fd, BadFraming);
          }
          return;
        }
        if pos > MAX_LINE {
          InverseRemove(clients, ids, fd);
          CloseClient(fd, BadFraming);
          return;
        }
        InversePut(clients, ids, fd, Consumed(c));
        Update(fd, Consumed(c));
        if pos > 0 && left != [] {
          Perform(left[0]);
          left := left[1..];
        }
      }
    }

    method EndRead(fd: int, sent: Sent)
      modifies this
      ensures Abs() == FinishRead(old(Abs()), fd, sent)
    {
      if fd in clients {
        var c := clients[fd].(reading := false);
        Update(fd, c);
        FlushClient(fd, sent);
        FlushKeepsRest(c, sent);
        SettleAfterPut(old(Abs()), fd, c, Flush(c, sent));
      } else {
        FlushClient(fd, sent);
      }
    }

    /** The statements before the delivery loop. */
    method BeginRead(fd: int, recvs: seq<Recv>) returns (open: bool)
      requires Linked(Abs()) && fd in clients
      modifies this
      ensures
        var f := Receive(old(clients)[fd].(reading := true), recvs, READS);
        && Linked(Abs()) && open == f.Alive? && Abs() == Settle(old(Abs()), fd, f)
    {
      var c := clients[fd].(reading := true);
      Update(fd, c);
      ghost var f := Receive(c, recvs, READS);
      ReceiveKeepsId(c, recvs, READS);
      SettleLinks(old(Abs()), fd, f);
      SettleAfterPut(old(Abs()), fd, c, f);
      open := ReceiveAll(fd, recvs);
    }

    method ReadClient(fd: int, recvs: seq<Recv>, reactions: seq<seq<Action>>, sent: Sent)
      requires Linked(Abs())
      modifies this
      ensures Abs() == Read(old(Abs()), fd, recvs, reactions, sent) && Linked(Abs())
    {
      ReadLinks(Abs(), fd, recvs, reactions, sent);
      if fd !in clients { return; }
      var open := BeginRead(fd, recvs);
      if !open { return; }
      DeliverAll(fd, reactions);
      EndRead(fd, sent);
    }
  }
}
