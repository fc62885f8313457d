/**
 What the server sends to a client that has not joined a session yet, over all runs: answers DENY and
 nothing else, until OK and the batch of users. So the message queue of a joiner holds, or has held, no
 message with a body when the batch is built in it.
 */
module Joining {
  import opened Wire
  import opened Slots
  import opened ServerModel
  import opened Tables
  import opened Network
  import opened WellTyped
  import opened Typing
  import opened Preservation
  import opened Guarantees
  import opened Membership

  /** Connected, and not in a session. */
  predicate Newcomer(s: Server, x: ClientId) {
    x in s.conns && !s.conns[x].complete
  }

  predicate AllDeny(q: seq<Packet>) {
    forall p | p in q :: p.ServerDeny?
  }

  lemma AllDenyAppend(p: seq<Packet>, q: seq<Packet>)
    requires AllDeny(p) && AllDeny(q)
    ensures AllDeny(p + q)
  {
  }

  /** What packet_intro sends to a client that it admits. */
  function Greeting(conns: map<ClientId, Conn>, order: seq<ClientId>, x: ClientId): seq<Packet>
    requires x in conns
  {
    var peers := Peers(conns, order, x, conns[x].session);
    PeersConnected(conns, order, x, conns[x].session);
    [ServerOk] + (if peers == [] then [] else [NewUsers(UsersOf(conns, peers))])
  }

  // ---------------------------------------------------------------- one handler

  lemma NotAddressed(sends: seq<Send>, x: ClientId)
    requires forall sd | sd in sends :: sd.to != x
    ensures For(sends, x) == []
  {
    ForMember(sends, x);
  }

  lemma IntroToNewcomer(s: Server, order: seq<ClientId>, c: ClientId, p: Packet, x: ClientId)
    requires c in s.conns && p.ClientIntro? && IsOrder(order, s.conns) && Newcomer(s, x)
    ensures var r := PacketIntro(s, order, c, p);
            if Newcomer(r.server, x) then AllDeny(For(r.sends, x))
            else x == c && x in r.server.conns && For(r.sends, x) == Greeting(r.server.conns, order, x)
  {
    hide PacketIntro, Peers, UsersOf;
    IntroShape(s, order, c, p);
    var r := PacketIntro(s, order, c, p);
    if r.server == s {
      ForMember(r.sends, x);
    } else {
      IntroSends(s, order, c, p, x);
    }
  }

  /** No row and no transfer names a newcomer. */
  lemma NotInTables(s: Server, o: Origins, x: ClientId, t: TransferId, f: Filter, c: ClientId)
    requires TablesOk(s, o) && Newcomer(s, x) && x != 0
    ensures RowOf(s.rows, t, x) == NoRow && CreatorOf(s.transfers, t) != x
    ensures x !in Clients(s.rows, t, f)
    ensures forall tr | tr in JoinedBy(s.transfers, s.rows, c) :: tr.creator != x
  {
    ClientsOf(s.rows, t, f, x);
    JoinedByOf(s.transfers, s.rows, c, t);
  }

  lemma NotRecipient(s: Server, c: ClientId, to: ToList, x: ClientId)
    requires SessionsOk(s) && c in s.conns && s.conns[c].complete && RecipientsOk(s, c, to) && Newcomer(s, x)
    ensures x !in Recipients(to)
  {
    if x in Recipients(to) {
      RecipientAt(to, x);
    }
  }

  lemma RecipientAt(to: seq<ClientId>, x: ClientId)
    requires x in Recipients(to)
    ensures exists i | 0 <= i < Len(to) :: to[i] == x
  {
  }

  lemma TransferToNewcomer(s: Server, c: ClientId, req: Request, x: ClientId)
    requires SessionsOk(s) && c in s.conns && s.conns[c].complete && Newcomer(s, x)
    ensures For(PacketTransfer(s, c, req).sends, x) == []
  {
    hide SessionsOk;
    var sends := PacketTransfer(s, c, req).sends;
    if RecipientsOk(s, c, req.hdr.to) {
      NotRecipient(s, c, req.hdr.to, x);
      var p := TransferRequest(req.(hdr := req.hdr.(tid := s.nextTid, from := c)));
      FanMember(s.conns, Recipients(req.hdr.to), p);
    }
    NotAddressed(sends, x);
  }

  /** The other handlers address clients that the tables name. */
  lemma RelayToNewcomer(s: Server, o: Origins, order: seq<ClientId>, c: ClientId, p: Packet, x: ClientId)
    requires TablesOk(s, o) && c in s.conns && Newcomer(s, x) && x != 0
    requires !p.ClientIntro? && !p.TransferRequest?
    ensures For(Handle(s, order, c, p).sends, x) == []
  {
    hide TablesOk, RowOf, CreatorOf, JoinedBy, Clients;
    var r := Handle(s, order, c, p);
    match p
    case TransferReply(t, _, _) =>
      NotInTables(s, o, x, t, Accepted, c);
      NotAddressed(r.sends, x);
    case TransferData(t, _) =>
      NotInTables(s, o, x, t, Accepted, c);
      FanMember(s.conns, Clients(s.rows, t, Accepted), p);
      NotAddressed(r.sends, x);
    case TransferComplete(t) =>
      NotInTables(s, o, x, t, Accepted, c);
      FanMember(s.conns, Clients(s.rows, t, Accepted), p);
      NotAddressed(r.sends, x);
    case TransferCancel(t, _) =>
      CancelToNewcomer(s, o, c, t, x);
    case _ =>
  }

  lemma CancelToNewcomer(s: Server, o: Origins, c: ClientId, t: TransferId, x: ClientId)
    requires TablesOk(s, o) && Newcomer(s, x) && x != 0
    ensures For(PacketCancel(s, c, t).sends, x) == []
  {
    hide TablesOk, RowOf, CreatorOf, JoinedBy, Clients;
    NotInTables(s, o, x, t, NotDenied, c);
    FanMember(s.conns, Clients(s.rows, t, NotDenied), TransferCancel(t, c));
    var joined := JoinedBy(s.transfers, s.rows, c);
    var i := FindTransfer(joined, t);
    if i < |joined| {
      assert joined[i] in joined;
      FanMember(s.conns, [joined[i].creator], TransferCancel(t, c));
    }
    NotAddressed(PacketCancel(s, c, t).sends, x);
  }

  lemma HandleToNewcomer(s: Server, o: Origins, h: Files, order: seq<ClientId>, c: ClientId, joined: bool, p: Packet,
        x: ClientId)
    requires TablesOk(s, o) && SessionsOk(s) && c in s.conns && IsOrder(order, s.conns) && Newcomer(s, x) && x != 0
    requires UpOk(o, h, c, joined, p) && (joined ==> s.conns[c].complete)
    ensures var r := Handle(s, order, c, p);
            if Newcomer(r.server, x) then AllDeny(For(r.sends, x))
            else c == x && x in r.server.conns && For(r.sends, x) == Greeting(r.server.conns, order, x)
  {
    hide TablesOk, SessionsOk, PacketTransfer, PacketReply, PacketComplete, PacketCancel, PacketIntro, PacketData, Peers;
    if p.ClientIntro? {
      IntroToNewcomer(s, order, c, p, x);
    } else {
      HandleKeepsTable(s, order, c, p);
      if p.TransferRequest? {
        TransferToNewcomer(s, c, p.req, x);
      } else {
        RelayToNewcomer(s, o, order, c, p, x);
      }
    }
  }

  lemma FirstCancel(q: seq<Packet>)
    requires q != [] && q[0].TransferCancel?
    ensures Cancels(q, q[0].tid) >= 1
  {
  }

  lemma CloseToNewcomer(s: Server, o: Origins, order: seq<ClientId>, c: ClientId, x: ClientId)
    requires TablesOk(s, o) && c in s.conns && c != 0 && IsOrder(order, s.conns) && Newcomer(s, x) && x != c && x != 0
    ensures For(CloseClient(s, order, c).sends, x) == []
  {
    hide TablesOk, RowOf, CreatorOf, CancelTransaction, Peers, SessionsOk;
    if s.conns[c].complete {
      var got := For(CloseClient(s, order, c).sends, x);
      ClosingNotices(s, o, order, c, x, 0);
      if got != [] {
        assert got[0] in got;
        FirstCancel(got);
        NotInTables(s, o, x, got[0].tid, NotDenied, c);
        ClosingNotices(s, o, order, c, x, got[0].tid);
      }
    }
  }

  // ---------------------------------------------------------------- one action

  /** What an action makes the server enqueue for client `x`. */
  function SentTo(s: System, a: Action, x: ClientId): seq<Packet>
    requires Enabled(s, a)
  {
    match a
    case Serve(c, order) => For(Handle(s.server, order, c, s.peers[c].up[0]).sends, x)
    case Close(c, order) => For(CloseClient(s.server, order, c).sends, x)
    case _ => []
  }

  lemma ServedQueue(s: System, c: ClientId, order: seq<ClientId>, x: ClientId)
    requires c in s.peers && c in s.server.conns && s.peers[c].up != [] && x in s.peers
    ensures var n := ServeNext(s, c, order);
            x in n.peers && n.peers[x].down == s.peers[x].down + For(Handle(s.server, order, c, s.peers[c].up[0]).sends, x)
  {
    hide Handle, For, ServeNext, Broadcast;
    ServeBroadcasts(s, c, order);
  }

  /** It arrives behind whatever is on its way; a delivery takes the first packet off. */
  lemma SentIsQueued(s: System, a: Action, x: ClientId)
    requires Enabled(s, a) && x in s.peers
    ensures x in Next(s, a).peers
    ensures Next(s, a).peers[x].down ==
            (if a == Deliver(x) then s.peers[x].down[1..] else s.peers[x].down) + SentTo(s, a, x)
  {
    hide Handle, For, ServeNext, CloseClient, Execute, Slots.Work, Receive, Readable, CanReceive, IsOrder, ProperList;
    if a.Serve? { ServedQueue(s, a.id, a.order, x); }
  }

  lemma ServedServer(s: System, c: ClientId, order: seq<ClientId>)
    requires c in s.peers && c in s.server.conns && s.peers[c].up != []
    ensures ServeNext(s, c, order).server == Handle(s.server, order, c, s.peers[c].up[0]).server
  {
    hide Handle, Broadcast;
  }

  /** Serving a packet changes the client table by completing its sender at most. */
  lemma ServedConns(s: Server, order: seq<ClientId>, c: ClientId, p: Packet)
    requires c in s.conns
    ensures var now := Handle(s, order, c, p).server.conns;
            now == s.conns || (c in now && now == s.conns[c := now[c]] && now[c].complete)
  {
    hide PacketIntro, PacketTransfer, PacketReply, PacketComplete, PacketCancel, PacketData;
    if p.ClientIntro? { IntroShape(s, order, c, p); } else { HandleKeepsTable(s, order, c, p); }
  }

  /** A client that is a newcomer after an action was one before it, or has just connected. */
  lemma NewcomerBefore(s: System, a: Action, x: ClientId)
    requires Typed(s) && Enabled(s, a) && Newcomer(Next(s, a).server, x)
    ensures if x in s.peers then Newcomer(s.server, x) else a == Connect(x)
  {
    hide Typed, Execute, Slots.Work, Receive, Readable, CanReceive, IsOrder, ProperList, TablesOk, PacketIntro, Handle,
      CloseClient, Broadcast, ServeNext;
    match a
    case Connect(c) => ConnectedPeer(s, x);
    case Serve(c, order) =>
      var p := s.peers[c].up[0];
      ConnectedPeer(s, x);
      ServedConns(s.server, order, c, p);
      ServedServer(s, c, order);
    case Close(c, order) =>
      ConnectedPeer(s, x);
      TypedTables(s, c);
      CloseTables(s.server, s.origin, order, c);
    case _ => ConnectedPeer(s, x);
  }

  lemma ConnectedPeer(s: System, x: ClientId)
    requires Typed(s)
    ensures x in s.server.conns ==> x in s.peers && x != 0
  {
  }

  lemma ServedFacts(s: System, c: ClientId)
    requires Typed(s) && c in s.peers && c in s.server.conns && s.peers[c].up != []
    ensures TablesOk(s.server, s.origin) && SessionsOk(s.server)
    ensures UpOk(s.origin, s.hosted, c, s.peers[c].joined, s.peers[c].up[0])
    ensures s.peers[c].joined ==> s.server.conns[c].complete
  {
    assert s.peers[c].up[0] in s.peers[c].up;
  }

  /** A newcomer is denied, unless it is admitted: then it is greeted. */
  lemma SentToNewcomer(s: System, a: Action, x: ClientId)
    requires Typed(s) && Enabled(s, a) && Newcomer(s.server, x) && x in Next(s, a).server.conns
    ensures var e := Next(s, a).server;
            if Newcomer(e, x) then AllDeny(SentTo(s, a, x))
            else a.Serve? && a.id == x && SentTo(s, a, x) == Greeting(e.conns, a.order, x)
  {
    hide Typed, TablesOk, SessionsOk, Handle, CloseClient, Execute, Slots.Work, Receive, Readable, CanReceive, IsOrder,
      ProperList, Peers, UpOk, ServeNext, Broadcast;
    ConnectedPeer(s, x);
    match a
    case Serve(c, order) =>
      ServedFacts(s, c);
      HandleToNewcomer(s.server, s.origin, s.hosted, order, c, s.peers[c].joined, s.peers[c].up[0], x);
      ServedServer(s, c, order);
    case Close(c, order) =>
      TypedTables(s, c);
      CloseTables(s.server, s.origin, order, c);
      CloseToNewcomer(s.server, s.origin, order, c, x);
    case _ =>
  }

  // ---------------------------------------------------------------- all runs

  /** What a run makes the server enqueue for client `x`. */
  function SentOver(s: System, run: seq<Action>, x: ClientId): seq<Packet>
    requires Possible(s, run)
    decreases |run|
  {
    if run == [] then [] else SentTo(s, run[0], x) + SentOver(Next(s, run[0]), run[1..], x)
  }

  lemma {:induction false} DeniedSoFar(s: System, run: seq<Action>, x: ClientId)
    requires Typed(s) && Possible(s, run) && x in s.peers && Newcomer(After(s, run).server, x)
    ensures Newcomer(s.server, x) && AllDeny(SentOver(s, run, x))
    decreases |run|
  {
    hide Typed, Enabled, Next, SentTo, AllDeny, Newcomer;
    if run != [] {
      var n := Next(s, run[0]);
      NextTyped(s, run[0]);
      SentIsQueued(s, run[0], x);
      DeniedSoFar(n, run[1..], x);
      NewcomerBefore(s, run[0], x);
      InTable(n.server, x);
      SentToNewcomer(s, run[0], x);
      AllDenyAppend(SentTo(s, run[0], x), SentOver(n, run[1..], x));
    } else {
      NothingDenied();
    }
  }

  lemma InTable(s: Server, x: ClientId)
    requires Newcomer(s, x)
    ensures x in s.conns
  {
  }

  lemma NothingDenied()
    ensures AllDeny([])
  {
  }

  /**
   From the moment a client has connected, over every run: until it is admitted everything that is put in
   its message queue is an answer DENY, which is a header without a body; and when it is admitted, the answer OK
   follows, and at once the batch, if there is anybody to tell it about.
   */
  lemma JoinerIsSent(s: System, run: seq<Action>, x: ClientId, order: seq<ClientId>)
    requires Reachable(s) && x in s.peers && Possible(s, run)
    requires var m := After(s, run);
             && Newcomer(m.server, x) && Enabled(m, Serve(x, order))
             && !Newcomer(Next(m, Serve(x, order)).server, x)
    ensures AllDeny(SentOver(s, run, x))
    ensures var m := After(s, run);
            var e := Next(m, Serve(x, order)).server;
            x in e.conns && SentTo(m, Serve(x, order), x) == Greeting(e.conns, order, x)
  {
    hide Typed, Reachable, Enabled, Next, SentTo, AllDeny;
    ReachableInvariant(s);
    DeniedSoFar(s, run, x);
    RunInvariant(s, run);
    ServeKeepsIn(After(s, run), x, order);
    SentToNewcomer(After(s, run), Serve(x, order), x);
  }

  lemma ServeKeepsIn(s: System, x: ClientId, order: seq<ClientId>)
    requires Typed(s) && Enabled(s, Serve(x, order)) && x in s.server.conns
    ensures x in Next(s, Serve(x, order)).server.conns
  {
    hide Typed, PacketIntro, IsOrder;
    var p := s.peers[x].up[0];
    if p.ClientIntro? { IntroShape(s.server, order, x, p); } else { HandleKeepsTable(s.server, order, x, p); }
  }

  /** In every reachable state nothing but DENY is on its way to a client that has not joined. */
  lemma OnlyHeaders(s: System, x: ClientId)
    requires Reachable(s) && Newcomer(s.server, x)
    ensures x in s.peers && AllDeny(s.peers[x].down)
  {
    hide Typed, Possible, After;
    var run :| Possible(INITIAL, run) && After(INITIAL, run) == s;
    InitialTyped();
    OnlyHeadersRun(INITIAL, run, x);
  }

  predicate HeadersOnly(s: System, x: ClientId) {
    Newcomer(s.server, x) ==> x in s.peers && AllDeny(s.peers[x].down)
  }

  lemma {:induction false} OnlyHeadersRun(s: System, run: seq<Action>, x: ClientId)
    requires Typed(s) && Possible(s, run) && HeadersOnly(s, x)
    ensures HeadersOnly(After(s, run), x)
    decreases |run|
  {
    hide Typed, Enabled, Next, HeadersOnly;
    if run != [] {
      NextTyped(s, run[0]);
      OnlyHeadersStep(s, run[0], x);
      OnlyHeadersRun(Next(s, run[0]), run[1..], x);
    }
  }

  lemma OnlyHeadersStep(s: System, a: Action, x: ClientId)
    requires Typed(s) && Enabled(s, a) && HeadersOnly(s, x)
    ensures HeadersOnly(Next(s, a), x)
  {
    hide Typed, Enabled, Next, SentTo, AllDeny;
    if Newcomer(Next(s, a).server, x) {
      NewcomerBefore(s, a, x);
      if x in s.peers {
        SentToNewcomer(s, a, x);
        QueueDenied(s, a, x);
      } else {
        FreshQueue(s, x);
        NothingDenied();
      }
    }
  }

  lemma QueueDenied(s: System, a: Action, x: ClientId)
    requires Enabled(s, a) && x in s.peers && AllDeny(s.peers[x].down) && AllDeny(SentTo(s, a, x))
    ensures x in Next(s, a).peers && AllDeny(Next(s, a).peers[x].down)
  {
    hide Next, SentTo;
    SentIsQueued(s, a, x);
  }

  lemma FreshQueue(s: System, x: ClientId)
    requires Enabled(s, Connect(x))
    ensures x in Next(s, Connect(x)).peers && Next(s, Connect(x)).peers[x].down == []
  {
  }
}
