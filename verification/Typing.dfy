/**
 Every action keeps the system well typed.
 */
module Typing {
  import opened Wire
  import opened Slots
  import opened ServerModel
  import opened Tables
  import opened Sends
  import opened Network
  import opened WellTyped

  // ---------------------------------------------------------------- what the handlers send

  predicate SendsOk(o: Origins, h: Files, sends: seq<Send>) {
    forall sd | sd in sends :: DownOk(o, h, sd.to, sd.packet)
  }

  lemma {:induction false} ForMember(sends: seq<Send>, id: ClientId)
    ensures forall q | q in For(sends, id) :: Send(id, q) in sends
  {
    if sends != [] {
      ForMember(sends[1..], id);
      forall q | q in For(sends, id)
        ensures Send(id, q) in sends
      {
        assert sends[0] in sends;
        assert q in For(sends[1..], id) || (sends[0].to == id && q == sends[0].packet);
      }
    }
  }

  lemma FanMember(conns: map<ClientId, Conn>, ids: seq<ClientId>, p: Packet)
    ensures forall sd | sd in Fan(conns, ids, p) :: sd.packet == p && sd.to in ids && sd.to in conns
  {
  }

  /** The clients a cursor over a transfer's rows visits are recipients of the transfer. */
  lemma ClientsTake(s: Server, o: Origins, t: TransferId, f: Filter)
    requires TablesOk(s, o)
    ensures forall c | c in Clients(s.rows, t, f) :: Takes(o, t, c)
  {
    forall c | c in Clients(s.rows, t, f)
      ensures Takes(o, t, c)
    {
      ClientsOf(s.rows, t, f, c);
    }
  }

  // ---------------------------------------------------------------- the handlers

  lemma TablesSame(s: Server, t: Server, o: Origins)
    requires TablesOk(s, o) && t.rows == s.rows && t.transfers == s.transfers
    requires forall x | x in s.conns && s.conns[x].complete :: x in t.conns && t.conns[x] == s.conns[x]
    ensures TablesOk(t, o)
  {
  }

  lemma IntroOk(s: Server, o: Origins, h: Files, order: seq<ClientId>, c: ClientId, p: Packet)
    requires c in s.conns && p.ClientIntro? && SessionsOk(s) && TablesOk(s, o)
    ensures var r := PacketIntro(s, order, c, p);
            && SessionsOk(r.server) && TablesOk(r.server, o) && SendsOk(o, h, r.sends)
            && r.server.conns.Keys == s.conns.Keys
            && (forall x | x in s.conns && s.conns[x].complete :: r.server.conns[x] == s.conns[x])
            && (forall sd | sd in r.sends && sd.packet == ServerOk :: sd.to == c && r.server.conns[c].complete)
  {
    hide TablesOk;
    var r := PacketIntro(s, order, c, p);
    TablesSame(s, r.server, o);
    if r.server != s {
      var peers := Peers(r.server.conns, order, c, r.server.conns[c].session);
      FanMember(r.server.conns, peers, NewUsers([User(c, p.clientName)]));
    }
  }

  lemma RecipientsDistinct(to: ToList, c: ClientId)
    requires ProperList(to, c)
    ensures Distinct(Recipients(to)) && c !in Recipients(to)
  {
  }

  lemma NewTransferTables(s: Server, o: Origins, c: ClientId, origin: Origin)
    requires c in s.conns && c != 0 && TablesOk(s, o) && s.conns[c].complete && SessionsOk(s)
    requires origin.creator == c && ProperList(origin.to, c) && RecipientsOk(s, c, origin.to)
    requires s.nextTid >= 1 && forall t | t in o :: t < s.nextTid
    ensures TablesOk(s.(transfers := s.transfers + [Transfer(s.nextTid, c)],
                        rows := s.rows + NewRows(s.nextTid, Recipients(origin.to)),
                        nextTid := s.nextTid + 1),
                     o[s.nextTid := origin])
  {
    var t := s.nextTid;
    var clients := Recipients(origin.to);
    var rows := s.rows + NewRows(t, clients);
    RecipientsDistinct(origin.to, c);
    assert CreatorOf(s.transfers, t) == 0;
    TransferAppendUnique(s.transfers, Transfer(t, c));
    assert forall d :: RowOf(s.rows, t, d) == NoRow;
    NewRowsUnique(s.rows, t, clients);
    forall u, d
      ensures RowOf(rows, u, d) ==
              if u == t then (if d in clients then Is(UNANSWERED) else NoRow) else RowOf(s.rows, u, d)
    {
      RowsAppendOf(s.rows, NewRows(t, clients), u, d);
      NewRowsOf(t, clients, u, d);
    }
  }

  lemma TransferOk(s: Server, o: Origins, h: Files, c: ClientId, req: Request)
    requires c in s.conns && c != 0 && SessionsOk(s) && TablesOk(s, o)
    requires s.conns[c].complete && ProperList(req.hdr.to, c) && (c, req.local) in h
    requires req.size == |h[(c, req.local)]|
    requires s.nextTid >= 1 && forall t | t in o :: t < s.nextTid
    ensures var r := PacketTransfer(s, c, req);
            var o' := if r.server.nextTid != s.nextTid then o[s.nextTid := Origin(c, req.local, req.hdr.to)] else o;
            && SessionsOk(r.server) && TablesOk(r.server, o') && SendsOk(o', h, r.sends)
            && r.server.conns == s.conns && s.nextTid <= r.server.nextTid <= s.nextTid + 1
            && (forall sd | sd in r.sends :: sd.packet != ServerOk)
            && (r.server.nextTid == s.nextTid ==> r.server == s)
  {
    hide TablesOk;
    if RecipientsOk(s, c, req.hdr.to) {
      var t := s.nextTid;
      NewTransferTables(s, o, c, Origin(c, req.local, req.hdr.to));
      FanMember(s.conns, Recipients(req.hdr.to), TransferRequest(req.(hdr := req.hdr.(tid := t, from := c))));
    }
  }

  lemma ReplyOk(s: Server, o: Origins, h: Files, c: ClientId, t: TransferId, b: bool)
    requires SessionsOk(s) && TablesOk(s, o) && Takes(o, t, c)
    ensures var r := PacketReply(s, c, t, b);
            SessionsOk(r.server) && TablesOk(r.server, o) && SendsOk(o, h, r.sends)
            && r.server == s.(rows := r.server.rows)
  {
    SetAcceptedUnique(s.rows, c, t, b);
    forall u, d
      ensures RowOf(SetAccepted(s.rows, c, t, b), u, d) ==
              if c == d && u == t && RowOf(s.rows, u, d) != NoRow then Is(if b then 1 else 0) else RowOf(s.rows, u, d)
    {
      SetAcceptedOf(s.rows, c, t, b, u, d);
    }
  }

  lemma CleanupOk(s: Server, o: Origins, t: TransferId)
    requires TablesOk(s, o)
    ensures TablesOk(Cleanup(s, t), o)
    ensures forall u, d :: RowOf(Cleanup(s, t).rows, u, d) == if u == t then NoRow else RowOf(s.rows, u, d)
    ensures forall u :: CreatorOf(Cleanup(s, t).transfers, u) == if u == t then 0 else CreatorOf(s.transfers, u)
  {
    WithoutRowsUnique(s.rows, t);
    WithoutTransferUnique(s.transfers, t);
    forall u, d
      ensures RowOf(Cleanup(s, t).rows, u, d) == if u == t then NoRow else RowOf(s.rows, u, d)
    {
      WithoutRowsOf(s.rows, t, u, d);
    }
    forall u
      ensures CreatorOf(Cleanup(s, t).transfers, u) == if u == t then 0 else CreatorOf(s.transfers, u)
    {
      WithoutTransferOf(s.transfers, t, u);
    }
  }

  lemma WithoutClientOk(s: Server, o: Origins, c: ClientId)
    requires TablesOk(s, o)
    ensures TablesOk(s.(rows := WithoutClient(s.rows, c)), o)
    ensures forall u, d :: RowOf(WithoutClient(s.rows, c), u, d) == if d == c then NoRow else RowOf(s.rows, u, d)
  {
    WithoutClientUnique(s.rows, c);
    forall u, d
      ensures RowOf(WithoutClient(s.rows, c), u, d) == if d == c then NoRow else RowOf(s.rows, u, d)
    {
      WithoutClientOf(s.rows, c, u, d);
    }
  }

  lemma DataOk(s: Server, o: Origins, h: Files, p: Packet)
    requires p.TransferData? && TablesOk(s, o)
    ensures SendsOk(o, h, PacketData(s, p).sends)
  {
    ClientsTake(s, o, p.tid, Accepted);
    FanMember(s.conns, Clients(s.rows, p.tid, Accepted), p);
  }

  lemma CompleteOk(s: Server, o: Origins, h: Files, c: ClientId, p: Packet)
    requires p.TransferComplete? && SessionsOk(s) && TablesOk(s, o)
    ensures var r := PacketComplete(s, c, p);
            SessionsOk(r.server) && TablesOk(r.server, o) && SendsOk(o, h, r.sends)
            && r.server == s.(rows := r.server.rows, transfers := r.server.transfers)
  {
    CleanupOk(s, o, p.tid);
    ClientsTake(s, o, p.tid, Accepted);
    FanMember(s.conns, Clients(s.rows, p.tid, Accepted), p);
  }

  lemma CancelOk(s: Server, o: Origins, h: Files, c: ClientId, t: TransferId)
    requires c != 0 && SessionsOk(s) && TablesOk(s, o)
    ensures var r := PacketCancel(s, c, t);
            SessionsOk(r.server) && TablesOk(r.server, o) && SendsOk(o, h, r.sends)
            && r.server == s.(rows := r.server.rows, transfers := r.server.transfers)
  {
    CleanupOk(s, o, t);
    WithoutClientOk(s, o, c);
    CreatedByOf(s.transfers, c, t);
    ClientsTake(s, o, t, NotDenied);
    FanMember(s.conns, Clients(s.rows, t, NotDenied), TransferCancel(t, c));
    var joined := JoinedBy(s.transfers, s.rows, c);
    JoinedByOf(s.transfers, s.rows, c, t);
    var i := FindTransfer(joined, t);
    if i < |joined| {
      assert joined[i] in joined;
      FanMember(s.conns, [joined[i].creator], TransferCancel(t, c));
    }
  }

  lemma {:induction false} CancelCreatedOk(s: Server, o: Origins, h: Files, c: ClientId, ts: seq<TransferId>)
    requires TablesOk(s, o) && forall t | t in ts :: Gives(o, t, c)
    ensures SendsOk(o, h, CancelCreated(s, c, ts).sends)
    ensures forall sd | sd in CancelCreated(s, c, ts).sends :: sd.packet.TransferCancel?
    decreases |ts|
  {
    if ts != [] {
      assert ts[0] in ts;
      ClientsTake(s, o, ts[0], NotDenied);
      FanMember(s.conns, Clients(s.rows, ts[0], NotDenied), TransferCancel(ts[0], c));
      CleanupOk(s, o, ts[0]);
      CancelCreatedOk(Cleanup(s, ts[0]), o, h, c, ts[1..]);
    }
  }

  lemma {:induction false} CancelJoinedOk(conns: map<ClientId, Conn>, o: Origins, h: Files, c: ClientId, joined: seq<Transfer>)
    requires forall tr | tr in joined :: Takes(o, tr.tid, c) && Gives(o, tr.tid, tr.creator)
    ensures SendsOk(o, h, CancelJoined(conns, c, joined))
    ensures forall sd | sd in CancelJoined(conns, c, joined) :: sd.packet.TransferCancel?
  {
    if joined != [] {
      assert joined[0] in joined;
      FanMember(conns, [joined[0].creator], TransferCancel(joined[0].tid, c));
      CancelJoinedOk(conns, o, h, c, joined[1..]);
    }
  }

  lemma CancelTransactionOk(s: Server, o: Origins, h: Files, c: ClientId)
    requires TablesOk(s, o) && c != 0
    ensures SendsOk(o, h, CancelTransaction(s, c).sends)
    ensures forall sd | sd in CancelTransaction(s, c).sends :: sd.packet.TransferCancel?
  {
    var ts := CreatedBy(s.transfers, c);
    forall t | t in ts
      ensures Gives(o, t, c)
    {
      CreatedByOf(s.transfers, c, t);
    }
    CancelCreatedOk(s, o, h, c, ts);
    var r := CancelCreated(s, c, ts).server;
    var joined := JoinedBy(r.transfers, r.rows, c);
    forall tr | tr in joined
      ensures Takes(o, tr.tid, c) && Gives(o, tr.tid, tr.creator)
    {
      CancelCreatedTables(s, c, ts, tr.tid, c);
      JoinedByOf(r.transfers, r.rows, c, tr.tid);
    }
    CancelJoinedOk(s.conns, o, h, c, joined);
  }

  lemma CloseTables(s: Server, o: Origins, order: seq<ClientId>, c: ClientId)
    requires c in s.conns && c != 0 && TablesOk(s, o)
    ensures var r := CloseClient(s, order, c).server;
            && r == s.(conns := s.conns - {c}, rows := r.rows, transfers := r.transfers)
            && UniqueRows(r.rows) && UniqueTransfers(r.transfers)
            && (forall t, d :: RowOf(r.rows, t, d) ==
                  if CreatorOf(s.transfers, t) == c || d == c then NoRow else RowOf(s.rows, t, d))
            && (forall t :: CreatorOf(r.transfers, t) ==
                  if CreatorOf(s.transfers, t) == c then 0 else CreatorOf(s.transfers, t))
  {
    var r := CloseClient(s, order, c).server;
    if s.conns[c].complete {
      CancelTransactionTables(s, c, 0, 0);
      forall t, d
        ensures RowOf(r.rows, t, d) ==
                (if CreatorOf(s.transfers, t) == c || d == c then NoRow else RowOf(s.rows, t, d))
      {
        CancelTransactionTables(s, c, t, d);
      }
      forall t
        ensures CreatorOf(r.transfers, t) ==
                (if CreatorOf(s.transfers, t) == c then 0 else CreatorOf(s.transfers, t))
      {
        CancelTransactionTables(s, c, t, 0);
      }
    }
  }

  lemma CloseOk(s: Server, o: Origins, h: Files, order: seq<ClientId>, c: ClientId)
    requires c in s.conns && c != 0 && SessionsOk(s) && TablesOk(s, o)
    ensures var r := CloseClient(s, order, c);
            && SessionsOk(r.server) && TablesOk(r.server, o) && SendsOk(o, h, r.sends)
            && r.server == s.(conns := s.conns - {c}, rows := r.server.rows, transfers := r.server.transfers)
            && (forall sd | sd in r.sends :: sd.packet != ServerOk)
  {
    var me := s.conns[c];
    CloseTables(s, o, order, c);
    if me.complete {
      CancelTransactionOk(s, o, h, c);
      FanMember(s.conns, Peers(s.conns, order, c, me.session), DelUser(User(c, me.name)));
    }
  }

  // ---------------------------------------------------------------- the clients

  lemma BroadcastOk(o: Origins, h: Files, peers: map<ClientId, Peer>, sends: seq<Send>)
    requires PeersOk(o, h, peers) && SendsOk(o, h, sends)
    ensures PeersOk(o, h, Broadcast(peers, sends))
  {
    var after := Broadcast(peers, sends);
    forall x | x in after
      ensures PeerOk(o, h, x, after[x])
    {
      assert PeerOk(o, h, x, peers[x]);
      ForMember(sends, x);
    }
  }

  lemma BroadcastConns(conns: map<ClientId, Conn>, peers: map<ClientId, Peer>, sends: seq<Send>)
    requires ConnsOk(conns, peers)
    requires forall sd | sd in sends && sd.packet == ServerOk && sd.to in conns :: conns[sd.to].complete
    ensures ConnsOk(conns, Broadcast(peers, sends))
  {
    forall x | x in conns
      ensures ServerOk in Broadcast(peers, sends)[x].down ==> ServerOk in peers[x].down || conns[x].complete
    {
      ForMember(sends, x);
    }
  }

  lemma PeersGrow(o: Origins, h: Files, o': Origins, h': Files, peers: map<ClientId, Peer>)
    requires PeersOk(o, h, peers) && Grows(o, h, o', h')
    ensures PeersOk(o', h', peers)
  {
    forall x | x in peers
      ensures PeerOk(o', h', x, peers[x])
    {
      assert PeerOk(o, h, x, peers[x]);
      PeerGrows(o, h, o', h', x, peers[x]);
    }
  }

  lemma PopOk(o: Origins, h: Files, x: ClientId, p: Peer)
    requires PeerOk(o, h, x, p) && p.up != []
    ensures PeerOk(o, h, x, p.(up := p.up[1..])) && UpOk(o, h, x, p.joined, p.up[0])
  {
  }

  lemma DeliverOk(o: Origins, h: Files, x: ClientId, p: Peer)
    requires OriginsOk(o, h) && PeerOk(o, h, x, p) && p.down != []
    ensures PeerOk(o, h, x, Analize(p.(down := p.down[1..]), p.down[0]))
  {
    var q := p.down[0];
    assert q in p.down && DownOk(o, h, x, q);
    if !q.ServerOk? && !q.NewUsers? && !q.DelUser? {
      ReceiveOk(o, h, x, p.joined, p.manager, q);
      assert Analize(p.(down := p.down[1..]), q) == p.(down := p.down[1..], manager := Receive(p.manager, q));
    }
  }

  // ---------------------------------------------------------------- the system

  /** A step that changes one client process only. */
  lemma PeerTyped(s: System, x: ClientId, p: Peer)
    requires Typed(s) && x in s.peers && PeerOk(s.origin, s.hosted, x, p)
    requires p.manager.nextLocal >= s.peers[x].manager.nextLocal
    requires x in s.server.conns && (p.joined || ServerOk in p.down) ==> s.server.conns[x].complete
    ensures Typed(s.(peers := s.peers[x := p]))
  {
  }

  /** A step of the server that creates no transfer. */
  lemma ReactTyped(s: System, r: Reaction)
    requires Typed(s) && r.server.nextTid == s.server.nextTid
    requires ConnsOk(r.server.conns, s.peers)
    requires SessionsOk(r.server) && TablesOk(r.server, s.origin) && SendsOk(s.origin, s.hosted, r.sends)
    requires forall sd | sd in r.sends && sd.packet == ServerOk && sd.to in r.server.conns ::
               r.server.conns[sd.to].complete
    ensures Typed(React(s, r))
  {
    BroadcastOk(s.origin, s.hosted, s.peers, r.sends);
    BroadcastConns(r.server.conns, s.peers, r.sends);
  }

  lemma OriginAdded(o: Origins, h: Files, t: TransferId, origin: Origin)
    requires OriginsOk(o, h) && t != 0 && (origin.creator, origin.local) in h && ProperList(origin.to, origin.creator)
    ensures OriginsOk(o[t := origin], h)
  {
  }

  lemma ConnIsPeer(s: System, id: ClientId)
    requires Typed(s) && id in s.server.conns
    ensures id in s.peers && id != 0
    ensures s.peers[id].joined ==> s.server.conns[id].complete
  {
  }

  /** A step of the server that creates a transfer. */
  lemma CreateTyped(s: System, r: Reaction, origin: Origin)
    requires Typed(s) && r.server.nextTid == s.server.nextTid + 1 && r.server.conns == s.server.conns
    requires Acquainted(origin, s.peers.Keys)
    requires SessionsOk(r.server)
    requires var o := s.origin[s.server.nextTid := origin];
             OriginsOk(o, s.hosted) && TablesOk(r.server, o) && SendsOk(o, s.hosted, r.sends)
    requires forall sd | sd in r.sends :: sd.packet != ServerOk
    ensures Typed(React(s, r).(origin := s.origin[s.server.nextTid := origin],
                               relayed := s.relayed[s.server.nextTid := 0]))
  {
    hide PeersOk, TablesOk, SessionsOk, ConnsOk, SendsOk, OriginsOk, Broadcast;
    var o := s.origin[s.server.nextTid := origin];
    PeersGrow(s.origin, s.hosted, o, s.hosted, s.peers);
    BroadcastOk(o, s.hosted, s.peers, r.sends);
    BroadcastConns(s.server.conns, s.peers, r.sends);
    BroadcastManagers(s.peers, r.sends);
  }

  lemma BroadcastManagers(peers: map<ClientId, Peer>, sends: seq<Send>)
    ensures forall x | x in peers :: Broadcast(peers, sends)[x].manager == peers[x].manager
  {
  }

  /** The system after packet_transfer, with the history of the new transfer. */
  function Created(s: System, id: ClientId, req: Request): System
    requires id in s.server.conns
  {
    var r := PacketTransfer(s.server, id, req);
    var t := React(s, r);
    if r.server.nextTid != s.server.nextTid
    then t.(origin := s.origin[s.server.nextTid := Origin(id, req.local, req.hdr.to)],
            relayed := s.relayed[s.server.nextTid := 0])
    else t
  }

  /** A request that the server accepts names connected clients only. */
  lemma RecipientsAcquainted(s: System, id: ClientId, req: Request)
    requires Typed(s) && id in s.server.conns
    ensures PacketTransfer(s.server, id, req).server.nextTid != s.server.nextTid ==>
              Acquainted(Origin(id, req.local, req.hdr.to), s.peers.Keys) && RecipientsOk(s.server, id, req.hdr.to)
  {
  }

  lemma TransferTyped(s: System, id: ClientId, req: Request)
    requires Typed(s) && id in s.server.conns && id != 0 && s.server.conns[id].complete
    requires ProperList(req.hdr.to, id) && (id, req.local) in s.hosted && req.size == |s.hosted[(id, req.local)]|
    ensures Typed(Created(s, id, req))
  {
    hide PeersOk, TablesOk, SessionsOk, SendsOk, ConnsOk, OriginsOk, ProperList, PacketTransfer;
    var r := PacketTransfer(s.server, id, req);
    var origin := Origin(id, req.local, req.hdr.to);
    TransferOk(s.server, s.origin, s.hosted, id, req);
    if r.server.nextTid != s.server.nextTid {
      OriginAdded(s.origin, s.hosted, s.server.nextTid, origin);
      RecipientsAcquainted(s, id, req);
      CreateTyped(s, r, origin);
    } else {
      ReactTyped(s, r);
    }
  }

  function Popped(s: System, id: ClientId): System
    requires id in s.peers && s.peers[id].up != []
  {
    s.(peers := s.peers[id := s.peers[id].(up := s.peers[id].up[1..])])
  }

  /** What a handler that creates no transfer owes the system. */
  ghost predicate Harmless(s: System, r: Reaction) {
    && r.server.nextTid == s.server.nextTid
    && ConnsOk(r.server.conns, s.peers)
    && SessionsOk(r.server) && TablesOk(r.server, s.origin) && SendsOk(s.origin, s.hosted, r.sends)
    && (forall sd | sd in r.sends && sd.packet == ServerOk && sd.to in r.server.conns ::
          r.server.conns[sd.to].complete)
  }

  lemma HarmlessTyped(s: System, r: Reaction)
    requires Typed(s) && Harmless(s, r)
    ensures Typed(React(s, r))
  {
    ReactTyped(s, r);
  }

  lemma IntroHarmless(s: System, id: ClientId, order: seq<ClientId>, p: Packet)
    requires Typed(s) && id in s.server.conns && p.ClientIntro?
    ensures Harmless(s, PacketIntro(s.server, order, id, p))
  {
    IntroOk(s.server, s.origin, s.hosted, order, id, p);
  }

  lemma NoServerOk(o: Origins, h: Files, s: Server, id: ClientId, p: Packet)
    requires p.TransferReply? || p.TransferData? || p.TransferComplete? || p.TransferCancel?
    requires id in s.conns
    ensures forall sd | sd in Handle(s, [], id, p).sends :: sd.packet != ServerOk
  {
    if p.TransferCancel? {
      FanMember(s.conns, Clients(s.rows, p.tid, NotDenied), TransferCancel(p.tid, id));
      var joined := JoinedBy(s.transfers, s.rows, id);
      var i := FindTransfer(joined, p.tid);
      if i < |joined| { FanMember(s.conns, [joined[i].creator], TransferCancel(p.tid, id)); }
    } else if !p.TransferReply? {
      FanMember(s.conns, Clients(s.rows, p.tid, Accepted), p);
    }
  }

  lemma HandleHarmless(s: System, id: ClientId, order: seq<ClientId>, joined: bool, p: Packet)
    requires Typed(s) && id in s.server.conns && id != 0 && UpOk(s.origin, s.hosted, id, joined, p)
    requires !p.TransferRequest?
    ensures Harmless(s, Handle(s.server, order, id, p))
  {
    hide PeerOk, TablesOk, SessionsOk, PacketIntro, PacketCancel, PacketComplete, DownOk;
    match p
    case ClientIntro(_, _, _) => IntroHarmless(s, id, order, p);
    case TransferReply(t, _, b) =>
      ReplyOk(s.server, s.origin, s.hosted, id, t, b);
    case TransferData(t, bytes) =>
      DataOk(s.server, s.origin, s.hosted, p);
      NoServerOk(s.origin, s.hosted, s.server, id, p);
    case TransferComplete(_) =>
      CompleteOk(s.server, s.origin, s.hosted, id, p);
      NoServerOk(s.origin, s.hosted, s.server, id, p);
    case TransferCancel(t, _) =>
      CancelOk(s.server, s.origin, s.hosted, id, t);
      NoServerOk(s.origin, s.hosted, s.server, id, p);
  }

  lemma RelayedTyped(s: System, relayed: map<TransferId, nat>)
    requires Typed(s) && relayed.Keys >= s.relayed.Keys
    ensures Typed(s.(relayed := relayed))
  {
  }

  lemma PoppedTyped(s: System, id: ClientId)
    requires Typed(s) && id in s.peers && s.peers[id].up != []
    ensures Typed(Popped(s, id)) && id != 0
    ensures UpOk(s.origin, s.hosted, id, s.peers[id].joined, s.peers[id].up[0])
  {
    PopOk(s.origin, s.hosted, id, s.peers[id]);
    PeerTyped(s, id, Popped(s, id).peers[id]);
  }

  lemma ServeOtherTyped(u: System, id: ClientId, order: seq<ClientId>, joined: bool, p: Packet)
    requires Typed(u) && id in u.server.conns && id != 0 && UpOk(u.origin, u.hosted, id, joined, p)
    requires !p.TransferRequest?
    ensures var t := React(u, Handle(u.server, order, id, p));
            && Typed(t)
            && (p.TransferData? && p.tid in u.relayed ==>
                  Typed(t.(relayed := u.relayed[p.tid := u.relayed[p.tid] + |p.bytes|])))
  {
    hide Typed, Handle, Harmless;
    var r := Handle(u.server, order, id, p);
    HandleHarmless(u, id, order, joined, p);
    HarmlessTyped(u, r);
    if p.TransferData? && p.tid in u.relayed {
      RelayedTyped(React(u, r), u.relayed[p.tid := u.relayed[p.tid] + |p.bytes|]);
    }
  }

  lemma ServeTyped(s: System, id: ClientId, order: seq<ClientId>)
    requires Typed(s) && id in s.peers && id in s.server.conns && s.peers[id].up != []
    ensures Typed(ServeNext(s, id, order))
  {
    hide Typed, PacketIntro, PacketTransfer, PacketReply, PacketData, PacketComplete, PacketCancel;
    var p := s.peers[id].up[0];
    var u := Popped(s, id);
    PoppedTyped(s, id);
    ConnIsPeer(u, id);
    if p.TransferRequest? {
      TransferTyped(u, id, p.req);
      assert ServeNext(s, id, order) == Created(u, id, p.req);
    } else {
      ServeOtherTyped(u, id, order, s.peers[id].joined, p);
      assert !p.TransferData? ==> ServeNext(s, id, order) == React(u, Handle(u.server, order, id, p));
    }
  }

  lemma CloseTyped(s: System, id: ClientId, order: seq<ClientId>)
    requires Typed(s) && id in s.server.conns
    ensures Typed(React(s, CloseClient(s.server, order, id)))
  {
    CloseOk(s.server, s.origin, s.hosted, order, id);
    ReactTyped(s, CloseClient(s.server, order, id));
  }

  lemma HostPeers(o: Origins, h: Files, peers: map<ClientId, Peer>, id: ClientId, c: Command)
    requires PeersOk(o, h, peers) && id in peers && c.CmdRequest? && peers[id].joined && ProperList(c.to, id)
    requires c.contents != [] && (id, peers[id].manager.nextLocal) !in h
    ensures var h' := h[(id, peers[id].manager.nextLocal) := c.contents];
            PeersOk(o, h', peers[id := peers[id].(manager := Execute(peers[id].manager, c))])
  {
    hide HostRequest;
    var p := peers[id];
    var h' := h[(id, p.manager.nextLocal) := c.contents];
    PeersGrow(o, h, o, h', peers);
    assert PeerOk(o, h', id, p);
    HostRequestOk(o, h', id, p.joined, p.manager, c.name, c.contents, c.to);
  }

  lemma HostRegistry(s: System, id: ClientId, c: Command)
    requires RegistryOk(s) && id in s.peers && c.CmdRequest?
    requires Execute(s.peers[id].manager, c).nextLocal != s.peers[id].manager.nextLocal
    ensures RegistryOk(Host(s, id, c)) && c.contents != [] && (id, s.peers[id].manager.nextLocal) !in s.hosted
  {
  }

  lemma HostTyped(s: System, id: ClientId, c: Command)
    requires Typed(s) && id in s.peers && c.CmdRequest? && s.peers[id].joined && ProperList(c.to, id)
    requires Execute(s.peers[id].manager, c).nextLocal != s.peers[id].manager.nextLocal
    ensures Typed(Host(s, id, c))
  {
    hide PeersOk, TablesOk, SessionsOk, RegistryOk, Execute, ProperList;
    HostRegistry(s, id, c);
    HostPeers(s.origin, s.hosted, s.peers, id, c);
  }

  lemma DoTyped(s: System, id: ClientId, c: Command)
    requires Typed(s) && id in s.peers && (c.CmdRequest? ==> s.peers[id].joined && ProperList(c.to, id))
    ensures Typed(Host(s, id, c))
  {
    var p := s.peers[id];
    var m := p.manager;
    if c.CmdRequest? {
      if Execute(m, c).nextLocal != m.nextLocal {
        HostTyped(s, id, c);
      } else {
        assert Host(s, id, c).peers == s.peers;
      }
    } else {
      CommandOk(s.origin, s.hosted, id, p.joined, m, c);
      PeerTyped(s, id, p.(manager := Execute(m, c)));
    }
  }

  function Worked(p: Peer, elapsed: bool, ok: bool): Peer
    requires Readable(p.manager)
  {
    var r := Slots.Work(p.manager, elapsed, ok);
    p.(manager := r.manager, up := p.up + if r.packet.Some? then [r.packet.value] else [])
  }

  lemma WorkedOk(o: Origins, h: Files, x: ClientId, p: Peer, elapsed: bool, ok: bool)
    requires OriginsOk(o, h) && PeerOk(o, h, x, p) && Readable(p.manager)
    ensures PeerOk(o, h, x, Worked(p, elapsed, ok))
  {
    hide ManagerOk, Slots.Work, DownOk;
    WorkOk(o, h, x, p.joined, p.manager, elapsed, ok);
  }

  lemma WorkKeepsLocal(m: Manager, elapsed: bool, ok: bool)
    requires Readable(m)
    ensures Slots.Work(m, elapsed, ok).manager.nextLocal == m.nextLocal
  {
  }

  lemma ProduceTyped(s: System, id: ClientId, elapsed: bool, ok: bool)
    requires Typed(s) && id in s.peers && Readable(s.peers[id].manager)
    ensures Typed(s.(peers := s.peers[id := Worked(s.peers[id], elapsed, ok)]))
  {
    hide PeerOk, TablesOk, SessionsOk, Slots.Work;
    WorkedOk(s.origin, s.hosted, id, s.peers[id], elapsed, ok);
    WorkKeepsLocal(s.peers[id].manager, elapsed, ok);
    PeerTyped(s, id, Worked(s.peers[id], elapsed, ok));
  }

  lemma DeliverFacts(p: Peer)
    requires p.down != []
    ensures var q := Analize(p.(down := p.down[1..]), p.down[0]);
            && q.manager.nextLocal == p.manager.nextLocal
            && (q.joined || ServerOk in q.down ==> p.joined || ServerOk in p.down)
  {
  }

  lemma DeliverTyped(s: System, id: ClientId)
    requires Typed(s) && id in s.peers && s.peers[id].down != []
    ensures var p := s.peers[id];
            Typed(s.(peers := s.peers[id := Analize(p.(down := p.down[1..]), p.down[0])]))
  {
    hide PeerOk, TablesOk, SessionsOk, Receive;
    var p := s.peers[id];
    DeliverOk(s.origin, s.hosted, id, p);
    DeliverFacts(p);
    PeerTyped(s, id, Analize(p.(down := p.down[1..]), p.down[0]));
  }

  lemma ConnectOk(s: Server, o: Origins, id: ClientId)
    requires SessionsOk(s) && TablesOk(s, o) && id !in s.conns
    ensures var t := s.(conns := s.conns[id := Conn(false, 0, "")]); SessionsOk(t) && TablesOk(t, o)
  {
  }

  lemma ConnectTyped(s: System, id: ClientId)
    requires Typed(s) && id != 0 && id !in s.peers
    ensures Typed(s.(server := s.server.(conns := s.server.conns[id := Conn(false, 0, "")]),
                     peers := s.peers[id := NEW_PEER]))
  {
    hide PeersOk, TablesOk, SessionsOk, ConnsOk;
    ConnectPeers(s.origin, s.hosted, s.server.conns, s.peers, id);
    ConnectOk(s.server, s.origin, id);
  }

  lemma ConnectPeers(o: Origins, h: Files, conns: map<ClientId, Conn>, peers: map<ClientId, Peer>, id: ClientId)
    requires PeersOk(o, h, peers) && ConnsOk(conns, peers) && id != 0 && id !in peers
    ensures id !in conns && PeersOk(o, h, peers[id := NEW_PEER])
    ensures ConnsOk(conns[id := Conn(false, 0, "")], peers[id := NEW_PEER])
  {
    FreshManagerOk(o, h, id);
    hide ManagerOk;
  }

  /** Every action keeps the system well typed. */
  lemma NextTyped(s: System, a: Action)
    requires Typed(s) && Enabled(s, a)
    ensures Typed(Next(s, a))
  {
    hide TablesOk, SessionsOk, ServeNext, Execute, CloseClient, Receive, Slots.Work;
    match a
    case Connect(id) => ConnectTyped(s, id);
    case Ask(id, intro) => PeerTyped(s, id, s.peers[id].(up := s.peers[id].up + [intro]));
    case Do(id, c) => DoTyped(s, id, c);
    case Produce(id, elapsed, ok) => ProduceTyped(s, id, elapsed, ok);
    case Deliver(id) => DeliverTyped(s, id);
    case Serve(id, order) => ServeTyped(s, id, order);
    case Close(id, order) => CloseTyped(s, id, order);
  }
}
