/**
 Every action of the system keeps every lane sound, and makes new ones sound.
 */
module Preservation {
  import opened Wire
  import opened Slots
  import opened ServerModel
  import opened Tables
  import opened Network
  import opened WellTyped
  import opened Typing
  import opened Flows
  import opened Lanes
  import opened Views
  import opened ServerMoves
  import opened Simulation

  // ---------------------------------------------------------------- history

  /** A lane does not depend on what history says about other transfers. */
  lemma HistoryLane(s: System, o: Origins, h: Files, relayed: map<TransferId, nat>, t: TransferId, r: ClientId)
    requires IsLane(s, t, r) && Grows(s.origin, s.hosted, o, h)
    requires t in relayed
    ensures var n := s.(origin := o, hosted := h, relayed := relayed);
            IsLane(n, t, r) && LaneOf(n, t, r) == LaneOf(s, t, r).(relayed := relayed[t])
  {
  }

  // ---------------------------------------------------------------- disconnecting

  /** Only connected clients are sent anything when one of them goes away. */
  lemma {:induction false} CancelCreatedLive(s: Server, c: ClientId, ts: seq<TransferId>)
    ensures forall sd | sd in CancelCreated(s, c, ts).sends :: sd.to in s.conns
    decreases |ts|
  {
    if ts != [] {
      CancelCreatedLive(Cleanup(s, ts[0]), c, ts[1..]);
      FanMember(s.conns, Clients(s.rows, ts[0], NotDenied), TransferCancel(ts[0], c));
    }
  }

  lemma {:induction false} CancelJoinedLive(conns: map<ClientId, Conn>, c: ClientId, joined: seq<Transfer>)
    ensures forall sd | sd in CancelJoined(conns, c, joined) :: sd.to in conns
  {
    if joined != [] {
      CancelJoinedLive(conns, c, joined[1..]);
      FanMember(conns, [joined[0].creator], TransferCancel(joined[0].tid, c));
    }
  }

  lemma {:induction false} ForNobody(sends: seq<Send>, id: ClientId)
    requires forall sd | sd in sends :: sd.to != id
    ensures For(sends, id) == []
  {
    if sends != [] {
      assert sends[0] in sends;
      ForNobody(sends[1..], id);
    }
  }

  lemma CloseLive(s: Server, order: seq<ClientId>, x: ClientId, id: ClientId, l: Lens)
    requires x in s.conns && id !in s.conns
    ensures Got(CloseClient(s, order, x).sends, id, l) == NOTHING
  {
    var me := s.conns[x];
    if me.complete {
      var r := CancelCreated(s, x, CreatedBy(s.transfers, x));
      CancelCreatedLive(s, x, CreatedBy(s.transfers, x));
      CancelJoinedLive(s.conns, x, JoinedBy(r.server.transfers, r.server.rows, x));
      FanMember(s.conns, Peers(s.conns, order, x, me.session), DelUser(User(x, me.name)));
    }
    ForNobody(CloseClient(s, order, x).sends, id);
  }

  /** What a lane's two outgoing streams get when `x` goes away. */
  lemma CloseStreams(s: Server, o: Origins, order: seq<ClientId>, x: ClientId, t: TransferId, c: ClientId, r: ClientId)
    requires x in s.conns && x != 0 && TablesOk(s, o) && Pair(o, t, c, r)
    ensures var sends := CloseClient(s, order, x).sends;
            && Got(sends, r, ToRecipient(t)) ==
                 (if x == c && Passing(RowOf(s.rows, t, r), NotDenied) then CANCEL else NOTHING)
            && Got(sends, c, ToHost(t, r)) ==
                 (if x == r && RowOf(s.rows, t, r) != NoRow then CANCEL else NOTHING)
  {
    PairTables(s, o, t, c, r);
    if r in s.conns {
      CloseGot(s, o, order, x, r, ToRecipient(t), t);
    } else {
      CloseLive(s, order, x, r, ToRecipient(t));
    }
    if c in s.conns {
      CloseGot(s, o, order, x, c, ToHost(t, r), t);
    } else {
      CloseLive(s, order, x, c, ToHost(t, r));
    }
  }

  lemma CloseMove(v: Lane, w: Lane, x: ClientId, c: ClientId, r: ClientId) returns (mv: Move)
    requires r != c && (v.row != NoRow ==> v.open)
    requires w == v.(live := v.live && x != r, open := v.open && x != c,
                     row := if (x == c && v.open) || x == r then NoRow else v.row,
                     toR := Then(v.toR, if x == c && Passing(v.row, NotDenied) then CANCEL else NOTHING),
                     toC := Then(v.toC, if x == r && v.row != NoRow then CANCEL else NOTHING))
    ensures Moves(v, w, mv)
  {
    ThenNothing(v.toR);
    ThenNothing(v.toC);
    mv := if x == r then DoLoseRecipient else if x == c then DoLoseHost else Stay;
  }

  lemma CloseLane(s: System, order: seq<ClientId>, x: ClientId, t: TransferId, r: ClientId) returns (mv: Move)
    requires Typed(s) && IsLane(s, t, r) && x in s.server.conns
    ensures var n := React(s, CloseClient(s.server, order, x));
            IsLane(n, t, r) && Moves(LaneOf(s, t, r), LaneOf(n, t, r), mv)
  {
    hide Typed, TablesOk, CloseClient, Moves, Then, Passing;
    var c := s.origin[t].creator;
    var re := CloseClient(s.server, order, x);
    LanePair(s, t, r);
    LaneTables(s, t, r);
    ConnIsPeer(s, x);
    CloseTables(s.server, s.origin, order, x);
    CloseStreams(s.server, s.origin, order, x, t, c, r);
    ReactLane(s, re, t, r);
    mv := CloseMove(LaneOf(s, t, r), LaneOf(React(s, re), t, r), x, c, r);
  }

  // ---------------------------------------------------------------- a new transfer

  /** Nothing is about a transfer id that has not been given out. */
  lemma Unheard(o: Origins, h: Files, x: ClientId, p: Peer, t: TransferId, r: ClientId)
    requires PeerOk(o, h, x, p) && t != 0 && t !in o
    ensures Sum(p.down, ToRecipient(t)) == NOTHING && Sum(p.up, FromRecipient(t)) == NOTHING
    ensures Sum(p.down, ToHost(t, r)) == NOTHING && Sum(p.up, FromHost(t)) == NOTHING
    ensures PickOf(p.manager.recv, t) == NoSlot && PickOf(p.manager.host, t) == NoSlot
  {
    forall q | q in p.down
      ensures !Sees(ToRecipient(t), q) && !Sees(ToHost(t, r), q)
    {
      assert DownOk(o, h, x, q);
    }
    forall q | q in p.up
      ensures !Sees(FromRecipient(t), q) && !Sees(FromHost(t), q)
    {
      assert UpOk(o, h, x, p.joined, q);
    }
    SumBlind(p.down, ToRecipient(t));
    SumBlind(p.down, ToHost(t, r));
    SumBlind(p.up, FromRecipient(t));
    SumBlind(p.up, FromHost(t));
    PickNone(p.manager.recv, t);
    PickNone(p.manager.host, t);
  }

  /** The tables and the packets right after packet_transfer has accepted a request. */
  lemma CreatedFacts(s: Server, o: Origins, c: ClientId, req: Request, r: ClientId)
    requires c in s.conns && c != 0 && TablesOk(s, o) && ProperList(req.hdr.to, c) && RecipientsOk(s, c, req.hdr.to)
    requires r in Recipients(req.hdr.to) && s.nextTid !in o && s.nextTid != 0
    ensures var n := PacketTransfer(s, c, req);
            var t := s.nextTid;
            && n.server.conns == s.conns && r in s.conns && r != c
            && CreatorOf(n.server.transfers, t) == c && RowOf(n.server.rows, t, r) == Is(-1)
            && Got(n.sends, r, ToRecipient(t)) == OPENING && Got(n.sends, c, ToHost(t, r)) == OPENING
  {
    var t := s.nextTid;
    var clients := Recipients(req.hdr.to);
    var n := PacketTransfer(s, c, req);
    assert CreatorOf(s.transfers, t) == 0 && RowOf(s.rows, t, r) == NoRow;
    TransferAppendUnique(s.transfers, Transfer(t, c));
    RowsAppendOf(s.rows, NewRows(t, clients), t, r);
    NewRowsOf(t, clients, t, r);
    RecipientsDistinct(req.hdr.to, c);
    var valid := TransferValid(req.(hdr := req.hdr.(tid := t)));
    var request := TransferRequest(req.(hdr := req.hdr.(tid := t, from := c)));
    GotAppend([Send(c, valid)], Fan(s.conns, clients, request), r, ToRecipient(t));
    GotAppend([Send(c, valid)], Fan(s.conns, clients, request), c, ToHost(t, r));
    OneGot(c, valid, r, ToRecipient(t));
    OneGot(c, valid, c, ToHost(t, r));
    FanGot(s.conns, clients, request, r, ToRecipient(t));
    FanGot(s.conns, clients, request, c, ToHost(t, r));
    ThenNothing(OPENING);
  }

  /** The lane of a transfer that has just been created, part by part. */
  lemma CreatedShape(s: System, c: ClientId, req: Request, t: TransferId, r: ClientId)
    requires c in s.server.conns && t == s.server.nextTid && IsLane(Created(s, c, req), t, r)
    requires PacketTransfer(s.server, c, req).server.nextTid != s.server.nextTid
    ensures c in s.peers && r in s.peers && r in Recipients(req.hdr.to)
    ensures var n := PacketTransfer(s.server, c, req);
            var v := LaneOf(Created(s, c, req), t, r);
            && v.live == (r in n.server.conns) && v.open == (CreatorOf(n.server.transfers, t) != 0)
            && v.row == RowOf(n.server.rows, t, r) && v.relayed == 0
            && v.toR == Sum(s.peers[r].down + For(n.sends, r), ToRecipient(t))
            && v.toC == Sum(s.peers[c].down + For(n.sends, c), ToHost(t, r))
            && v.fromR == Sum(s.peers[r].up, FromRecipient(t)) && v.fromC == Sum(s.peers[c].up, FromHost(t))
            && v.slot == HeldOf(PickOf(s.peers[r].manager.recv, t))
            && v.host == SourceOf(PickOf(s.peers[c].manager.host, t), IndexOf(req.hdr.to, r))
  {
  }

  lemma CreatedLane(s: System, c: ClientId, req: Request, t: TransferId, r: ClientId)
    requires Typed(s) && c in s.server.conns && ProperList(req.hdr.to, c) && RecipientsOk(s.server, c, req.hdr.to)
    requires t == s.server.nextTid && IsLane(Created(s, c, req), t, r)
    ensures Fresh(LaneOf(Created(s, c, req), t, r))
  {
    hide Typed, TablesOk, PeersOk, ProperList, RecipientsOk, ConnsOk, SessionsOk, OriginsOk, PacketTransfer,
          Created, LaneOf;
    hide PeerOk, IsLane;
    PeerIs(s, c);
    CreatedId(s, c, req);
    CreatedShape(s, c, req, t, r);
    CreatedFacts(s.server, s.origin, c, req, r);
    PeerIs(s, r);
    Unheard(s.origin, s.hosted, c, s.peers[c], t, r);
    Unheard(s.origin, s.hosted, r, s.peers[r], t, r);
    var n := PacketTransfer(s.server, c, req);
    SumAppend(s.peers[r].down, For(n.sends, r), ToRecipient(t));
    SumAppend(s.peers[c].down, For(n.sends, c), ToHost(t, r));
    ThenNothing(OPENING);
  }

  lemma CreatedId(s: System, c: ClientId, req: Request)
    requires Typed(s) && c in s.server.conns && RecipientsOk(s.server, c, req.hdr.to)
    ensures PacketTransfer(s.server, c, req).server.nextTid != s.server.nextTid
    ensures TablesOk(s.server, s.origin) && s.server.nextTid !in s.origin && s.server.nextTid != 0 && c in s.peers
  {
  }

  lemma PeerIs(s: System, x: ClientId)
    requires Typed(s) && (x in s.peers || x in s.server.conns)
    ensures x in s.peers && PeerOk(s.origin, s.hosted, x, s.peers[x]) && x != 0
  {
  }

  // ---------------------------------------------------------------- one served packet

  /** What serving a packet, relayed bytes included, does to an existing lane. */
  lemma ServeMove(s: System, x: ClientId, order: seq<ClientId>, t: TransferId, r: ClientId) returns (mv: Move)
    requires Typed(s) && x in s.peers && x in s.server.conns && s.peers[x].up != [] && IsLane(s, t, r)
    ensures IsLane(ServeNext(s, x, order), t, r) && Moves(LaneOf(s, t, r), LaneOf(ServeNext(s, x, order), t, r), mv)
  {
    hide Typed, Sound, Moves, Handle, LaneOf, OriginsOk;
    var p := s.peers[x].up[0];
    var n := ServedSystem(s, x, order);
    var v := LaneOf(s, t, r);
    ServeNextShape(s, x, order);
    StayMoves(v);
    mv := Stay;
    match p
    case ClientIntro(_, _, _) => StepBlind(s, x, order, t, r);
    case TransferRequest(req) =>
      StepBlind(s, x, order, t, r);
      var e := ServeNext(s, x, order);
      NewIdUnused(s, t, r);
      HistoryLane(n, e.origin, e.hosted, e.relayed, t, r);
      LaneRelayed(n, t, r);
    case TransferReply(_, _, _) => mv := StepReply(s, x, order, t, r);
    case TransferComplete(_) => mv := StepComplete(s, x, order, t, r);
    case TransferCancel(_, _) => mv := StepCancel(s, x, order, t, r);
    case TransferData(tid, bytes) => mv := ServeDataMove(s, x, order, t, r);
    case _ => NoSuchUp(s, x);
  }

  lemma ServeDataMove(s: System, x: ClientId, order: seq<ClientId>, t: TransferId, r: ClientId) returns (mv: Move)
    requires Typed(s) && x in s.peers && x in s.server.conns && s.peers[x].up != [] && IsLane(s, t, r)
    requires s.peers[x].up[0].TransferData?
    ensures IsLane(ServeNext(s, x, order), t, r) && Moves(LaneOf(s, t, r), LaneOf(ServeNext(s, x, order), t, r), mv)
  {
    hide Typed, Sound, Moves, Handle, LaneOf, OriginsOk;
    var p := s.peers[x].up[0];
    var n, e := ServedSystem(s, x, order), ServeNext(s, x, order);
    ServeNextShape(s, x, order);
    StepData(s, x, order, t, r);
    HistoryLane(n, e.origin, e.hosted, e.relayed, t, r);
    LaneRelayed(s, t, r);
    LaneRelayed(n, t, r);
    StayMoves(LaneOf(s, t, r));
    mv := if p.tid == t then DoServeData(p.bytes, Sum(s.peers[x].up[1..], FromHost(t))) else Stay;
  }

  lemma LaneRelayed(s: System, t: TransferId, r: ClientId)
    requires IsLane(s, t, r)
    ensures LaneOf(s, t, r).relayed == s.relayed[t]
    ensures LaneOf(s, t, r).(relayed := s.relayed[t]) == LaneOf(s, t, r)
  {
  }

  lemma NewIdUnused(s: System, t: TransferId, r: ClientId)
    requires Typed(s) && IsLane(s, t, r)
    ensures t != s.server.nextTid && s.server.nextTid !in s.origin
  {
  }

  lemma NoSuchUp(s: System, x: ClientId)
    requires Typed(s) && x in s.peers && s.peers[x].up != []
    ensures var p := s.peers[x].up[0];
            p.ClientIntro? || p.TransferRequest? || p.TransferReply? || p.TransferData? || p.TransferComplete?
            || p.TransferCancel?
  {
    PeerIs(s, x);
    assert s.peers[x].up[0] in s.peers[x].up;
  }

  /** A served packet changes history only when it creates a transfer or carries data. */
  lemma ServeNextShape(s: System, x: ClientId, order: seq<ClientId>)
    requires x in s.peers && x in s.server.conns && s.peers[x].up != []
    ensures var p := s.peers[x].up[0];
            var n := ServedSystem(s, x, order);
            var e := ServeNext(s, x, order);
            var u := s.server.nextTid;
            && n.origin == s.origin && n.hosted == s.hosted && n.relayed == s.relayed
            && e == n.(origin := e.origin, relayed := e.relayed) && e.hosted == s.hosted
            && (match p
                case TransferRequest(req) =>
                  e == n || (e.origin == s.origin[u := e.origin[u]] && e.relayed == s.relayed[u := 0])
                case TransferData(tid, bytes) =>
                  && e.origin == s.origin
                  && e.relayed == if tid in s.relayed then s.relayed[tid := s.relayed[tid] + |bytes|] else s.relayed
                case _ => e == n)
  {
  }

  // ---------------------------------------------------------------- every action

  /** A step of one client's process: a move of the recipient's, of the host's, or nobody's. */
  lemma DoMove(s: System, x: ClientId, c: Command, t: TransferId, r: ClientId) returns (mv: Move)
    requires Typed(s) && x in s.peers && IsLane(s, t, r) && Sound(LaneOf(s, t, r))
    ensures var n := Host(s, x, c); IsLane(n, t, r) && Moves(LaneOf(s, t, r), LaneOf(n, t, r), mv)
  {
    hide Typed, Sound, Moves, LaneOf, Execute, ProperList, Pair;
    var p := s.peers[x].(manager := Execute(s.peers[x].manager, c));
    var n := s.(peers := s.peers[x := p]);
    if x == r {
      mv := CommandAtRecipient(s, c, t, r);
    } else if x == s.origin[t].creator {
      mv := CommandAtHost(s, c, t, r);
    } else {
      OtherLane(s, t, r, x, p);
      StayMoves(LaneOf(s, t, r));
      mv := Stay;
    }
    HostHistory(s, x, c);
    HistoryLane(n, n.origin, Host(s, x, c).hosted, n.relayed, t, r);
    LaneRelayed(n, t, r);
  }

  lemma HostHistory(s: System, x: ClientId, c: Command)
    requires Typed(s) && x in s.peers
    ensures var n := s.(peers := s.peers[x := s.peers[x].(manager := Execute(s.peers[x].manager, c))]);
            Host(s, x, c) == n.(hosted := Host(s, x, c).hosted) && Grows(s.origin, s.hosted, s.origin, Host(s, x,
                  c).hosted)
  {
    hide PeersOk, TablesOk, SessionsOk, ConnsOk, OriginsOk, Execute;
  }

  lemma ProduceMove(s: System, x: ClientId, elapsed: bool, ok: bool, t: TransferId, r: ClientId) returns (mv: Move)
    requires Typed(s) && x in s.peers && Readable(s.peers[x].manager) && IsLane(s, t, r) && Sound(LaneOf(s, t, r))
    ensures var n := s.(peers := s.peers[x := Worked(s.peers[x], elapsed, ok)]);
            IsLane(n, t, r) && Moves(LaneOf(s, t, r), LaneOf(n, t, r), mv)
  {
    hide Typed, Sound, Moves, LaneOf, Worked;
    if x == r {
      mv := ProduceAtRecipient(s, elapsed, ok, t, r);
    } else if x == s.origin[t].creator {
      mv := ProduceAtHost(s, elapsed, ok, t, r);
    } else {
      OtherLane(s, t, r, x, Worked(s.peers[x], elapsed, ok));
      StayMoves(LaneOf(s, t, r));
      mv := Stay;
    }
  }

  lemma DeliverMove(s: System, x: ClientId, t: TransferId, r: ClientId) returns (mv: Move)
    requires Typed(s) && x in s.peers && s.peers[x].down != [] && IsLane(s, t, r) && Sound(LaneOf(s, t, r))
    requires s.peers[x].down[0].TransferRequest? ==> CanReceive(s.peers[x].manager)
    ensures var n := s.(peers := s.peers[x := Delivered(s.peers[x])]);
            IsLane(n, t, r) && Moves(LaneOf(s, t, r), LaneOf(n, t, r), mv)
  {
    hide Typed, Sound, Moves, LaneOf, Delivered, CanReceive;
    if x == r {
      mv := DeliverAtRecipient(s, t, r);
    } else if x == s.origin[t].creator {
      mv := DeliverAtHost(s, t, r);
    } else {
      OtherLane(s, t, r, x, Delivered(s.peers[x]));
      StayMoves(LaneOf(s, t, r));
      mv := Stay;
    }
  }

  /** An intro in a client's stream concerns no transfer. */
  lemma AskLane(s: System, x: ClientId, intro: Packet, t: TransferId, r: ClientId)
    requires IsLane(s, t, r) && x in s.peers && intro.ClientIntro?
    ensures var n := s.(peers := s.peers[x := s.peers[x].(up := s.peers[x].up + [intro])]);
            IsLane(n, t, r) && LaneOf(n, t, r) == LaneOf(s, t, r)
  {
    var up := s.peers[x].up;
    SumAppend(up, [intro], FromRecipient(t));
    SumAppend(up, [intro], FromHost(t));
    SumOne(intro, FromRecipient(t));
    SumOne(intro, FromHost(t));
    ThenNothing(Sum(up, FromRecipient(t)));
    ThenNothing(Sum(up, FromHost(t)));
  }

  lemma ConnectLane(s: System, x: ClientId, t: TransferId, r: ClientId)
    requires IsLane(s, t, r) && x !in s.peers
    ensures var n := s.(server := s.server.(conns := s.server.conns[x := Conn(false, 0, "")]),
                        peers := s.peers[x := NEW_PEER]);
            IsLane(n, t, r) && LaneOf(n, t, r) == LaneOf(s, t, r)
  {
  }

  /** The system refines its lanes: each action makes one move of every lane there is. */
  lemma NextMoves(s: System, a: Action, t: TransferId, r: ClientId) returns (mv: Move)
    requires Typed(s) && Enabled(s, a) && IsLane(s, t, r) && Sound(LaneOf(s, t, r))
    ensures IsLane(Next(s, a), t, r) && Moves(LaneOf(s, t, r), LaneOf(Next(s, a), t, r), mv)
  {
    hide Typed, Sound, LaneOf, IsLane, Moves, Host, Slots.Work, ServeNext, CloseClient, Analize;
    StayMoves(LaneOf(s, t, r));
    mv := Stay;
    match a
    case Connect(x) => ConnectLane(s, x, t, r);
    case Ask(x, intro) => AskLane(s, x, intro, t, r);
    case Do(x, c) => mv := DoMove(s, x, c, t, r);
    case Produce(x, elapsed, ok) => mv := ProduceMove(s, x, elapsed, ok, t, r);
    case Deliver(x) => mv := DeliverMove(s, x, t, r);
    case Serve(x, order) => mv := ServeMove(s, x, order, t, r);
    case Close(x, order) => mv := CloseLane(s, order, x, t, r);
  }

  /** A lane that an action brings into being starts out fresh. */
  lemma NextFresh(s: System, a: Action, t: TransferId, r: ClientId)
    requires Typed(s) && Enabled(s, a) && !IsLane(s, t, r) && IsLane(Next(s, a), t, r)
    ensures Sound(LaneOf(Next(s, a), t, r))
  {
    hide Typed, TablesOk, LaneOf, Sound, PacketTransfer, Execute, Slots.Work, CloseClient, Analize, ProperList;
    NextGrows(s, a);
    if t in s.origin {
      OldLane(s, t, r);
      assert false;
    } else if a.Serve? {
      ServeFresh(s, a.id, a.order, t, r);
    } else {
      assert false;
    }
  }

  /** What a transfer stands for never changes. */
  lemma NextGrows(s: System, a: Action)
    requires Typed(s) && Enabled(s, a)
    ensures Grows(s.origin, s.hosted, Next(s, a).origin, Next(s, a).hosted)
  {
    hide Typed, TablesOk, PacketTransfer, Execute, Slots.Work, CloseClient, Analize, ProperList, ServeNext, Handle,
          Host;
    match a
    case Do(x, c) => HostHistory(s, x, c);
    case Serve(x, order) =>
      ServeNextShape(s, x, order);
      NextIdFresh(s);
    case _ =>
  }

  lemma NextIdFresh(s: System)
    requires Typed(s)
    ensures s.server.nextTid !in s.origin
  {
  }

  lemma OldLane(s: System, t: TransferId, r: ClientId)
    requires Typed(s) && Takes(s.origin, t, r)
    ensures IsLane(s, t, r)
  {
  }

  lemma ServeFresh(s: System, x: ClientId, order: seq<ClientId>, t: TransferId, r: ClientId)
    requires Typed(s) && x in s.peers && x in s.server.conns && s.peers[x].up != []
    requires t !in s.origin && IsLane(ServeNext(s, x, order), t, r)
    ensures Sound(LaneOf(ServeNext(s, x, order), t, r))
  {
    hide Typed, TablesOk, LaneOf, Sound, Handle, ProperList, PacketTransfer, RecipientsOk;
    ServeNextShape(s, x, order);
    var p := s.peers[x].up[0];
    var u := Popped(s, x);
    PoppedTyped(s, x);
    if p.TransferRequest? {
      ServeIsCreated(s, x, order);
      ServeProper(s, x);
      RecipientsAcquainted(u, x, p.req);
      CreatedLane(u, x, p.req, t, r);
      FreshSound(LaneOf(Created(u, x, p.req), t, r));
    } else {
      assert false;
    }
  }

  lemma ServeIsCreated(s: System, x: ClientId, order: seq<ClientId>)
    requires x in s.peers && x in s.server.conns && s.peers[x].up != [] && s.peers[x].up[0].TransferRequest?
    ensures ServeNext(s, x, order) == Created(Popped(s, x), x, s.peers[x].up[0].req)
  {
  }

  lemma ServeProper(s: System, x: ClientId)
    requires Typed(s) && x in s.peers && s.peers[x].up != [] && s.peers[x].up[0].TransferRequest?
    ensures ProperList(s.peers[x].up[0].req.hdr.to, x)
  {
    PeerIs(s, x);
    assert s.peers[x].up[0] in s.peers[x].up;
  }

  lemma {:induction false} ExtendRun(s: System, run: seq<Action>, a: Action)
    requires Possible(s, run) && Enabled(After(s, run), a)
    ensures Possible(s, run + [a]) && After(s, run + [a]) == Next(After(s, run), a)
    decreases |run|
  {
    hide Enabled, Next;
    if run == [] {
      assert run + [a] == [a];
      assert [a][1..] == [];
      assert Possible(Next(s, a), []);
    } else {
      assert (run + [a])[1..] == run[1..] + [a] && (run + [a])[0] == run[0];
      ExtendRun(Next(s, run[0]), run[1..], a);
    }
  }

  lemma ServeBroadcasts(s: System, x: ClientId, order: seq<ClientId>)
    requires x in s.peers && x in s.server.conns && s.peers[x].up != []
    ensures ServeNext(s, x, order).peers ==
            Broadcast(s.peers[x := s.peers[x].(up := s.peers[x].up[1..])], Handle(s.server, order, x,
                  s.peers[x].up[0]).sends)
  {
    hide Handle, Broadcast;
  }

  lemma ReachNext(s: System, a: Action)
    requires Reachable(s) && Enabled(s, a)
    ensures Reachable(Next(s, a))
  {
    hide Enabled, Next, Possible, After;
    var run :| Possible(INITIAL, run) && After(INITIAL, run) == s;
    ExtendRun(INITIAL, run, a);
  }

  /** Every action keeps all lanes sound. */
  lemma NextLanes(s: System, a: Action)
    requires Typed(s) && LanesSound(s) && Enabled(s, a)
    ensures LanesSound(Next(s, a))
  {
    hide Typed, Enabled, Next, LaneOf, Sound, IsLane, Moves;
    forall t, r | IsLane(Next(s, a), t, r)
      ensures Sound(LaneOf(Next(s, a), t, r))
    {
      if IsLane(s, t, r) {
        var mv := NextMoves(s, a, t, r);
        MoveSound(LaneOf(s, t, r), LaneOf(Next(s, a), t, r), mv);
      } else {
        NextFresh(s, a, t, r);
      }
    }
  }

  lemma {:induction false} RunInvariant(s: System, run: seq<Action>)
    requires Typed(s) && LanesSound(s) && Possible(s, run)
    ensures Typed(After(s, run)) && LanesSound(After(s, run))
    decreases |run|
  {
    hide Typed, LanesSound, Enabled, Next;
    if run != [] {
      NextTyped(s, run[0]);
      NextLanes(s, run[0]);
      RunInvariant(Next(s, run[0]), run[1..]);
    }
  }

  /** In every state the system can get into, everything is well typed and every lane is sound. */
  lemma ReachableInvariant(s: System)
    requires Reachable(s)
    ensures Typed(s) && LanesSound(s)
  {
    hide Typed, LanesSound, Possible, After;
    var run :| Possible(INITIAL, run) && After(INITIAL, run) == s;
    InitialTyped();
    InitialLanes();
    RunInvariant(INITIAL, run);
  }

  lemma InitialLanes()
    ensures LanesSound(INITIAL)
  {
  }
}
