/**
 A request is made once. Of the ways in which a request can be under way (in a slot that has yet to
 send it, in the host's stream to the server, accepted as a transfer) at most one holds, and a host
 that still waits for the answer of an accepted request has the VALID in its incoming stream.
 */
module Requests {
  import opened Wire
  import opened FileModel
  import opened Slots
  import opened ServerModel
  import opened Network
  import opened WellTyped
  import opened Typing
  import opened Flows
  import opened Lanes
  import opened Views
  import opened Simulation
  import opened Preservation
  import opened EndToEnd

  ghost predicate Issued(o: Origins, x: ClientId, l: LocalId) {
    exists t :: t in o && o[t].creator == x && o[t].local == l
  }

  predicate Queued(up: seq<Packet>, l: LocalId) {
    exists k :: 0 <= k < |up| && up[k].TransferRequest? && up[k].req.local == l
  }

  predicate HasValid(down: seq<Packet>, t: TransferId) {
    exists k :: 0 <= k < |down| && down[k].TransferValid? && down[k].req.hdr.tid == t
  }

  ghost predicate UpRequests(o: Origins, x: ClientId, up: seq<Packet>) {
    && (forall k | 0 <= k < |up| && up[k].TransferRequest? :: !Issued(o, x, up[k].req.local))
    && (forall j, k | 0 <= j < k < |up| && up[j].TransferRequest? && up[k].TransferRequest? ::
          up[j].req.local != up[k].req.local)
  }

  ghost predicate Unsent(o: Origins, x: ClientId, up: seq<Packet>, host: SlotArray) {
    forall i | 0 <= i < SIM_TRANSFERS_MAX && host[i].state == SendReq ::
      !Issued(o, x, host[i].local) && !Queued(up, host[i].local)
  }

  predicate Awaited(o: Origins, x: ClientId, down: seq<Packet>, host: SlotArray) {
    forall i, t | 0 <= i < SIM_TRANSFERS_MAX && host[i].state == GetResponse && t in o
                  && o[t].creator == x && o[t].local == host[i].local ::
      HasValid(down, t)
  }

  predicate IssuedOnce(o: Origins, x: ClientId) {
    forall t, u | t in o && u in o && o[t].creator == x && o[u].creator == x && o[t].local == o[u].local :: t == u
  }

  ghost predicate RequestsOk(o: Origins, x: ClientId, p: Peer) {
    && IssuedOnce(o, x) && UpRequests(o, x, p.up)
    && Unsent(o, x, p.up, p.manager.host) && Awaited(o, x, p.down, p.manager.host)
  }

  ghost predicate RequestsInv(s: System) {
    forall x | x in s.peers :: RequestsOk(s.origin, x, s.peers[x])
  }

  // ---------------------------------------------------------------- the streams

  lemma MoreDown(o: Origins, x: ClientId, down: seq<Packet>, more: seq<Packet>, host: SlotArray)
    requires Awaited(o, x, down, host)
    ensures Awaited(o, x, down + more, host)
  {
    forall t | HasValid(down, t)
      ensures HasValid(down + more, t)
    {
      var k :| 0 <= k < |down| && down[k].TransferValid? && down[k].req.hdr.tid == t;
      assert (down + more)[k] == down[k];
    }
  }

  /** Appending a packet that makes no request. */
  lemma MoreUp(o: Origins, x: ClientId, up: seq<Packet>, p: Packet, host: SlotArray)
    requires UpRequests(o, x, up) && Unsent(o, x, up, host) && !p.TransferRequest?
    ensures UpRequests(o, x, up + [p]) && Unsent(o, x, up + [p], host)
  {
  }

  // ---------------------------------------------------------------- the manager

  /** No slot has come to be waiting to send, or waiting for an answer. */
  predicate NoNewWait(a: SlotArray, b: SlotArray) {
    forall i | 0 <= i < SIM_TRANSFERS_MAX && (b[i].state == SendReq || b[i].state == GetResponse) ::
      b[i].state == a[i].state && b[i].local == a[i].local
  }

  lemma FewerWaits(o: Origins, x: ClientId, up: seq<Packet>, down: seq<Packet>, a: SlotArray, b: SlotArray)
    requires NoNewWait(a, b)
    ensures Unsent(o, x, up, a) ==> Unsent(o, x, up, b)
    ensures Awaited(o, x, down, a) ==> Awaited(o, x, down, b)
  {
  }

  lemma ReceiveWaits(m: Manager, p: Packet)
    ensures NoNewWait(m.host, Receive(m, p).host)
  {
  }

  lemma ShiftedDown(o: Origins, x: ClientId, down: seq<Packet>, host: SlotArray)
    requires down != [] && Awaited(o, x, down, host)
    requires forall i | 0 <= i < SIM_TRANSFERS_MAX && host[i].state == GetResponse && down[0].TransferValid? ::
               (forall t | t in o && o[t].creator == x && o[t].local == host[i].local :: t != down[0].req.hdr.tid)
    ensures Awaited(o, x, down[1..], host)
  {
  }

  /** The slot that waits for a VALID no longer waits once it has been delivered. */
  lemma ValidAnswers(m: Manager, req: Request, i: nat)
    requires i < SIM_TRANSFERS_MAX && DistinctLocals(m.host) && m.host[i].state == GetResponse && m.host[i].local == req.local
    ensures HostRequestValid(m, req, true).host[i].state != GetResponse
  {
  }

  lemma DeliverRequests(o: Origins, h: Files, x: ClientId, p: Peer)
    requires PeerOk(o, h, x, p) && RequestsOk(o, x, p) && p.down != []
    ensures RequestsOk(o, x, Delivered(p))
  {
    hide ManagerOk, Receive, UpRequests, Unsent, Awaited, IssuedOnce, Delivered, NoNewWait, UpOk;
    var q := Delivered(p);
    DeliveredParts(p);
    ReceiveWaits(p.manager, p.down[0]);
    FewerWaits(o, x, p.up, p.down, p.manager.host, q.manager.host);
    if p.down[0].TransferValid? {
      AnsweredWaits(o, h, x, p);
    }
    ShiftedDown(o, x, p.down, q.manager.host);
  }

  lemma AnsweredWaits(o: Origins, h: Files, x: ClientId, p: Peer)
    requires PeerOk(o, h, x, p) && p.down != [] && p.down[0].TransferValid?
    ensures var host := Receive(p.manager, p.down[0]).host;
            forall i | 0 <= i < SIM_TRANSFERS_MAX && host[i].state == GetResponse ::
              (forall t | t in o && o[t].creator == x && o[t].local == host[i].local :: t != p.down[0].req.hdr.tid)
  {
    hide HostSlotOk, RecvSlotOk, UpOk;
    var req := p.down[0].req;
    assert DownOk(o, h, x, p.down[0]);
    var host := Receive(p.manager, p.down[0]).host;
    forall i | 0 <= i < SIM_TRANSFERS_MAX && host[i].state == GetResponse
      ensures host[i].local != req.local
    {
      ReceiveWaits(p.manager, p.down[0]);
      if p.manager.host[i].local == req.local {
        ValidAnswers(p.manager, req, i);
        assert false;
      }
    }
  }

  lemma CommandRequests(o: Origins, x: ClientId, p: Peer, c: Command)
    requires RequestsOk(o, x, p)
    requires !Issued(o, x, p.manager.nextLocal) && !Queued(p.up, p.manager.nextLocal)
    ensures RequestsOk(o, x, p.(manager := Execute(p.manager, c)))
  {
  }

  /** Local ids that have not been given out are nowhere. */
  lemma FreshLocal(s: System, x: ClientId)
    requires Typed(s) && x in s.peers
    ensures !Issued(s.origin, x, s.peers[x].manager.nextLocal)
    ensures !Queued(s.peers[x].up, s.peers[x].manager.nextLocal)
  {
    hide TablesOk, SessionsOk, ConnsOk;
    PeerFacts(s, x);
    hide PeerOk, PeersOk, ManagerOk, DownOk;
    var l := s.peers[x].manager.nextLocal;
    assert (x, l) !in s.hosted;
    forall k | 0 <= k < |s.peers[x].up| && s.peers[x].up[k].TransferRequest?
      ensures s.peers[x].up[k].req.local != l
    {
      assert s.peers[x].up[k] in s.peers[x].up;
    }
  }

  // ---------------------------------------------------------------- do_work

  lemma SendRequests(o: Origins, h: Files, x: ClientId, p: Peer, i: nat)
    requires PeerOk(o, h, x, p) && RequestsOk(o, x, p) && i < SIM_TRANSFERS_MAX && p.manager.host[i].state == SendReq
    ensures var r := SendRequest(p.manager, i);
            RequestsOk(o, x, p.(manager := r.manager, up := p.up + [r.packet.value]))
  {
  }

  lemma OtherWork(m: Manager, elapsed: bool, ok: bool)
    requires Readable(m)
    ensures var i := Find(m.host, HostBusy);
            var r := Slots.Work(m, elapsed, ok);
            if i < SIM_TRANSFERS_MAX && m.host[i].state == SendReq then r == SendRequest(m, i)
            else NoNewWait(m.host, r.manager.host) && (r.packet.Some? ==> !r.packet.value.TransferRequest?)
  {
    hide SendData, Reading;
    var i := Find(m.host, HostBusy);
    if i < SIM_TRANSFERS_MAX && m.host[i].state == Active {
      DataWaits(m, i, elapsed, ok);
    }
  }

  lemma DataWaits(m: Manager, i: nat, elapsed: bool, ok: bool)
    requires i < SIM_TRANSFERS_MAX && m.host[i].state == Active && Reading(m.host[i].file)
    ensures var r := SendData(m, i, elapsed, ok);
            NoNewWait(m.host, r.manager.host) && (r.packet.Some? ==> !r.packet.value.TransferRequest?)
  {
  }

  lemma WorkRequests(o: Origins, h: Files, x: ClientId, p: Peer, elapsed: bool, ok: bool)
    requires PeerOk(o, h, x, p) && RequestsOk(o, x, p) && Readable(p.manager)
    ensures RequestsOk(o, x, Worked(p, elapsed, ok))
  {
    hide PeerOk, Slots.Work, UpRequests, Unsent, Awaited, IssuedOnce, NoNewWait, Readable;
    OtherWork(p.manager, elapsed, ok);
    var i := Find(p.manager.host, HostBusy);
    var r := Slots.Work(p.manager, elapsed, ok);
    if i < SIM_TRANSFERS_MAX && p.manager.host[i].state == SendReq {
      SendRequests(o, h, x, p, i);
    } else {
      FewerWaits(o, x, p.up, p.down, p.manager.host, r.manager.host);
      if r.packet.Some? {
        MoreUp(o, x, p.up, r.packet.value, r.manager.host);
      } else {
        assert p.up + [] == p.up;
      }
    }
  }

  // ---------------------------------------------------------------- the server

  lemma ReactRequests(s: System, re: Reaction)
    requires RequestsInv(s)
    ensures RequestsInv(React(s, re))
  {
    hide UpRequests, Unsent, Awaited, IssuedOnce;
    var n := React(s, re);
    forall x | x in n.peers
      ensures RequestsOk(n.origin, x, n.peers[x])
    {
      assert RequestsOk(s.origin, x, s.peers[x]);
      MoreDown(s.origin, x, s.peers[x].down, For(re.sends, x), s.peers[x].manager.host);
    }
  }

  lemma PoppedRequests(s: System, x: ClientId)
    requires RequestsInv(s) && x in s.peers && s.peers[x].up != []
    ensures RequestsInv(Popped(s, x))
  {
  }

  /** Nothing else is under way for the request at the head of a stream. */
  lemma HeadAlone(o: Origins, x: ClientId, p: Peer)
    requires RequestsOk(o, x, p) && p.up != [] && p.up[0].TransferRequest?
    ensures var l := p.up[0].req.local;
            && !Issued(o, x, l) && !Queued(p.up[1..], l)
            && (forall i | 0 <= i < SIM_TRANSFERS_MAX && p.manager.host[i].state == SendReq :: p.manager.host[i].local != l)
  {
  }

  /** A transfer is created for a request that is nowhere else, and its VALID is on its way. */
  lemma CreatedPeer(o: Origins, x: ClientId, y: ClientId, p: Peer, t: TransferId, origin: Origin)
    requires RequestsOk(o, y, p) && t !in o && origin.creator == x
    requires x == y ==>
               && !Issued(o, x, origin.local) && !Queued(p.up, origin.local) && HasValid(p.down, t)
               && (forall i | 0 <= i < SIM_TRANSFERS_MAX && p.manager.host[i].state == SendReq ::
                     p.manager.host[i].local != origin.local)
    ensures RequestsOk(o[t := origin], y, p)
  {
  }

  lemma ValidSent(s: Server, c: ClientId, req: Request, down: seq<Packet>)
    requires c in s.conns && PacketTransfer(s, c, req).server.nextTid != s.nextTid
    ensures HasValid(down + For(PacketTransfer(s, c, req).sends, c), s.nextTid)
  {
    var n := PacketTransfer(s, c, req);
    assert n.sends[0].to == c && n.sends[0].packet.TransferValid?;
    var got := For(n.sends, c);
    assert got[0] == n.sends[0].packet;
    assert (down + got)[|down|] == got[0];
  }

  lemma CreatedRequests(s: System, x: ClientId, req: Request)
    requires Typed(s) && RequestsInv(s) && x in s.peers && x in s.server.conns
    requires !Issued(s.origin, x, req.local) && !Queued(s.peers[x].up, req.local)
    requires forall i | 0 <= i < SIM_TRANSFERS_MAX && s.peers[x].manager.host[i].state == SendReq ::
               s.peers[x].manager.host[i].local != req.local
    ensures RequestsInv(Created(s, x, req))
  {
    hide Typed, RequestsOk, PacketTransfer, Issued, Queued, HasValid;
    var re := PacketTransfer(s.server, x, req);
    var n := React(s, re);
    ReactRequests(s, re);
    if re.server.nextTid != s.server.nextTid {
      NextIdFresh(s);
      ValidSent(s.server, x, req, s.peers[x].down);
      forall y | y in n.peers
        ensures RequestsOk(Created(s, x, req).origin, y, n.peers[y])
      {
        CreatedPeer(s.origin, x, y, n.peers[y], s.server.nextTid, Origin(x, req.local, req.hdr.to));
      }
    }
  }

  lemma ServeRequests(s: System, x: ClientId, order: seq<ClientId>)
    requires Typed(s) && RequestsInv(s) && x in s.peers && x in s.server.conns && s.peers[x].up != []
    ensures RequestsInv(ServeNext(s, x, order))
  {
    hide Typed, Handle, RequestsOk, PacketTransfer, Issued, Queued;
    var p := s.peers[x].up[0];
    PoppedRequests(s, x);
    PoppedTyped(s, x);
    if p.TransferRequest? {
      HeadAlone(s.origin, x, s.peers[x]);
      ServeIsCreated(s, x, order);
      CreatedRequests(Popped(s, x), x, p.req);
    } else {
      ServeNextShape(s, x, order);
      ReactRequests(Popped(s, x), Handle(s.server, order, x, p));
    }
  }

  /** Every action keeps the requests apart. */
  lemma NextRequests(s: System, a: Action)
    requires Typed(s) && RequestsInv(s) && Enabled(s, a)
    ensures RequestsInv(Next(s, a))
  {
    hide Typed, RequestsOk, ServeNext, CloseClient, Execute, Slots.Work, Readable, CanReceive, PeerOk, Analize;
    hide Issued, Queued;
    match a
    case Connect(x) => ConnectRequests(s, x);
    case Ask(x, intro) => AskRequests(s, x, intro);
    case Do(x, c) =>
      FreshLocal(s, x);
      CommandRequests(s.origin, x, s.peers[x], c);
    case Produce(x, elapsed, ok) =>
      PeerIs(s, x);
      WorkRequests(s.origin, s.hosted, x, s.peers[x], elapsed, ok);
    case Deliver(x) =>
      PeerIs(s, x);
      DeliverRequests(s.origin, s.hosted, x, s.peers[x]);
    case Serve(x, order) => ServeRequests(s, x, order);
    case Close(x, order) => ReactRequests(s, CloseClient(s.server, order, x));
  }

  lemma AskRequests(s: System, x: ClientId, intro: Packet)
    requires RequestsInv(s) && x in s.peers && intro.ClientIntro?
    ensures RequestsOk(s.origin, x, s.peers[x].(up := s.peers[x].up + [intro]))
  {
  }

  lemma ConnectRequests(s: System, x: ClientId)
    requires Typed(s) && RequestsInv(s) && x !in s.peers
    ensures RequestsInv(s.(server := s.server.(conns := s.server.conns[x := Conn(false, 0, "")]),
                           peers := s.peers[x := NEW_PEER]))
  {
    hide Typed, RequestsOk;
    NewcomerHasNone(s, x);
    NewPeerRequests(s.origin, x);
  }

  lemma NewPeerRequests(o: Origins, x: ClientId)
    requires forall t | t in o :: o[t].creator != x
    ensures RequestsOk(o, x, NEW_PEER)
  {
    assert forall i | 0 <= i < SIM_TRANSFERS_MAX :: NEW_PEER.manager.host[i].state == Empty;
  }

  lemma NewcomerHasNone(s: System, x: ClientId)
    requires Typed(s) && x !in s.peers
    ensures forall t | t in s.origin :: s.origin[t].creator != x
  {
  }

  lemma {:induction false} RunRequests(s: System, run: seq<Action>)
    requires Typed(s) && RequestsInv(s) && Possible(s, run)
    ensures RequestsInv(After(s, run))
    decreases |run|
  {
    hide Typed, RequestsInv, Enabled, Next;
    if run != [] {
      NextTyped(s, run[0]);
      NextRequests(s, run[0]);
      RunRequests(Next(s, run[0]), run[1..]);
    }
  }

  lemma ReachableRequests(s: System)
    requires Reachable(s)
    ensures RequestsInv(s)
  {
    hide Typed, RequestsInv, Possible, After;
    var run :| Possible(INITIAL, run) && After(INITIAL, run) == s;
    InitialTyped();
    assert RequestsInv(INITIAL) by { NoPeersNoRequests(); }
    RunRequests(INITIAL, run);
  }

  lemma NoPeersNoRequests()
    ensures RequestsInv(INITIAL)
  {
  }

  // ---------------------------------------------------------------- VALID comes first

  /** Nothing the lens shows comes before an opening packet. */
  lemma {:induction false} OpeningFirst(q: seq<Packet>, l: Lens, i: nat, j: nat)
    requires Sum(q, l).Flow? && i < j < |q| && Seen(l, q[i]) != NOTHING
    ensures Seen(l, q[j]) != OPENING
    decreases |q|
  {
    if i == 0 {
      if Seen(l, q[j]) == OPENING {
        NoOpening(q[1..], l, j - 1);
      }
    } else {
      OpeningFirst(q[1..], l, i - 1, j - 1);
    }
  }

  lemma {:induction false} NoOpening(q: seq<Packet>, l: Lens, j: nat)
    requires Sum(q, l).Flow? && j < |q| && Seen(l, q[j]) == OPENING
    ensures Sum(q, l).first
    decreases |q|
  {
    if j > 0 {
      NoOpening(q[1..], l, j - 1);
    }
  }

  /** What a host is still to receive about one of its recipients is at all times in order. */
  lemma HostStream(s: System, t: TransferId, r: ClientId)
    requires Reachable(s) && IsLane(s, t, r)
    ensures Sum(s.peers[s.origin[t].creator].down, ToHost(t, r)).Flow?
  {
    hide Reachable, Typed, LaneOf, IsLane, Sound;
    ReachableInvariant(s);
    assert Sound(LaneOf(s, t, r));
    SoundPicks(s, t, r);
    LaneSlots(s, t, r);
  }

  /** In a host's incoming stream, VALID(t) comes before every REPLY(t) and CANCEL(t). */
  lemma ValidFirst(s: System, c: ClientId, t: TransferId, i: nat, j: nat)
    requires Reachable(s) && c in s.peers && Gives(s.origin, t, c) && i < |s.peers[c].down| && j < |s.peers[c].down|
    requires s.peers[c].down[i].TransferValid? && s.peers[c].down[i].req.hdr.tid == t
    requires var p := s.peers[c].down[j]; (p.TransferReply? || p.TransferCancel?) && p.tid == t
    ensures i < j
  {
    hide Reachable, Typed, LaneOf, IsLane, DownOk, UpOk, ManagerOk, OriginsOk, Sum;
    ReachableInvariant(s);
    PeerFacts(s, c);
    var p := s.peers[c].down[j];
    assert p in s.peers[c].down;
    AnswerFrom(s.origin, s.hosted, c, p, t);
    OldLane(s, t, p.from);
    HostStream(s, t, p.from);
    if j < i {
      OpeningFirst(s.peers[c].down, ToHost(t, p.from), j, i);
    }
  }

  /** An answer about a transfer that a client hosts comes from one of its recipients. */
  lemma AnswerFrom(o: Origins, h: Files, c: ClientId, p: Packet, t: TransferId)
    requires OriginsOk(o, h) && DownOk(o, h, c, p) && Gives(o, t, c)
    requires (p.TransferReply? || p.TransferCancel?) && p.tid == t
    ensures Takes(o, t, p.from)
  {
  }

  /** No reply or cancel ever reaches a host whose slot for that transfer still waits for its VALID. */
  lemma NoEarlyAnswer(s: System, c: ClientId, t: TransferId, j: nat)
    requires Reachable(s) && c in s.peers && Gives(s.origin, t, c) && s.peers[c].down != [] && j < SIM_TRANSFERS_MAX
    requires var p := s.peers[c].down[0]; (p.TransferReply? || p.TransferCancel?) && p.tid == t
    ensures !(s.peers[c].manager.host[j].state == GetResponse && s.peers[c].manager.host[j].local == s.origin[t].local)
  {
    hide Reachable;
    ReachableRequests(s);
    assert RequestsOk(s.origin, c, s.peers[c]);
    var slot := s.peers[c].manager.host[j];
    if slot.state == GetResponse && slot.local == s.origin[t].local {
      assert HasValid(s.peers[c].down, t);
      var i :| 0 <= i < |s.peers[c].down| && s.peers[c].down[i].TransferValid? && s.peers[c].down[i].req.hdr.tid == t;
      ValidFirst(s, c, t, i, 0);
    }
  }
}
