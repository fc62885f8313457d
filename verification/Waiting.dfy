/**
 A host slot that waits for the server's answer to its request does not wait in vain: the request is on its
 way to the server, or the answer, VALID or INVALID, is on its way back, and never more than one of the two.
 */
module Waiting {
  import opened Wire
  import opened FileModel
  import opened Slots
  import opened ServerModel
  import opened Sends
  import opened Network
  import opened WellTyped
  import opened Typing
  import opened Simulation
  import opened Preservation
  import opened Requests
  import opened Joining
  import opened Logs

  /** A request with a given local id, or the answer to it. */
  datatype Mark = Asks(local: LocalId) | Tells(local: LocalId)

  predicate Bears(p: Packet, k: Mark) {
    match k
    case Asks(l) => p.TransferRequest? && p.req.local == l
    case Tells(l) => (p.TransferValid? || p.TransferInvalid?) && p.req.local == l
  }

  function Count(q: seq<Packet>, k: Mark): nat {
    if q == [] then 0 else (if Bears(q[0], k) then 1 else 0) + Count(q[1..], k)
  }

  lemma {:induction false} CountAppend(a: seq<Packet>, b: seq<Packet>, k: Mark)
    ensures Count(a + b, k) == Count(a, k) + Count(b, k)
  {
    if a == [] {
      assert a + b == b;
    } else {
      assert (a + b)[1..] == a[1..] + b;
      CountAppend(a[1..], b, k);
    }
  }

  lemma {:induction false} CountNone(q: seq<Packet>, k: Mark)
    requires forall p | p in q :: !Bears(p, k)
    ensures Count(q, k) == 0
  {
    if q != [] {
      assert q[0] in q;
      CountNone(q[1..], k);
    }
  }

  lemma CountOne(p: Packet, k: Mark)
    ensures Count([p], k) == if Bears(p, k) then 1 else 0
  {
    assert [p][1..] == [];
  }

  lemma CountTail(q: seq<Packet>, k: Mark)
    requires q != []
    ensures Count(q, k) == (if Bears(q[0], k) then 1 else 0) + Count(q[1..], k)
  {
  }

  /** How often a request is under way, as a request to the server or as an answer from it. */
  function UnderWay(p: Peer, l: LocalId): nat {
    Count(p.up, Asks(l)) + Count(p.down, Tells(l))
  }

  ghost predicate WaitsOk(p: Peer) {
    && (forall l | l >= p.manager.nextLocal :: UnderWay(p, l) == 0)
    && (forall i | 0 <= i < SIM_TRANSFERS_MAX && p.manager.host[i].state == SendReq ::
          UnderWay(p, p.manager.host[i].local) == 0)
    && (forall i | 0 <= i < SIM_TRANSFERS_MAX && p.manager.host[i].state == GetResponse ::
          UnderWay(p, p.manager.host[i].local) == 1)
  }

  // ---------------------------------------------------------------- the client

  /** Nobody comes to wait, and nothing about requests moves. */
  lemma FewerWaiting(p: Peer, q: Peer)
    requires WaitsOk(p) && NoNewWait(p.manager.host, q.manager.host) && q.manager.nextLocal == p.manager.nextLocal
    requires forall l :: UnderWay(q, l) == UnderWay(p, l)
    ensures WaitsOk(q)
  {
  }

  lemma OrderWaits(p: Peer, c: Command)
    requires WaitsOk(p)
    ensures WaitsOk(p.(manager := Execute(p.manager, c)))
  {
    var q := p.(manager := Execute(p.manager, c));
    assert forall l :: UnderWay(q, l) == UnderWay(p, l);
  }

  lemma RequestSent(p: Peer, i: nat)
    requires WaitsOk(p) && DistinctLocals(p.manager.host) && i < SIM_TRANSFERS_MAX && p.manager.host[i].state == SendReq
    requires p.manager.host[i].local < p.manager.nextLocal
    ensures var r := SendRequest(p.manager, i);
            r.packet.Some? && WaitsOk(p.(manager := r.manager, up := p.up + [r.packet.value]))
  {
    hide Count;
    var r := SendRequest(p.manager, i);
    var q := p.(manager := r.manager, up := p.up + [r.packet.value]);
    forall l
      ensures UnderWay(q, l) == UnderWay(p, l) + if l == p.manager.host[i].local then 1 else 0
    {
      CountAppend(p.up, [r.packet.value], Asks(l));
      CountOne(r.packet.value, Asks(l));
    }
  }

  lemma NoRequestSent(p: Peer, m: Manager, more: seq<Packet>)
    requires WaitsOk(p) && NoNewWait(p.manager.host, m.host) && m.nextLocal == p.manager.nextLocal
    requires forall q | q in more :: !q.TransferRequest?
    ensures WaitsOk(p.(manager := m, up := p.up + more))
  {
    hide Count;
    forall l
      ensures Count(p.up + more, Asks(l)) == Count(p.up, Asks(l))
    {
      CountAppend(p.up, more, Asks(l));
      CountNone(more, Asks(l));
    }
    FewerWaiting(p, p.(manager := m, up := p.up + more));
  }

  lemma TurnWaits(o: Origins, h: Files, x: ClientId, p: Peer, elapsed: bool, ok: bool)
    requires PeerOk(o, h, x, p) && WaitsOk(p) && Readable(p.manager)
    ensures WaitsOk(Worked(p, elapsed, ok))
  {
    hide Slots.Work, NoNewWait, Readable, WaitsOk, RecvSlotOk, UpOk, DownOk, Find;
    var m := p.manager;
    OtherWork(m, elapsed, ok);
    var i := Find(m.host, HostBusy);
    var r := Slots.Work(m, elapsed, ok);
    if i < SIM_TRANSFERS_MAX && m.host[i].state == SendReq {
      assert HostSlotOk(o, h, x, p.joined, m.nextLocal, m.host[i]);
      RequestSent(p, i);
    } else {
      WorkKeepsLocal(m, elapsed, ok);
      NoRequestSent(p, r.manager, if r.packet.Some? then [r.packet.value] else []);
    }
  }

  /** The slot that waits for an answer no longer waits once it has been delivered. */
  lemma AnswerEnds(m: Manager, p: Packet, i: nat)
    requires i < SIM_TRANSFERS_MAX && DistinctLocals(m.host) && m.host[i].state == GetResponse
    requires Bears(p, Tells(m.host[i].local))
    ensures Receive(m, p).host[i].state != GetResponse && Receive(m, p).host[i].state != SendReq
  {
  }

  lemma ReceiveKeepsLocal(m: Manager, p: Packet)
    ensures Receive(m, p).nextLocal == m.nextLocal
  {
  }

  lemma DeliveryWaits(o: Origins, h: Files, x: ClientId, p: Peer)
    requires PeerOk(o, h, x, p) && WaitsOk(p) && p.down != []
    ensures WaitsOk(Delivered(p))
  {
    hide Count, Receive, NoNewWait, RecvSlotOk, HostSlotOk, UpOk, DownOk, Delivered;
    var q, m, d := Delivered(p), p.manager, p.down[0];
    DeliveredParts(p);
    ReceiveWaits(m, d);
    ReceiveKeepsLocal(m, d);
    forall l
      ensures UnderWay(q, l) + (if Bears(d, Tells(l)) then 1 else 0) == UnderWay(p, l)
    {
      CountTail(p.down, Tells(l));
    }
    forall i | 0 <= i < SIM_TRANSFERS_MAX && (q.manager.host[i].state == GetResponse || q.manager.host[i].state == SendReq)
      ensures m.host[i].state == q.manager.host[i].state && m.host[i].local == q.manager.host[i].local
      ensures !Bears(d, Tells(m.host[i].local))
    {
      StillWaits(m, q.manager, i);
      if m.host[i].state == GetResponse && Bears(d, Tells(m.host[i].local)) {
        AnswerEnds(m, d, i);
      }
    }
  }

  lemma StillWaits(m: Manager, n: Manager, i: nat)
    requires NoNewWait(m.host, n.host) && i < SIM_TRANSFERS_MAX
    requires n.host[i].state == GetResponse || n.host[i].state == SendReq
    ensures m.host[i].state == n.host[i].state && m.host[i].local == n.host[i].local
  {
  }

  // ---------------------------------------------------------------- the server

  /** A request is answered by one packet to its sender, and by nothing to anybody else. */
  lemma RequestAnswered(s: Server, c: ClientId, req: Request, y: ClientId, l: LocalId)
    requires c in s.conns
    ensures Count(For(PacketTransfer(s, c, req).sends, y), Tells(l)) == if y == c && req.local == l then 1 else 0
  {
    var sends := PacketTransfer(s, c, req).sends;
    var k := Tells(l);
    if RecipientsOk(s, c, req.hdr.to) {
      var first := Send(c, TransferValid(req.(hdr := req.hdr.(tid := s.nextTid))));
      var p := TransferRequest(req.(hdr := req.hdr.(tid := s.nextTid, from := c)));
      var rest := Fan(s.conns, Recipients(req.hdr.to), p);
      FanMember(s.conns, Recipients(req.hdr.to), p);
      ForMember(rest, y);
      CountNone(For(rest, y), k);
      ForAppend([first], rest, y);
      OneSend(first, y);
      CountAppend(For([first], y), For(rest, y), k);
      CountOne(first.packet, k);
    } else {
      OneSend(sends[0], y);
      CountOne(sends[0].packet, k);
    }
  }

  lemma OneSend(sd: Send, y: ClientId)
    ensures For([sd], y) == if sd.to == y then [sd.packet] else []
  {
    assert [sd][1..] == [];
  }

  predicate NoAnswers(sends: seq<Send>) {
    forall sd | sd in sends :: !sd.packet.TransferValid? && !sd.packet.TransferInvalid?
  }

  lemma NoAnswersFor(sends: seq<Send>, y: ClientId, l: LocalId)
    requires NoAnswers(sends)
    ensures Count(For(sends, y), Tells(l)) == 0
  {
    ForMember(sends, y);
    CountNone(For(sends, y), Tells(l));
  }

  /** No other packet is answered like that. */
  lemma NothingAnswered(s: Server, order: seq<ClientId>, c: ClientId, p: Packet)
    requires c in s.conns && !p.TransferRequest? && !p.TransferValid? && !p.TransferInvalid?
    ensures NoAnswers(Handle(s, order, c, p).sends)
  {
    match p
    case ClientIntro(_, _, _) => IntroAnswers(s, order, c, p);
    case TransferData(t, _) => FanMember(s.conns, Clients(s.rows, t, Accepted), p);
    case TransferComplete(t) => FanMember(s.conns, Clients(s.rows, t, Accepted), p);
    case TransferCancel(t, _) =>
      FanMember(s.conns, Clients(s.rows, t, NotDenied), TransferCancel(t, c));
      var joined := JoinedBy(s.transfers, s.rows, c);
      var i := FindTransfer(joined, t);
      if i < |joined| { FanMember(s.conns, [joined[i].creator], TransferCancel(t, c)); }
    case _ =>
  }

  lemma IntroAnswers(s: Server, order: seq<ClientId>, c: ClientId, p: Packet)
    requires c in s.conns && p.ClientIntro?
    ensures NoAnswers(PacketIntro(s, order, c, p).sends)
  {
    var r := PacketIntro(s, order, c, p);
    if r.server != s {
      var now := r.server.conns;
      FanMember(now, Peers(now, order, c, now[c].session), NewUsers([User(c, p.clientName)]));
    }
  }

  lemma {:induction false} CancelCreatedAnswers(s: Server, c: ClientId, ts: seq<TransferId>)
    ensures NoAnswers(CancelCreated(s, c, ts).sends)
    decreases |ts|
  {
    if ts != [] {
      FanMember(s.conns, Clients(s.rows, ts[0], NotDenied), TransferCancel(ts[0], c));
      CancelCreatedAnswers(Cleanup(s, ts[0]), c, ts[1..]);
    }
  }

  lemma {:induction false} CancelJoinedAnswers(conns: map<ClientId, Conn>, c: ClientId, joined: seq<Transfer>)
    ensures NoAnswers(CancelJoined(conns, c, joined))
  {
    if joined != [] {
      FanMember(conns, [joined[0].creator], TransferCancel(joined[0].tid, c));
      CancelJoinedAnswers(conns, c, joined[1..]);
    }
  }

  lemma ClosingAnswers(s: Server, order: seq<ClientId>, c: ClientId)
    requires c in s.conns
    ensures NoAnswers(CloseClient(s, order, c).sends)
  {
    var ts := CreatedBy(s.transfers, c);
    CancelCreatedAnswers(s, c, ts);
    var r := CancelCreated(s, c, ts).server;
    CancelJoinedAnswers(s.conns, c, JoinedBy(r.transfers, r.rows, c));
    FanMember(s.conns, Peers(s.conns, order, c, s.conns[c].session), DelUser(User(c, s.conns[c].name)));
  }

  // ---------------------------------------------------------------- the actions

  /** One client after the server has served a packet. */
  lemma ServedPeer(s: System, c: ClientId, order: seq<ClientId>, x: ClientId)
    requires c in s.peers && c in s.server.conns && s.peers[c].up != [] && x in s.peers
    ensures var p, n := s.peers[x], ServeNext(s, c, order);
            x in n.peers && n.peers[x] == p.(up := if x == c then p.up[1..] else p.up,
                                             down := p.down + For(Handle(s.server, order, c, s.peers[c].up[0]).sends, x))
  {
    hide Handle, For, ServeNext, Broadcast;
    ServeBroadcasts(s, c, order);
  }

  lemma MovedOn(p: Peer, up: seq<Packet>, more: seq<Packet>)
    requires WaitsOk(p)
    requires forall l :: Count(up, Asks(l)) + Count(more, Tells(l)) == Count(p.up, Asks(l))
    ensures WaitsOk(p.(up := up, down := p.down + more))
  {
    hide Count;
    var q := p.(up := up, down := p.down + more);
    forall l
      ensures UnderWay(q, l) == UnderWay(p, l)
    {
      CountAppend(p.down, more, Tells(l));
    }
    FewerWaiting(p, q);
  }

  lemma ServeWaits(s: System, c: ClientId, order: seq<ClientId>, x: ClientId)
    requires Typed(s) && c in s.peers && c in s.server.conns && s.peers[c].up != [] && x in s.peers && WaitsOk(s.peers[x])
    ensures x in ServeNext(s, c, order).peers && WaitsOk(ServeNext(s, c, order).peers[x])
  {
    hide Typed, Handle, For, ServeNext, Count, WaitsOk, PacketTransfer;
    var p, d := s.peers[x], s.peers[c].up[0];
    var sends := Handle(s.server, order, c, d).sends;
    var up := if x == c then p.up[1..] else p.up;
    ServedPeer(s, c, order, x);
    ServedFacts(s, c);
    forall l
      ensures Count(up, Asks(l)) + Count(For(sends, x), Tells(l)) == Count(p.up, Asks(l))
    {
      CountTail(s.peers[c].up, Asks(l));
      if d.TransferRequest? {
        HandleIsTransfer(s.server, order, c, d);
        RequestAnswered(s.server, c, d.req, x, l);
      } else {
        NothingAnswered(s.server, order, c, d);
        NoAnswersFor(sends, x, l);
      }
    }
    MovedOn(p, up, For(sends, x));
  }

  lemma HandleIsTransfer(s: Server, order: seq<ClientId>, c: ClientId, p: Packet)
    requires c in s.conns && p.TransferRequest?
    ensures Handle(s, order, c, p) == PacketTransfer(s, c, p.req)
  {
  }

  lemma CloseWaits(s: System, c: ClientId, order: seq<ClientId>, x: ClientId)
    requires c in s.server.conns && x in s.peers && WaitsOk(s.peers[x])
    ensures var n := React(s, CloseClient(s.server, order, c)); x in n.peers && WaitsOk(n.peers[x])
  {
    hide CloseClient, For, Count, WaitsOk, NoAnswers;
    var more := For(CloseClient(s.server, order, c).sends, x);
    ClosingAnswers(s.server, order, c);
    forall l
      ensures Count(more, Tells(l)) == 0
    {
      NoAnswersFor(CloseClient(s.server, order, c).sends, x, l);
    }
    MovedOn(s.peers[x], s.peers[x].up, more);
  }

  lemma AskWaits(p: Peer, intro: Packet)
    requires WaitsOk(p) && intro.ClientIntro?
    ensures WaitsOk(p.(up := p.up + [intro]))
  {
    hide Count;
    NoRequestSent(p, p.manager, [intro]);
  }

  lemma FreshWaits()
    ensures WaitsOk(NEW_PEER)
  {
    assert forall i | 0 <= i < SIM_TRANSFERS_MAX :: NEW_PEER.manager.host[i].state == Empty;
  }

  ghost predicate AllWait(s: System) {
    forall x | x in s.peers :: WaitsOk(s.peers[x])
  }

  lemma NextWaits(s: System, a: Action)
    requires Typed(s) && AllWait(s) && Enabled(s, a)
    ensures AllWait(Next(s, a))
  {
    hide Typed, WaitsOk, ServeNext, CloseClient, Execute, Slots.Work, Readable, CanReceive, PeerOk, Analize, IsOrder,
      ProperList;
    var n := Next(s, a);
    match a
    case Connect(c) => FreshWaits();
    case Ask(c, intro) => AskWaits(s.peers[c], intro);
    case Do(c, cmd) => OrderWaits(s.peers[c], cmd);
    case Produce(c, elapsed, ok) =>
      PeerIs(s, c);
      TurnWaits(s.origin, s.hosted, c, s.peers[c], elapsed, ok);
    case Deliver(c) =>
      PeerIs(s, c);
      DeliveryWaits(s.origin, s.hosted, c, s.peers[c]);
    case Serve(c, order) =>
      forall x | x in n.peers
        ensures WaitsOk(n.peers[x])
      {
        ServedKeys(s, c, order);
        ServeWaits(s, c, order, x);
      }
    case Close(c, order) =>
      forall x | x in n.peers
        ensures WaitsOk(n.peers[x])
      {
        CloseWaits(s, c, order, x);
      }
  }

  lemma ServedKeys(s: System, c: ClientId, order: seq<ClientId>)
    requires c in s.peers && c in s.server.conns && s.peers[c].up != []
    ensures ServeNext(s, c, order).peers.Keys == s.peers.Keys
  {
    hide Handle;
  }

  lemma {:induction false} RunWaits(s: System, run: seq<Action>)
    requires Typed(s) && AllWait(s) && Possible(s, run)
    ensures AllWait(After(s, run))
    decreases |run|
  {
    hide Typed, AllWait, Enabled, Next;
    if run != [] {
      NextTyped(s, run[0]);
      NextWaits(s, run[0]);
      RunWaits(Next(s, run[0]), run[1..]);
    }
  }

  // ---------------------------------------------------------------- the theorems

  /**
   In every reachable state, for every host slot that waits for the server's answer, exactly one packet about its
   request is under way: the REQUEST to the server, or the VALID or INVALID back.
   */
  lemma AnswerIsComing(s: System, x: ClientId, i: nat)
    requires Reachable(s) && x in s.peers && i < SIM_TRANSFERS_MAX && s.peers[x].manager.host[i].state == GetResponse
    ensures var l := s.peers[x].manager.host[i].local;
            Count(s.peers[x].up, Asks(l)) + Count(s.peers[x].down, Tells(l)) == 1
  {
    hide Typed, Possible, After, Count;
    var run :| Possible(INITIAL, run) && After(INITIAL, run) == s;
    InitialTyped();
    RunWaits(INITIAL, run);
    assert WaitsOk(s.peers[x]);
  }

  /** The answer reaches the slot that waits for it, whatever it is, and no other. */
  lemma AnswerTaken(s: System, x: ClientId, i: nat)
    requires Reachable(s) && Enabled(s, Deliver(x)) && i < SIM_TRANSFERS_MAX
    requires s.peers[x].manager.host[i].state == GetResponse
    requires Bears(s.peers[x].down[0], Tells(s.peers[x].manager.host[i].local))
    ensures var p, was := s.peers[x].down[0], s.peers[x].manager;
            Next(s, Deliver(x)) == s.(peers := s.peers[x := s.peers[x].(
              down := s.peers[x].down[1..],
              manager := was.(host := was.host[i :=
                if p.TransferValid? then was.host[i].(hdr := p.req.hdr, state := Pending)
                else was.host[i].(state := State.Cancel)]))])
  {
    hide Reachable, PeersOk, HostSlotOk, RecvSlotOk;
    ReachableInvariant(s);
    PeerFacts(s, x);
    OnlyWaiter(s.peers[x].manager.host, i);
  }

  lemma OnlyWaiter(host: SlotArray, i: nat)
    requires DistinctLocals(host) && i < SIM_TRANSFERS_MAX && host[i].state == GetResponse
    ensures Find(host, Awaiting(host[i].local)) == i
  {
  }

  /**
   At its turn a host slot in CANCEL, as it is once its request has been found INVALID, tells the server, is freed,
   and is logged as cancelled under its name; and nothing else happens.
   */
  lemma CancelledSlotFreed(s: System, x: ClientId, i: nat, elapsed: bool, ok: bool)
    requires Enabled(s, Produce(x, elapsed, ok)) && i < SIM_TRANSFERS_MAX
    requires s.peers[x].manager.host[i].state == State.Cancel
    requires forall j | 0 <= j < i :: !Matches(s.peers[x].manager.host[j], HostBusy)
    ensures var was := s.peers[x];
            var slot := was.manager.host[i];
            var n := Next(s, Produce(x, elapsed, ok));
            && n == s.(peers := s.peers[x := n.peers[x]])
            && var now := n.peers[x];
               && now == was.(up := was.up + [TransferCancel(slot.hdr.tid, slot.hdr.from)], manager := now.manager)
               && now.manager == was.manager.(host := now.manager.host, backlog := was.manager.backlog + [Info(Cancelled, slot.name)])
               && (forall j | 0 <= j < SIM_TRANSFERS_MAX && j != i :: now.manager.host[j] == was.manager.host[j])
               && now.manager.host[i].IsZero()
  {
    hide Find, Reading;
    assert Find(s.peers[x].manager.host, HostBusy) == i by { FirstBusy(s.peers[x].manager.host, i); }
  }

  /** The two together: a request that is refused gives its slot back and shows up in the log. */
  lemma InvalidFreesSlot(s: System, x: ClientId, i: nat, elapsed: bool, ok: bool)
    requires Reachable(s) && Enabled(s, Deliver(x)) && i < SIM_TRANSFERS_MAX && Readable(s.peers[x].manager)
    requires var m := s.peers[x].manager;
             && m.host[i].state == GetResponse && s.peers[x].down[0].TransferInvalid?
             && s.peers[x].down[0].req.local == m.host[i].local
             && forall j | 0 <= j < i :: !Matches(m.host[j], HostBusy)
    ensures var n := Next(s, Deliver(x));
            Enabled(n, Produce(x, elapsed, ok)) &&
            var m, e := s.peers[x].manager, Next(n, Produce(x, elapsed, ok)).peers[x].manager;
            e.host[i].state == Empty && e.backlog == m.backlog + [Info(Cancelled, m.host[i].name)]
  {
    hide Reachable, Next, Reading;
    AnswerTaken(s, x, i);
    CancelledSlotFreed(Next(s, Deliver(x)), x, i, elapsed, ok);
  }
}
