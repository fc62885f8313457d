/**
 How the slots of a client change from one reachable state to the next: along which transitions, and
 what becomes of the percentages shown to the user.
 */
module Transitions {
  import opened Arithmetic
  import opened Wire
  import opened FileModel
  import opened Slots
  import opened ServerModel
  import opened Network
  import opened WellTyped
  import opened Lanes
  import opened Views
  import opened Simulation
  import opened Preservation
  import opened EndToEnd
  import opened ManagerRuns

  // ---------------------------------------------------------------- the transition graphs

  predicate HostEdge(a: State, b: State) {
    match a
    case Empty => b == Empty || b == SendReq
    case SendReq => b == SendReq || b == GetResponse
    case GetResponse => b == GetResponse || b == Pending || b == State.Cancel
    case Pending => b == Pending || b == Active || b == State.Cancel
    case Active => b == Active || b == State.Cancel || b == Empty
    case Cancel => b == State.Cancel || b == Empty
    case _ => false
  }

  predicate RecvEdge(a: State, b: State) {
    match a
    case Empty => b == Empty || b == GetResponse
    case GetResponse => b == GetResponse || b == Accept || b == Deny || b == State.Cancel || b == Empty
    case Accept => b == Accept || b == Active
    case Deny => b == Deny || b == Empty
    case Active => b == Active || b == State.Cancel || b == Empty
    case Cancel => b == State.Cancel || b == Empty
    case _ => false
  }

  /** The host slot before and after a step. While it serves one request its percentage only grows. */
  predicate HostSlotMoves(a: Slot, b: Slot) {
    && HostEdge(a.state, b.state)
    && (a.state != Empty && b.state != Empty ==>
          b.local == a.local && b.name == a.name && b.file.disk == a.file.disk && a.file.progress <= b.file.progress <= 100)
  }

  /** The receive slot before and after a step. While it serves one transfer its file only grows. */
  predicate RecvSlotMoves(a: Slot, b: Slot) {
    && RecvEdge(a.state, b.state)
    && (a.state != Empty && b.state != Empty ==>
          && b.hdr == a.hdr && b.name == a.name && b.file.size == a.file.size
          && a.file.disk <= b.file.disk && a.file.progress <= b.file.progress)
  }

  predicate SlotsMove(m: Manager, n: Manager) {
    forall i | 0 <= i < SIM_TRANSFERS_MAX :: HostSlotMoves(m.host[i], n.host[i]) && RecvSlotMoves(m.recv[i], n.recv[i])
  }

  // ---------------------------------------------------------------- percentages

  lemma PercentMonotone(a: nat, b: nat, size: nat)
    requires a <= b && size > 0
    ensures a * 100 / size <= b * 100 / size
  {
    MulStrict(size, a * 100 / size, b * 100 / size);
  }

  lemma PercentBound(a: nat, size: nat)
    requires a <= size && size > 0
    ensures a * 100 / size <= 100
  {
    DivBound(a * 100, size, 100);
  }

  lemma ReadingBound(f: FileHandle)
    requires Reading(f)
    ensures f.progress <= 100
  {
    PercentBound(f.pos, f.size);
  }

  lemma ReadAdvances(f: FileHandle, ok: bool)
    requires Reading(f) && f.state == Working
    ensures var g := ReadWork(f, ok).file; g.disk == f.disk && f.progress <= g.progress <= 100
  {
    ReadStep(f, ok);
    ReadingBound(ReadWork(f, ok).file);
    PercentMonotone(f.pos, ReadWork(f, ok).file.pos, f.size);
  }

  lemma WriteAdvances(f: FileHandle, bytes: seq<byte>)
    requires Writing(f) && f.state == Working
    ensures var g := WriteWork(f, bytes); f.disk <= g.disk && f.progress <= g.progress && g.size == f.size
  {
    PercentMonotone(f.bufLen, f.bufLen + |bytes|, f.size);
  }

  // ---------------------------------------------------------------- one step of a manager

  lemma StayHost(o: Origins, h: Files, x: ClientId, joined: bool, next: LocalId, a: Slot)
    requires HostSlotOk(o, h, x, joined, next, a)
    ensures HostSlotMoves(a, a)
  {
  }

  lemma StayRecv(o: Origins, h: Files, x: ClientId, a: Slot)
    requires RecvSlotOk(o, h, x, a)
    ensures RecvSlotMoves(a, a)
  {
  }

  /** A step that overwrites one host slot. */
  lemma HostUpdated(o: Origins, h: Files, x: ClientId, joined: bool, m: Manager, n: Manager, i: nat)
    requires ManagerOk(o, h, x, joined, m) && i < SIM_TRANSFERS_MAX
    requires n.recv == m.recv && n.host == m.host[i := n.host[i]] && HostSlotMoves(m.host[i], n.host[i])
    ensures SlotsMove(m, n)
  {
    hide HostSlotOk, RecvSlotOk, HostSlotMoves, RecvSlotMoves;
    forall k | 0 <= k < SIM_TRANSFERS_MAX
      ensures HostSlotMoves(m.host[k], n.host[k]) && RecvSlotMoves(m.recv[k], n.recv[k])
    {
      StayHost(o, h, x, joined, m.nextLocal, m.host[k]);
      StayRecv(o, h, x, m.recv[k]);
    }
  }

  lemma RecvUpdated(o: Origins, h: Files, x: ClientId, joined: bool, m: Manager, n: Manager, i: nat)
    requires ManagerOk(o, h, x, joined, m) && i < SIM_TRANSFERS_MAX
    requires n.host == m.host && n.recv == m.recv[i := n.recv[i]] && RecvSlotMoves(m.recv[i], n.recv[i])
    ensures SlotsMove(m, n)
  {
    hide HostSlotOk, RecvSlotOk, HostSlotMoves, RecvSlotMoves;
    forall k | 0 <= k < SIM_TRANSFERS_MAX
      ensures HostSlotMoves(m.host[k], n.host[k]) && RecvSlotMoves(m.recv[k], n.recv[k])
    {
      StayHost(o, h, x, joined, m.nextLocal, m.host[k]);
      StayRecv(o, h, x, m.recv[k]);
    }
  }

  lemma NothingUpdated(o: Origins, h: Files, x: ClientId, joined: bool, m: Manager, n: Manager)
    requires ManagerOk(o, h, x, joined, m) && n.host == m.host && n.recv == m.recv
    ensures SlotsMove(m, n)
  {
    hide HostSlotOk, RecvSlotOk, HostSlotMoves, RecvSlotMoves, HostRequest, RecvRequestReply, CancelCommand;
    assert m.host == m.host[0 := m.host[0]] && HostSlotOk(o, h, x, joined, m.nextLocal, m.host[0]);
    StayHost(o, h, x, joined, m.nextLocal, m.host[0]);
    HostUpdated(o, h, x, joined, m, n, 0);
  }

  lemma FreshHost(a: Slot, b: Slot)
    requires a.state == Empty && b.state == SendReq
    ensures HostSlotMoves(a, b)
  {
  }

  lemma CancelHost(o: Origins, h: Files, x: ClientId, joined: bool, next: LocalId, a: Slot)
    requires HostSlotOk(o, h, x, joined, next, a) && a.CanCancel()
    ensures HostSlotMoves(a, a.(state := State.Cancel))
  {
    ReadingBound(a.file);
  }

  lemma DecideRecv(a: Slot, st: State)
    requires a.state == GetResponse && (st == Accept || st == Deny)
    ensures RecvSlotMoves(a, a.(state := st))
  {
  }

  lemma CancelRecv(o: Origins, h: Files, x: ClientId, a: Slot)
    requires RecvSlotOk(o, h, x, a) && a.CanCancel()
    ensures RecvSlotMoves(a, a.(state := State.Cancel))
  {
  }

  lemma OrderMoves(o: Origins, h: Files, x: ClientId, joined: bool, m: Manager, c: Command)
    requires ManagerOk(o, h, x, joined, m)
    ensures SlotsMove(m, Execute(m, c))
  {
    hide SlotsMove, Reading, HostSlotMoves, HostSlotOk, RecvSlotOk, RecvSlotMoves;
    var n := Execute(m, c);
    NothingUpdated(o, h, x, joined, m, m);
    match c
    case CmdRequest(_, contents, _) =>
      var i := Find(m.host, Free);
      if i < SIM_TRANSFERS_MAX && contents != [] {
        FreshHost(m.host[i], n.host[i]);
        HostUpdated(o, h, x, joined, m, n, i);
      }
    case CmdReply(t, _) =>
      var i := Find(m.recv, In(GetResponse, t));
      if i < SIM_TRANSFERS_MAX {
        DecideRecv(m.recv[i], n.recv[i].state);
        RecvUpdated(o, h, x, joined, m, n, i);
      }
    case CmdCancel(t) =>
      var i, j := Find(m.recv, Cancellable(t)), Find(m.host, Cancellable(t));
      if i < SIM_TRANSFERS_MAX {
        assert RecvSlotOk(o, h, x, m.recv[i]);
        CancelRecv(o, h, x, m.recv[i]);
        RecvUpdated(o, h, x, joined, m, n, i);
      }
      else if j < SIM_TRANSFERS_MAX {
        assert HostSlotOk(o, h, x, joined, m.nextLocal, m.host[j]);
        CancelHost(o, h, x, joined, m.nextLocal, m.host[j]);
        HostUpdated(o, h, x, joined, m, n, j);
      }
  }

  lemma SetRequestMoves(o: Origins, h: Files, x: ClientId, joined: bool, next: LocalId, a: Slot, id: ClientId, b: bool)
    requires HostSlotOk(o, h, x, joined, next, a) && (a.state == Pending || a.state == Active)
    ensures HostSlotMoves(a, SetRequest(a, id, b))
  {
    hide SetRequest, AllReplied, Reading;
    assert Reading(a.file);
    ReadingBound(a.file);
    SetRequestShape(a, id, b);
  }

  lemma HostArrivalMoves(o: Origins, h: Files, x: ClientId, joined: bool, m: Manager, p: Packet)
    requires ManagerOk(o, h, x, joined, m) && (p.TransferValid? || p.TransferInvalid? || p.TransferReply?)
    ensures SlotsMove(m, Receive(m, p))
  {
    hide SlotsMove, SetRequest, RecvSlotOk, Reading;
    var n := Receive(m, p);
    NothingUpdated(o, h, x, joined, m, m);
    var i := if p.TransferReply? then Find(m.host, In(Pending, p.tid)) else Find(m.host, Awaiting(p.req.local));
    if i < SIM_TRANSFERS_MAX {
      assert HostSlotOk(o, h, x, joined, m.nextLocal, m.host[i]);
      StayHost(o, h, x, joined, m.nextLocal, m.host[i]);
      if p.TransferReply? { SetRequestMoves(o, h, x, joined, m.nextLocal, m.host[i], p.from, p.accept); }
      HostUpdated(o, h, x, joined, m, n, i);
    }
  }

  lemma CancelArrivalMoves(o: Origins, h: Files, x: ClientId, joined: bool, m: Manager, t: TransferId, from: ClientId)
    requires ManagerOk(o, h, x, joined, m) && t != 0
    ensures SlotsMove(m, RecvCancel(m, t, from))
  {
    hide SlotsMove, SetRequest, Reading;
    var n := RecvCancel(m, t, from);
    NothingUpdated(o, h, x, joined, m, m);
    var i, j := Find(m.recv, Cancellable(t)), Find(m.host, Cancellable(t));
    if i < SIM_TRANSFERS_MAX {
      assert RecvSlotOk(o, h, x, m.recv[i]);
      RecvUpdated(o, h, x, joined, m, n, i);
    } else if j < SIM_TRANSFERS_MAX {
      assert HostSlotOk(o, h, x, joined, m.nextLocal, m.host[j]);
      SetRequestMoves(o, h, x, joined, m.nextLocal, m.host[j], from, false);
      HostUpdated(o, h, x, joined, m, n, j);
    }
  }

  lemma RecvArrivalMoves(o: Origins, h: Files, x: ClientId, joined: bool, m: Manager, p: Packet)
    requires ManagerOk(o, h, x, joined, m) && (p.TransferRequest? || p.TransferData? || p.TransferComplete?)
    ensures SlotsMove(m, Receive(m, p))
  {
    hide SlotsMove, WriteWork, HostSlotOk;
    var n := Receive(m, p);
    NothingUpdated(o, h, x, joined, m, m);
    var i := if p.TransferRequest? then Find(m.recv, Free) else Find(m.recv, In(Active, p.tid));
    if i < SIM_TRANSFERS_MAX {
      assert RecvSlotOk(o, h, x, m.recv[i]);
      if p.TransferData? { WriteAdvances(m.recv[i].file, p.bytes); }
      RecvUpdated(o, h, x, joined, m, n, i);
    }
  }

  lemma ArrivalMoves(o: Origins, h: Files, x: ClientId, joined: bool, m: Manager, p: Packet)
    requires ManagerOk(o, h, x, joined, m) && OriginsOk(o, h) && DownOk(o, h, x, p)
    ensures SlotsMove(m, Receive(m, p))
  {
    hide ManagerOk, SlotsMove;
    match p
    case TransferCancel(t, from) => CancelArrivalMoves(o, h, x, joined, m, t, from);
    case TransferReply(_, _, _) => HostArrivalMoves(o, h, x, joined, m, p);
    case TransferValid(_) => HostArrivalMoves(o, h, x, joined, m, p);
    case TransferInvalid(_) => HostArrivalMoves(o, h, x, joined, m, p);
    case TransferRequest(_) => RecvArrivalMoves(o, h, x, joined, m, p);
    case TransferData(_, _) => RecvArrivalMoves(o, h, x, joined, m, p);
    case TransferComplete(_) => RecvArrivalMoves(o, h, x, joined, m, p);
    case _ => NothingUpdated(o, h, x, joined, m, m);
  }

  lemma SendDataMoves(o: Origins, h: Files, x: ClientId, joined: bool, m: Manager, i: nat, ok: bool)
    requires ManagerOk(o, h, x, joined, m) && i < SIM_TRANSFERS_MAX && m.host[i].state == Active
    requires Reading(m.host[i].file)
    ensures SlotsMove(m, SendData(m, i, true, ok).manager)
  {
    assert HostSlotOk(o, h, x, joined, m.nextLocal, m.host[i]);
    hide SlotsMove, HostSlotOk, RecvSlotOk, Reading, ReadWork;
    var n := SendData(m, i, true, ok).manager;
    WorkingFile(o, h, x, joined, m.nextLocal, m.host[i]);
    ReadAdvances(m.host[i].file, ok);
    HostUpdated(o, h, x, joined, m, n, i);
  }

  lemma WorkingFile(o: Origins, h: Files, x: ClientId, joined: bool, next: LocalId, a: Slot)
    requires HostSlotOk(o, h, x, joined, next, a) && a.state == Active
    ensures a.file.state == Working && Reading(a.file)
  {
  }

  lemma TurnMoves(o: Origins, h: Files, x: ClientId, joined: bool, m: Manager, elapsed: bool, ok: bool)
    requires ManagerOk(o, h, x, joined, m) && Readable(m)
    ensures SlotsMove(m, Work(m, elapsed, ok).manager)
  {
    hide SlotsMove, SendData, HostSlotOk, RecvSlotOk, Reading, RecvWork, RecvSlotMoves, HostSlotMoves;
    var n := Work(m, elapsed, ok).manager;
    NothingUpdated(o, h, x, joined, m, m);
    var i, j := Find(m.host, HostBusy), Find(m.recv, RecvBusy);
    if i < SIM_TRANSFERS_MAX {
      assert HostSlotOk(o, h, x, joined, m.nextLocal, m.host[i]);
      StayHost(o, h, x, joined, m.nextLocal, m.host[i]);
      if m.host[i].state != Active {
        HostTurn(o, h, x, joined, m, i);
        HostUpdated(o, h, x, joined, m, n, i);
      } else if elapsed {
        SendDataMoves(o, h, x, joined, m, i, ok);
      } else {
        NotElapsed(m, i, ok);
      }
    } else if j < SIM_TRANSFERS_MAX {
      RecvTurn(o, h, x, m, j);
      RecvUpdated(o, h, x, joined, m, n, j);
    }
  }

  lemma HostTurn(o: Origins, h: Files, x: ClientId, joined: bool, m: Manager, i: nat)
    requires i < SIM_TRANSFERS_MAX && HostSlotOk(o, h, x, joined, m.nextLocal, m.host[i])
    ensures m.host[i].state == State.Cancel ==> HostSlotMoves(m.host[i], SendCancelHost(m, i).manager.host[i])
    ensures m.host[i].state == SendReq ==> HostSlotMoves(m.host[i], SendRequest(m, i).manager.host[i])
  {
  }

  lemma RecvTurn(o: Origins, h: Files, x: ClientId, m: Manager, j: nat)
    requires j < SIM_TRANSFERS_MAX && RecvSlotOk(o, h, x, m.recv[j]) && Matches(m.recv[j], RecvBusy)
    ensures var n := RecvWork(m, j).manager;
            n.host == m.host && n.recv == m.recv[j := n.recv[j]] && RecvSlotMoves(m.recv[j], n.recv[j])
  {
  }

  // ---------------------------------------------------------------- one action of the system

  /** What an action means to one client's manager: nothing, or one step. */
  lemma NextManager(s: System, a: Action, x: ClientId) returns (st: Option<Step>)
    requires Enabled(s, a) && x in s.peers
    ensures x in Next(s, a).peers
    ensures var m, n := s.peers[x].manager, Next(s, a).peers[x].manager;
            match st
            case None => n == m
            case Some(st) =>
              && Takeable(m, st) && n == Apply(m, st)
              && (st.Arrival? ==> st.packet in s.peers[x].down)
              && (st.Order? ==> a == Do(x, st.cmd))
  {
    hide Execute, Receive, Slots.Work, CloseClient, ServeNext, Readable, Analize;
    st := None;
    match a
    case Do(id, c) => if id == x { st := Some(Order(c)); }
    case Produce(id, elapsed, ok) => if id == x { st := Some(Turn(elapsed, ok)); }
    case Deliver(id) => if id == x { st := DeliverStep(s.peers[x]); }
    case Serve(id, order) => ServeManagers(s, id, order, x);
    case _ =>
  }

  lemma DeliverStep(p: Peer) returns (st: Option<Step>)
    requires p.down != []
    ensures var n := Analize(p.(down := p.down[1..]), p.down[0]).manager;
            match st
            case None => n == p.manager
            case Some(st) => st.Arrival? && st.packet in p.down && n == Receive(p.manager, st.packet)
  {
    hide Receive;
    var q := p.down[0];
    st := if q.ServerOk? || q.NewUsers? || q.DelUser? then None else Some(Arrival(q));
  }

  /** Serving a packet changes no client's manager. */
  lemma ServeManagers(s: System, id: ClientId, order: seq<ClientId>, x: ClientId)
    requires id in s.peers && id in s.server.conns && s.peers[id].up != [] && x in s.peers
    ensures x in ServeNext(s, id, order).peers && ServeNext(s, id, order).peers[x].manager == s.peers[x].manager
  {
    hide Handle;
  }

  /**
   From one reachable state to the next, every slot of every client moves along its transition graph,
   CANCEL is left only to EMPTY, and the percentage of a transfer never goes down.
   */
  lemma SlotsFollowGraph(s: System, a: Action, x: ClientId)
    requires Reachable(s) && Enabled(s, a) && x in s.peers
    ensures x in Next(s, a).peers && SlotsMove(s.peers[x].manager, Next(s, a).peers[x].manager)
  {
    hide Reachable, Enabled, Next, Typed, LanesSound, ManagerOk, SlotsMove, DownOk, UpOk, OriginsOk, Takeable;
    ReachableInvariant(s);
    PeerFacts(s, x);
    var st := NextManager(s, a, x);
    var m := s.peers[x].manager;
    NothingUpdated(s.origin, s.hosted, x, s.peers[x].joined, m, m);
    if st.Some? {
      match st.value
      case Order(c) => OrderMoves(s.origin, s.hosted, x, s.peers[x].joined, m, c);
      case Arrival(p) => ArrivalMoves(s.origin, s.hosted, x, s.peers[x].joined, m, p);
      case Turn(elapsed, ok) =>
        TurnTakeable(m, elapsed, ok);
        TurnMoves(s.origin, s.hosted, x, s.peers[x].joined, m, elapsed, ok);
    }
  }

  lemma TurnTakeable(m: Manager, elapsed: bool, ok: bool)
    requires Takeable(m, Turn(elapsed, ok))
    ensures Readable(m)
  {
  }

  /** No percentage exceeds 100, and a recipient is never ahead of a host that still has the transfer. */
  lemma PercentagesBounded(s: System, c: ClientId, j: nat, r: ClientId, i: nat)
    requires Reachable(s) && c in s.peers && r in s.peers && i < SIM_TRANSFERS_MAX && j < SIM_TRANSFERS_MAX
    requires var t := s.peers[c].manager.host[j].hdr.tid;
             && s.peers[c].manager.host[j].state != Empty && t != 0
             && s.peers[r].manager.recv[i].state != Empty && s.peers[r].manager.recv[i].hdr.tid == t
    ensures s.peers[r].manager.recv[i].file.progress <= s.peers[c].manager.host[j].file.progress <= 100
  {
    hide Reachable, Typed, LaneOf, IsLane, RecipientSide, ServerSide;
    var t := s.peers[c].manager.host[j].hdr.tid;
    RecvSlotLane(s, r, i);
    assert Takes(s.origin, t, r) by { LaneTakes(s, t, r); }
    HostSlotLane(s, c, j, r);
    LaneSlots(s, t, r);
    HostOffset(LaneOf(s, t, r));
    var f, g := s.peers[r].manager.recv[i].file, s.peers[c].manager.host[j].file;
    assert |f.disk| <= Sent(g);
    PercentMonotone(|f.disk|, g.pos, g.size);
    ReadingBound(g);
  }

  lemma LaneTakes(s: System, t: TransferId, r: ClientId)
    requires IsLane(s, t, r)
    ensures Takes(s.origin, t, r)
  {
  }

  lemma RecipientBounded(s: System, r: ClientId, i: nat)
    requires Reachable(s) && r in s.peers && i < SIM_TRANSFERS_MAX && s.peers[r].manager.recv[i].state != Empty
    ensures s.peers[r].manager.recv[i].file.progress <= 100
  {
    hide Reachable, Typed, LaneOf, IsLane;
    var f := s.peers[r].manager.recv[i].file;
    RecvSlotLane(s, r, i);
    ReceivedIsPrefix(s, r, i);
    PercentBound(|f.disk|, f.size);
  }
}
