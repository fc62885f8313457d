/**
 What each operation of a client's Transfer_Manager does to the one slot, and to the one stream,
 that a lane shows.
 */
module ClientMoves {
  import opened Wire
  import opened FileModel
  import opened Slots
  import opened WellTyped
  import opened Flows
  import opened Lanes
  import opened Views

  /** What a lens shows of the packet a work step may have produced. */
  function Shown(p: Option<Packet>, l: Lens): Flow {
    if p.Some? then Seen(l, p.value) else NOTHING
  }

  // ---------------------------------------------------------------- the recipient

  predicate Decided(a: Held, b: Held) {
    && a.Held? && b.Held? && b.disk == a.disk
    && ((a.state == GetResponse && (b.state == Accept || b.state == Deny || b.state == State.Cancel))
        || (a.state == Active && b.state == State.Cancel))
  }

  lemma CommandHeld(o: Origins, h: Files, x: ClientId, joined: bool, m: Manager, c: Command, t: TransferId)
    requires ManagerOk(o, h, x, joined, m) && t != 0 && PickOf(m.recv, t) != ManySlots
    ensures var a, b := HeldOf(PickOf(m.recv, t)), HeldOf(PickOf(Execute(m, c).recv, t));
            b == a || Decided(a, b)
  {
    hide HostSlotOk, Reading;
    var n := Execute(m, c);
    match c
    case CmdRequest(_, _, _) =>
    case CmdReply(u, _) =>
      var i := Find(m.recv, In(GetResponse, u));
      if i < SIM_TRANSFERS_MAX {
        PickUpdate(m.recv, i, n.recv[i], t);
        if u == t { PickThe(m.recv, t, i); }
      }
    case CmdCancel(u) =>
      var i := Find(m.recv, Cancellable(u));
      if i < SIM_TRANSFERS_MAX {
        PickUpdate(m.recv, i, n.recv[i], t);
        if u == t { PickThe(m.recv, t, i); }
      }
  }

  predicate Replied(a: Held, b: Held, f: Flow) {
    && a.Held? && (a.state == Accept || a.state == Deny)
    && f == ReplyFlow(a.state == Accept)
    && b == (if a.state == Accept then a.(state := Active) else Vacant)
  }

  predicate Withdrawn(a: Held, b: Held, f: Flow) {
    a.Held? && a.state == State.Cancel && f == CANCEL && b == Vacant
  }

  lemma RecvWorkHeld(o: Origins, h: Files, x: ClientId, m: Manager, i: nat, t: TransferId)
    requires i < SIM_TRANSFERS_MAX && RecvSlotOk(o, h, x, m.recv[i]) && t != 0
    requires m.recv[i].state == Accept || m.recv[i].state == Deny || m.recv[i].state == State.Cancel
    requires PickOf(m.recv, t) != ManySlots
    ensures var r := RecvWork(m, i);
            var a, b := HeldOf(PickOf(m.recv, t)), HeldOf(PickOf(r.manager.recv, t));
            var f := Shown(r.packet, FromRecipient(t));
            (b == a && f == NOTHING) || Replied(a, b, f) || Withdrawn(a, b, f)
  {
    var r := RecvWork(m, i);
    PickUpdate(m.recv, i, r.manager.recv[i], t);
    if m.recv[i].hdr.tid == t { PickThe(m.recv, t, i); }
  }

  /** Nothing the host side of a client sends is about a transfer the client takes part in. */
  lemma HostPacketUnseen(o: Origins, h: Files, x: ClientId, joined: bool, m: Manager, i: nat,
                         elapsed: bool, ok: bool, t: TransferId)
    requires i < SIM_TRANSFERS_MAX && t != 0 && !Gives(o, t, x)
    requires HostSlotOk(o, h, x, joined, m.nextLocal, m.host[i]) && Matches(m.host[i], HostBusy) && Readable(m)
    ensures var r := HostWork(m, i, elapsed, ok);
            Shown(r.packet, FromRecipient(t)) == NOTHING && r.manager.recv == m.recv
  {
    hide Reading, ReadWork;
  }

  lemma ProduceHeld(o: Origins, h: Files, x: ClientId, joined: bool, m: Manager,
                    elapsed: bool, ok: bool, t: TransferId)
    requires ManagerOk(o, h, x, joined, m) && Readable(m) && t != 0 && !Gives(o, t, x)
    requires PickOf(m.recv, t) != ManySlots
    ensures var r := Work(m, elapsed, ok);
            var a, b := HeldOf(PickOf(m.recv, t)), HeldOf(PickOf(r.manager.recv, t));
            var f := Shown(r.packet, FromRecipient(t));
            (b == a && f == NOTHING) || Replied(a, b, f) || Withdrawn(a, b, f)
  {
    hide HostSlotOk, RecvSlotOk, Reading, HostWork, RecvWork;
    hide Replied, Withdrawn;
    var i := Find(m.host, HostBusy);
    var j := Find(m.recv, RecvBusy);
    if i < SIM_TRANSFERS_MAX {
      assert HostSlotOk(o, h, x, joined, m.nextLocal, m.host[i]);
      HostPacketUnseen(o, h, x, joined, m, i, elapsed, ok, t);
    } else if j < SIM_TRANSFERS_MAX {
      RecvWorkHeld(o, h, x, m, j, t);
    }
  }

  /** How a packet from the server changes the recipient's slot, by what the lens shows of it. */
  predicate Taken(a: Held, b: Held, f: Flow) {
    || (f == NOTHING && b == a)
    || (f == OPENING && (a == Vacant ==> b == Held(GetResponse, [])))
    || (f == COMPLETE && b == if a.Held? && a.state == Active then Vacant else a)
    || (f == CANCEL && b == if a.Held? && (a.state == Active || a.state == GetResponse) then Vacant else a)
  }

  predicate TakenData(a: Held, b: Held, bytes: seq<byte>) {
    b == if a.Held? && a.state == Active then a.(disk := a.disk + bytes) else a
  }

  lemma RequestHeld(m: Manager, req: Request, t: TransferId)
    requires t != 0 && CanReceive(m) && PickOf(m.recv, t) != ManySlots
    ensures Taken(HeldOf(PickOf(m.recv, t)), HeldOf(PickOf(CreateRecvRequest(m, req).recv, t)),
                  Seen(ToRecipient(t), TransferRequest(req)))
  {
    var i := Find(m.recv, Free);
    PickUpdate(m.recv, i, CreateRecvRequest(m, req).recv[i], t);
  }

  lemma RecvDataHeld(o: Origins, h: Files, x: ClientId, joined: bool, m: Manager, u: TransferId, bytes: seq<byte>,
        t: TransferId)
    requires ManagerOk(o, h, x, joined, m) && t != 0 && PickOf(m.recv, t) != ManySlots
    ensures var a, b := HeldOf(PickOf(m.recv, t)), HeldOf(PickOf(RecvData(m, u, bytes).recv, t));
            if u == t then TakenData(a, b, bytes) else b == a
  {
    var i := Find(m.recv, In(Active, u));
    var n := RecvData(m, u, bytes);
    if u == t { PickFind(m.recv, In(Active, u), t); }
    if i < SIM_TRANSFERS_MAX {
      var s := m.recv[i];
      assert RecvSlotOk(o, h, x, s);
      assert n.recv == m.recv[i := s.(file := WriteWork(s.file, bytes))];
      PickUpdate(m.recv, i, s.(file := WriteWork(s.file, bytes)), t);
    }
  }

  lemma RecvCompleteHeld(m: Manager, u: TransferId, t: TransferId)
    requires t != 0 && PickOf(m.recv, t) != ManySlots
    ensures Taken(HeldOf(PickOf(m.recv, t)), HeldOf(PickOf(RecvComplete(m, u).recv, t)),
                  Seen(ToRecipient(t), TransferComplete(u)))
  {
    var i := Find(m.recv, In(Active, u));
    if u == t { PickFind(m.recv, In(Active, u), t); }
    if i < SIM_TRANSFERS_MAX {
      var s := m.recv[i];
      PickUpdate(m.recv, i, s.(file := s.file.(state := Closed)).Zero(), t);
    }
  }

  lemma RecvCancelHeld(o: Origins, h: Files, x: ClientId, joined: bool, m: Manager, u: TransferId, from: ClientId,
        t: TransferId)
    requires ManagerOk(o, h, x, joined, m) && t != 0 && PickOf(m.recv, t) != ManySlots
    ensures Taken(HeldOf(PickOf(m.recv, t)), HeldOf(PickOf(RecvCancel(m, u, from).recv, t)),
                  Seen(ToRecipient(t), TransferCancel(u, from)))
  {
    var i := Find(m.recv, Cancellable(u));
    if u == t {
      PickFind(m.recv, Cancellable(u), t);
      if PickOf(m.recv, t).TheSlot? {
        var j := PickMember(m.recv, t);
        assert RecvSlotOk(o, h, x, m.recv[j]);
      }
    }
    if i < SIM_TRANSFERS_MAX {
      PickUpdate(m.recv, i, m.recv[i].Zero(), t);
    }
  }

  lemma DeliverHeld(o: Origins, h: Files, x: ClientId, joined: bool, m: Manager, q: Packet, t: TransferId)
    requires ManagerOk(o, h, x, joined, m) && t != 0 && PickOf(m.recv, t) != ManySlots
    requires DownOk(o, h, x, q)
    requires q.TransferRequest? ==> CanReceive(m)
    ensures var a, b := HeldOf(PickOf(m.recv, t)), HeldOf(PickOf(Receive(m, q).recv, t));
            if q.TransferData? && q.tid == t then TakenData(a, b, q.bytes)
            else Taken(a, b, Seen(ToRecipient(t), q))
  {
    hide ManagerOk, Taken, TakenData, CreateRecvRequest, RecvCancel, RecvData, RecvComplete, CanReceive, PickOf;
    hide DownOk;
    match q
    case TransferRequest(req) => RequestHeld(m, req, t);
    case TransferCancel(u, from) => RecvCancelHeld(o, h, x, joined, m, u, from, t);
    case TransferData(u, bytes) =>
      RecvDataHeld(o, h, x, joined, m, u, bytes, t);
      TakenNothing(HeldOf(PickOf(m.recv, t)));
    case TransferComplete(u) => RecvCompleteHeld(m, u, t);
    case _ => TakenNothing(HeldOf(PickOf(m.recv, t)));
  }

  lemma TakenNothing(a: Held)
    ensures Taken(a, a, NOTHING)
  {
  }

  // ---------------------------------------------------------------- the host

  lemma CommandSource(o: Origins, h: Files, x: ClientId, joined: bool, m: Manager, c: Command, t: TransferId, k: nat)
    requires ManagerOk(o, h, x, joined, m) && t != 0 && PickOf(m.host, t) != ManySlots
    ensures var a, b := SourceOf(PickOf(m.host, t), k), SourceOf(PickOf(Execute(m, c).host, t), k);
            b == a || (a.Source? && b == a.(state := State.Cancel))
  {
    match c
    case CmdRequest(name, contents, to) =>
      var i := Find(m.host, Free);
      if i < SIM_TRANSFERS_MAX && contents != [] {
        assert HostSlotOk(o, h, x, joined, m.nextLocal, m.host[i]);
        hide HostSlotOk, RecvSlotOk, Reading;
        PickUpdate(m.host, i, HostRequest(m, name, contents, to).host[i], t);
      }
    case CmdReply(_, _) =>
    case CmdCancel(u) =>
      var i := Find(m.recv, Cancellable(u));
      var j := Find(m.host, Cancellable(u));
      if i == SIM_TRANSFERS_MAX && j < SIM_TRANSFERS_MAX {
        PickUpdate(m.host, j, m.host[j].(state := State.Cancel), t);
        if u == t { PickThe(m.host, t, j); }
      }
  }

  /** How a work step of the host changes its slot, by what it sends. */
  predicate HostSent(a: Source, b: Source, f: Flow, file: seq<byte>) {
    || (b == a && f == NOTHING)
    || (a.Source? && b == Absent && f == CANCEL)
    || (a.Source? && a.state == Active && a.sent == |file| && b == Absent && f == COMPLETE)
  }

  predicate HostSentData(a: Source, b: Source, bytes: seq<byte>, file: seq<byte>) {
    && a.Source? && a.state == Active && b == a.(sent := a.sent + |bytes|)
    && b.sent <= |file| && bytes == file[a.sent..b.sent]
  }

  lemma SendDataSource(o: Origins, h: Files, x: ClientId, joined: bool, m: Manager, i: nat,
                       ok: bool, t: TransferId, k: nat)
    requires i < SIM_TRANSFERS_MAX && HostSlotOk(o, h, x, joined, m.nextLocal, m.host[i]) && m.host[i].state == Active
    requires Gives(o, t, x) && HasFile(o, h, t) && t != 0 && PickOf(m.host, t) != ManySlots
    ensures var r := SendData(m, i, true, ok);
            var a, b := SourceOf(PickOf(m.host, t), k), SourceOf(PickOf(r.manager.host, t), k);
            if r.packet.Some? && r.packet.value.TransferData? && r.packet.value.tid == t
            then HostSentData(a, b, r.packet.value.bytes, File(o, h, t))
            else HostSent(a, b, Shown(r.packet, FromHost(t)), File(o, h, t))
  {
    hide SendData, ReadWork;
    var s := m.host[i];
    var n := SendData(m, i, true, ok).manager;
    SendDataShape(m, i, ok);
    PickUpdate(m.host, i, n.host[i], t);
    if s.hdr.tid == t { PickThe(m.host, t, i); }
  }

  lemma SendCancelSource(o: Origins, h: Files, x: ClientId, m: Manager, i: nat, t: TransferId, k: nat, file: seq<byte>)
    requires i < SIM_TRANSFERS_MAX && t != 0 && m.host[i].state != Empty && PickOf(m.host, t) != ManySlots
    ensures var r := SendCancelHost(m, i);
            HostSent(SourceOf(PickOf(m.host, t), k), SourceOf(PickOf(r.manager.host, t), k),
                   Shown(r.packet, FromHost(t)), file)
  {
    PickUpdate(m.host, i, m.host[i].Zero(), t);
    if m.host[i].hdr.tid == t { PickThe(m.host, t, i); }
  }

  lemma SendRequestSource(o: Origins, h: Files, x: ClientId, joined: bool, m: Manager, i: nat,
                          t: TransferId, k: nat, file: seq<byte>)
    requires ManagerOk(o, h, x, joined, m) && i < SIM_TRANSFERS_MAX && m.host[i].state == SendReq && t != 0
    ensures var r := SendRequest(m, i);
            HostSent(SourceOf(PickOf(m.host, t), k), SourceOf(PickOf(r.manager.host, t), k),
                   Shown(r.packet, FromHost(t)), file)
  {
    assert HostSlotOk(o, h, x, joined, m.nextLocal, m.host[i]);
    hide HostSlotOk, RecvSlotOk, Reading;
    PickUpdate(m.host, i, m.host[i].(state := GetResponse), t);
  }

  /** Nothing the receive side of a client sends is about a transfer the client hosts. */
  lemma RecvWorkUnseen(o: Origins, h: Files, x: ClientId, m: Manager, i: nat, t: TransferId)
    requires i < SIM_TRANSFERS_MAX && RecvSlotOk(o, h, x, m.recv[i]) && m.recv[i].state != Empty
    requires t != 0 && !Takes(o, t, x)
    ensures var r := RecvWork(m, i);
            Shown(r.packet, FromHost(t)) == NOTHING && r.manager.host == m.host
            && !(r.packet.Some? && r.packet.value.TransferData?)
  {
  }

  lemma ProduceSource(o: Origins, h: Files, x: ClientId, joined: bool, m: Manager,
                      elapsed: bool, ok: bool, t: TransferId, k: nat)
    requires ManagerOk(o, h, x, joined, m) && Readable(m)
    requires Gives(o, t, x) && !Takes(o, t, x) && HasFile(o, h, t) && t != 0 && PickOf(m.host, t) != ManySlots
    ensures var r := Work(m, elapsed, ok);
            var a, b := SourceOf(PickOf(m.host, t), k), SourceOf(PickOf(r.manager.host, t), k);
            if r.packet.Some? && r.packet.value.TransferData? && r.packet.value.tid == t
            then HostSentData(a, b, r.packet.value.bytes, File(o, h, t))
            else HostSent(a, b, Shown(r.packet, FromHost(t)), File(o, h, t))
  {
    hide HostSlotOk, RecvSlotOk, Reading, SendData, RecvWork, HostSentData;
    var i := Find(m.host, HostBusy);
    var j := Find(m.recv, RecvBusy);
    if i < SIM_TRANSFERS_MAX {
      if m.host[i].state == Active {
        if elapsed {
          SendDataSource(o, h, x, joined, m, i, ok, t, k);
        } else {
          NotElapsed(m, i, ok);
        }
      } else if m.host[i].state == State.Cancel {
        SendCancelSource(o, h, x, m, i, t, k, File(o, h, t));
      } else {
        SendRequestSource(o, h, x, joined, m, i, t, k, File(o, h, t));
      }
    } else if j < SIM_TRANSFERS_MAX {
      RecvWorkUnseen(o, h, x, m, j, t);
    }
  }

  /** How a packet from the server changes the host's slot, by what the lens shows of it. */
  predicate Heard(a: Source, b: Source, f: Flow) {
    || b == a
    || (f == NOTHING && a.Source? && (a.state == Pending || a.state == Active) && b.Source?
        && b == a.(state := b.state)
        && (b.state == State.Cancel || (b.state == Active && a.heard)))
    || (f == OPENING && (a == Absent ==> b == Source(Pending, false, 0)))
    || ((f == CANCEL || f == ReplyFlow(true) || f == ReplyFlow(false))
        && a.Source? && (a.state == Pending || a.state == Active) && b.Source?
        && b == a.(state := b.state, heard := true)
        && (b.state == a.state || b.state == State.Cancel || b.state == Active))
  }

  lemma HeardNothing(a: Source, f: Flow)
    ensures Heard(a, a, f)
  {
  }

  lemma SetRequestSource(s: Slot, id: ClientId, reply: bool, r: ClientId)
    requires r in Recipients(s.hdr.to) && (s.state == Pending || s.state == Active)
    ensures var k := IndexOf(s.hdr.to, r);
            var a, b := SourceOf(TheSlot(s), k), SourceOf(TheSlot(SetRequest(s, id, reply)), k);
            && (id == r ==> b == a.(state := b.state, heard := true))
            && (id != r ==> b == a.(state := b.state) && (b.state == Active ==> a.heard || a.state == Active))
            && (b.state == a.state || b.state == State.Cancel || b.state == Active)
  {
  }

  /** A reply or cancel about transfer `u` from `id` reaches the host slot `j` it belongs to. */
  lemma AnswerSource(o: Origins, h: Files, x: ClientId, joined: bool, m: Manager, j: nat,
                     id: ClientId, reply: bool, t: TransferId, r: ClientId)
    requires j < SIM_TRANSFERS_MAX && HostSlotOk(o, h, x, joined, m.nextLocal, m.host[j])
    requires (m.host[j].state == Pending || m.host[j].state == Active) && t != 0
    requires Takes(o, t, r) && PickOf(m.host, t) != ManySlots
    ensures var k := IndexOf(o[t].to, r);
            var n := m.host[j := SetRequest(m.host[j], id, reply)];
            var a, b := SourceOf(PickOf(m.host, t), k), SourceOf(PickOf(n, t), k);
            && (m.host[j].hdr.tid != t ==> b == a)
            && (m.host[j].hdr.tid == t && id == r ==> Heard(a, b, CANCEL) && Heard(a, b, ReplyFlow(reply)))
            && (m.host[j].hdr.tid == t && id != r ==> Heard(a, b, NOTHING))
  {
    var s := m.host[j];
    var k := IndexOf(o[t].to, r);
    PickUpdate(m.host, j, SetRequest(s, id, reply), t);
    if s.hdr.tid == t {
      PickThe(m.host, t, j);
      SetRequestSource(s, id, reply, r);
      IndexOfRecipient(o[t].to, r);
      if s.state == Active {
        assert AllReplied(s.hdr.to, s.answers);
      }
    }
  }

  lemma ValidSource(o: Origins, h: Files, x: ClientId, joined: bool, m: Manager, req: Request,
                    t: TransferId, r: ClientId)
    requires ManagerOk(o, h, x, joined, m) && t != 0 && Takes(o, t, r) && PickOf(m.host, t) != ManySlots
    ensures var k := IndexOf(o[t].to, r);
            var a := SourceOf(PickOf(m.host, t), k);
            && Heard(a, SourceOf(PickOf(HostRequestValid(m, req, true).host, t), k),
                     Seen(ToHost(t, r), TransferValid(req)))
            && SourceOf(PickOf(HostRequestValid(m, req, false).host, t), k) == a
  {
    var i := Find(m.host, Awaiting(req.local));
    if i < SIM_TRANSFERS_MAX {
      var s := m.host[i];
      assert HostSlotOk(o, h, x, joined, m.nextLocal, s);
      IndexOfRecipient(o[t].to, r);
      PickUpdate(m.host, i, s.(hdr := req.hdr, state := Pending), t);
      PickUpdate(m.host, i, s.(state := State.Cancel), t);
    }
  }

  lemma RecvCancelSource(o: Origins, h: Files, x: ClientId, joined: bool, m: Manager, u: TransferId,
                         from: ClientId, t: TransferId, r: ClientId)
    requires ManagerOk(o, h, x, joined, m) && t != 0 && Takes(o, t, r) && PickOf(m.host, t) != ManySlots
    ensures var k := IndexOf(o[t].to, r);
            Heard(SourceOf(PickOf(m.host, t), k), SourceOf(PickOf(RecvCancel(m, u, from).host, t), k),
                  Seen(ToHost(t, r), TransferCancel(u, from)))
  {
    hide HostSlotOk, RecvSlotOk, Heard, SetRequest, PickOf;
    var i := Find(m.recv, Cancellable(u));
    var j := Find(m.host, Cancellable(u));
    HeardNothing(SourceOf(PickOf(m.host, t), IndexOf(o[t].to, r)), Seen(ToHost(t, r), TransferCancel(u, from)));
    if i == SIM_TRANSFERS_MAX && j < SIM_TRANSFERS_MAX {
      assert HostSlotOk(o, h, x, joined, m.nextLocal, m.host[j]);
      if m.host[j].state == GetResponse {
        UnheardSource(o, h, x, joined, m, j, from, t);
      } else {
        AnswerSource(o, h, x, joined, m, j, from, false, t, r);
      }
    }
  }

  /** A slot that waits for its transfer id is nobody's source yet. */
  lemma UnheardSource(o: Origins, h: Files, x: ClientId, joined: bool, m: Manager, j: nat, from: ClientId,
        t: TransferId)
    requires j < SIM_TRANSFERS_MAX && HostSlotOk(o, h, x, joined, m.nextLocal, m.host[j])
    requires m.host[j].state == GetResponse && t != 0
    ensures PickOf(m.host[j := SetRequest(m.host[j], from, false)], t) == PickOf(m.host, t)
  {
    PickUpdate(m.host, j, SetRequest(m.host[j], from, false), t);
  }

  lemma ReplySource(o: Origins, h: Files, x: ClientId, joined: bool, m: Manager, u: TransferId,
                    from: ClientId, reply: bool, t: TransferId, r: ClientId)
    requires ManagerOk(o, h, x, joined, m) && t != 0 && Takes(o, t, r) && PickOf(m.host, t) != ManySlots
    ensures var k := IndexOf(o[t].to, r);
            Heard(SourceOf(PickOf(m.host, t), k), SourceOf(PickOf(HostRequestReply(m, u, from, reply).host, t), k),
                  Seen(ToHost(t, r), TransferReply(u, from, reply)))
  {
    hide HostSlotOk, RecvSlotOk, Heard, SetRequest, PickOf;
    var i := Find(m.host, In(Pending, u));
    HeardNothing(SourceOf(PickOf(m.host, t), IndexOf(o[t].to, r)), Seen(ToHost(t, r), TransferReply(u, from, reply)));
    if i < SIM_TRANSFERS_MAX {
      assert HostSlotOk(o, h, x, joined, m.nextLocal, m.host[i]);
      AnswerSource(o, h, x, joined, m, i, from, reply, t, r);
    }
  }

  lemma DeliverSource(o: Origins, h: Files, x: ClientId, joined: bool, m: Manager, q: Packet,
                      t: TransferId, r: ClientId)
    requires ManagerOk(o, h, x, joined, m) && t != 0 && Takes(o, t, r) && PickOf(m.host, t) != ManySlots
    ensures var k := IndexOf(o[t].to, r);
            Heard(SourceOf(PickOf(m.host, t), k), SourceOf(PickOf(Receive(m, q).host, t), k), Seen(ToHost(t, r), q))
  {
    hide ManagerOk, Takes, HostRequestValid, HostRequestReply, RecvCancel, PickOf;
    match q
    case TransferValid(req) => ValidSource(o, h, x, joined, m, req, t, r);
    case TransferInvalid(req) => ValidSource(o, h, x, joined, m, req, t, r);
    case TransferCancel(u, from) => RecvCancelSource(o, h, x, joined, m, u, from, t, r);
    case TransferReply(u, from, b) => ReplySource(o, h, x, joined, m, u, from, b, t, r);
    case _ =>
  }
}
