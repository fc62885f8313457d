/**
 What every packet, slot and table entry refers to, in every state the system can get into: a
 transfer id always stands for one request of one host (`origin`) and for the file that host was
 asked to send (`hosted`). Table integrity is part of it.
 */
module WellTyped {
  import opened Wire
  import opened FileModel
  import opened Slots
  import opened ServerModel
  import opened Tables
  import opened Network

  type Origins = map<TransferId, Origin>
  type Files = map<(ClientId, LocalId), seq<byte>>

  predicate HasFile(o: Origins, h: Files, t: TransferId) {
    t in o && (o[t].creator, o[t].local) in h
  }

  /** The file a transfer carries. */
  function File(o: Origins, h: Files, t: TransferId): seq<byte>
    requires HasFile(o, h, t)
  {
    h[(o[t].creator, o[t].local)]
  }

  predicate Takes(o: Origins, t: TransferId, x: ClientId) {
    t in o && x in Recipients(o[t].to)
  }

  predicate Gives(o: Origins, t: TransferId, x: ClientId) {
    t in o && o[t].creator == x
  }

  predicate OriginsOk(o: Origins, h: Files) {
    && 0 !in o
    && (forall t | t in o :: HasFile(o, h, t) && ProperList(o[t].to, o[t].creator))
    && (forall k | k in h :: h[k] != [])
  }

  // ---------------------------------------------------------------- packets

  predicate UpOk(o: Origins, h: Files, x: ClientId, joined: bool, p: Packet) {
    match p
    case ClientIntro(_, _, _) => true
    case TransferRequest(req) =>
      joined && ProperList(req.hdr.to, x) && (x, req.local) in h && req.size == |h[(x, req.local)]|
    case TransferReply(t, _, _) => Takes(o, t, x)
    case TransferData(t, _) => Gives(o, t, x)
    case TransferComplete(t) => Gives(o, t, x)
    case TransferCancel(t, _) => t == 0 || Gives(o, t, x) || Takes(o, t, x)
    case _ => false
  }

  predicate DownOk(o: Origins, h: Files, x: ClientId, p: Packet) {
    match p
    case ClientIntro(_, _, _) => false
    case TransferRequest(req) =>
      Takes(o, req.hdr.tid, x) && HasFile(o, h, req.hdr.tid) && req.size == |File(o, h, req.hdr.tid)|
    case TransferValid(req) =>
      Gives(o, req.hdr.tid, x) && o[req.hdr.tid].local == req.local && o[req.hdr.tid].to == req.hdr.to
    case TransferReply(t, from, _) => Gives(o, t, x) && Takes(o, t, from)
    case TransferCancel(t, from) => (Gives(o, t, x) && Takes(o, t, from)) || (Takes(o, t, x) && Gives(o, t, from))
    case TransferData(t, _) => Takes(o, t, x)
    case TransferComplete(t) => Takes(o, t, x)
    case _ => true
  }

  // ---------------------------------------------------------------- slots

  predicate HostSlotOk(o: Origins, h: Files, x: ClientId, joined: bool, next: LocalId, s: Slot) {
    && s.state != Accept && s.state != Deny
    && (s.state == Empty ==> s.IsZero())
    && (s.state != Empty ==>
          joined && 1 <= s.local < next && (x, s.local) in h && Reading(s.file) && s.file.disk == h[(x, s.local)])
    && (s.state != Empty && s.state != State.Cancel ==> s.file.state == Working)
    && (s.state == SendReq || s.state == GetResponse ==>
          s.hdr.tid == 0 && s.answers == NO_ANSWERS && Sent(s.file) == 0 && ProperList(s.hdr.to, x))
    && (s.state == Pending ==> s.hdr.tid != 0 && Sent(s.file) == 0)
    && (s.state == Active ==> s.hdr.tid != 0 && AllReplied(s.hdr.to, s.answers))
    && (s.hdr.tid != 0 ==>
          Gives(o, s.hdr.tid, x) && o[s.hdr.tid].local == s.local && o[s.hdr.tid].to == s.hdr.to)
  }

  predicate RecvSlotOk(o: Origins, h: Files, x: ClientId, s: Slot) {
    && s.state != SendReq && s.state != Pending
    && (s.state == Empty ==> s.IsZero())
    && (s.state != Empty ==>
          && Takes(o, s.hdr.tid, x) && HasFile(o, h, s.hdr.tid)
          && Writing(s.file) && s.file.size == |File(o, h, s.hdr.tid)| && s.file.state == Working)
  }

  /** No two slots in use carry the same local id. */
  predicate DistinctLocals(host: SlotArray) {
    forall i, j | 0 <= i < j < SIM_TRANSFERS_MAX && host[i].state != Empty && host[j].state != Empty ::
      host[i].local != host[j].local
  }

  predicate ManagerOk(o: Origins, h: Files, x: ClientId, joined: bool, m: Manager) {
    && m.nextLocal >= 1
    && (forall i | 0 <= i < SIM_TRANSFERS_MAX :: HostSlotOk(o, h, x, joined, m.nextLocal, m.host[i]))
    && (forall i | 0 <= i < SIM_TRANSFERS_MAX :: RecvSlotOk(o, h, x, m.recv[i]))
    && DistinctLocals(m.host)
  }

  predicate PeerOk(o: Origins, h: Files, x: ClientId, p: Peer) {
    && ManagerOk(o, h, x, p.joined, p.manager)
    && (forall q | q in p.up :: UpOk(o, h, x, p.joined, q))
    && (forall q | q in p.down :: DownOk(o, h, x, q))
  }

  // ---------------------------------------------------------------- the server

  ghost predicate TablesOk(s: Server, o: Origins) {
    && UniqueRows(s.rows) && UniqueTransfers(s.transfers)
    && (forall t :: CreatorOf(s.transfers, t) != 0 ==>
          var c := CreatorOf(s.transfers, t);
          Gives(o, t, c) && c in s.conns && s.conns[c].complete)
    && (forall t, c :: RowOf(s.rows, t, c) != NoRow ==>
          && Takes(o, t, c) && CreatorOf(s.transfers, t) != 0
          && c in s.conns && s.conns[c].complete
          && s.conns[c].session == s.conns[CreatorOf(s.transfers, t)].session
          && -1 <= RowOf(s.rows, t, c).accepted <= 1)
  }

  predicate SessionsOk(s: Server) {
    && s.nextSession != 0
    && (forall n | n in s.sessions :: s.sessions[n] != 0)
    && (forall x | x in s.conns :: s.conns[x].complete <==> s.conns[x].session != 0)
  }

  /** Whoever a transfer names has connected at some time. */
  predicate Acquainted(origin: Origin, ids: set<ClientId>) {
    origin.creator in ids && forall r | r in Recipients(origin.to) :: r in ids
  }

  predicate RegistryOk(s: System) {
    && OriginsOk(s.origin, s.hosted)
    && s.server.nextTid >= 1
    && (forall t | t in s.origin :: t < s.server.nextTid && Acquainted(s.origin[t], s.peers.Keys) && t in s.relayed)
    && (forall k | k in s.hosted :: k.0 in s.peers && k.1 < s.peers[k.0].manager.nextLocal)
  }

  predicate PeersOk(o: Origins, h: Files, peers: map<ClientId, Peer>) {
    forall x | x in peers :: x != 0 && PeerOk(o, h, x, peers[x])
  }

  /** A client that knows it is in a session is COMPLETE at the server. */
  predicate ConnsOk(conns: map<ClientId, Conn>, peers: map<ClientId, Peer>) {
    forall x | x in conns ::
      x in peers && (peers[x].joined || ServerOk in peers[x].down ==> conns[x].complete)
  }

  ghost predicate Typed(s: System) {
    && RegistryOk(s)
    && PeersOk(s.origin, s.hosted, s.peers)
    && ConnsOk(s.server.conns, s.peers)
    && SessionsOk(s.server)
    && TablesOk(s.server, s.origin)
  }

  lemma InitialTyped()
    ensures Typed(INITIAL)
  {
  }

  // ---------------------------------------------------------------- the registry only grows

  predicate Grows(o: Origins, h: Files, o': Origins, h': Files) {
    && (forall t | t in o :: t in o' && o'[t] == o[t])
    && (forall k | k in h :: k in h' && h'[k] == h[k])
  }

  lemma PeerGrows(o: Origins, h: Files, o': Origins, h': Files, x: ClientId, p: Peer)
    requires Grows(o, h, o', h') && PeerOk(o, h, x, p)
    ensures PeerOk(o', h', x, p)
  {
    forall q | q in p.up
      ensures UpOk(o', h', x, p.joined, q)
    {
      assert UpOk(o, h, x, p.joined, q);
    }
    forall q | q in p.down
      ensures DownOk(o', h', x, q)
    {
      assert DownOk(o, h, x, q);
    }
  }

  // ---------------------------------------------------------------- the manager

  lemma ZeroSlotOk(o: Origins, h: Files, x: ClientId, joined: bool, next: LocalId, s: Slot)
    requires s.IsZero()
    ensures HostSlotOk(o, h, x, joined, next, s) && RecvSlotOk(o, h, x, s)
  {
  }

  lemma FreshManagerOk(o: Origins, h: Files, x: ClientId)
    ensures ManagerOk(o, h, x, false, IDLE)
  {
    hide HostSlotOk, RecvSlotOk;
    ZeroSlotOk(o, h, x, false, 1, FREE_SLOT);
    assert forall i | 0 <= i < SIM_TRANSFERS_MAX :: IDLE.host[i] == FREE_SLOT && IDLE.recv[i] == FREE_SLOT;
  }

  lemma PutHost(o: Origins, h: Files, x: ClientId, joined: bool, m: Manager, n: Manager, i: nat, s: Slot)
    requires ManagerOk(o, h, x, joined, m) && i < SIM_TRANSFERS_MAX
    requires n.host == m.host[i := s] && n.recv == m.recv && n.nextLocal >= m.nextLocal
    requires HostSlotOk(o, h, x, joined, n.nextLocal, s)
    requires s.state == Empty || (m.host[i].state != Empty && s.local == m.host[i].local) || s.local == m.nextLocal
    ensures ManagerOk(o, h, x, joined, n)
  {
  }

  lemma PutRecv(o: Origins, h: Files, x: ClientId, joined: bool, m: Manager, n: Manager, i: nat, s: Slot)
    requires ManagerOk(o, h, x, joined, m) && i < SIM_TRANSFERS_MAX
    requires n.recv == m.recv[i := s] && n.host == m.host && n.nextLocal == m.nextLocal
    requires RecvSlotOk(o, h, x, s)
    ensures ManagerOk(o, h, x, joined, n)
  {
  }

  /** All that set_request changes: the answers, of which none is lost, and the state. */
  lemma SetRequestShape(s: Slot, id: ClientId, b: bool)
    ensures var n := SetRequest(s, id, b);
            && n == s.(answers := n.answers, state := n.state)
            && (n.state == s.state || n.state == State.Cancel || n.state == Active)
            && (n.state == Active ==> s.state == Active || AllReplied(n.hdr.to, n.answers))
            && (AllReplied(s.hdr.to, s.answers) ==> AllReplied(n.hdr.to, n.answers))
  {
  }

  lemma SetRequestOk(o: Origins, h: Files, x: ClientId, joined: bool, n: LocalId, s: Slot, id: ClientId, b: bool)
    requires HostSlotOk(o, h, x, joined, n, s) && (s.state == Pending || s.state == Active)
    ensures HostSlotOk(o, h, x, joined, n, SetRequest(s, id, b)) && SetRequest(s, id, b).state != Empty
  {
    hide SetRequest, AllReplied, Reading, ProperList, Sent;
    SetRequestShape(s, id, b);
  }

  lemma HostRequestOk(o: Origins, h: Files, x: ClientId, joined: bool, m: Manager, name: string,
        contents: seq<byte>, to: ToList)
    requires ManagerOk(o, h, x, joined, m) && ProperList(to, x) && joined
    requires contents != [] ==> (x, m.nextLocal) in h && h[(x, m.nextLocal)] == contents
    ensures ManagerOk(o, h, x, joined, HostRequest(m, name, contents, to))
  {
    var i := Find(m.host, Free);
    if i < SIM_TRANSFERS_MAX && contents != [] {
      var n := HostRequest(m, name, contents, to);
      ReadFileReading(contents);
      assert m.host[i].IsZero();
      PutHost(o, h, x, joined, m, n, i, n.host[i]);
    }
  }

  lemma CommandOk(o: Origins, h: Files, x: ClientId, joined: bool, m: Manager, c: Command)
    requires ManagerOk(o, h, x, joined, m) && !c.CmdRequest?
    ensures ManagerOk(o, h, x, joined, Execute(m, c))
  {
    var n := Execute(m, c);
    match c
    case CmdReply(t, b) =>
      var i := Find(m.recv, In(GetResponse, t));
      if i < SIM_TRANSFERS_MAX { PutRecv(o, h, x, joined, m, n, i, n.recv[i]); }
    case CmdCancel(t) =>
      var i := Find(m.recv, Cancellable(t));
      var j := Find(m.host, Cancellable(t));
      if i < SIM_TRANSFERS_MAX { PutRecv(o, h, x, joined, m, n, i, n.recv[i]); }
      else if j < SIM_TRANSFERS_MAX { PutHost(o, h, x, joined, m, n, j, n.host[j]); }
  }

  lemma HostRequestValidOk(o: Origins, h: Files, x: ClientId, joined: bool, m: Manager, req: Request, valid: bool)
    requires OriginsOk(o, h) && ManagerOk(o, h, x, joined, m)
    requires valid ==> DownOk(o, h, x, TransferValid(req))
    ensures ManagerOk(o, h, x, joined, HostRequestValid(m, req, valid))
  {
    var n := HostRequestValid(m, req, valid);
    var i := Find(m.host, Awaiting(req.local));
    if i < SIM_TRANSFERS_MAX {
      assert HostSlotOk(o, h, x, joined, m.nextLocal, m.host[i]);
      PutHost(o, h, x, joined, m, n, i, n.host[i]);
    }
  }

  lemma CreateRecvRequestOk(o: Origins, h: Files, x: ClientId, joined: bool, m: Manager, req: Request)
    requires OriginsOk(o, h) && ManagerOk(o, h, x, joined, m) && DownOk(o, h, x, TransferRequest(req))
    ensures ManagerOk(o, h, x, joined, CreateRecvRequest(m, req))
  {
    var n := CreateRecvRequest(m, req);
    var i := Find(m.recv, Free);
    if i < SIM_TRANSFERS_MAX {
      WriteFileWriting(req.size);
      PutRecv(o, h, x, joined, m, n, i, n.recv[i]);
    }
  }

  lemma RecvCancelOk(o: Origins, h: Files, x: ClientId, joined: bool, m: Manager, t: TransferId, from: ClientId)
    requires OriginsOk(o, h) && ManagerOk(o, h, x, joined, m) && t != 0
    ensures ManagerOk(o, h, x, joined, RecvCancel(m, t, from))
  {
    var n := RecvCancel(m, t, from);
    var i := Find(m.recv, Cancellable(t));
    var j := Find(m.host, Cancellable(t));
    if i < SIM_TRANSFERS_MAX {
      PutRecv(o, h, x, joined, m, n, i, n.recv[i]);
    } else if j < SIM_TRANSFERS_MAX {
      assert HostSlotOk(o, h, x, joined, m.nextLocal, m.host[j]);
      SetRequestOk(o, h, x, joined, m.nextLocal, m.host[j], from, false);
      PutHost(o, h, x, joined, m, n, j, n.host[j]);
    }
  }

  lemma HostRequestReplyOk(o: Origins, h: Files, x: ClientId, joined: bool, m: Manager, t: TransferId,
        from: ClientId, b: bool)
    requires OriginsOk(o, h) && ManagerOk(o, h, x, joined, m)
    ensures ManagerOk(o, h, x, joined, HostRequestReply(m, t, from, b))
  {
    var n := HostRequestReply(m, t, from, b);
    var i := Find(m.host, In(Pending, t));
    if i < SIM_TRANSFERS_MAX {
      assert HostSlotOk(o, h, x, joined, m.nextLocal, m.host[i]);
      SetRequestOk(o, h, x, joined, m.nextLocal, m.host[i], from, b);
      PutHost(o, h, x, joined, m, n, i, n.host[i]);
    }
  }

  lemma RecvDataOk(o: Origins, h: Files, x: ClientId, joined: bool, m: Manager, t: TransferId, bytes: seq<byte>)
    requires OriginsOk(o, h) && ManagerOk(o, h, x, joined, m)
    ensures ManagerOk(o, h, x, joined, RecvData(m, t, bytes)) && ManagerOk(o, h, x, joined, RecvComplete(m, t))
  {
    var i := Find(m.recv, In(Active, t));
    if i < SIM_TRANSFERS_MAX {
      assert RecvSlotOk(o, h, x, m.recv[i]);
      WriteStep(m.recv[i].file, bytes);
      var n := RecvData(m, t, bytes);
      PutRecv(o, h, x, joined, m, n, i, n.recv[i]);
      var c := RecvComplete(m, t);
      PutRecv(o, h, x, joined, m, c, i, c.recv[i]);
    }
  }

  lemma ReceiveOk(o: Origins, h: Files, x: ClientId, joined: bool, m: Manager, p: Packet)
    requires OriginsOk(o, h) && ManagerOk(o, h, x, joined, m) && DownOk(o, h, x, p)
    ensures ManagerOk(o, h, x, joined, Receive(m, p))
  {
    match p
    case TransferRequest(req) => CreateRecvRequestOk(o, h, x, joined, m, req);
    case TransferValid(req) => HostRequestValidOk(o, h, x, joined, m, req, true);
    case TransferInvalid(req) => HostRequestValidOk(o, h, x, joined, m, req, false);
    case TransferCancel(t, from) => RecvCancelOk(o, h, x, joined, m, t, from);
    case TransferReply(t, from, b) => HostRequestReplyOk(o, h, x, joined, m, t, from, b);
    case TransferData(t, bytes) => RecvDataOk(o, h, x, joined, m, t, bytes);
    case TransferComplete(t) => RecvDataOk(o, h, x, joined, m, t, []);
    case _ =>
  }

  /** send_data either hands out the next bytes or gives the slot back. */
  lemma SendDataShape(m: Manager, i: nat, ok: bool)
    requires i < SIM_TRANSFERS_MAX && Reading(m.host[i].file) && m.host[i].file.state == Working
    ensures var s := m.host[i];
            var r := SendData(m, i, true, ok);
            var g := ReadWork(s.file, ok);
            && r.manager.recv == m.recv && r.manager.nextLocal == m.nextLocal
            && Reading(g.file) && g.file.disk == s.file.disk
            && ((r.packet == Some(TransferData(s.hdr.tid, g.bytes)) && g.file.state == Working
                 && r.manager.host == m.host[i := s.(file := g.file)]
                 && Sent(g.file) == Sent(s.file) + |g.bytes| && g.bytes == s.file.disk[Sent(s.file)..Sent(g.file)])
                || (r.packet == Some(TransferComplete(s.hdr.tid)) && Sent(s.file) == |s.file.disk|
                    && r.manager.host == m.host[i := r.manager.host[i]] && r.manager.host[i].IsZero())
                || (r.packet == Some(TransferCancel(s.hdr.tid, s.hdr.from))
                    && r.manager.host == m.host[i := r.manager.host[i]] && r.manager.host[i].IsZero()))
  {
    ReadStep(m.host[i].file, ok);
    hide ReadWork, Reading;
  }

  /** A slot that sends data stays as it should be while it reads on in its file. */
  lemma ReadOnOk(o: Origins, h: Files, x: ClientId, joined: bool, next: LocalId, s: Slot, f: FileHandle)
    requires HostSlotOk(o, h, x, joined, next, s) && s.state == Active
    requires Reading(f) && f.disk == s.file.disk && f.state == Working
    ensures HostSlotOk(o, h, x, joined, next, s.(file := f))
  {
  }

  lemma ActiveSlot(o: Origins, h: Files, x: ClientId, joined: bool, next: LocalId, s: Slot)
    requires HostSlotOk(o, h, x, joined, next, s) && s.state == Active
    ensures Reading(s.file) && s.file.state == Working && s.hdr.tid != 0 && Gives(o, s.hdr.tid, x)
  {
  }

  lemma SendDataOk(o: Origins, h: Files, x: ClientId, joined: bool, m: Manager, i: nat, ok: bool)
    requires ManagerOk(o, h, x, joined, m) && i < SIM_TRANSFERS_MAX && m.host[i].state == Active
    requires Reading(m.host[i].file)
    ensures var r := SendData(m, i, true, ok);
            ManagerOk(o, h, x, joined, r.manager) && (r.packet.Some? ==> UpOk(o, h, x, joined, r.packet.value))
  {
    hide SendData, ReadWork, Reading, HostSlotOk, RecvSlotOk;
    var s := m.host[i];
    var n := SendData(m, i, true, ok).manager;
    assert HostSlotOk(o, h, x, joined, m.nextLocal, s);
    ActiveSlot(o, h, x, joined, m.nextLocal, s);
    SendDataShape(m, i, ok);
    if n.host[i].IsZero() {
      ZeroSlotOk(o, h, x, joined, n.nextLocal, n.host[i]);
    } else {
      ReadOnOk(o, h, x, joined, m.nextLocal, s, ReadWork(s.file, ok).file);
    }
    PutHost(o, h, x, joined, m, n, i, n.host[i]);
  }

  lemma NotElapsed(m: Manager, i: nat, ok: bool)
    requires i < SIM_TRANSFERS_MAX && Reading(m.host[i].file)
    ensures SendData(m, i, false, ok) == Produced(m, None)
  {
  }

  lemma SendOthersOk(o: Origins, h: Files, x: ClientId, joined: bool, m: Manager, i: nat)
    requires OriginsOk(o, h) && ManagerOk(o, h, x, joined, m) && i < SIM_TRANSFERS_MAX
    ensures m.host[i].state != Empty ==>
              var r := SendCancelHost(m, i);
              ManagerOk(o, h, x, joined, r.manager) && UpOk(o, h, x, joined, r.packet.value)
    ensures m.recv[i].state != Empty ==>
              var r := SendCancelRecv(m, i);
              ManagerOk(o, h, x, joined, r.manager) && UpOk(o, h, x, joined, r.packet.value)
    ensures m.host[i].state == SendReq ==>
              var r := SendRequest(m, i);
              ManagerOk(o, h, x, joined, r.manager) && UpOk(o, h, x, joined, r.packet.value)
    ensures m.recv[i].state == Accept || m.recv[i].state == Deny ==>
              var r := SendReply(m, i);
              ManagerOk(o, h, x, joined, r.manager) && UpOk(o, h, x, joined, r.packet.value)
  {
    assert HostSlotOk(o, h, x, joined, m.nextLocal, m.host[i]);
    assert RecvSlotOk(o, h, x, m.recv[i]);
    var a := SendCancelHost(m, i).manager;
    PutHost(o, h, x, joined, m, a, i, a.host[i]);
    var b := SendCancelRecv(m, i).manager;
    PutRecv(o, h, x, joined, m, b, i, b.recv[i]);
    if m.host[i].state == SendReq {
      var c := SendRequest(m, i).manager;
      PutHost(o, h, x, joined, m, c, i, c.host[i]);
    }
    if m.recv[i].state == Accept || m.recv[i].state == Deny {
      var d := SendReply(m, i).manager;
      PutRecv(o, h, x, joined, m, d, i, d.recv[i]);
    }
  }

  /** What a work step sends is well typed, and so is what it leaves behind. */
  lemma WorkOk(o: Origins, h: Files, x: ClientId, joined: bool, m: Manager, elapsed: bool, ok: bool)
    requires OriginsOk(o, h) && ManagerOk(o, h, x, joined, m) && Readable(m)
    ensures var r := Work(m, elapsed, ok);
            ManagerOk(o, h, x, joined, r.manager) && (r.packet.Some? ==> UpOk(o, h, x, joined, r.packet.value))
  {
    hide SendData, HostSlotOk, RecvSlotOk, Reading, UpOk, OriginsOk, SendCancelHost, SendCancelRecv, SendRequest,
          SendReply;
    var i := Find(m.host, HostBusy);
    var j := Find(m.recv, RecvBusy);
    if i < SIM_TRANSFERS_MAX {
      if m.host[i].state != Active {
        SendOthersOk(o, h, x, joined, m, i);
      } else if elapsed {
        SendDataOk(o, h, x, joined, m, i, ok);
      } else {
        NotElapsed(m, i, ok);
      }
    } else if j < SIM_TRANSFERS_MAX {
      SendOthersOk(o, h, x, joined, m, j);
    }
  }
}
