/**
 What every reachable state of hosts, server and recipients guarantees about a transfer.
 */
module EndToEnd {
  import opened Wire
  import opened FileModel
  import opened Slots
  import opened ServerModel
  import opened Tables
  import opened Network
  import opened WellTyped
  import opened Typing
  import opened Flows
  import opened Lanes
  import opened Views
  import opened Simulation
  import opened Preservation

  // ---------------------------------------------------------------- reading a lane

  /** A receive slot in use, as its lane shows it. */
  lemma RecvSlotLane(s: System, r: ClientId, i: nat)
    requires Reachable(s) && r in s.peers && i < SIM_TRANSFERS_MAX && s.peers[r].manager.recv[i].state != Empty
    ensures var slot := s.peers[r].manager.recv[i];
            var t := slot.hdr.tid;
            && Typed(s) && IsLane(s, t, r) && Sound(LaneOf(s, t, r)) && t != 0
            && LaneOf(s, t, r).slot == Held(slot.state, slot.file.disk)
            && slot.file.size == |File(s.origin, s.hosted, t)| && Writing(slot.file)
  {
    hide Reachable, Sound, LaneOf;
    ReachableInvariant(s);
    RecvSlotTyped(s, r, i);
    var t := s.peers[r].manager.recv[i].hdr.tid;
    assert Sound(LaneOf(s, t, r));
    SoundPicks(s, t, r);
    PickThe(s.peers[r].manager.recv, t, i);
    LaneSlots(s, t, r);
  }

  lemma RecvSlotTyped(s: System, r: ClientId, i: nat)
    requires Typed(s) && r in s.peers && i < SIM_TRANSFERS_MAX && s.peers[r].manager.recv[i].state != Empty
    ensures var slot := s.peers[r].manager.recv[i];
            IsLane(s, slot.hdr.tid, r) && slot.hdr.tid != 0
            && slot.file.size == |File(s.origin, s.hosted, slot.hdr.tid)| && Writing(slot.file)
  {
    hide TablesOk, SessionsOk, ConnsOk, HostSlotOk;
    PeerFacts(s, r);
    assert RecvSlotOk(s.origin, s.hosted, r, s.peers[r].manager.recv[i]);
    TypedLane(s, s.peers[r].manager.recv[i].hdr.tid, r);
  }

  lemma LaneSlots(s: System, t: TransferId, r: ClientId)
    requires IsLane(s, t, r)
    ensures var c := s.origin[t].creator;
            var v := LaneOf(s, t, r);
            && v.slot == HeldOf(PickOf(s.peers[r].manager.recv, t))
            && v.host == SourceOf(PickOf(s.peers[c].manager.host, t), IndexOf(s.origin[t].to, r))
            && v.toR == Sum(s.peers[r].down, ToRecipient(t)) && v.fromR == Sum(s.peers[r].up, FromRecipient(t))
            && v.toC == Sum(s.peers[c].down, ToHost(t, r)) && v.fromC == Sum(s.peers[c].up, FromHost(t))
            && v.row == RowOf(s.server.rows, t, r) && v.live == (r in s.server.conns)
            && v.file == File(s.origin, s.hosted, t) && v.relayed == s.relayed[t]
  {
  }

  /** A host slot with a transfer id, as the lane of each recipient shows it. */
  lemma HostSlotLane(s: System, c: ClientId, j: nat, r: ClientId)
    requires Reachable(s) && c in s.peers && j < SIM_TRANSFERS_MAX
    requires var slot := s.peers[c].manager.host[j];
             slot.state != Empty && slot.hdr.tid != 0 && Takes(s.origin, slot.hdr.tid, r)
    ensures var slot := s.peers[c].manager.host[j];
            var t := slot.hdr.tid;
            && Typed(s) && IsLane(s, t, r) && Sound(LaneOf(s, t, r)) && s.origin[t].creator == c
            && LaneOf(s, t, r).host == SourceOf(TheSlot(slot), IndexOf(s.origin[t].to, r))
            && Reading(slot.file) && slot.file.disk == File(s.origin, s.hosted, t)
  {
    hide Reachable, Sound, LaneOf;
    ReachableInvariant(s);
    HostSlotTyped(s, c, j, r);
    var t := s.peers[c].manager.host[j].hdr.tid;
    assert Sound(LaneOf(s, t, r));
    SoundPicks(s, t, r);
    PickThe(s.peers[c].manager.host, t, j);
    LaneSlots(s, t, r);
  }

  lemma HostSlotTyped(s: System, c: ClientId, j: nat, r: ClientId)
    requires Typed(s) && c in s.peers && j < SIM_TRANSFERS_MAX
    requires var slot := s.peers[c].manager.host[j];
             slot.state != Empty && slot.hdr.tid != 0 && Takes(s.origin, slot.hdr.tid, r)
    ensures var slot := s.peers[c].manager.host[j];
            var t := slot.hdr.tid;
            && IsLane(s, t, r) && s.origin[t].creator == c
            && Reading(slot.file) && slot.file.disk == File(s.origin, s.hosted, t)
  {
  }

  // ---------------------------------------------------------------- the bytes

  /** What a recipient has written is the beginning of the host's file. */
  lemma ReceivedIsPrefix(s: System, r: ClientId, i: nat)
    requires Reachable(s) && r in s.peers && i < SIM_TRANSFERS_MAX && s.peers[r].manager.recv[i].state != Empty
    ensures var slot := s.peers[r].manager.recv[i];
            HasFile(s.origin, s.hosted, slot.hdr.tid) && slot.file.disk <= File(s.origin, s.hosted, slot.hdr.tid)
  {
    hide Reachable, Typed;
    RecvSlotLane(s, r, i);
  }

  /** When recv_complete logs COMPLETE, what has been written is the whole of the host's file. */
  lemma CompletedIsWhole(s: System, r: ClientId, t: TransferId)
    requires Reachable(s) && Enabled(s, Deliver(r)) && s.peers[r].down[0] == TransferComplete(t)
    requires Find(s.peers[r].manager.recv, In(Active, t)) < SIM_TRANSFERS_MAX
    ensures var m := s.peers[r].manager;
            var i := Find(m.recv, In(Active, t));
            var n := Next(s, Deliver(r)).peers[r].manager;
            && HasFile(s.origin, s.hosted, t) && m.recv[i].file.disk == File(s.origin, s.hosted, t)
            && n.backlog == m.backlog + [Info(Completed, m.recv[i].name)] && n.recv[i].state == Empty
  {
    hide Reachable, Typed, LaneOf, Writing, File, Enabled, Next, Receive, Sum, Sound;
    DeliverNext(s, r);
    var m := s.peers[r].manager;
    var i := Find(m.recv, In(Active, t));
    RecvSlotLane(s, r, i);
    LaneSlots(s, t, r);
    SoundPicks(s, t, r);
    EndFirst(s.peers[r].down, ToRecipient(t));
    DeliveredParts(s.peers[r]);
    CompleteLogs(m, t);
    WholeFile(LaneOf(s, t, r), m.recv[i].file.disk);
  }

  lemma DeliverNext(s: System, r: ClientId)
    requires Enabled(s, Deliver(r))
    ensures r in s.peers && s.peers[r].down != []
    ensures var n := Next(s, Deliver(r)); r in n.peers && n.peers[r] == Delivered(s.peers[r])
  {
  }

  lemma CompleteLogs(m: Manager, t: TransferId)
    requires Find(m.recv, In(Active, t)) < SIM_TRANSFERS_MAX
    ensures var i := Find(m.recv, In(Active, t));
            var n := Receive(m, TransferComplete(t));
            n.backlog == m.backlog + [Info(Completed, m.recv[i].name)] && n.recv[i].state == Empty
  {
  }

  lemma WholeFile(v: Lane, disk: seq<byte>)
    requires Sound(v) && v.slot == Held(Active, disk) && v.toR.end == ByComplete && v.toR.data == []
    ensures disk == v.file
  {
  }

  /** An end in front of a stream that is not broken is all there is. */
  lemma EndFirst(q: seq<Packet>, l: Lens)
    requires q != [] && Seen(l, q[0]) == COMPLETE && Sum(q, l).Flow?
    ensures Sum(q, l).end == ByComplete && Sum(q, l).data == []
  {
  }

  /**
   Every byte that has left the host is, for a recipient that has accepted, either in its file or
   on its way, in order: nothing is lost, duplicated or reordered.
   */
  lemma BytesConserved(s: System, c: ClientId, j: nat, r: ClientId, i: nat)
    requires Reachable(s) && c in s.peers && r in s.peers && i < SIM_TRANSFERS_MAX && j < SIM_TRANSFERS_MAX
    requires var t := s.peers[c].manager.host[j].hdr.tid;
             && s.peers[c].manager.host[j].state != Empty && t != 0 && Takes(s.origin, t, r)
             && s.peers[r].manager.recv[i].state == Active && s.peers[r].manager.recv[i].hdr.tid == t
             && RowOf(s.server.rows, t, r) == Is(1)
    ensures var host := s.peers[c].manager.host[j];
            var t := host.hdr.tid;
            && Reading(host.file)
            && Sum(s.peers[r].down, ToRecipient(t)).Flow? && Sum(s.peers[c].up, FromHost(t)).Flow?
            && s.peers[r].manager.recv[i].file.disk
               + Sum(s.peers[r].down, ToRecipient(t)).data
               + Sum(s.peers[c].up, FromHost(t)).data == host.file.disk[..Sent(host.file)]
  {
    hide Reachable, Typed, LaneOf, IsLane, Sound, Reading;
    var t := s.peers[c].manager.host[j].hdr.tid;
    RecvSlotLane(s, r, i);
    HostSlotLane(s, c, j, r);
    LaneSlots(s, t, r);
    LaneBytes(LaneOf(s, t, r), s.peers[r].manager.recv[i].file.disk);
  }

  lemma LaneBytes(v: Lane, disk: seq<byte>)
    requires Sound(v) && v.slot == Held(Active, disk) && v.row == Is(1) && v.host.Source?
    ensures v.toR.Flow? && v.fromC.Flow? && v.host.sent <= |v.file|
    ensures disk + v.toR.data + v.fromC.data == v.file[..v.host.sent]
  {
  }

  lemma HostOffset(v: Lane)
    requires Sound(v) && v.host.Source?
    ensures v.relayed + |v.fromC.data| == v.host.sent
  {
  }

  // ---------------------------------------------------------------- nobody joins in midstream

  /** A stream whose summary has no reply contains none. */
  lemma {:induction false} NoReplyIn(q: seq<Packet>, l: Lens)
    requires Sum(q, l).Flow? && Sum(q, l).reply == NoReply
    ensures forall p | p in q :: !(Sees(l, p) && p.TransferReply?)
  {
    if q != [] {
      assert Seen(l, q[0]).Flow?;
      NoReplyIn(q[1..], l);
    }
  }

  /**
   While a host slot is ACTIVE, no recipient of its transfer is unanswered in the server's table and
   no reply to it is under way, to the server or to the host.
   */
  lemma NobodyUndecided(s: System, c: ClientId, j: nat, r: ClientId)
    requires Reachable(s) && c in s.peers && j < SIM_TRANSFERS_MAX && s.peers[c].manager.host[j].state == Active
    requires Takes(s.origin, s.peers[c].manager.host[j].hdr.tid, r)
    ensures var t := s.peers[c].manager.host[j].hdr.tid;
            && RowOf(s.server.rows, t, r) != Is(-1)
            && (forall p | p in s.peers[c].down :: p.TransferReply? && p.tid == t ==> p.from != r)
            && (r in s.server.conns ==>
                  (r in s.peers && forall p | p in s.peers[r].up :: p.TransferReply? ==> p.tid != t))
  {
    hide Reachable, Typed, LaneOf, IsLane, Sound;
    ActiveHasId(s, c, j);
    HostSlotLane(s, c, j, r);
    var t := s.peers[c].manager.host[j].hdr.tid;
    LanePeers(s, t, r);
    LaneSlots(s, t, r);
    ActiveLane(LaneOf(s, t, r));
    NoReplyIn(s.peers[c].down, ToHost(t, r));
    if r in s.server.conns {
      NoReplyIn(s.peers[r].up, FromRecipient(t));
    }
  }

  lemma ActiveLane(v: Lane)
    requires Sound(v) && v.host.Source? && v.host.state == Active
    ensures v.row != Is(-1) && v.toC.Flow? && v.toC.reply == NoReply
    ensures v.live ==> v.fromR.Flow? && v.fromR.reply == NoReply
    ensures Answered(v)
  {
  }

  lemma LanePeers(s: System, t: TransferId, r: ClientId)
    requires IsLane(s, t, r)
    ensures r in s.peers && t in s.origin && s.origin[t].creator in s.peers
  {
  }

  lemma ActiveHasId(s: System, c: ClientId, j: nat)
    requires Reachable(s) && c in s.peers && j < SIM_TRANSFERS_MAX && s.peers[c].manager.host[j].state == Active
    ensures s.peers[c].manager.host[j].hdr.tid != 0
  {
    hide Reachable, LanesSound, TablesOk, SessionsOk, ConnsOk, RecvSlotOk, Reading;
    ReachableInvariant(s);
    PeerFacts(s, c);
    assert HostSlotOk(s.origin, s.hosted, c, s.peers[c].joined, s.peers[c].manager.nextLocal,
          s.peers[c].manager.host[j]);
  }

  /** No move of a lane undoes an answer, or makes it a yes. */
  lemma AnsweredMove(v: Lane, w: Lane, m: Move)
    requires Sound(v) && Moves(v, w, m) && Answered(v)
    ensures Sound(w) && Answered(w) && (w.row == v.row || w.row == NoRow)
  {
    MoveSound(v, w, m);
  }

  lemma {:induction false} AnsweredRun(s: System, run: seq<Action>, t: TransferId, r: ClientId)
    requires Typed(s) && LanesSound(s) && Possible(s, run) && IsLane(s, t, r)
    requires Sound(LaneOf(s, t, r)) && Answered(LaneOf(s, t, r))
    ensures var e := After(s, run);
            && Typed(e) && LanesSound(e) && IsLane(e, t, r) && Sound(LaneOf(e, t, r))
            && (LaneOf(e, t, r).row == LaneOf(s, t, r).row || LaneOf(e, t, r).row == NoRow)
    decreases |run|
  {
    hide Typed, LanesSound, Enabled, Next, IsLane, LaneOf, Sound, Answered, Moves;
    if run != [] {
      var n := Next(s, run[0]);
      var mv := NextMoves(s, run[0], t, r);
      NextTyped(s, run[0]);
      NextLanes(s, run[0]);
      AnsweredMove(LaneOf(s, t, r), LaneOf(n, t, r), mv);
      AnsweredRun(n, run[1..], t, r);
    }
  }

  /** Once a host slot is ACTIVE, the set of clients that have accepted its transfer only shrinks. */
  lemma AcceptedOnlyShrinks(s: System, run: seq<Action>, c: ClientId, j: nat, r: ClientId)
    requires Reachable(s) && Possible(s, run)
    requires c in s.peers && j < SIM_TRANSFERS_MAX && s.peers[c].manager.host[j].state == Active
    ensures var t := s.peers[c].manager.host[j].hdr.tid;
            RowOf(After(s, run).server.rows, t, r) == Is(1) ==> RowOf(s.server.rows, t, r) == Is(1)
  {
    hide Reachable, Typed, LaneOf, IsLane, Possible, After;
    var t := s.peers[c].manager.host[j].hdr.tid;
    ActiveHasId(s, c, j);
    ActiveKnown(s, c, j);
    ReachableInvariant(s);
    var e := After(s, run);
    if t in s.origin && r in Recipients(s.origin[t].to) {
      HostSlotLane(s, c, j, r);
      AnsweredRun(s, run, t, r);
      LaneSlots(s, t, r);
      LaneSlots(e, t, r);
    } else {
      RunInvariant(s, run);
      RunGrows(s, run);
      RowTakes(e, t, r);
    }
  }

  lemma ActiveKnown(s: System, c: ClientId, j: nat)
    requires Reachable(s) && c in s.peers && j < SIM_TRANSFERS_MAX && s.peers[c].manager.host[j].state == Active
    ensures s.peers[c].manager.host[j].hdr.tid in s.origin
  {
    hide Reachable, LanesSound, TablesOk, SessionsOk, ConnsOk, RecvSlotOk, Reading;
    ReachableInvariant(s);
    PeerFacts(s, c);
    assert HostSlotOk(s.origin, s.hosted, c, s.peers[c].joined, s.peers[c].manager.nextLocal,
          s.peers[c].manager.host[j]);
  }

  lemma RowTakes(s: System, t: TransferId, r: ClientId)
    requires Typed(s)
    ensures RowOf(s.server.rows, t, r) != NoRow ==> Takes(s.origin, t, r)
  {
  }

  lemma {:induction false} RunGrows(s: System, run: seq<Action>)
    requires Typed(s) && Possible(s, run)
    ensures Grows(s.origin, s.hosted, After(s, run).origin, After(s, run).hosted)
    decreases |run|
  {
    hide Typed, Enabled, Next;
    if run != [] {
      NextTyped(s, run[0]);
      NextGrows(s, run[0]);
      RunGrows(Next(s, run[0]), run[1..]);
    }
  }

  // ---------------------------------------------------------------- cancelled recipients

  /**
   A CANCEL that reaches a recipient frees its slot exactly when the recipient has not just decided:
   a slot in ACCEPT or DENY, and one that is itself about to send a CANCEL, is left as it is.
   */
  lemma CancelFreesExactly(s: System, r: ClientId, i: nat, t: TransferId, from: ClientId)
    requires Reachable(s) && Enabled(s, Deliver(r)) && s.peers[r].down[0] == TransferCancel(t, from)
    requires i < SIM_TRANSFERS_MAX && s.peers[r].manager.recv[i].state != Empty && s.peers[r].manager.recv[i].hdr.tid == t
    ensures var was := s.peers[r].manager.recv[i];
            var now := Next(s, Deliver(r)).peers[r].manager.recv[i];
            && (now.state == Empty <==> was.state == Active || was.state == GetResponse)
            && (now.state != Empty ==> now == was)
  {
    hide Reachable, Typed, LaneOf, IsLane, Writing, File, Enabled, Next, Receive, Sum, Sound;
    DeliverNext(s, r);
    RecvSlotLane(s, r, i);
    DeliveredParts(s.peers[r]);
    LaneSlots(s, t, r);
    SoundPicks(s, t, r);
    ReachableInvariant(s);
    PeerFacts(s, r);
    CancelAt(s.origin, s.hosted, r, s.peers[r].joined, s.peers[r].manager, i, t, from);
  }

  lemma CancelAt(o: Origins, h: Files, x: ClientId, joined: bool, m: Manager, i: nat, t: TransferId, from: ClientId)
    requires ManagerOk(o, h, x, joined, m) && i < SIM_TRANSFERS_MAX && t != 0
    requires m.recv[i].state != Empty && m.recv[i].hdr.tid == t && PickOf(m.recv, t) != ManySlots
    ensures var was, now := m.recv[i], Receive(m, TransferCancel(t, from)).recv[i];
            && (now.state == Empty <==> was.state == Active || was.state == GetResponse)
            && (now.state != Empty ==> now == was)
  {
    hide HostSlotOk, Reading, Writing;
    assert RecvSlotOk(o, h, x, m.recv[i]);
    var k := Find(m.recv, Cancellable(t));
    PickThe(m.recv, t, i);
    if k < SIM_TRANSFERS_MAX && k != i {
      PickThe(m.recv, t, k);
      PickUpdate(m.recv, k, m.recv[k].Zero(), t);
      PickThe(m.recv[k := m.recv[k].Zero()], t, i);
    }
  }
}
