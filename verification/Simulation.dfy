/**
 Every step of the system moves every lane: a lane is a faithful abstraction of the system, so what
 holds of lanes holds of all runs.
 */
module Simulation {
  import opened Wire
  import opened Slots
  import opened ServerModel
  import opened Tables
  import opened Network
  import opened WellTyped
  import opened Typing
  import opened Flows
  import opened Lanes
  import opened Views
  import opened ClientMoves
  import opened ServerMoves

  lemma LanePair(s: System, t: TransferId, r: ClientId)
    requires Typed(s) && IsLane(s, t, r)
    ensures Pair(s.origin, t, s.origin[t].creator, r) && t < s.server.nextTid
    ensures s.origin[t].creator in s.peers
  {
  }

  // ---------------------------------------------------------------- steps of one client

  /** The lane after a step that replaced the recipient's process. */
  lemma RecipientLane(s: System, t: TransferId, r: ClientId, p: Peer)
    requires IsLane(s, t, r)
    ensures var n := s.(peers := s.peers[r := p]);
            IsLane(n, t, r) && LaneOf(n, t, r) == LaneOf(s, t, r).(
              toR := Sum(p.down, ToRecipient(t)), fromR := Sum(p.up, FromRecipient(t)),
              slot := HeldOf(PickOf(p.manager.recv, t)))
  {
  }

  /** The lane after a step that replaced the host's process. */
  lemma HostLane(s: System, t: TransferId, r: ClientId, p: Peer)
    requires IsLane(s, t, r)
    ensures var c := s.origin[t].creator;
            var n := s.(peers := s.peers[c := p]);
            IsLane(n, t, r) && LaneOf(n, t, r) == LaneOf(s, t, r).(
              toC := Sum(p.down, ToHost(t, r)), fromC := Sum(p.up, FromHost(t)),
              host := SourceOf(PickOf(p.manager.host, t), IndexOf(s.origin[t].to, r)))
  {
  }

  lemma OtherLane(s: System, t: TransferId, r: ClientId, x: ClientId, p: Peer)
    requires IsLane(s, t, r) && x != r && x != s.origin[t].creator && x in s.peers
    ensures var n := s.(peers := s.peers[x := p]);
            IsLane(n, t, r) && LaneOf(n, t, r) == LaneOf(s, t, r)
  {
  }

  lemma SoundPicks(s: System, t: TransferId, r: ClientId)
    requires IsLane(s, t, r) && Sound(LaneOf(s, t, r))
    ensures PickOf(s.peers[r].manager.recv, t) != ManySlots
    ensures PickOf(s.peers[s.origin[t].creator].manager.host, t) != ManySlots
    ensures LaneOf(s, t, r).toR.Flow? && LaneOf(s, t, r).toC.Flow?
    ensures LaneOf(s, t, r).toR.first ==> HeldOf(PickOf(s.peers[r].manager.recv, t)) == Vacant
    ensures LaneOf(s, t, r).toC.first ==>
              SourceOf(PickOf(s.peers[s.origin[t].creator].manager.host, t), IndexOf(s.origin[t].to, r)) == Absent
  {
  }

  lemma PeerFacts(s: System, x: ClientId)
    requires Typed(s) && x in s.peers
    ensures ManagerOk(s.origin, s.hosted, x, s.peers[x].joined, s.peers[x].manager) && x != 0
    ensures forall q | q in s.peers[x].down :: DownOk(s.origin, s.hosted, x, q)
    ensures forall q | q in s.peers[x].up :: UpOk(s.origin, s.hosted, x, s.peers[x].joined, q)
    ensures OriginsOk(s.origin, s.hosted)
  {
  }

  // ---------------------------------------------------------------- GUI commands

  lemma CommandAtRecipient(s: System, c: Command, t: TransferId, r: ClientId) returns (mv: Move)
    requires Typed(s) && IsLane(s, t, r) && Sound(LaneOf(s, t, r))
    ensures var n := s.(peers := s.peers[r := s.peers[r].(manager := Execute(s.peers[r].manager, c))]);
            IsLane(n, t, r) && Moves(LaneOf(s, t, r), LaneOf(n, t, r), mv)
  {
    hide Typed, ManagerOk, Sound, Execute, HeldOf, SourceOf, DownOk, UpOk, OriginsOk;
    LanePair(s, t, r);
    SoundPicks(s, t, r);
    PeerFacts(s, r);
    var p := s.peers[r];
    var q := p.(manager := Execute(p.manager, c));
    RecipientLane(s, t, r, q);
    CommandHeld(s.origin, s.hosted, r, p.joined, p.manager, c, t);
    var b := HeldOf(PickOf(q.manager.recv, t));
    mv := if b == LaneOf(s, t, r).slot then Stay else DoDecide(b.state);
  }

  lemma CommandAtHost(s: System, c: Command, t: TransferId, r: ClientId) returns (mv: Move)
    requires Typed(s) && IsLane(s, t, r) && Sound(LaneOf(s, t, r))
    ensures var x := s.origin[t].creator;
            var n := s.(peers := s.peers[x := s.peers[x].(manager := Execute(s.peers[x].manager, c))]);
            IsLane(n, t, r) && Moves(LaneOf(s, t, r), LaneOf(n, t, r), mv)
  {
    hide Typed, ManagerOk, Sound, Execute, HeldOf, SourceOf, DownOk, UpOk, OriginsOk;
    var x := s.origin[t].creator;
    LanePair(s, t, r);
    SoundPicks(s, t, r);
    PeerFacts(s, x);
    var p := s.peers[x];
    var q := p.(manager := Execute(p.manager, c));
    HostLane(s, t, r, q);
    CommandSource(s.origin, s.hosted, x, p.joined, p.manager, c, t, IndexOf(s.origin[t].to, r));
    var b := SourceOf(PickOf(q.manager.host, t), IndexOf(s.origin[t].to, r));
    mv := if b == LaneOf(s, t, r).host then Stay else DoAbandon;
  }

  // ---------------------------------------------------------------- do_work

  lemma UpSum(q: seq<Packet>, p: Option<Packet>, l: Lens)
    ensures Sum(q + (if p.Some? then [p.value] else []), l) == Then(Sum(q, l), Shown(p, l))
  {
    if p.Some? {
      SumAppend(q, [p.value], l);
      SumOne(p.value, l);
    } else {
      assert q + [] == q;
      ThenNothing(Sum(q, l));
    }
  }

  lemma ProduceAtRecipient(s: System, elapsed: bool, ok: bool, t: TransferId, r: ClientId) returns (mv: Move)
    requires Typed(s) && IsLane(s, t, r) && Sound(LaneOf(s, t, r)) && Readable(s.peers[r].manager)
    ensures var n := s.(peers := s.peers[r := Typing.Worked(s.peers[r], elapsed, ok)]);
            IsLane(n, t, r) && Moves(LaneOf(s, t, r), LaneOf(n, t, r), mv)
  {
    hide Typed, ManagerOk, Sound, Slots.Work, HeldOf, SourceOf, DownOk, UpOk, OriginsOk;
    LanePair(s, t, r);
    SoundPicks(s, t, r);
    PeerFacts(s, r);
    var p := s.peers[r];
    var q := Typing.Worked(p, elapsed, ok);
    var packet := Slots.Work(p.manager, elapsed, ok).packet;
    RecipientLane(s, t, r, q);
    ProduceHeld(s.origin, s.hosted, r, p.joined, p.manager, elapsed, ok, t);
    UpSum(p.up, packet, FromRecipient(t));
    ThenNothing(Sum(p.up, FromRecipient(t)));
    var f := Shown(packet, FromRecipient(t));
    mv := if f == NOTHING then Stay else if f == CANCEL then DoPutCancel else DoPutReply;
  }

  lemma HostProduces(v: Lane, w: Lane, f: Flow) returns (mv: Move)
    requires HostSent(v.host, w.host, f, v.file)
    requires w == v.(host := w.host, fromC := Then(v.fromC, f))
    ensures Moves(v, w, mv)
  {
    ThenNothing(v.fromC);
    mv := if f == NOTHING then Stay else if f == CANCEL then DoPutHostCancel else DoPutComplete;
  }

  lemma HostProducesData(v: Lane, w: Lane, bytes: seq<byte>) returns (mv: Move)
    requires HostSentData(v.host, w.host, bytes, v.file)
    requires w == v.(host := w.host, fromC := Then(v.fromC, DataFlow(bytes)))
    ensures Moves(v, w, mv)
  {
    mv := DoPutData(bytes);
  }

  lemma ProduceAtHost(s: System, elapsed: bool, ok: bool, t: TransferId, r: ClientId) returns (mv: Move)
    requires Typed(s) && IsLane(s, t, r) && Sound(LaneOf(s, t, r))
    requires Readable(s.peers[s.origin[t].creator].manager)
    ensures var x := s.origin[t].creator;
            var n := s.(peers := s.peers[x := Typing.Worked(s.peers[x], elapsed, ok)]);
            IsLane(n, t, r) && Moves(LaneOf(s, t, r), LaneOf(n, t, r), mv)
  {
    hide Typed, ManagerOk, Sound, Slots.Work, HeldOf, SourceOf, DownOk, UpOk, OriginsOk;
    hide Moves, HostSent, HostSentData, Then;
    var x := s.origin[t].creator;
    LanePair(s, t, r);
    SoundPicks(s, t, r);
    PeerFacts(s, x);
    var p := s.peers[x];
    var q := Typing.Worked(p, elapsed, ok);
    var packet := Slots.Work(p.manager, elapsed, ok).packet;
    HostLane(s, t, r, q);
    ProduceSource(s.origin, s.hosted, x, p.joined, p.manager, elapsed, ok, t, IndexOf(s.origin[t].to, r));
    UpSum(p.up, packet, FromHost(t));
    var n := s.(peers := s.peers[x := q]);
    if packet.Some? && packet.value.TransferData? && packet.value.tid == t {
      mv := HostProducesData(LaneOf(s, t, r), LaneOf(n, t, r), packet.value.bytes);
    } else {
      mv := HostProduces(LaneOf(s, t, r), LaneOf(n, t, r), Shown(packet, FromHost(t)));
    }
  }

  // ---------------------------------------------------------------- packets from the server

  function Delivered(p: Peer): Peer
    requires p.down != []
  {
    Analize(p.(down := p.down[1..]), p.down[0])
  }

  /** What delivery leaves of the streams, and what the manager made of the packet. */
  lemma DeliveredParts(p: Peer)
    requires p.down != []
    ensures Delivered(p).down == p.down[1..] && Delivered(p).up == p.up && p.down[0] in p.down
    ensures Delivered(p).manager == Receive(p.manager, p.down[0])
  {
  }

  lemma RecipientTakes(v: Lane, w: Lane, f: Flow, rest: Flow) returns (mv: Move)
    requires v.toR == Then(f, rest) && v.toR.Flow? && (v.toR.first ==> v.slot == Vacant)
    requires Taken(v.slot, w.slot, f) && w == v.(toR := rest, slot := w.slot)
    ensures Moves(v, w, mv)
  {
    ThenNothing(rest);
    mv := if f == NOTHING then Stay
          else if f == OPENING then DoTakeRequest(rest)
          else if f == COMPLETE then DoTakeComplete(rest)
          else DoTakeCancel(rest);
  }

  lemma DeliverAtRecipient(s: System, t: TransferId, r: ClientId) returns (mv: Move)
    requires Typed(s) && IsLane(s, t, r) && Sound(LaneOf(s, t, r)) && s.peers[r].down != []
    requires s.peers[r].down[0].TransferRequest? ==> CanReceive(s.peers[r].manager)
    ensures var n := s.(peers := s.peers[r := Delivered(s.peers[r])]);
            IsLane(n, t, r) && Moves(LaneOf(s, t, r), LaneOf(n, t, r), mv)
  {
    hide Typed, ManagerOk, Sound, Delivered, Receive, HeldOf, SourceOf, DownOk, UpOk, OriginsOk, CanReceive;
    hide Taken;
    LanePair(s, t, r);
    SoundPicks(s, t, r);
    PeerFacts(s, r);
    var p := s.peers[r];
    var q := p.down[0];
    DeliveredParts(p);
    RecipientLane(s, t, r, Delivered(p));
    DeliverHeld(s.origin, s.hosted, r, p.joined, p.manager, q, t);
    FirstOf(p.down, ToRecipient(t));
    var rest := Sum(p.down[1..], ToRecipient(t));
    if q.TransferData? && q.tid == t {
      mv := DoTakeData(q.bytes, rest);
    } else {
      var n := s.(peers := s.peers[r := Delivered(p)]);
      mv := RecipientTakes(LaneOf(s, t, r), LaneOf(n, t, r), Seen(ToRecipient(t), q), rest);
    }
  }

  /** A stream that is not broken and starts with an opening packet says so. */
  lemma FirstOf(q: seq<Packet>, l: Lens)
    requires q != []
    ensures Seen(l, q[0]) == OPENING && Sum(q, l) != Broken ==> Sum(q, l).first
    ensures Sum(q, l) == Then(Seen(l, q[0]), Sum(q[1..], l))
  {
  }

  lemma HostHears(v: Lane, w: Lane, f: Flow, rest: Flow) returns (mv: Move)
    requires v.toC == Then(f, rest) && v.toC.Flow? && (v.toC.first ==> v.host == Absent)
    requires f == NOTHING || f == OPENING || f == CANCEL || f == ReplyFlow(true) || f == ReplyFlow(false)
    requires Heard(v.host, w.host, f) && w == v.(toC := rest, host := w.host)
    ensures Moves(v, w, mv)
  {
    ThenNothing(rest);
    if f == NOTHING {
      mv := if w.host == v.host then Stay else DoHearOther(w.host.state);
    } else if f == OPENING {
      mv := DoTakeValid(rest);
    } else {
      mv := DoHear(f, rest);
    }
  }

  lemma DeliverAtHost(s: System, t: TransferId, r: ClientId) returns (mv: Move)
    requires Typed(s) && IsLane(s, t, r) && Sound(LaneOf(s, t, r))
    requires s.peers[s.origin[t].creator].down != []
    ensures var x := s.origin[t].creator;
            var n := s.(peers := s.peers[x := Delivered(s.peers[x])]);
            IsLane(n, t, r) && Moves(LaneOf(s, t, r), LaneOf(n, t, r), mv)
  {
    hide Typed, ManagerOk, Sound, Delivered, Receive, HeldOf, SourceOf, DownOk, UpOk, OriginsOk;
    hide Moves, Heard, Then;
    var x := s.origin[t].creator;
    LanePair(s, t, r);
    SoundPicks(s, t, r);
    PeerFacts(s, x);
    var p := s.peers[x];
    var q := p.down[0];
    DeliveredParts(p);
    HostLane(s, t, r, Delivered(p));
    DeliverSource(s.origin, s.hosted, x, p.joined, p.manager, q, t, r);
    FirstOf(p.down, ToHost(t, r));
    var n := s.(peers := s.peers[x := Delivered(p)]);
    mv := HostHears(LaneOf(s, t, r), LaneOf(n, t, r), Seen(ToHost(t, r), q), Sum(p.down[1..], ToHost(t, r)));
  }

  // ---------------------------------------------------------------- the server

  /** The lane after the server's tables and outgoing streams have changed. */
  lemma ReactLane(s: System, re: Reaction, t: TransferId, r: ClientId)
    requires IsLane(s, t, r)
    ensures var n := React(s, re);
            var v := LaneOf(s, t, r);
            IsLane(n, t, r) && LaneOf(n, t, r) == v.(
              live := r in re.server.conns, open := CreatorOf(re.server.transfers, t) != 0,
              row := RowOf(re.server.rows, t, r),
              toR := Then(v.toR, Got(re.sends, r, ToRecipient(t))),
              toC := Then(v.toC, Got(re.sends, s.origin[t].creator, ToHost(t, r))))
  {
    var c := s.origin[t].creator;
    SumAppend(s.peers[r].down, For(re.sends, r), ToRecipient(t));
    SumAppend(s.peers[c].down, For(re.sends, c), ToHost(t, r));
  }

  /** The lane after the server has taken a packet off a client's stream. */
  lemma PopLane(s: System, x: ClientId, t: TransferId, r: ClientId)
    requires IsLane(s, t, r) && x in s.peers && s.peers[x].up != []
    ensures var n := Popped(s, x);
            var v := LaneOf(s, t, r);
            var rest := s.peers[x].up[1..];
            && IsLane(n, t, r) && LaneOf(n, t, r) == v.(
                 fromR := if x == r then Sum(rest, FromRecipient(t)) else v.fromR,
                 fromC := if x == s.origin[t].creator then Sum(rest, FromHost(t)) else v.fromC)
            && (x == r ==> v.fromR == Then(Seen(FromRecipient(t), s.peers[x].up[0]), Sum(rest, FromRecipient(t))))
            && (x == s.origin[t].creator ==>
                  v.fromC == Then(Seen(FromHost(t), s.peers[x].up[0]), Sum(rest, FromHost(t))))
  {
  }

  /** The lane after one Serve step: the popped packet's lens, and the handler's effect. */
  function Served(v: Lane, x: ClientId, r: ClientId, c: ClientId, restR: Flow, restC: Flow,
                  open: bool, row: Entry, gotR: Flow, gotC: Flow): Lane
  {
    v.(fromR := if x == r then restR else v.fromR, fromC := if x == c then restC else v.fromC,
       open := open, row := row, toR := Then(v.toR, gotR), toC := Then(v.toC, gotC))
  }

  /** What a lane keeps of the server's client table: packets do not disconnect anyone. */
  lemma ServeLane(s: System, x: ClientId, order: seq<ClientId>, t: TransferId, r: ClientId)
    requires Typed(s) && IsLane(s, t, r) && x in s.peers && x in s.server.conns && s.peers[x].up != []
    ensures var re := Handle(s.server, order, x, s.peers[x].up[0]);
            var n := React(Popped(s, x), re);
            var c := s.origin[t].creator;
            var rest := s.peers[x].up[1..];
            IsLane(n, t, r) && LaneOf(n, t, r) ==
              Served(LaneOf(s, t, r), x, r, c, Sum(rest, FromRecipient(t)), Sum(rest, FromHost(t)),
                     CreatorOf(re.server.transfers, t) != 0, RowOf(re.server.rows, t, r),
                     Got(re.sends, r, ToRecipient(t)), Got(re.sends, c, ToHost(t, r)))
  {
    var re := Handle(s.server, order, x, s.peers[x].up[0]);
    ServeKeepsConns(s.server, order, x, s.peers[x].up[0]);
    PopLane(s, x, t, r);
    ReactLane(Popped(s, x), re, t, r);
  }

  lemma ServeKeepsConns(s: Server, order: seq<ClientId>, x: ClientId, p: Packet)
    requires x in s.conns
    ensures Handle(s, order, x, p).server.conns.Keys == s.conns.Keys
  {
  }

  lemma LaneTables(s: System, t: TransferId, r: ClientId)
    requires Typed(s) && IsLane(s, t, r)
    ensures var c := s.origin[t].creator;
            var v := LaneOf(s, t, r);
            && TablesOk(s.server, s.origin) && (forall u | u in s.origin :: u < s.server.nextTid)
            && (v.row != NoRow ==> v.open) && (v.open <==> CreatorOf(s.server.transfers, t) == c)
            && (v.open <==> CreatorOf(s.server.transfers, t) != 0)
            && v.row == RowOf(s.server.rows, t, r) && RowOf(s.server.rows, t, c) == NoRow && 0 !in s.origin
  {
  }

  /** The system after a Serve step, but for the history of new or growing transfers. */
  function ServedSystem(s: System, x: ClientId, order: seq<ClientId>): System
    requires x in s.peers && x in s.server.conns && s.peers[x].up != []
  {
    React(Popped(s, x), Handle(s.server, order, x, s.peers[x].up[0]))
  }

  lemma IntroTables(s: Server, order: seq<ClientId>, x: ClientId, p: Packet)
    requires x in s.conns && p.ClientIntro?
    ensures var n := PacketIntro(s, order, x, p).server; n.rows == s.rows && n.transfers == s.transfers
  {
  }

  /** All that the analysis of one Serve step starts from. */
  lemma ServeFacts(s: System, x: ClientId, order: seq<ClientId>, t: TransferId, r: ClientId)
    requires Typed(s) && IsLane(s, t, r) && x in s.peers && x in s.server.conns && s.peers[x].up != []
    ensures var p := s.peers[x].up[0];
            var c := s.origin[t].creator;
            var v := LaneOf(s, t, r);
            var re := Handle(s.server, order, x, p);
            var n := ServedSystem(s, x, order);
            var restR, restC := Sum(s.peers[x].up[1..], FromRecipient(t)), Sum(s.peers[x].up[1..], FromHost(t));
            && Pair(s.origin, t, c, r) && TablesOk(s.server, s.origin) && x != 0 && r != c
            && (forall u | u in s.origin :: u < s.server.nextTid)
            && UpOk(s.origin, s.hosted, x, s.peers[x].joined, p)
            && (v.row != NoRow ==> v.open && v.live) && (v.open <==> CreatorOf(s.server.transfers, t) != 0)
            && (v.open <==> CreatorOf(s.server.transfers, t) == c)
            && v.row == RowOf(s.server.rows, t, r) && RowOf(s.server.rows, t, c) == NoRow && 0 !in s.origin
            && (x == r ==> v.fromR == Then(Seen(FromRecipient(t), p), restR) && v.live)
            && (x == c ==> v.fromC == Then(Seen(FromHost(t), p), restC))
            && IsLane(n, t, r)
            && LaneOf(n, t, r) == Served(v, x, r, c, restR, restC,
                 CreatorOf(re.server.transfers, t) != 0, RowOf(re.server.rows, t, r),
                 Got(re.sends, r, ToRecipient(t)), Got(re.sends, c, ToHost(t, r)))
  {
    hide Typed, Sound, Handle, Served, TablesOk;
    LanePair(s, t, r);
    LaneTables(s, t, r);
    RowLive(s, t, r);
    PeerFacts(s, x);
    ServeLane(s, x, order, t, r);
    PopLane(s, x, t, r);
    assert s.peers[x].up[0] in s.peers[x].up;
  }

  lemma RowLive(s: System, t: TransferId, r: ClientId)
    requires Typed(s)
    ensures RowOf(s.server.rows, t, r) != NoRow ==> r in s.server.conns
  {
  }

  // what the lane sees of a step, by what its lenses show

  lemma ServedNothing(v: Lane, w: Lane, x: ClientId, r: ClientId, c: ClientId, restR: Flow, restC: Flow)
    requires w == Served(v, x, r, c, restR, restC, v.open, v.row, NOTHING, NOTHING)
    requires (x == r ==> v.fromR == Then(NOTHING, restR)) && (x == c ==> v.fromC == Then(NOTHING, restC))
    ensures w == v
  {
  }

  lemma ServedReply(v: Lane, w: Lane, r: ClientId, c: ClientId, b: bool, restR: Flow, restC: Flow)
    requires v.live && r != c && v.fromR == Then(ReplyFlow(b), restR)
    requires w == Served(v, r, r, c, restR, restC, v.open,
                         if v.row != NoRow then Is(if b then 1 else 0) else v.row,
                         NOTHING, if v.open then ReplyFlow(b) else NOTHING)
    ensures Moves(v, w, DoServeReply(b, restR))
  {
  }

  lemma ServedData(v: Lane, w: Lane, r: ClientId, c: ClientId, bytes: seq<byte>, restR: Flow, restC: Flow)
    requires r != c && v.fromC == Then(DataFlow(bytes), restC)
    requires w == Served(v, c, r, c, restR, restC, v.open, v.row,
                         if v.row == Is(1) then DataFlow(bytes) else NOTHING, NOTHING)
    ensures Moves(v, w.(relayed := v.relayed + |bytes|), DoServeData(bytes, restC))
  {
    ThenNothing(v.toR);
    ThenNothing(v.toC);
  }

  lemma ServedComplete(v: Lane, w: Lane, r: ClientId, c: ClientId, restR: Flow, restC: Flow)
    requires r != c && v.fromC == Then(COMPLETE, restC)
    requires w == Served(v, c, r, c, restR, restC, false, NoRow,
                         if v.row == Is(1) then COMPLETE else NOTHING, NOTHING)
    ensures Moves(v, w, DoServeComplete(restC))
  {
    ThenNothing(v.toR);
    ThenNothing(v.toC);
  }

  lemma ServedHostCancel(v: Lane, w: Lane, r: ClientId, c: ClientId, restR: Flow, restC: Flow)
    requires r != c && v.fromC == Then(CANCEL, restC)
    requires w == Served(v, c, r, c, restR, restC, false, NoRow,
                         if Passing(v.row, NotDenied) then CANCEL else NOTHING, NOTHING)
    ensures Moves(v, w, DoServeHostCancel(restC))
  {
    ThenNothing(v.toR);
    ThenNothing(v.toC);
  }

  lemma ServedCancel(v: Lane, w: Lane, r: ClientId, c: ClientId, restR: Flow, restC: Flow)
    requires v.live && r != c && v.fromR == Then(CANCEL, restR)
    requires w == Served(v, r, r, c, restR, restC, v.open, NoRow,
                         NOTHING, if v.row != NoRow then CANCEL else NOTHING)
    ensures Moves(v, w, DoServeCancel(restR))
  {
  }

  lemma ServedLoss(v: Lane, w: Lane, r: ClientId, c: ClientId, restR: Flow, restC: Flow)
    requires r != c && v.fromR == Then(NOTHING, restR)
    requires w == Served(v, r, r, c, restR, restC, v.open, NoRow, NOTHING, NOTHING)
    ensures Moves(v, w, DoLoseRow)
  {
  }

  // one packet of each kind

  lemma StepBlind(s: System, x: ClientId, order: seq<ClientId>, t: TransferId, r: ClientId)
    requires Typed(s) && IsLane(s, t, r) && x in s.peers && x in s.server.conns && s.peers[x].up != []
    requires s.peers[x].up[0].ClientIntro? || s.peers[x].up[0].TransferRequest?
    ensures var n := ServedSystem(s, x, order);
            IsLane(n, t, r) && LaneOf(n, t, r) == LaneOf(s, t, r)
  {
    hide Typed, Sound, TablesOk, UpOk, PacketIntro, PacketTransfer, Served, Then, LaneOf;
    ServeFacts(s, x, order, t, r);
    var p := s.peers[x].up[0];
    var c := s.origin[t].creator;
    if p.ClientIntro? {
      IntroMove(s.server, order, x, p, r, ToRecipient(t));
      IntroMove(s.server, order, x, p, c, ToHost(t, r));
      IntroTables(s.server, order, x, p);
    } else {
      TransferMove(s.server, s.origin, x, p.req, t, c, r);
    }
    ServedNothing(LaneOf(s, t, r), LaneOf(ServedSystem(s, x, order), t, r), x, r, c,
                  Sum(s.peers[x].up[1..], FromRecipient(t)), Sum(s.peers[x].up[1..], FromHost(t)));
  }

  lemma StepReply(s: System, x: ClientId, order: seq<ClientId>, t: TransferId, r: ClientId) returns (mv: Move)
    requires Typed(s) && IsLane(s, t, r) && x in s.peers && x in s.server.conns && s.peers[x].up != []
    requires s.peers[x].up[0].TransferReply?
    ensures var n := ServedSystem(s, x, order);
            IsLane(n, t, r) && Moves(LaneOf(s, t, r), LaneOf(n, t, r), mv)
  {
    hide Typed, Sound, TablesOk, UpOk, PacketReply, Served, Then, LaneOf;
    ServeFacts(s, x, order, t, r);
    var p := s.peers[x].up[0];
    var c := s.origin[t].creator;
    ReplyMove(s.server, s.origin, x, p.tid, p.accept, t, c, r);
    var v, w := LaneOf(s, t, r), LaneOf(ServedSystem(s, x, order), t, r);
    var restR, restC := Sum(s.peers[x].up[1..], FromRecipient(t)), Sum(s.peers[x].up[1..], FromHost(t));
    if p.tid == t && x == r {
      ServedReply(v, w, r, c, p.accept, restR, restC);
      mv := DoServeReply(p.accept, restR);
    } else {
      ServedNothing(v, w, x, r, c, restR, restC);
      mv := Stay;
    }
  }

  lemma StepData(s: System, x: ClientId, order: seq<ClientId>, t: TransferId, r: ClientId)
    requires Typed(s) && IsLane(s, t, r) && x in s.peers && x in s.server.conns && s.peers[x].up != []
    requires s.peers[x].up[0].TransferData?
    ensures var n := ServedSystem(s, x, order);
            var p := s.peers[x].up[0];
            var v := LaneOf(s, t, r);
            IsLane(n, t, r) &&
            if p.tid == t then Moves(v, LaneOf(n, t, r).(relayed := v.relayed + |p.bytes|),
                                     DoServeData(p.bytes, Sum(s.peers[x].up[1..], FromHost(t))))
            else LaneOf(n, t, r) == v
  {
    hide Typed, Sound, TablesOk, PacketData, Served, Then, LaneOf, Moves;
    ServeFacts(s, x, order, t, r);
    var p := s.peers[x].up[0];
    var c := s.origin[t].creator;
    DataMove(s.server, s.origin, p, t, c, r);
    DataTables(s.server, p);
    var v, w := LaneOf(s, t, r), LaneOf(ServedSystem(s, x, order), t, r);
    var restR, restC := Sum(s.peers[x].up[1..], FromRecipient(t)), Sum(s.peers[x].up[1..], FromHost(t));
    if p.tid == t {
      ServedData(v, w, r, c, p.bytes, restR, restC);
    } else {
      ServedNothing(v, w, x, r, c, restR, restC);
    }
  }

  lemma DataTables(s: Server, p: Packet)
    requires p.TransferData?
    ensures PacketData(s, p).server == s
  {
  }

  lemma StepComplete(s: System, x: ClientId, order: seq<ClientId>, t: TransferId, r: ClientId) returns (mv: Move)
    requires Typed(s) && IsLane(s, t, r) && x in s.peers && x in s.server.conns && s.peers[x].up != []
    requires s.peers[x].up[0].TransferComplete?
    ensures var n := ServedSystem(s, x, order);
            IsLane(n, t, r) && Moves(LaneOf(s, t, r), LaneOf(n, t, r), mv)
  {
    hide Typed, Sound, TablesOk, PacketComplete, Served, Then, LaneOf;
    ServeFacts(s, x, order, t, r);
    var p := s.peers[x].up[0];
    var c := s.origin[t].creator;
    CompleteMove(s.server, s.origin, x, p, t, c, r);
    var v, w := LaneOf(s, t, r), LaneOf(ServedSystem(s, x, order), t, r);
    var restR, restC := Sum(s.peers[x].up[1..], FromRecipient(t)), Sum(s.peers[x].up[1..], FromHost(t));
    if p.tid == t {
      ServedComplete(v, w, r, c, restR, restC);
      mv := DoServeComplete(restC);
    } else {
      ServedNothing(v, w, x, r, c, restR, restC);
      mv := Stay;
    }
  }

  lemma StepCancel(s: System, x: ClientId, order: seq<ClientId>, t: TransferId, r: ClientId) returns (mv: Move)
    requires Typed(s) && IsLane(s, t, r) && x in s.peers && x in s.server.conns && s.peers[x].up != []
    requires s.peers[x].up[0].TransferCancel?
    ensures var n := ServedSystem(s, x, order);
            IsLane(n, t, r) && Moves(LaneOf(s, t, r), LaneOf(n, t, r), mv)
  {
    hide Typed, Sound, TablesOk, PacketCancel, Served, Then, LaneOf, Moves;
    ServeFacts(s, x, order, t, r);
    var u := s.peers[x].up[0].tid;
    var c := s.origin[t].creator;
    var v, w := LaneOf(s, t, r), LaneOf(ServedSystem(s, x, order), t, r);
    var restR, restC := Sum(s.peers[x].up[1..], FromRecipient(t)), Sum(s.peers[x].up[1..], FromHost(t));
    if u != 0 && CreatorOf(s.server.transfers, u) == x {
      HostCancelMove(s.server, s.origin, x, u, t, c, r);
      PairTables(s.server, s.origin, t, c, r);
      if u == t {
        ServedHostCancel(v, w, r, c, restR, restC);
        mv := DoServeHostCancel(restC);
      } else {
        ServedNothing(v, w, x, r, c, restR, restC);
        mv := Stay;
        StayMoves(v);
      }
    } else {
      CreatorNonzero(s.server, s.origin, u, x);
      RecipientCancelMove(s.server, s.origin, x, u, t, c, r);
      mv := ServeRecipientCancel(v, w, s.server, x, u, t, c, r, restR, restC);
    }
  }

  lemma StayMoves(v: Lane)
    ensures Moves(v, v, Stay)
  {
  }

  lemma CreatorNonzero(s: Server, o: Origins, u: TransferId, x: ClientId)
    requires TablesOk(s, o) && 0 !in o && x != 0 && (u == 0 || CreatorOf(s.transfers, u) != x)
    ensures CreatorOf(s.transfers, u) != x
    ensures u == 0 ==> RowOf(s.rows, u, x) == NoRow
  {
  }

  lemma ServeRecipientCancel(v: Lane, w: Lane, s: Server, x: ClientId, u: TransferId, t: TransferId, c: ClientId,
                             r: ClientId, restR: Flow, restC: Flow) returns (mv: Move)
    requires r != c && v.row == RowOf(s.rows, t, r)
    requires x == r ==> v.live && v.fromR == Then(if u == t then CANCEL else NOTHING, restR)
    requires x == c ==> v.fromC == Then(if u == t then CANCEL else NOTHING, restC)
    requires x == c && u == t ==> !v.open && v.row == NoRow && RowOf(s.rows, t, c) == NoRow
    requires var found := RowOf(s.rows, u, x) != NoRow;
             w == Served(v, x, r, c, restR, restC, v.open, if found && x == r then NoRow else v.row,
                         NOTHING, if found && u == t && x == r then CANCEL else NOTHING)
    ensures Moves(v, w, mv)
  {
    if x == r && u == t {
      ServedCancel(v, w, r, c, restR, restC);
      mv := DoServeCancel(restR);
    } else if x == r && RowOf(s.rows, u, x) != NoRow {
      ServedLoss(v, w, r, c, restR, restC);
      mv := DoLoseRow;
    } else if x == c && u == t {
      ServedHostCancel(v, w, r, c, restR, restC);
      mv := DoServeHostCancel(restC);
    } else {
      ServedNothing(v, w, x, r, c, restR, restC);
      mv := Stay;
    }
  }
}
