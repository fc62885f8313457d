/**
 Where the protocol falls short of its intention: a recipient can be left with a slot that nothing will
 ever free but its own user, and there are runs that lead there.
 */
module Shortcomings {
  import opened Wire
  import opened FileModel
  import opened Slots
  import opened ServerModel
  import opened Tables
  import opened Network
  import opened WellTyped
  import opened Flows
  import opened Lanes
  import opened Views
  import opened Simulation
  import opened Preservation
  import opened EndToEnd
  import opened ManagerRuns
  import opened Transitions

  // ---------------------------------------------------------------- stranded recipients

  /** The states of a receive slot whose user has said yes. */
  predicate Agreed(state: State) {
    state == Accept || state == Active
  }

  /** A receive slot has been accepted, but the server has no row for it and nothing about it is on its way. */
  ghost predicate Abandoned(s: System, r: ClientId, i: nat, t: TransferId) {
    && r in s.peers && i < SIM_TRANSFERS_MAX
    && Agreed(s.peers[r].manager.recv[i].state) && s.peers[r].manager.recv[i].hdr.tid == t
    && RowOf(s.server.rows, t, r) == NoRow && Sum(s.peers[r].down, ToRecipient(t)) == NOTHING
  }

  ghost predicate Stranded(s: System, r: ClientId, i: nat, t: TransferId) {
    Abandoned(s, r, i, t) && s.peers[r].manager.recv[i].state == Active
  }

  /** What may become of such a slot: the reply is sent, and nothing else. */
  predicate Carried(was: Slot, now: Slot) {
    && now.hdr == was.hdr && now.file.disk == was.file.disk
    && (now.state == was.state || (was.state == Accept && now.state == Active))
  }

  lemma CommandKeeps(m: Manager, c: Command, i: nat)
    requires i < SIM_TRANSFERS_MAX && Agreed(m.recv[i].state)
    requires c != CmdCancel(m.recv[i].hdr.tid)
    ensures Execute(m, c).recv[i] == m.recv[i]
  {
  }

  lemma WorkKeeps(m: Manager, elapsed: bool, ok: bool, i: nat)
    requires i < SIM_TRANSFERS_MAX && Agreed(m.recv[i].state) && Readable(m)
    ensures Carried(m.recv[i], Slots.Work(m, elapsed, ok).manager.recv[i])
  {
    hide Reading;
  }

  lemma ArrivalKeeps(m: Manager, p: Packet, i: nat)
    requires i < SIM_TRANSFERS_MAX && Agreed(m.recv[i].state)
    requires Seen(ToRecipient(m.recv[i].hdr.tid), p) == NOTHING
    ensures Carried(m.recv[i], Receive(m, p).recv[i])
  {
    hide SetRequest;
    if p.TransferData? {
      assert p.tid == m.recv[i].hdr.tid ==> p.bytes == [];
    }
  }

  lemma {:induction false} AllBlind(q: seq<Packet>, l: Lens, p: Packet)
    requires Sum(q, l) == NOTHING && p in q
    ensures Seen(l, p) == NOTHING
  {
    if p != q[0] {
      AllBlind(q[1..], l, p);
    }
  }

  predicate Accepted(h: Held) {
    h.Held? && Agreed(h.state)
  }

  lemma AbandonedMove(v: Lane, w: Lane, m: Move)
    requires Moves(v, w, m) && Accepted(v.slot) && Accepted(w.slot) && v.row == NoRow && v.toR == NOTHING
    ensures w.row == NoRow && w.toR == NOTHING
  {
  }

  /** Only its user's cancel command does anything for an abandoned recipient, and only once it is ACTIVE. */
  lemma AbandonedStep(s: System, a: Action, r: ClientId, i: nat, t: TransferId)
    requires Reachable(s) && Enabled(s, a) && Abandoned(s, r, i, t) && a != Do(r, CmdCancel(t))
    ensures Abandoned(Next(s, a), r, i, t)
    ensures Carried(s.peers[r].manager.recv[i], Next(s, a).peers[r].manager.recv[i])
  {
    hide Reachable, Enabled, Next, Typed, IsLane, LaneOf, Sound, Moves, Receive, Slots.Work, Execute, Sum, Seen;
    var n := Next(s, a);
    var m := s.peers[r].manager;
    var st := NextManager(s, a, r);
    if st.Some? {
      match st.value
      case Order(c) => CommandKeeps(m, c, i);
      case Arrival(p) =>
        AllBlind(s.peers[r].down, ToRecipient(t), p);
        ArrivalKeeps(m, p, i);
      case Turn(elapsed, ok) =>
        TurnTakeable(m, elapsed, ok);
        WorkKeeps(m, elapsed, ok, i);
    }
    RecvSlotLane(s, r, i);
    var mv := NextMoves(s, a, t, r);
    ReachNext(s, a);
    RecvSlotLane(n, r, i);
    LaneSlots(s, t, r);
    LaneSlots(n, t, r);
    AbandonedMove(LaneOf(s, t, r), LaneOf(n, t, r), mv);
  }

  lemma {:induction false} AbandonedRun(s: System, run: seq<Action>, r: ClientId, i: nat, t: TransferId)
    requires Reachable(s) && Possible(s, run) && Abandoned(s, r, i, t) && Do(r, CmdCancel(t)) !in run
    ensures Abandoned(After(s, run), r, i, t)
    ensures Carried(s.peers[r].manager.recv[i], After(s, run).peers[r].manager.recv[i])
    decreases |run|
  {
    hide Reachable, Enabled, Next;
    if run != [] {
      assert run[0] in run;
      AbandonedStep(s, run[0], r, i, t);
      ReachNext(s, run[0]);
      AbandonedRun(Next(s, run[0]), run[1..], r, i, t);
    }
  }

  /**
   An ACTIVE receive slot without a row at the server, and with nothing about it on its way, stays
   ACTIVE over every further run, and its file never grows, unless its own user cancels it.
   */
  lemma StrandedForever(s: System, run: seq<Action>, r: ClientId, i: nat)
    requires Reachable(s) && Possible(s, run) && r in s.peers && i < SIM_TRANSFERS_MAX
    requires var slot := s.peers[r].manager.recv[i];
             && slot.state == Active && RowOf(s.server.rows, slot.hdr.tid, r) == NoRow
             && (forall p | p in s.peers[r].down :: !Sees(ToRecipient(slot.hdr.tid), p))
             && Do(r, CmdCancel(slot.hdr.tid)) !in run
    ensures r in After(s, run).peers
    ensures var was, now := s.peers[r].manager.recv[i], After(s, run).peers[r].manager.recv[i];
            now.state == Active && now.hdr.tid == was.hdr.tid && now.file.disk == was.file.disk
  {
    hide Reachable, Possible, After, Sees, Sum;
    var t := s.peers[r].manager.recv[i].hdr.tid;
    SumBlind(s.peers[r].down, ToRecipient(t));
    AbandonedRun(s, run, r, i, t);
  }

  // ---------------------------------------------------------------- a CANCEL in ACCEPT or DENY

  /** A lane whose next packet to the recipient is a CANCEL: there is no row, and nothing comes behind it. */
  lemma CancelIsLast(v: Lane, rest: Flow)
    requires Sound(v) && v.toR == Then(CANCEL, rest)
    ensures v.row == NoRow && rest == NOTHING
  {
  }

  /** A CANCEL that finds a slot in ACCEPT leaves it abandoned. */
  lemma MissedCancel(s: System, r: ClientId, i: nat, t: TransferId, from: ClientId)
    requires Reachable(s) && Enabled(s, Deliver(r)) && s.peers[r].down[0] == TransferCancel(t, from)
    requires i < SIM_TRANSFERS_MAX
    requires s.peers[r].manager.recv[i].state == Accept && s.peers[r].manager.recv[i].hdr.tid == t
    ensures var n := Next(s, Deliver(r));
            Abandoned(n, r, i, t) && n.peers[r].manager.recv[i] == s.peers[r].manager.recv[i]
  {
    hide Reachable, Enabled, Next, Typed, IsLane, LaneOf, Sound, Then;
    CancelFreesExactly(s, r, i, t, from);
    DeliverNext(s, r);
    DeliverKeepsServer(s, r);
    DeliveredParts(s.peers[r]);
    RecvSlotLane(s, r, i);
    LaneSlots(s, t, r);
    CancelIsLast(LaneOf(s, t, r), Sum(s.peers[r].down[1..], ToRecipient(t)));
  }

  lemma DeliverKeepsServer(s: System, r: ClientId)
    requires Enabled(s, Deliver(r))
    ensures Next(s, Deliver(r)).server == s.server
  {
  }

  /**
   A recipient that misses the CANCEL because it has just accepted is abandoned for good: over every
   further run in which its user does not cancel, the slot stays in ACCEPT until its reply is sent and is
   ACTIVE ever after, nothing is written, and the server never knows of it again.
   */
  lemma MissedCancelStrands(s: System, run: seq<Action>, r: ClientId, i: nat, t: TransferId, from: ClientId)
    requires Reachable(s) && Enabled(s, Deliver(r)) && s.peers[r].down[0] == TransferCancel(t, from)
    requires i < SIM_TRANSFERS_MAX
    requires s.peers[r].manager.recv[i].state == Accept && s.peers[r].manager.recv[i].hdr.tid == t
    requires Possible(Next(s, Deliver(r)), run) && Do(r, CmdCancel(t)) !in run
    ensures var e := After(Next(s, Deliver(r)), run);
            && r in e.peers && RowOf(e.server.rows, t, r) == NoRow
            && var was, now := s.peers[r].manager.recv[i], e.peers[r].manager.recv[i];
               && now.hdr.tid == t && now.file.disk == was.file.disk
               && (now.state == Accept || (now.state == Active && Stranded(e, r, i, t)))
  {
    hide Reachable, Enabled, Next, Possible, After, Sum;
    MissedCancel(s, r, i, t, from);
    ReachNext(s, Deliver(r));
    AbandonedRun(Next(s, Deliver(r)), run, r, i, t);
  }

  /** The turn of a slot whose user has decided: an accepted one becomes ACTIVE, a denied one is freed. */
  lemma DecisionSent(s: System, r: ClientId, i: nat, elapsed: bool, ok: bool)
    requires Enabled(s, Produce(r, elapsed, ok)) && i < SIM_TRANSFERS_MAX
    requires var m := s.peers[r].manager;
             && Find(m.host, HostBusy) == SIM_TRANSFERS_MAX && Find(m.recv, RecvBusy) == i
             && (m.recv[i].state == Accept || m.recv[i].state == Deny)
    ensures var was, n := s.peers[r].manager.recv[i], Next(s, Produce(r, elapsed, ok));
            && r in n.peers && n.server == s.server && n.peers[r].down == s.peers[r].down
            && n.peers[r].manager.recv[i].state == (if was.state == Accept then Active else Empty)
            && (was.state == Accept ==> n.peers[r].manager.recv[i].hdr == was.hdr)
  {
    hide Find, Readable, Reading;
  }
}
