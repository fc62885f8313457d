/**
 What a user's decision about an offered file comes to: the answer that the server is sent is the user's,
 and a file that has been denied is never received.
 */
module Decisions {
  import opened Wire
  import opened FileModel
  import opened Slots
  import opened ServerModel
  import opened Tables
  import opened Network
  import opened WellTyped
  import opened Typing
  import opened Flows
  import opened Lanes
  import opened Views
  import opened Simulation
  import opened Preservation
  import opened EndToEnd

  // ---------------------------------------------------------------- deciding, and saying so

  /** The slot of an offer, changed to what the user has decided. */
  function DecidedSlot(s: Slot, yes: bool): Slot {
    s.(state := if yes then Accept else Deny)
  }

  /** The user's decision is noted in the slot of the offer, and nothing else happens. */
  lemma DecisionNoted(s: System, r: ClientId, i: nat, yes: bool)
    requires Reachable(s) && r in s.peers && i < SIM_TRANSFERS_MAX && s.peers[r].manager.recv[i].state == GetResponse
    ensures var m := s.peers[r].manager;
            var a := Do(r, CmdReply(m.recv[i].hdr.tid, yes));
            Enabled(s, a) && Next(s, a) == s.(peers := s.peers[r := s.peers[r].(
              manager := m.(recv := m.recv[i := DecidedSlot(m.recv[i], yes)]))])
  {
    hide Reachable, Typed, IsLane, LaneOf, Sound, PickOf;
    var m := s.peers[r].manager;
    RecvSlotLane(s, r, i);
    SoundPicks(s, m.recv[i].hdr.tid, r);
    OnlyOffer(m, i);
  }

  /** The search for the offer finds its slot: there is no other of the same transfer. */
  lemma OnlyOffer(m: Manager, i: nat)
    requires i < SIM_TRANSFERS_MAX && m.recv[i].state == GetResponse && PickOf(m.recv, m.recv[i].hdr.tid) != ManySlots
    ensures Find(m.recv, In(GetResponse, m.recv[i].hdr.tid)) == i
  {
    OnlySlot(m.recv, m.recv[i].hdr.tid, i, Find(m.recv, In(GetResponse, m.recv[i].hdr.tid)));
  }

  lemma {:induction false} OnlySlot(slots: seq<Slot>, t: TransferId, i: nat, j: nat)
    requires i < |slots| && j < |slots| && Bears(slots[i], t) && Bears(slots[j], t) && PickOf(slots, t) != ManySlots
    ensures i == j
  {
    if i > 0 && j > 0 {
      OnlySlot(slots[1..], t, i - 1, j - 1);
    } else if i > 0 {
      BornBehind(slots, t, i);
    } else if j > 0 {
      BornBehind(slots, t, j);
    }
  }

  lemma BornBehind(slots: seq<Slot>, t: TransferId, k: nat)
    requires 0 < k < |slots| && Bears(slots[k], t)
    ensures PickOf(slots[1..], t) != NoSlot
  {
    PickNone(slots[1..], t);
    assert slots[1..][k - 1] == slots[k];
  }

  /** It is the turn of receive slot `i`: the host side is idle and no slot in front of it has anything to send. */
  predicate HasTurn(m: Manager, i: nat) {
    && i < SIM_TRANSFERS_MAX && Matches(m.recv[i], RecvBusy)
    && (forall j | 0 <= j < SIM_TRANSFERS_MAX :: !Matches(m.host[j], HostBusy))
    && (forall j | 0 <= j < i :: !Matches(m.recv[j], RecvBusy))
  }

  lemma TurnFinds(m: Manager, i: nat)
    requires HasTurn(m, i)
    ensures Find(m.host, HostBusy) == SIM_TRANSFERS_MAX && Find(m.recv, RecvBusy) == i
  {
  }

  /**
   At its turn a slot whose user has decided sends the decision; an accepted one is ACTIVE with the same header,
   a denied one is freed and logged as such; and nothing else happens.
   */
  lemma DecisionTold(s: System, r: ClientId, i: nat, elapsed: bool, ok: bool)
    requires Enabled(s, Produce(r, elapsed, ok)) && HasTurn(s.peers[r].manager, i)
    requires var st := s.peers[r].manager.recv[i].state; st == Accept || st == Deny
    ensures var was := s.peers[r];
            var slot := was.manager.recv[i];
            var yes := slot.state == Accept;
            var n := Next(s, Produce(r, elapsed, ok));
            && n == s.(peers := s.peers[r := n.peers[r]])
            && var now := n.peers[r];
               && now == was.(up := was.up + [TransferReply(slot.hdr.tid, 0, yes)], manager := now.manager)
               && now.manager.host == was.manager.host && now.manager.nextLocal == was.manager.nextLocal
               && (forall j | 0 <= j < SIM_TRANSFERS_MAX && j != i :: now.manager.recv[j] == was.manager.recv[j])
               && now.manager.backlog == was.manager.backlog + (if yes then [] else [Info(Denied, slot.name)])
               && (if yes then now.manager.recv[i] == slot.(state := Active) else now.manager.recv[i].IsZero())
  {
    hide Find, Reading;
    TurnFinds(s.peers[r].manager, i);
    var m := s.peers[r].manager;
    assert m.backlog + [] == m.backlog;
  }

  /** Both steps together: what goes to the server is what the user has said. */
  lemma AnswerIsTheUsers(s: System, r: ClientId, i: nat, yes: bool, elapsed: bool, ok: bool)
    requires Reachable(s) && r in s.peers && i < SIM_TRANSFERS_MAX && s.peers[r].manager.recv[i].state == GetResponse
    requires Readable(s.peers[r].manager)
    requires forall j | 0 <= j < SIM_TRANSFERS_MAX :: !Matches(s.peers[r].manager.host[j], HostBusy)
    requires forall j | 0 <= j < i :: !Matches(s.peers[r].manager.recv[j], RecvBusy)
    ensures var slot := s.peers[r].manager.recv[i];
            var d := Do(r, CmdReply(slot.hdr.tid, yes));
            Enabled(s, d) && Enabled(Next(s, d), Produce(r, elapsed, ok)) &&
            var now := Next(Next(s, d), Produce(r, elapsed, ok)).peers[r];
            && now.up == s.peers[r].up + [TransferReply(slot.hdr.tid, 0, yes)]
            && now.manager.backlog == s.peers[r].manager.backlog + (if yes then [] else [Info(Denied, slot.name)])
            && (if yes then now.manager.recv[i] == slot.(state := Active) else now.manager.recv[i].state == Empty)
  {
    hide Reachable, Next, Reading;
    DecisionNoted(s, r, i, yes);
    var n := Next(s, Do(r, CmdReply(s.peers[r].manager.recv[i].hdr.tid, yes)));
    DecisionTold(n, r, i, elapsed, ok);
  }

  // ---------------------------------------------------------------- a denied file is never received

  /** The recipient has said no, or is about to. */
  predicate Refused(v: Lane) {
    && v.toR.Flow? && !v.toR.first && v.fromR.Flow? && v.fromR.reply != Said(true) && v.row != Is(1)
    && (v.slot == Vacant || v.slot == Held(Deny, []))
  }

  lemma RefusedMove(v: Lane, w: Lane, m: Move)
    requires Sound(v) && Refused(v) && Moves(v, w, m)
    ensures Sound(w) && Refused(w)
  {
    MoveSound(v, w, m);
    RefusedKept(v, w, m);
  }

  lemma RefusedKept(v: Lane, w: Lane, m: Move)
    requires Refused(v) && Moves(v, w, m) && w.toR.Flow? && w.fromR.Flow?
    ensures Refused(w)
  {
  }

  lemma {:induction false} RefusedRun(s: System, run: seq<Action>, t: TransferId, r: ClientId)
    requires Typed(s) && LanesSound(s) && Possible(s, run) && IsLane(s, t, r)
    requires Sound(LaneOf(s, t, r)) && Refused(LaneOf(s, t, r))
    ensures var e := After(s, run);
            Typed(e) && IsLane(e, t, r) && Sound(LaneOf(e, t, r)) && Refused(LaneOf(e, t, r))
    decreases |run|
  {
    hide Typed, LanesSound, Enabled, Next, IsLane, LaneOf, Sound, Refused, Moves;
    if run != [] {
      var n := Next(s, run[0]);
      var mv := NextMoves(s, run[0], t, r);
      NextTyped(s, run[0]);
      NextLanes(s, run[0]);
      RefusedMove(LaneOf(s, t, r), LaneOf(n, t, r), mv);
      RefusedRun(n, run[1..], t, r);
    }
  }

  lemma DeniedLane(v: Lane)
    requires Sound(v) && v.slot.Held? && v.slot.state == Deny
    ensures Refused(v)
  {
  }

  /**
   Once a user has denied a file, over every further run: its row at the server is never accepted, and
   whatever slot is still held for it is in DENY with nothing written.
   */
  lemma DeniedForGood(s: System, run: seq<Action>, r: ClientId, i: nat, j: nat)
    requires Reachable(s) && r in s.peers && i < SIM_TRANSFERS_MAX && j < SIM_TRANSFERS_MAX
    requires s.peers[r].manager.recv[i].state == Deny && Possible(s, run)
    ensures var t := s.peers[r].manager.recv[i].hdr.tid;
            var e := After(s, run);
            && RowOf(e.server.rows, t, r) != Is(1) && r in e.peers
            && var slot := e.peers[r].manager.recv[j];
               slot.state != Empty && slot.hdr.tid == t ==> slot.state == Deny && slot.file.disk == []
  {
    hide Reachable, Typed, LanesSound, IsLane, LaneOf, Sound, Possible, After, PickOf;
    var t := s.peers[r].manager.recv[i].hdr.tid;
    ReachableInvariant(s);
    RecvSlotLane(s, r, i);
    DeniedLane(LaneOf(s, t, r));
    RefusedRun(s, run, t, r);
    var e := After(s, run);
    LanePeers(e, t, r);
    LaneSlots(e, t, r);
    SoundPicks(e, t, r);
    var slot := e.peers[r].manager.recv[j];
    if slot.state != Empty && slot.hdr.tid == t {
      PickThe(e.peers[r].manager.recv, t, j);
    }
  }

  /** From the user's no on, in particular. */
  lemma NoMeansNo(s: System, run: seq<Action>, r: ClientId, i: nat, j: nat)
    requires Reachable(s) && r in s.peers && i < SIM_TRANSFERS_MAX && j < SIM_TRANSFERS_MAX
    requires s.peers[r].manager.recv[i].state == GetResponse
    requires Possible(Next(s, Do(r, CmdReply(s.peers[r].manager.recv[i].hdr.tid, false))), run)
    ensures var t := s.peers[r].manager.recv[i].hdr.tid;
            var e := After(Next(s, Do(r, CmdReply(t, false))), run);
            && RowOf(e.server.rows, t, r) != Is(1) && r in e.peers
            && var slot := e.peers[r].manager.recv[j];
               slot.state != Empty && slot.hdr.tid == t ==> slot.state == Deny && slot.file.disk == []
  {
    hide Reachable, Next, Possible, After;
    var t := s.peers[r].manager.recv[i].hdr.tid;
    DecisionNoted(s, r, i, false);
    ReachNext(s, Do(r, CmdReply(t, false)));
    DeniedForGood(Next(s, Do(r, CmdReply(t, false))), run, r, i, j);
  }

  // ---------------------------------------------------------------- cancelling

  /** What a user may cancel is a transfer that waits for its own decision, for the others', or that flows. */
  predicate Cancelling(s: Slot, t: TransferId) {
    (s.state == GetResponse || s.state == Pending || s.state == Active) && s.hdr.tid == t
  }

  /**
   The user's cancel goes to the receive slot of the transfer if that can be cancelled, or else to the host's,
   and does nothing if neither can: then nothing at all has changed.
   */
  lemma CancelNoted(s: System, x: ClientId, t: TransferId)
    requires Reachable(s) && x in s.peers && t != 0
    ensures Enabled(s, Do(x, CmdCancel(t)))
    ensures var m := s.peers[x].manager;
            var n := Next(s, Do(x, CmdCancel(t)));
            && x in n.peers && n == s.(peers := s.peers[x := s.peers[x].(manager := n.peers[x].manager)])
            && var e := n.peers[x].manager;
               && e == m.(host := e.host, recv := e.recv)
               && (forall j | 0 <= j < SIM_TRANSFERS_MAX ::
                     e.recv[j] == if Cancelling(m.recv[j], t) then m.recv[j].(state := State.Cancel) else m.recv[j])
               && (forall j | 0 <= j < SIM_TRANSFERS_MAX ::
                     e.host[j] == if Cancelling(m.host[j], t) && (forall k | 0 <= k < SIM_TRANSFERS_MAX :: !Cancelling(m.recv[k], t))
                                  then m.host[j].(state := State.Cancel) else m.host[j])
  {
    hide Reachable, Typed, PickOf, IsLane, LaneOf, Sound;
    var m := s.peers[x].manager;
    forall i, j | 0 <= i < SIM_TRANSFERS_MAX && 0 <= j < SIM_TRANSFERS_MAX && Cancelling(m.recv[i], t) && Cancelling(m.recv[j], t)
      ensures i == j
    {
      RecvSlotLane(s, x, i);
      SoundPicks(s, t, x);
      OnlySlot(m.recv, t, i, j);
    }
    forall i, j | 0 <= i < SIM_TRANSFERS_MAX && 0 <= j < SIM_TRANSFERS_MAX && Cancelling(m.host[i], t) && Cancelling(m.host[j], t)
      ensures i == j
    {
      OneHostSlot(s, x, t, i, j);
    }
    CancelFinds(m, t);
  }

  /** No two host slots are for the same transfer. */
  lemma OneHostSlot(s: System, x: ClientId, t: TransferId, i: nat, j: nat)
    requires Reachable(s) && x in s.peers && t != 0 && i < SIM_TRANSFERS_MAX && j < SIM_TRANSFERS_MAX
    requires Cancelling(s.peers[x].manager.host[i], t) && Cancelling(s.peers[x].manager.host[j], t)
    ensures i == j
  {
    hide Reachable, TablesOk, SessionsOk, ConnsOk, RecvSlotOk, Reading, LanesSound;
    ReachableInvariant(s);
    PeerFacts(s, x);
    var m := s.peers[x].manager;
    assert HostSlotOk(s.origin, s.hosted, x, s.peers[x].joined, m.nextLocal, m.host[i]);
    assert HostSlotOk(s.origin, s.hosted, x, s.peers[x].joined, m.nextLocal, m.host[j]);
  }

  lemma CancelFinds(m: Manager, t: TransferId)
    requires forall i, j | 0 <= i < SIM_TRANSFERS_MAX && 0 <= j < SIM_TRANSFERS_MAX
                           && Cancelling(m.recv[i], t) && Cancelling(m.recv[j], t) :: i == j
    requires forall i, j | 0 <= i < SIM_TRANSFERS_MAX && 0 <= j < SIM_TRANSFERS_MAX
                           && Cancelling(m.host[i], t) && Cancelling(m.host[j], t) :: i == j
    ensures var e := Execute(m, CmdCancel(t));
            && e == m.(host := e.host, recv := e.recv)
            && (forall j | 0 <= j < SIM_TRANSFERS_MAX ::
                  e.recv[j] == if Cancelling(m.recv[j], t) then m.recv[j].(state := State.Cancel) else m.recv[j])
            && (forall j | 0 <= j < SIM_TRANSFERS_MAX ::
                  e.host[j] == if Cancelling(m.host[j], t) && (forall k | 0 <= k < SIM_TRANSFERS_MAX :: !Cancelling(m.recv[k], t))
                               then m.host[j].(state := State.Cancel) else m.host[j])
  {
    hide Find;
    var i, j := Find(m.recv, Cancellable(t)), Find(m.host, Cancellable(t));
    FindFacts(m.recv, t);
    FindFacts(m.host, t);
  }

  lemma FindFacts(slots: SlotArray, t: TransferId)
    ensures var i := Find(slots, Cancellable(t));
            && (i < SIM_TRANSFERS_MAX ==> Cancelling(slots[i], t))
            && (i == SIM_TRANSFERS_MAX ==> forall k | 0 <= k < SIM_TRANSFERS_MAX :: !Cancelling(slots[k], t))
  {
  }

  /** At its turn a receive slot in CANCEL tells the server, is freed, and is logged as cancelled under its name. */
  lemma CancelTold(s: System, r: ClientId, i: nat, elapsed: bool, ok: bool)
    requires Enabled(s, Produce(r, elapsed, ok)) && HasTurn(s.peers[r].manager, i)
    requires s.peers[r].manager.recv[i].state == State.Cancel
    ensures var was := s.peers[r];
            var slot := was.manager.recv[i];
            var n := Next(s, Produce(r, elapsed, ok));
            && n == s.(peers := s.peers[r := n.peers[r]])
            && var now := n.peers[r];
               && now == was.(up := was.up + [TransferCancel(slot.hdr.tid, slot.hdr.from)], manager := now.manager)
               && now.manager == was.manager.(recv := now.manager.recv,
                                              backlog := was.manager.backlog + [Info(Cancelled, slot.name)])
               && (forall j | 0 <= j < SIM_TRANSFERS_MAX && j != i :: now.manager.recv[j] == was.manager.recv[j])
               && now.manager.recv[i].IsZero()
  {
    hide Find, Reading;
    TurnFinds(s.peers[r].manager, i);
  }
}
