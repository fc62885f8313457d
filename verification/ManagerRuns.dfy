/**
 What a Transfer_Manager keeps over all its runs, whatever commands and packets it is given.
 */
module ManagerRuns {
  import opened Wire
  import opened FileModel
  import opened Slots

  /** Everything that can happen to a manager. */
  datatype Step = Order(cmd: Command) | Arrival(packet: Packet) | Turn(elapsed: bool, ok: bool)

  predicate Takeable(m: Manager, st: Step) {
    st.Turn? ==> Readable(m)
  }

  function Apply(m: Manager, st: Step): Manager
    requires Takeable(m, st)
  {
    match st
    case Order(c) => Execute(m, c)
    case Arrival(p) => Receive(m, p)
    case Turn(elapsed, ok) => Work(m, elapsed, ok).manager
  }

  predicate Runnable(m: Manager, run: seq<Step>)
    decreases |run|
  {
    run == [] || (Takeable(m, run[0]) && Runnable(Apply(m, run[0]), run[1..]))
  }

  function Finally(m: Manager, run: seq<Step>): Manager
    requires Runnable(m, run)
    decreases |run|
  {
    if run == [] then m else Finally(Apply(m, run[0]), run[1..])
  }

  // ---------------------------------------------------------------- slot conservation

  /** How many slots of an array are in use. */
  function Busy(slots: seq<Slot>): nat {
    if slots == [] then 0 else (if slots[0].state == Empty then 0 else 1) + Busy(slots[1..])
  }

  lemma {:induction false} BusyUpdate(slots: seq<Slot>, i: nat, s: Slot)
    requires i < |slots|
    ensures Busy(slots[i := s]) + (if slots[i].state == Empty then 0 else 1)
            == Busy(slots) + if s.state == Empty then 0 else 1
  {
    if i == 0 {
      assert slots[i := s][1..] == slots[1..];
    } else {
      assert slots[i := s][1..] == slots[1..][i - 1 := s];
      BusyUpdate(slots[1..], i - 1, s);
    }
  }

  /** A step starts a transfer when it is a request that finds a free slot, sent or received. */
  function Starts(m: Manager, st: Step): nat {
    if st.Order? && st.cmd.CmdRequest? && st.cmd.contents != [] && Find(m.host, Free) < SIM_TRANSFERS_MAX then 1
    else if st.Arrival? && st.packet.TransferRequest? && CanReceive(m) then 1
    else 0
  }

  function Started(m: Manager, run: seq<Step>): nat
    requires Runnable(m, run)
    decreases |run|
  {
    if run == [] then 0 else Starts(m, run[0]) + Started(Apply(m, run[0]), run[1..])
  }

  function InHand(m: Manager): nat {
    Busy(m.host) + Busy(m.recv) + |m.backlog|
  }

  lemma OrderCounts(m: Manager, c: Command)
    ensures InHand(Execute(m, c)) == InHand(m) + Starts(m, Order(c))
  {
    var n := Execute(m, c);
    match c
    case CmdRequest(_, contents, _) =>
      var i := Find(m.host, Free);
      if i < SIM_TRANSFERS_MAX && contents != [] { BusyUpdate(m.host, i, n.host[i]); }
    case CmdReply(t, _) =>
      var i := Find(m.recv, In(GetResponse, t));
      if i < SIM_TRANSFERS_MAX { BusyUpdate(m.recv, i, n.recv[i]); }
    case CmdCancel(t) =>
      var i, j := Find(m.recv, Cancellable(t)), Find(m.host, Cancellable(t));
      if i < SIM_TRANSFERS_MAX { BusyUpdate(m.recv, i, n.recv[i]); }
      else if j < SIM_TRANSFERS_MAX { BusyUpdate(m.host, j, n.host[j]); }
  }

  lemma HostArrivalCounts(m: Manager, p: Packet)
    requires p.TransferValid? || p.TransferInvalid? || p.TransferReply?
    ensures InHand(Receive(m, p)) == InHand(m)
  {
    var n := Receive(m, p);
    if p.TransferReply? {
      var i := Find(m.host, In(Pending, p.tid));
      if i < SIM_TRANSFERS_MAX { BusyUpdate(m.host, i, SetRequest(m.host[i], p.from, p.accept)); }
    } else {
      var i := Find(m.host, Awaiting(p.req.local));
      if i < SIM_TRANSFERS_MAX { BusyUpdate(m.host, i, n.host[i]); }
    }
  }

  lemma CancelArrivalCounts(m: Manager, t: TransferId, from: ClientId)
    ensures InHand(RecvCancel(m, t, from)) == InHand(m)
  {
    var i, j := Find(m.recv, Cancellable(t)), Find(m.host, Cancellable(t));
    if i < SIM_TRANSFERS_MAX {
      BusyUpdate(m.recv, i, m.recv[i].Zero());
    } else if j < SIM_TRANSFERS_MAX {
      BusyUpdate(m.host, j, SetRequest(m.host[j], from, false));
    }
  }

  lemma RecvArrivalCounts(m: Manager, p: Packet)
    requires p.TransferRequest? || p.TransferData? || p.TransferComplete?
    ensures InHand(Receive(m, p)) == InHand(m) + Starts(m, Arrival(p))
  {
    var n := Receive(m, p);
    if p.TransferRequest? {
      var i := Find(m.recv, Free);
      if i < SIM_TRANSFERS_MAX { BusyUpdate(m.recv, i, n.recv[i]); }
    } else {
      var i := Find(m.recv, In(Active, p.tid));
      if i < SIM_TRANSFERS_MAX { BusyUpdate(m.recv, i, n.recv[i]); }
    }
  }

  lemma ArrivalCounts(m: Manager, p: Packet)
    ensures InHand(Receive(m, p)) == InHand(m) + Starts(m, Arrival(p))
  {
    hide InHand;
    match p
    case TransferCancel(t, from) => CancelArrivalCounts(m, t, from);
    case TransferReply(_, _, _) => HostArrivalCounts(m, p);
    case TransferValid(_) => HostArrivalCounts(m, p);
    case TransferInvalid(_) => HostArrivalCounts(m, p);
    case TransferRequest(_) => RecvArrivalCounts(m, p);
    case TransferData(_, _) => RecvArrivalCounts(m, p);
    case TransferComplete(_) => RecvArrivalCounts(m, p);
    case _ =>
  }

  lemma SendDataCounts(m: Manager, i: nat, elapsed: bool, ok: bool)
    requires i < SIM_TRANSFERS_MAX && m.host[i].state == Active && Reading(m.host[i].file)
    ensures InHand(SendData(m, i, elapsed, ok).manager) == InHand(m)
  {
    hide ReadWork, Reading;
    var n := SendData(m, i, elapsed, ok).manager;
    if elapsed {
      var t := m.host[i].(file := ReadWork(m.host[i].file, ok).file);
      BusyUpdate(m.host, i, t);
      BusyUpdate(m.host, i, n.host[i]);
      assert m.host[i := t][i := t.Zero()] == m.host[i := t.Zero()];
    }
  }

  lemma TurnCounts(m: Manager, elapsed: bool, ok: bool)
    requires Readable(m)
    ensures InHand(Work(m, elapsed, ok).manager) == InHand(m)
  {
    hide SendData, Reading, InHand;
    var n := Work(m, elapsed, ok).manager;
    var i, j := Find(m.host, HostBusy), Find(m.recv, RecvBusy);
    if i < SIM_TRANSFERS_MAX {
      if m.host[i].state == Active {
        SendDataCounts(m, i, elapsed, ok);
      } else {
        HostTurnCounts(m, i);
      }
    } else if j < SIM_TRANSFERS_MAX {
      RecvTurnCounts(m, j);
    }
  }

  lemma HostTurnCounts(m: Manager, i: nat)
    requires i < SIM_TRANSFERS_MAX && m.host[i].state != Empty
    ensures InHand(SendCancelHost(m, i).manager) == InHand(m) == InHand(SendRequest(m, i).manager)
  {
    BusyUpdate(m.host, i, m.host[i].Zero());
    BusyUpdate(m.host, i, m.host[i].(state := GetResponse));
  }

  lemma RecvTurnCounts(m: Manager, j: nat)
    requires j < SIM_TRANSFERS_MAX && m.recv[j].state != Empty
    ensures InHand(RecvWork(m, j).manager) == InHand(m)
  {
    BusyUpdate(m.recv, j, RecvWork(m, j).manager.recv[j]);
  }

  /** Every transfer that was started is in a slot or in the backlog, and in one place only. */
  lemma {:induction false} SlotConservation(m: Manager, run: seq<Step>)
    requires Runnable(m, run)
    ensures InHand(Finally(m, run)) == InHand(m) + Started(m, run)
    decreases |run|
  {
    hide InHand, Execute, Receive, Work, Starts;
    if run != [] {
      match run[0] {
        case Order(c) => OrderCounts(m, c);
        case Arrival(p) => ArrivalCounts(m, p); NoPacketNoStart(m, run[0]);
        case Turn(elapsed, ok) => TurnCounts(m, elapsed, ok); NoPacketNoStart(m, run[0]);
      }
      SlotConservation(Apply(m, run[0]), run[1..]);
    }
  }

  lemma NoPacketNoStart(m: Manager, st: Step)
    ensures st.Turn? ==> Starts(m, st) == 0
  {
  }

  // ---------------------------------------------------------------- local ids

  /** Slots in use have local ids that were given out, each to one slot. */
  predicate LocalsOk(m: Manager) {
    && m.nextLocal >= 1
    && (forall i | 0 <= i < SIM_TRANSFERS_MAX && m.host[i].state != Empty :: 1 <= m.host[i].local < m.nextLocal)
    && (forall i, j | 0 <= i < j < SIM_TRANSFERS_MAX && m.host[i].state != Empty && m.host[j].state != Empty ::
          m.host[i].local != m.host[j].local)
  }

  /** All that a step does to the local ids of the host slots. */
  predicate LocalsKept(m: Manager, n: Manager) {
    && n.nextLocal == m.nextLocal
    && forall i | 0 <= i < SIM_TRANSFERS_MAX ::
         n.host[i].state != Empty ==> m.host[i].state != Empty && n.host[i].local == m.host[i].local
  }

  lemma ArrivalLocals(m: Manager, p: Packet)
    ensures LocalsKept(m, Receive(m, p))
  {
  }

  lemma SendDataLocals(m: Manager, i: nat, elapsed: bool, ok: bool)
    requires i < SIM_TRANSFERS_MAX && Reading(m.host[i].file) && m.host[i].state == Active
    ensures LocalsKept(m, SendData(m, i, elapsed, ok).manager)
  {
  }

  lemma TurnLocals(m: Manager, elapsed: bool, ok: bool)
    requires Readable(m)
    ensures LocalsKept(m, Work(m, elapsed, ok).manager)
  {
    hide SendData;
    var i := Find(m.host, HostBusy);
    if i < SIM_TRANSFERS_MAX && m.host[i].state == Active {
      SendDataLocals(m, i, elapsed, ok);
    }
  }

  lemma OrderLocals(m: Manager, c: Command)
    requires LocalsOk(m)
    ensures LocalsOk(Execute(m, c))
  {
  }

  /** Live host slots never share a local id. */
  lemma {:induction false} LocalsDistinct(m: Manager, run: seq<Step>)
    requires Runnable(m, run) && LocalsOk(m)
    ensures LocalsOk(Finally(m, run))
    decreases |run|
  {
    hide Execute, Receive, Work, Readable;
    if run != [] {
      match run[0] {
        case Order(c) => OrderLocals(m, c);
        case Arrival(p) => ArrivalLocals(m, p);
        case Turn(elapsed, ok) => TurnLocals(m, elapsed, ok);
      }
      LocalsDistinct(Apply(m, run[0]), run[1..]);
    }
  }

  // ---------------------------------------------------------------- one answer per recipient

  /** A recipient says yes, says no, or goes away before it has said anything. */
  datatype Response = Response(from: ClientId, packet: Packet)

  predicate IsResponse(a: Response, t: TransferId) {
    match a.packet
    case TransferReply(u, from, _) => u == t && from == a.from
    case TransferCancel(u, from) => u == t && from == a.from
    case _ => false
  }

  predicate SaysYes(a: Response) {
    a.packet.TransferReply? && a.packet.accept
  }

  /** One response of every recipient of a list, in any order. */
  predicate FullRound(got: seq<Response>, t: TransferId, to: ToList) {
    && (forall i | 0 <= i < |got| :: IsResponse(got[i], t) && got[i].from in Recipients(to))
    && (forall i, j | 0 <= i < j < |got| :: got[i].from != got[j].from)
    && |got| == Len(to)
  }

  function ReceiveAll(m: Manager, got: seq<Response>): Manager {
    if got == [] then m else Receive(ReceiveAll(m, got[..|got| - 1]), got[|got| - 1].packet)
  }

  /** The host slot `i` is the only slot of the manager that transfer `t` concerns. */
  predicate OnlySlot(m: Manager, i: nat, t: TransferId) {
    && i < SIM_TRANSFERS_MAX && m.host[i].hdr.tid == t
    && (forall j | 0 <= j < SIM_TRANSFERS_MAX && j != i && m.host[j].state != Empty :: m.host[j].hdr.tid != t)
    && (forall j | 0 <= j < SIM_TRANSFERS_MAX && m.recv[j].state != Empty :: m.recv[j].hdr.tid != t)
  }

  lemma ResponseArrives(m: Manager, i: nat, a: Response, t: TransferId)
    requires OnlySlot(m, i, t) && m.host[i].state == Pending && IsResponse(a, t)
    ensures Receive(m, a.packet) == m.(host := m.host[i := SetRequest(m.host[i], a.from, SaysYes(a))])
  {
  }

  /** Whether the recipient at place `k` is among those that have answered. */
  predicate HasAnswered(got: seq<Response>, id: ClientId) {
    exists i :: 0 <= i < |got| && got[i].from == id
  }

  /** What the slot's answers look like when the responses `got` have come in. */
  ghost predicate Noted(s: Slot, got: seq<Response>) {
    forall k | 0 <= k < Len(s.hdr.to) ::
      && (s.answers[k] == Empty || s.answers[k] == Accept || s.answers[k] == Deny)
      && (s.answers[k] != Empty <==> HasAnswered(got, s.hdr.to[k]))
      && (s.answers[k] == Accept <==> exists i :: 0 <= i < |got| && got[i].from == s.hdr.to[k] && SaysYes(got[i]))
  }

  /** Pigeonhole: distinct responders that miss one of the recipients are fewer than the recipients. */
  lemma {:induction false} FewerResponders(got: seq<Response>, ids: set<ClientId>)
    requires forall i | 0 <= i < |got| :: got[i].from in ids
    requires forall i, j | 0 <= i < j < |got| :: got[i].from != got[j].from
    ensures |got| <= |ids|
    ensures |got| == |ids| ==> forall id | id in ids :: HasAnswered(got, id)
  {
    if got != [] {
      var last := got[|got| - 1];
      var rest := got[..|got| - 1];
      FewerResponders(rest, ids - {last.from});
      forall id | id in ids && |got| == |ids|
        ensures HasAnswered(got, id)
      {
        if id != last.from {
          assert HasAnswered(rest, id);
          var i :| 0 <= i < |rest| && rest[i].from == id;
          assert got[i].from == id;
        } else {
          assert got[|got| - 1].from == id;
        }
      }
    } else if |ids| == 0 {
      assert ids == {};
    }
  }

  function Named(ids: seq<ClientId>): set<ClientId> {
    set x | x in ids
  }

  /** A list without repetitions names as many clients as it has entries. */
  lemma {:induction false} ListSize(ids: seq<ClientId>)
    requires forall i, j | 0 <= i < j < |ids| :: ids[i] != ids[j]
    ensures |Named(ids)| == |ids|
  {
    if ids == [] {
      assert Named(ids) == {};
    } else {
      ListSize(ids[1..]);
      assert ids[0] !in Named(ids[1..]);
      assert Named(ids) == {ids[0]} + Named(ids[1..]);
    }
  }

  lemma PlaceOf(to: ToList, self: ClientId, id: ClientId) returns (k: nat)
    requires ProperList(to, self) && id in Recipients(to)
    ensures k < Len(to) && to[k] == id && IndexOf(to, id) == k
    ensures forall j | 0 <= j < Len(to) && to[j] == id :: j == k
  {
    k :| 0 <= k < Len(to) && Recipients(to)[k] == id;
    assert IndexOf(to, id) <= k;
    assert to[IndexOf(to, id)] == id;
  }

  lemma NoteOne(s: Slot, self: ClientId, got: seq<Response>, a: Response)
    requires ProperList(s.hdr.to, self) && a.from in Recipients(s.hdr.to) && !HasAnswered(got, a.from)
    requires Noted(s, got)
    ensures Noted(SetRequest(s, a.from, SaysYes(a)), got + [a])
  {
    var to := s.hdr.to;
    var k := PlaceOf(to, self, a.from);
    var n := SetRequest(s, a.from, SaysYes(a));
    var bs := got + [a];
    forall j | 0 <= j < Len(to)
      ensures (n.answers[j] != Empty <==> HasAnswered(bs, to[j]))
      ensures n.answers[j] == Accept <==> exists i :: 0 <= i < |bs| && bs[i].from == to[j] && SaysYes(bs[i])
    {
      assert bs[|got|] == a;
      assert forall i | 0 <= i < |got| :: bs[i] == got[i];
      if j == k {
        assert HasAnswered(bs, to[j]);
      } else {
        assert HasAnswered(got, to[j]) <==> HasAnswered(bs, to[j]) by {
          if HasAnswered(got, to[j]) {
            var i :| 0 <= i < |got| && got[i].from == to[j];
            assert bs[i].from == to[j];
          }
        }
      }
    }
  }

  /** While somebody has yet to answer, the slot stays what it is. */
  lemma NotYet(s: Slot, got: seq<Response>, k: nat)
    requires Noted(s, got) && k < Len(s.hdr.to) && !HasAnswered(got, s.hdr.to[k])
    ensures !AllReplied(s.hdr.to, s.answers) && !AllDenied(s.hdr.to, s.answers)
  {
  }

  /** Once everybody has answered, the slot is CANCEL when all have said no, and ACTIVE otherwise. */
  lemma AllIn(s: Slot, got: seq<Response>)
    requires Noted(s, got) && forall id | id in Recipients(s.hdr.to) :: HasAnswered(got, id)
    requires forall i | 0 <= i < |got| :: got[i].from in Recipients(s.hdr.to)
    ensures AllReplied(s.hdr.to, s.answers)
    ensures AllDenied(s.hdr.to, s.answers) <==> forall i | 0 <= i < |got| :: !SaysYes(got[i])
  {
  }

  /** What a slot is like when some of the recipients have answered and some have not. */
  ghost predicate Waiting(m: Manager, i: nat, t: TransferId, got: seq<Response>, was: Manager) {
    && OnlySlot(m, i, t) && OnlySlot(was, i, t) && m == was.(host := m.host)
    && m.host == was.host[i := was.host[i].(answers := m.host[i].answers)]
    && Noted(m.host[i], got)
  }

  lemma StillWaiting(m: Manager, i: nat, t: TransferId, self: ClientId, got: seq<Response>, a: Response,
        was: Manager, k: nat)
    requires Waiting(m, i, t, got, was) && was.host[i].state == Pending && ProperList(was.host[i].hdr.to, self)
    requires IsResponse(a, t) && a.from in Recipients(was.host[i].hdr.to) && !HasAnswered(got, a.from)
    requires k < Len(was.host[i].hdr.to) && !HasAnswered(got + [a], was.host[i].hdr.to[k])
    ensures Waiting(Receive(m, a.packet), i, t, got + [a], was)
  {
    hide Noted, AllReplied, AllDenied, Receive, ProperList, HasAnswered, IsResponse;
    ResponseArrives(m, i, a, t);
    NoteOne(m.host[i], self, got, a);
    SetRequestKeeps(m.host[i], a.from, SaysYes(a));
    NotYet(SetRequest(m.host[i], a.from, SaysYes(a)), got + [a], k);
  }

  lemma SetRequestKeeps(s: Slot, id: ClientId, reply: bool)
    ensures var n := SetRequest(s, id, reply);
            && n == s.(answers := n.answers, state := n.state)
            && (!AllReplied(n.hdr.to, n.answers) && !AllDenied(n.hdr.to, n.answers) ==> n.state == s.state)
            && (AllDenied(n.hdr.to, n.answers) ==> n.state == Cancel)
            && (!AllDenied(n.hdr.to, n.answers) && AllReplied(n.hdr.to, n.answers) ==> n.state == Active)
  {
  }

  /** Fewer distinct responders than recipients: somebody is missing. */
  lemma SomebodyMissing(got: seq<Response>, to: ToList, self: ClientId) returns (k: nat)
    requires ProperList(to, self) && |got| < Len(to)
    ensures k < Len(to) && !HasAnswered(got, to[k])
  {
    if forall k | 0 <= k < Len(to) :: HasAnswered(got, to[k]) {
      EveryoneNeedsOne(got, to[..Len(to)]);
      assert false;
    }
    k :| 0 <= k < Len(to) && !HasAnswered(got, to[k]);
  }

  lemma {:induction false} EveryoneNeedsOne(got: seq<Response>, ids: seq<ClientId>)
    requires forall i, j | 0 <= i < j < |ids| :: ids[i] != ids[j]
    requires forall k | 0 <= k < |ids| :: HasAnswered(got, ids[k])
    ensures |ids| <= |got|
    decreases |ids|
  {
    if ids != [] {
      var last := ids[|ids| - 1];
      var i :| 0 <= i < |got| && got[i].from == last;
      var fewer := got[..i] + got[i + 1..];
      var rest := ids[..|ids| - 1];
      forall k | 0 <= k < |rest|
        ensures HasAnswered(fewer, rest[k])
      {
        assert HasAnswered(got, ids[k]) && rest[k] == ids[k];
        var j :| 0 <= j < |got| && got[j].from == ids[k];
        assert fewer[if j < i then j else j - 1] == got[j];
      }
      EveryoneNeedsOne(fewer, rest);
    }
  }

  lemma WaitsForNone(m: Manager, i: nat, t: TransferId)
    requires OnlySlot(m, i, t) && m.host[i].answers == NO_ANSWERS
    ensures Waiting(m, i, t, [], m)
  {
  }

  lemma {:induction false} WaitsForAll(m: Manager, i: nat, t: TransferId, self: ClientId, got: seq<Response>)
    requires i < SIM_TRANSFERS_MAX && OnlySlot(m, i, t)
    requires m.host[i].state == Pending && m.host[i].answers == NO_ANSWERS
    requires ProperList(m.host[i].hdr.to, self) && |got| < Len(m.host[i].hdr.to)
    requires forall j | 0 <= j < |got| :: IsResponse(got[j], t) && got[j].from in Recipients(m.host[i].hdr.to)
    requires forall j, k | 0 <= j < k < |got| :: got[j].from != got[k].from
    ensures Waiting(ReceiveAll(m, got), i, t, got, m)
    decreases |got|
  {
    hide ProperList, Receive, IsResponse, Noted, OnlySlot, Waiting;
    if got == [] {
      WaitsForNone(m, i, t);
    } else {
      var n := |got| - 1;
      WaitsForAll(m, i, t, self, got[..n]);
      assert got[..n] + [got[n]] == got;
      var k := SomebodyMissing(got, m.host[i].hdr.to, self);
      StillWaiting(ReceiveAll(m, got[..n]), i, t, self, got[..n], got[n], m, k);
    }
  }

  /**
   Reply order does not matter. Whatever the list of recipients and in whatever order each of them
   says yes, says no or leaves, the slot stays PENDING until the last of them is in; then it is
   CANCEL if nobody has said yes and ACTIVE otherwise. No other slot is touched.
   */
  lemma ReplyOrder(m: Manager, i: nat, t: TransferId, self: ClientId, got: seq<Response>, n: nat)
    requires i < SIM_TRANSFERS_MAX && OnlySlot(m, i, t)
    requires m.host[i].state == Pending && m.host[i].answers == NO_ANSWERS
    requires ProperList(m.host[i].hdr.to, self) && FullRound(got, t, m.host[i].hdr.to) && 0 < n <= |got|
    ensures var e := ReceiveAll(m, got[..n]);
            && e == m.(host := e.host) && (forall j | 0 <= j < SIM_TRANSFERS_MAX && j != i :: e.host[j] == m.host[j])
            && e.host[i] == m.host[i].(answers := e.host[i].answers, state := e.host[i].state)
            && e.host[i].state == (if n < |got| then Pending
                                   else if forall j | 0 <= j < |got| :: !SaysYes(got[j]) then Cancel
                                   else Active)
  {
    hide ProperList, Receive, IsResponse, Noted, AllReplied, AllDenied, ReceiveAll, OnlySlot;
    if n < |got| {
      WaitsForAll(m, i, t, self, got[..n]);
      WaitingShape(ReceiveAll(m, got[..n]), i, t, got[..n], m);
    } else {
      assert got[..n] == got;
      LastAnswer(m, i, t, self, got);
    }
  }

  lemma WaitingShape(e: Manager, i: nat, t: TransferId, got: seq<Response>, m: Manager)
    requires Waiting(e, i, t, got, m)
    ensures i < SIM_TRANSFERS_MAX && e == m.(host := e.host) && OnlySlot(e, i, t) && Noted(e.host[i], got)
    ensures forall j | 0 <= j < SIM_TRANSFERS_MAX && j != i :: e.host[j] == m.host[j]
    ensures e.host[i] == m.host[i].(answers := e.host[i].answers)
  {
  }

  /** The last response is noted like the others, on top of what they have left. */
  lemma LastStep(m: Manager, i: nat, t: TransferId, self: ClientId, got: seq<Response>) returns (was: Slot)
    requires i < SIM_TRANSFERS_MAX && OnlySlot(m, i, t)
    requires m.host[i].state == Pending && m.host[i].answers == NO_ANSWERS
    requires ProperList(m.host[i].hdr.to, self) && FullRound(got, t, m.host[i].hdr.to) && got != []
    ensures var a := got[|got| - 1];
            && was == m.host[i].(answers := was.answers) && Noted(SetRequest(was, a.from, SaysYes(a)), got)
            && ReceiveAll(m, got) == m.(host := m.host[i := SetRequest(was, a.from, SaysYes(a))])
  {
    hide ProperList, Receive, IsResponse, Noted, SetRequest, HasAnswered, OnlySlot, Waiting;
    var k := |got| - 1;
    var before := ReceiveAll(m, got[..k]);
    WaitsForAll(m, i, t, self, got[..k]);
    WaitingShape(before, i, t, got[..k], m);
    assert got[..k] + [got[k]] == got;
    ResponseArrives(before, i, got[k], t);
    NewResponder(got, k);
    NoteOne(before.host[i], self, got[..k], got[k]);
    was := before.host[i];
  }

  lemma LastAnswer(m: Manager, i: nat, t: TransferId, self: ClientId, got: seq<Response>)
    requires i < SIM_TRANSFERS_MAX && OnlySlot(m, i, t)
    requires m.host[i].state == Pending && m.host[i].answers == NO_ANSWERS
    requires ProperList(m.host[i].hdr.to, self) && FullRound(got, t, m.host[i].hdr.to) && got != []
    ensures var e := ReceiveAll(m, got);
            && e == m.(host := e.host) && (forall j | 0 <= j < SIM_TRANSFERS_MAX && j != i :: e.host[j] == m.host[j])
            && e.host[i] == m.host[i].(answers := e.host[i].answers, state := e.host[i].state)
            && e.host[i].state == if forall j | 0 <= j < |got| :: !SaysYes(got[j]) then Cancel else Active
  {
    hide ProperList, IsResponse, Noted, AllReplied, AllDenied, SetRequest, OnlySlot, ReceiveAll;
    var a := got[|got| - 1];
    var was := LastStep(m, i, t, self, got);
    SetRequestKeeps(was, a.from, SaysYes(a));
    Everybody(got, m.host[i].hdr.to, self);
    AllIn(SetRequest(was, a.from, SaysYes(a)), got);
  }

  lemma NewResponder(got: seq<Response>, k: nat)
    requires k < |got| && forall i, j | 0 <= i < j < |got| :: got[i].from != got[j].from
    ensures !HasAnswered(got[..k], got[k].from)
  {
  }

  /** As many distinct responders as there are recipients: everybody has answered. */
  lemma Everybody(got: seq<Response>, to: ToList, self: ClientId)
    requires ProperList(to, self) && |got| == Len(to)
    requires forall j | 0 <= j < |got| :: got[j].from in Recipients(to)
    requires forall j, k | 0 <= j < k < |got| :: got[j].from != got[k].from
    ensures forall id | id in Recipients(to) :: HasAnswered(got, id)
  {
    assert forall i, j | 0 <= i < j < Len(to) :: Recipients(to)[i] != Recipients(to)[j];
    ListSize(Recipients(to));
    FewerResponders(got, Named(Recipients(to)));
    assert forall id | id in Recipients(to) :: id in Named(Recipients(to));
  }
}
