/**
 What the Transfer_Manager of src/transfer_manager.cpp computes, on values: two arrays of six
 slots, the local id counter and the backlog. Every operation is a function from manager to manager.
 */
module Slots {
  import opened Wire
  import opened FileModel

  datatype State = Empty | Cancel | SendReq | GetResponse | Accept | Deny | Pending | Active

  type Answers = s: seq<State> | |s| == TRANSFER_CLIENTS_MAX
    witness [Empty, Empty, Empty, Empty, Empty, Empty]

  const NO_ANSWERS: Answers := [Empty, Empty, Empty, Empty, Empty, Empty]

  datatype Slot = Slot(
    state: State, hdr: Hdr, answers: Answers, local: LocalId, name: string, file: FileHandle)
  {
    predicate CanCancel() { state == Active || state == Pending || state == GetResponse }

    /** zero_transfer: everything but the name and the file handle is cleared. */
    function Zero(): Slot {
      this.(state := Empty, hdr := ZERO_HDR, answers := NO_ANSWERS, local := 0)
    }

    predicate IsZero() {
      state == Empty && hdr == ZERO_HDR && answers == NO_ANSWERS && local == 0
    }
  }

  const FREE_SLOT := Slot(Empty, ZERO_HDR, NO_ANSWERS, 0, "", CLOSED)

  type SlotArray = s: seq<Slot> | |s| == SIM_TRANSFERS_MAX
    witness [FREE_SLOT, FREE_SLOT, FREE_SLOT, FREE_SLOT, FREE_SLOT, FREE_SLOT]

  const FREE_SLOTS: SlotArray := [FREE_SLOT, FREE_SLOT, FREE_SLOT, FREE_SLOT, FREE_SLOT, FREE_SLOT]

  datatype Outcome = Cancelled | Denied | Rejected | Completed

  datatype Info = Info(outcome: Outcome, name: string)

  datatype Manager = Manager(
    host: SlotArray, recv: SlotArray, nextLocal: LocalId, backlog: seq<Info>)

  const IDLE := Manager(FREE_SLOTS, FREE_SLOTS, 1, [])

  // ---------------------------------------------------------------- searching an array of slots

  /** The conditions under which the manager's loops stop at a slot. */
  datatype Key =
    | Free
    | Awaiting(local: LocalId)
    | In(state: State, tid: TransferId)
    | Cancellable(tid: TransferId)
    | HostBusy
    | RecvBusy

  predicate Matches(s: Slot, k: Key) {
    match k
    case Free => s.state == Empty
    case Awaiting(l) => s.state == GetResponse && s.local == l
    case In(st, t) => s.state == st && s.hdr.tid == t
    case Cancellable(t) => s.CanCancel() && s.hdr.tid == t
    case HostBusy => s.state == Active || s.state == Cancel || s.state == SendReq
    case RecvBusy => s.state == Cancel || s.state == Accept || s.state == Deny
  }

  /** The first slot that matches, or the length when none does. */
  function Find(slots: seq<Slot>, k: Key): (i: nat)
    ensures i <= |slots|
    ensures i < |slots| ==> Matches(slots[i], k)
    ensures forall j | 0 <= j < i :: !Matches(slots[j], k)
  {
    if slots == [] || Matches(slots[0], k) then 0 else 1 + Find(slots[1..], k)
  }

  // ---------------------------------------------------------------- replies

  predicate AllReplied(to: ToList, answers: Answers) {
    forall i | 0 <= i < Len(to) :: answers[i] != Empty
  }

  predicate AllDenied(to: ToList, answers: Answers) {
    forall i | 0 <= i < Len(to) :: answers[i] == Deny
  }

  /** The first entry that names the client, or 6. */
  function IndexOf(to: seq<ClientId>, id: ClientId): (i: nat)
    ensures i <= |to|
    ensures i < |to| ==> to[i] == id
    ensures forall j | 0 <= j < i :: to[j] != id
  {
    if to == [] || to[0] == id then 0 else 1 + IndexOf(to[1..], id)
  }

  function Answer(to: ToList, answers: Answers, id: ClientId, reply: bool): Answers {
    var i := IndexOf(to, id);
    if i < TRANSFER_CLIENTS_MAX then answers[i := if reply then Accept else Deny] else answers
  }

  /** set_request: note one answer, then see whether it was the last. */
  function SetRequest(s: Slot, id: ClientId, reply: bool): Slot {
    var answers := Answer(s.hdr.to, s.answers, id, reply);
    s.(answers := answers,
       state := if AllDenied(s.hdr.to, answers) then Cancel
                else if AllReplied(s.hdr.to, answers) then Active
                else s.state)
  }

  // ---------------------------------------------------------------- GUI commands

  datatype Command =
    | CmdRequest(name: string, contents: seq<byte>, to: ToList)
    | CmdReply(tid: TransferId, reply: bool)
    | CmdCancel(tid: TransferId)

  function HostRequest(m: Manager, name: string, contents: seq<byte>, to: ToList): Manager {
    var i := Find(m.host, Free);
    if i == SIM_TRANSFERS_MAX || contents == [] then m
    else
      var s := m.host[i];
      m.(host := m.host[i := s.(
           state := SendReq, local := m.nextLocal, hdr := s.hdr.(to := to),
           name := name, file := ReadFile(contents))],
         nextLocal := m.nextLocal + 1)
  }

  function RecvRequestReply(m: Manager, t: TransferId, reply: bool): Manager {
    var i := Find(m.recv, In(GetResponse, t));
    if i == SIM_TRANSFERS_MAX then m
    else m.(recv := m.recv[i := m.recv[i].(state := if reply then Accept else Deny)])
  }

  function CancelCommand(m: Manager, t: TransferId): Manager {
    var i := Find(m.recv, Cancellable(t));
    var j := Find(m.host, Cancellable(t));
    if i < SIM_TRANSFERS_MAX then m.(recv := m.recv[i := m.recv[i].(state := Cancel)])
    else if j < SIM_TRANSFERS_MAX then m.(host := m.host[j := m.host[j].(state := Cancel)])
    else m
  }

  function Execute(m: Manager, c: Command): Manager {
    match c
    case CmdRequest(name, contents, to) => HostRequest(m, name, contents, to)
    case CmdReply(t, reply) => RecvRequestReply(m, t, reply)
    case CmdCancel(t) => CancelCommand(m, t)
  }

  // ---------------------------------------------------------------- packets from the server

  function HostRequestValid(m: Manager, req: Request, valid: bool): Manager {
    var i := Find(m.host, Awaiting(req.local));
    if i == SIM_TRANSFERS_MAX then m
    else m.(host := m.host[i :=
              if valid then m.host[i].(hdr := req.hdr, state := Pending)
              else m.host[i].(state := Cancel)])
  }

  function HostRequestReply(m: Manager, t: TransferId, id: ClientId, reply: bool): Manager {
    var i := Find(m.host, In(Pending, t));
    if i == SIM_TRANSFERS_MAX then m
    else m.(host := m.host[i := SetRequest(m.host[i], id, reply)])
  }

  /** create_recv_request can be carried out only while a slot is free: its caller asserts that. */
  predicate CanReceive(m: Manager) { Find(m.recv, Free) < SIM_TRANSFERS_MAX }

  function CreateRecvRequest(m: Manager, req: Request): Manager {
    var i := Find(m.recv, Free);
    if i == SIM_TRANSFERS_MAX then m
    else m.(recv := m.recv[i := m.recv[i].(
              hdr := req.hdr, name := req.name, file := WriteFile(req.size), state := GetResponse)])
  }

  function Log(m: Manager, outcome: Outcome, name: string): Manager {
    m.(backlog := m.backlog + [Info(outcome, name)])
  }

  function RecvCancel(m: Manager, t: TransferId, from: ClientId): Manager {
    var i := Find(m.recv, Cancellable(t));
    var j := Find(m.host, Cancellable(t));
    if i < SIM_TRANSFERS_MAX then
      Log(m.(recv := m.recv[i := m.recv[i].Zero()]), Cancelled, m.recv[i].name)
    else if j < SIM_TRANSFERS_MAX then
      m.(host := m.host[j := SetRequest(m.host[j], from, false)])
    else m
  }

  /** recv_data; a slot announced with size 0 would make write_work divide by zero and is left alone. */
  function RecvData(m: Manager, t: TransferId, bytes: seq<byte>): Manager {
    var i := Find(m.recv, In(Active, t));
    if i == SIM_TRANSFERS_MAX || m.recv[i].file.size == 0 then m
    else m.(recv := m.recv[i := m.recv[i].(file := WriteWork(m.recv[i].file, bytes))])
  }

  function RecvComplete(m: Manager, t: TransferId): Manager {
    var i := Find(m.recv, In(Active, t));
    if i == SIM_TRANSFERS_MAX then m
    else
      var s := m.recv[i];
      Log(m.(recv := m.recv[i := s.(file := s.file.(state := Closed)).Zero()]), Completed, s.name)
  }

  /** The part of Network::analize that concerns transfers. */
  function Receive(m: Manager, p: Packet): Manager {
    match p
    case TransferRequest(req) => CreateRecvRequest(m, req)
    case TransferValid(req) => HostRequestValid(m, req, true)
    case TransferInvalid(req) => HostRequestValid(m, req, false)
    case TransferCancel(t, from) => RecvCancel(m, t, from)
    case TransferReply(t, from, accept) => HostRequestReply(m, t, from, accept)
    case TransferData(t, bytes) => RecvData(m, t, bytes)
    case TransferComplete(t) => RecvComplete(m, t)
    case _ => m
  }

  // ---------------------------------------------------------------- packets to the server

  datatype Option<T> = None | Some(value: T)

  datatype Produced = Produced(manager: Manager, packet: Option<Packet>)

  function SendCancelHost(m: Manager, i: nat): Produced
    requires i < SIM_TRANSFERS_MAX
  {
    var s := m.host[i];
    Produced(Log(m.(host := m.host[i := s.Zero()]), Cancelled, s.name),
             Some(TransferCancel(s.hdr.tid, s.hdr.from)))
  }

  function SendCancelRecv(m: Manager, i: nat): Produced
    requires i < SIM_TRANSFERS_MAX
  {
    var s := m.recv[i];
    Produced(Log(m.(recv := m.recv[i := s.Zero()]), Cancelled, s.name),
             Some(TransferCancel(s.hdr.tid, s.hdr.from)))
  }

  function SendRequest(m: Manager, i: nat): Produced
    requires i < SIM_TRANSFERS_MAX
  {
    var s := m.host[i];
    Produced(m.(host := m.host[i := s.(state := GetResponse)]),
             Some(TransferRequest(Request(s.hdr, s.local, s.name, s.file.size))))
  }

  /** send_data: `elapsed` is false while less than a millisecond has gone by. */
  function SendData(m: Manager, i: nat, elapsed: bool, ok: bool): Produced
    requires i < SIM_TRANSFERS_MAX && Reading(m.host[i].file)
  {
    var s := m.host[i];
    if !elapsed then Produced(m, None)
    else
      var r := ReadWork(s.file, ok);
      var t := s.(file := r.file);
      match r.file.state
      case Working =>
        Produced(m.(host := m.host[i := t]), Some(TransferData(s.hdr.tid, r.bytes)))
      case Finished =>
        Produced(Log(m.(host := m.host[i := t.(file := t.file.(state := Closed)).Zero()]), Completed, s.name),
                 Some(TransferComplete(s.hdr.tid)))
      case _ => SendCancelHost(m.(host := m.host[i := t]), i)
  }

  function SendReply(m: Manager, i: nat): Produced
    requires i < SIM_TRANSFERS_MAX
  {
    var s := m.recv[i];
    var accept := s.state == Accept;
    Produced(if accept then m.(recv := m.recv[i := s.(state := Active)])
             else Log(m.(recv := m.recv[i := s.Zero()]), Denied, s.name),
             Some(TransferReply(s.hdr.tid, 0, accept)))
  }

  /** Host slots that send data read from an open file. */
  predicate Readable(m: Manager) {
    forall i | 0 <= i < SIM_TRANSFERS_MAX :: m.host[i].state == Active ==> Reading(m.host[i].file)
  }

  /** One turn of host_transfer_work: the first busy slot is served. */
  function HostWork(m: Manager, i: nat, elapsed: bool, ok: bool): Produced
    requires i < SIM_TRANSFERS_MAX && Readable(m)
  {
    match m.host[i].state
    case Active => SendData(m, i, elapsed, ok)
    case Cancel => SendCancelHost(m, i)
    case _ => SendRequest(m, i)
  }

  /** One turn of recv_transfer_work. */
  function RecvWork(m: Manager, i: nat): Produced
    requires i < SIM_TRANSFERS_MAX
  {
    if m.recv[i].state == Cancel then SendCancelRecv(m, i) else SendReply(m, i)
  }

  /** do_work behind its commands: the receive side has its turn when the host side is idle. */
  function Work(m: Manager, elapsed: bool, ok: bool): Produced
    requires Readable(m)
  {
    var i := Find(m.host, HostBusy);
    var j := Find(m.recv, RecvBusy);
    if i < SIM_TRANSFERS_MAX then HostWork(m, i, elapsed, ok)
    else if j < SIM_TRANSFERS_MAX then RecvWork(m, j)
    else Produced(m, None)
  }
}
