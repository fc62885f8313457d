/**
 The log tells the truth: an entry is written exactly when a slot is freed, under the slot's name, and says why.
 And a host slot whose turn it is does what its state asks for.
 */
module Logs {
  import opened Wire
  import opened FileModel
  import opened Slots
  import opened ManagerRuns

  predicate HostFreed(m: Manager, n: Manager, i: nat)
    requires i < SIM_TRANSFERS_MAX
  {
    m.host[i].state != Empty && n.host[i].state == Empty
  }

  predicate RecvFreed(m: Manager, n: Manager, i: nat)
    requires i < SIM_TRANSFERS_MAX
  {
    m.recv[i].state != Empty && n.recv[i].state == Empty
  }

  predicate NothingFreed(m: Manager, n: Manager) {
    n.backlog == m.backlog && forall i | 0 <= i < SIM_TRANSFERS_MAX :: !HostFreed(m, n, i) && !RecvFreed(m, n, i)
  }

  /** Host slot `i`, and no other slot, was freed, and the log says so; a completed file is closed. */
  predicate HostLogged(m: Manager, n: Manager, i: nat, why: Outcome) {
    && i < SIM_TRANSFERS_MAX && HostFreed(m, n, i) && n.backlog == m.backlog + [Info(why, m.host[i].name)]
    && (forall j | 0 <= j < SIM_TRANSFERS_MAX :: !RecvFreed(m, n, j) && (j != i ==> n.host[j] == m.host[j]))
    && (why == Completed ==> n.host[i].file.state == Closed)
  }

  predicate RecvLogged(m: Manager, n: Manager, i: nat, why: Outcome) {
    && i < SIM_TRANSFERS_MAX && RecvFreed(m, n, i) && n.backlog == m.backlog + [Info(why, m.recv[i].name)]
    && (forall j | 0 <= j < SIM_TRANSFERS_MAX :: !HostFreed(m, n, j) && (j != i ==> n.recv[j] == m.recv[j]))
    && (why == Completed ==> n.recv[i].file == m.recv[i].file.(state := Closed))
  }

  // ---------------------------------------------------------------- what frees a slot

  /** No command of the user frees a slot. */
  lemma OrdersFreeNothing(m: Manager, c: Command)
    ensures NothingFreed(m, Execute(m, c))
  {
  }

  /** COMPLETE frees the ACTIVE slot of the transfer as completed, CANCEL a slot that can be cancelled, and nothing else does. */
  lemma ArrivalsLog(m: Manager, p: Packet)
    ensures var n := Receive(m, p);
            match p
            case TransferComplete(t) =>
              var i := Find(m.recv, In(Active, t));
              if i < SIM_TRANSFERS_MAX then RecvLogged(m, n, i, Completed) else n == m
            case TransferCancel(t, _) =>
              var i := Find(m.recv, Cancellable(t));
              if i < SIM_TRANSFERS_MAX then RecvLogged(m, n, i, Cancelled) else NothingFreed(m, n)
            case _ => NothingFreed(m, n)
  {
    hide WriteWork;
    match p
    case TransferComplete(t) => CompleteLogs(m, t);
    case TransferCancel(t, from) => CancelLogs(m, t, from);
    case TransferReply(_, _, _) => AnswerFrees(m, p);
    case TransferValid(_) => AnswerFrees(m, p);
    case TransferInvalid(_) => AnswerFrees(m, p);
    case TransferRequest(_) => OfferFrees(m, p);
    case TransferData(_, _) => OfferFrees(m, p);
    case _ =>
  }

  lemma CompleteLogs(m: Manager, t: TransferId)
    ensures var n := RecvComplete(m, t);
            var i := Find(m.recv, In(Active, t));
            if i < SIM_TRANSFERS_MAX then RecvLogged(m, n, i, Completed) else n == m
  {
    hide WriteWork;
  }

  lemma CancelLogs(m: Manager, t: TransferId, from: ClientId)
    ensures var n := RecvCancel(m, t, from);
            var i := Find(m.recv, Cancellable(t));
            if i < SIM_TRANSFERS_MAX then RecvLogged(m, n, i, Cancelled) else NothingFreed(m, n)
  {
    hide Answer, AllDenied, AllReplied;
  }

  /** An answer from the server or another client frees no slot at the host. */
  lemma AnswerFrees(m: Manager, p: Packet)
    requires p.TransferReply? || p.TransferValid? || p.TransferInvalid?
    ensures NothingFreed(m, Receive(m, p))
  {
    hide Answer, AllDenied, AllReplied;
  }

  lemma OfferFrees(m: Manager, p: Packet)
    requires p.TransferRequest? || p.TransferData?
    ensures NothingFreed(m, Receive(m, p))
  {
    hide WriteWork;
  }

  /** Why a turn frees a slot can be read off the packet it sends. */
  lemma TurnsLog(m: Manager, elapsed: bool, ok: bool)
    requires Readable(m)
    ensures var n := Work(m, elapsed, ok);
            var i, j := Find(m.host, HostBusy), Find(m.recv, RecvBusy);
            match n.packet
            case Some(TransferComplete(t)) => HostLogged(m, n.manager, i, Completed) && m.host[i].hdr.tid == t
            case Some(TransferCancel(t, _)) =>
              if i < SIM_TRANSFERS_MAX then HostLogged(m, n.manager, i, Cancelled) && m.host[i].hdr.tid == t
              else RecvLogged(m, n.manager, j, Cancelled) && m.recv[j].hdr.tid == t
            case Some(TransferReply(t, _, false)) => RecvLogged(m, n.manager, j, Denied) && m.recv[j].hdr.tid == t
            case _ => NothingFreed(m, n.manager)
  {
    hide SendData, Reading, Find;
    var i, j := Find(m.host, HostBusy), Find(m.recv, RecvBusy);
    if i < SIM_TRANSFERS_MAX {
      BusyIs(m.host, i);
      if m.host[i].state == Active { DataLog(m, i, elapsed, ok); }
    } else if j < SIM_TRANSFERS_MAX {
      WantsTurn(m.recv, j);
    }
  }

  lemma BusyIs(host: SlotArray, i: nat)
    requires i < SIM_TRANSFERS_MAX && i == Find(host, HostBusy)
    ensures host[i].state == Active || host[i].state == State.Cancel || host[i].state == SendReq
  {
  }

  lemma WantsTurn(recv: SlotArray, i: nat)
    requires i < SIM_TRANSFERS_MAX && i == Find(recv, RecvBusy)
    ensures recv[i].state == Accept || recv[i].state == State.Cancel || recv[i].state == Deny
  {
  }

  lemma DataLog(m: Manager, i: nat, elapsed: bool, ok: bool)
    requires i < SIM_TRANSFERS_MAX && m.host[i].state == Active && Reading(m.host[i].file)
    ensures var n := SendData(m, i, elapsed, ok);
            match n.packet
            case Some(TransferComplete(t)) => HostLogged(m, n.manager, i, Completed) && m.host[i].hdr.tid == t
            case Some(TransferCancel(t, _)) => HostLogged(m, n.manager, i, Cancelled) && m.host[i].hdr.tid == t
            case Some(TransferReply(_, _, _)) => false
            case _ => NothingFreed(m, n.manager)
  {
    hide Reading, ReadWork;
  }

  /**
   The turn of an ACTIVE host slot, once its time has come: the next bytes of the file, if there are any; at the
   end of the file COMPLETE, and CANCEL when the file cannot be read to its end.
   */
  lemma DataTold(m: Manager, i: nat, ok: bool)
    requires Readable(m) && i < SIM_TRANSFERS_MAX && m.host[i].state == Active && m.host[i].file.state == Working
    requires forall j | 0 <= j < i :: !Matches(m.host[j], HostBusy)
    ensures Told(m, i, ok, Work(m, true, ok))
  {
    hide Reading, ReadWork, Find;
    FirstBusy(m.host, i);
    ReadStep(m.host[i].file, ok);
    SentBound(m.host[i].file);
  }

  predicate Told(m: Manager, i: nat, ok: bool, n: Produced)
    requires i < SIM_TRANSFERS_MAX && Reading(m.host[i].file)
  {
    var was, now := m.host[i], n.manager.host[i];
    if Sent(was.file) < |was.file.disk| then
      && NothingFreed(m, n.manager) && now.state == Active && now.hdr == was.hdr
      && Reading(now.file) && now.file.disk == was.file.disk && Sent(was.file) < Sent(now.file) <= |was.file.disk|
      && n.packet == Some(TransferData(was.hdr.tid, was.file.disk[Sent(was.file)..Sent(now.file)]))
    else if ok then HostLogged(m, n.manager, i, Completed) && n.packet == Some(TransferComplete(was.hdr.tid))
    else HostLogged(m, n.manager, i, Cancelled) && n.packet == Some(TransferCancel(was.hdr.tid, was.hdr.from))
  }

  lemma SentBound(f: FileHandle)
    requires Reading(f)
    ensures Sent(f) <= |f.disk|
  {
  }

  /** The turn of a host slot with a request to send: the request, as the user has made it. */
  lemma RequestTold(m: Manager, i: nat, elapsed: bool, ok: bool)
    requires Readable(m) && i < SIM_TRANSFERS_MAX && m.host[i].state == SendReq
    requires forall j | 0 <= j < i :: !Matches(m.host[j], HostBusy)
    ensures var was := m.host[i];
            Work(m, elapsed, ok) == Produced(m.(host := m.host[i := was.(state := GetResponse)]),
                                             Some(TransferRequest(Request(was.hdr, was.local, was.name, was.file.size))))
  {
    hide Reading, SendData;
    FirstBusy(m.host, i);
  }

  lemma FirstBusy(host: SlotArray, i: nat)
    requires i < SIM_TRANSFERS_MAX && Matches(host[i], HostBusy) && forall j | 0 <= j < i :: !Matches(host[j], HostBusy)
    ensures Find(host, HostBusy) == i
  {
  }

  /** The user's request takes a free slot, if there is one, with everything the user has named; nothing else changes. */
  lemma RequestTaken(m: Manager, name: string, contents: seq<byte>, to: ToList) returns (i: nat)
    requires contents != [] && exists k | 0 <= k < SIM_TRANSFERS_MAX :: m.host[k].state == Empty
    ensures i < SIM_TRANSFERS_MAX && m.host[i].state == Empty
    ensures var n := Execute(m, CmdRequest(name, contents, to));
            && n == m.(host := n.host, nextLocal := m.nextLocal + 1)
            && (forall j | 0 <= j < SIM_TRANSFERS_MAX && j != i :: n.host[j] == m.host[j])
            && var slot := n.host[i];
               && slot.state == SendReq && slot.hdr.to == to && slot.name == name && slot.local == m.nextLocal
               && slot.file == ReadFile(contents)
  {
    i := Find(m.host, Free);
    var k :| 0 <= k < SIM_TRANSFERS_MAX && m.host[k].state == Empty;
    assert Matches(m.host[k], Free);
  }
}
