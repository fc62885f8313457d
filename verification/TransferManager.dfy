/**
 Transfer_Manager of src/transfer_manager.cpp as it stands: two arrays of slots that every operation
 searches and updates in place. Each method is proved to do to the arrays what the function of the
 same name in Slots.dfy says.
 */
module TransferManager {
  import opened Wire
  import opened FileModel
  import opened Slots
  import opened ManagerRuns

  /** What do_work reports: a packet to send, nothing to do, or that it is too early to send data. */
  datatype WorkState = HasWork | NoWork | WaitWork

  /** process_cmds, on values. */
  function ExecuteAll(m: Manager, cmds: seq<Command>): Manager
    decreases |cmds|
  {
    if cmds == [] then m else ExecuteAll(Execute(m, cmds[0]), cmds[1..])
  }

  /** Commands as steps of a run. */
  function Orders(cmds: seq<Command>): (run: seq<Step>)
    ensures |run| == |cmds| && forall i | 0 <= i < |cmds| :: run[i] == Order(cmds[i])
  {
    seq(|cmds|, i requires 0 <= i < |cmds| => Order(cmds[i]))
  }

  /** process_cmds is the run of all queued commands, each once and in order. */
  lemma {:induction false} CommandsAreRun(m: Manager, cmds: seq<Command>)
    ensures Runnable(m, Orders(cmds)) && Finally(m, Orders(cmds)) == ExecuteAll(m, cmds)
    decreases |cmds|
  {
    if cmds != [] {
      CommandsAreRun(Execute(m, cmds[0]), cmds[1..]);
      assert Orders(cmds)[1..] == Orders(cmds[1..]);
    }
  }

  /** A call of do_work is a run as well: the queued commands, and then one turn. */
  lemma WorkIsRun(m: Manager, cmds: seq<Command>, elapsed: bool, ok: bool)
    requires Readable(ExecuteAll(m, cmds))
    ensures var run := Orders(cmds) + [Turn(elapsed, ok)];
            Runnable(m, run) && Finally(m, run) == Work(ExecuteAll(m, cmds), elapsed, ok).manager
  {
    hide Readable, Work, ExecuteAll;
    CommandsAreRun(m, cmds);
    OneMore(m, Orders(cmds), Turn(elapsed, ok));
  }

  lemma {:induction false} OneMore(m: Manager, run: seq<Step>, st: Step)
    requires Runnable(m, run) && Takeable(Finally(m, run), st)
    ensures Runnable(m, run + [st]) && Finally(m, run + [st]) == Apply(Finally(m, run), st)
    decreases |run|
  {
    hide Takeable, Apply;
    if run == [] {
      assert [] + [st] == [st] && [st][1..] == [];
      assert Runnable(Apply(m, st), []);
    } else {
      assert (run + [st])[1..] == run[1..] + [st];
      OneMore(Apply(m, run[0]), run[1..], st);
    }
  }

  lemma FindIs(slots: seq<Slot>, k: Key, i: nat)
    requires i <= |slots| && (forall j | 0 <= j < i :: !Matches(slots[j], k)) && (i < |slots| ==> Matches(slots[i], k))
    ensures Find(slots, k) == i
  {
  }

  lemma IndexIs(to: seq<ClientId>, id: ClientId, i: nat)
    requires i <= |to| && (forall j | 0 <= j < i :: to[j] != id) && (i < |to| ==> to[i] == id)
    ensures IndexOf(to, id) == i
  {
  }

  lemma LenIs(to: seq<ClientId>, n: nat)
    requires n <= |to| && (forall j | 0 <= j < n :: to[j] != 0) && (n < |to| ==> to[n] == 0)
    ensures Len(to) == n
  {
  }

  class TransferManager {
    const host: array<Slot>
    const recv: array<Slot>
    var nextLocal: LocalId
    var backlog: seq<Info>
    var cmds: seq<Command>

    predicate Valid()
    {
      host.Length == SIM_TRANSFERS_MAX && recv.Length == SIM_TRANSFERS_MAX && host != recv
    }

    ghost function View(): Manager
      requires Valid()
      reads this, host, recv
    {
      Manager(host[..], recv[..], nextLocal, backlog)
    }

    constructor ()
      ensures Valid() && View() == IDLE && cmds == [] && fresh(host) && fresh(recv)
    {
      host := new Slot[SIM_TRANSFERS_MAX](_ => FREE_SLOT);
      recv := new Slot[SIM_TRANSFERS_MAX](_ => FREE_SLOT);
      nextLocal, backlog, cmds := 1, [], [];
      new;
      assert host[..] == FREE_SLOTS && recv[..] == FREE_SLOTS;
    }

    /** The search loops: the first slot that meets the condition, or the number of slots. */
    method Search(slots: array<Slot>, k: Key) returns (i: nat)
      ensures i == Find(slots[..], k) && i <= slots.Length && (i < slots.Length ==> Matches(slots[i], k))
    {
      i := 0;
      while i < slots.Length && !Matches(slots[i], k)
        invariant i <= slots.Length && forall j | 0 <= j < i :: !Matches(slots[j], k)
      {
        i := i + 1;
      }
      FindIs(slots[..], k, i);
    }

    method PushBacklog(outcome: Slots.Outcome, name: string)
      modifies this`backlog
      ensures backlog == old(backlog) + [Info(outcome, name)]
    {
      backlog := backlog + [Info(outcome, name)];
    }

    // -------------------------------------------------------------- commands

    method CmdHostRequest(name: string, contents: seq<byte>, to: ToList)
      requires Valid()
      modifies this`nextLocal, host
      ensures View() == HostRequest(old(View()), name, contents, to)
    {
      var i := Search(host, Free);
      if i == SIM_TRANSFERS_MAX || contents == [] {
        return;
      }
      var s := host[i];
      host[i] := s.(state := SendReq, local := nextLocal, hdr := s.hdr.(to := to), name := name,
            file := ReadFile(contents));
      nextLocal := nextLocal + 1;
    }

    method CmdRecvRequestReply(t: TransferId, reply: bool)
      requires Valid()
      modifies recv
      ensures View() == RecvRequestReply(old(View()), t, reply)
    {
      var i := Search(recv, In(GetResponse, t));
      if i < SIM_TRANSFERS_MAX {
        recv[i] := recv[i].(state := if reply then Accept else Deny);
      }
    }

    method CmdCancel(t: TransferId)
      requires Valid()
      modifies host, recv
      ensures View() == CancelCommand(old(View()), t)
    {
      var i := Search(recv, Cancellable(t));
      var j := Search(host, Cancellable(t));
      if i < SIM_TRANSFERS_MAX {
        recv[i] := recv[i].(state := State.Cancel);
      } else if j < SIM_TRANSFERS_MAX {
        host[j] := host[j].(state := State.Cancel);
      }
    }

    method ProcessCmds()
      requires Valid()
      modifies this`nextLocal, this`cmds, host, recv
      ensures cmds == [] && View() == ExecuteAll(old(View()), old(cmds))
      ensures Runnable(old(View()), Orders(old(cmds))) && View() == Finally(old(View()), Orders(old(cmds)))
    {
      CommandsAreRun(View(), cmds);
      while cmds != []
        invariant ExecuteAll(View(), cmds) == ExecuteAll(old(View()), old(cmds))
        decreases |cmds|
      {
        match cmds[0] {
          case CmdRequest(name, contents, to) => CmdHostRequest(name, contents, to);
          case CmdReply(t, reply) => CmdRecvRequestReply(t, reply);
          case CmdCancel(t) => CmdCancel(t);
        }
        cmds := cmds[1..];
      }
    }

    // -------------------------------------------------------------- packets from the server

    method HandleValid(req: Request, reply: bool)
      requires Valid()
      modifies host
      ensures View() == HostRequestValid(old(View()), req, reply)
    {
      var i := Search(host, Awaiting(req.local));
      if i < SIM_TRANSFERS_MAX {
        if reply {
          host[i] := host[i].(hdr := req.hdr);
        }
        host[i] := host[i].(state := if reply then Pending else State.Cancel);
      }
    }

    /** set_request: one loop notes the answer, another looks whether all are in. */
    method NoteAnswer(i: nat, id: ClientId, reply: bool)
      requires Valid() && i < SIM_TRANSFERS_MAX
      modifies host
      ensures host[..] == old(host[..])[i := SetRequest(old(host[i]), id, reply)]
    {
      var to := host[i].hdr.to;
      var k := 0;
      while k < TRANSFER_CLIENTS_MAX && to[k] != id
        invariant k <= TRANSFER_CLIENTS_MAX && forall j | 0 <= j < k :: to[j] != id
      {
        k := k + 1;
      }
      IndexIs(to, id, k);
      if k < TRANSFER_CLIENTS_MAX {
        host[i] := host[i].(answers := host[i].answers[k := if reply then Accept else Deny]);
      }
      var answers := host[i].answers;
      var allReply, allCancel, n := true, true, 0;
      while n < TRANSFER_CLIENTS_MAX && to[n] != 0
        invariant n <= TRANSFER_CLIENTS_MAX && forall j | 0 <= j < n :: to[j] != 0
        invariant allCancel <==> forall j | 0 <= j < n :: answers[j] == Deny
        invariant allReply <==> forall j | 0 <= j < n :: answers[j] != Empty
      {
        if answers[n] != Deny {
          allCancel := false;
        }
        if answers[n] == Empty {
          allReply := false;
        }
        n := n + 1;
      }
      LenIs(to, n);
      if allCancel {
        host[i] := host[i].(state := State.Cancel);
      } else if allReply {
        host[i] := host[i].(state := Active);
      }
    }

    method HandleReply(t: TransferId, id: ClientId, reply: bool)
      requires Valid()
      modifies host
      ensures View() == HostRequestReply(old(View()), t, id, reply)
    {
      hide Slots.SetRequest;
      var i := Search(host, In(Pending, t));
      if i < SIM_TRANSFERS_MAX {
        NoteAnswer(i, id, reply);
      }
    }

    method HandleRequest(req: Request) returns (ok: bool)
      requires Valid()
      modifies recv
      ensures View() == CreateRecvRequest(old(View()), req) && (ok <==> CanReceive(old(View())))
    {
      var i := Search(recv, Free);
      ok := i < SIM_TRANSFERS_MAX;
      if ok {
        recv[i] := recv[i].(file := WriteFile(req.size));
        recv[i] := recv[i].(hdr := req.hdr);
        recv[i] := recv[i].(name := req.name);
        recv[i] := recv[i].(state := GetResponse);
      }
    }

    method HandleCancel(t: TransferId, from: ClientId)
      requires Valid()
      modifies this`backlog, host, recv
      ensures View() == RecvCancel(old(View()), t, from)
    {
      hide Slots.SetRequest;
      var i := Search(recv, Cancellable(t));
      var j := Search(host, Cancellable(t));
      if i < SIM_TRANSFERS_MAX {
        var name := recv[i].name;
        ZeroTransfer(recv, i);
        PushBacklog(Cancelled, name);
      } else if j < SIM_TRANSFERS_MAX {
        NoteAnswer(j, from, false);
      }
    }

    /** zero_transfer. */
    method ZeroTransfer(slots: array<Slot>, i: nat)
      requires i < slots.Length
      modifies slots
      ensures slots[..] == old(slots[..])[i := old(slots[i]).Zero()]
    {
      slots[i] := slots[i].(state := Empty);
      slots[i] := slots[i].(answers := NO_ANSWERS);
      slots[i] := slots[i].(hdr := ZERO_HDR);
      slots[i] := slots[i].(local := 0);
    }

    method HandleData(t: TransferId, bytes: seq<byte>)
      requires Valid()
      modifies recv
      ensures View() == RecvData(old(View()), t, bytes)
    {
      var i := Search(recv, In(Active, t));
      if i < SIM_TRANSFERS_MAX && recv[i].file.size != 0 {
        recv[i] := recv[i].(file := WriteWork(recv[i].file, bytes));
      }
    }

    method HandleComplete(t: TransferId)
      requires Valid()
      modifies this`backlog, recv
      ensures View() == RecvComplete(old(View()), t)
    {
      var i := Search(recv, In(Active, t));
      if i < SIM_TRANSFERS_MAX {
        var name := recv[i].name;
        recv[i] := recv[i].(file := recv[i].file.(state := Closed));
        ZeroTransfer(recv, i);
        PushBacklog(Completed, name);
      }
    }

    // -------------------------------------------------------------- packets to the server

    method PutCancel(slots: array<Slot>, i: nat) returns (packet: Packet)
      requires Valid() && i < SIM_TRANSFERS_MAX && (slots == host || slots == recv)
      modifies this`backlog, slots
      ensures slots == host ==> Produced(View(), Some(packet)) == SendCancelHost(old(View()), i)
      ensures slots == recv ==> Produced(View(), Some(packet)) == SendCancelRecv(old(View()), i)
    {
      packet := TransferCancel(slots[i].hdr.tid, slots[i].hdr.from);
      var name := slots[i].name;
      ZeroTransfer(slots, i);
      PushBacklog(Cancelled, name);
    }

    method PutRequest(i: nat) returns (packet: Packet)
      requires Valid() && i < SIM_TRANSFERS_MAX
      modifies host
      ensures Produced(View(), Some(packet)) == SendRequest(old(View()), i)
    {
      var s := host[i];
      packet := TransferRequest(Request(s.hdr, s.local, s.name, s.file.size));
      host[i] := s.(state := GetResponse);
    }

    method PutReply(i: nat) returns (packet: Packet)
      requires Valid() && i < SIM_TRANSFERS_MAX
      modifies this`backlog, recv
      ensures Produced(View(), Some(packet)) == SendReply(old(View()), i)
    {
      var accept := recv[i].state == Accept;
      packet := TransferReply(recv[i].hdr.tid, 0, accept);
      if accept {
        recv[i] := recv[i].(state := Active);
      } else {
        var name := recv[i].name;
        ZeroTransfer(recv, i);
        PushBacklog(Denied, name);
      }
    }

    method PutData(i: nat, elapsed: bool, ok: bool) returns (work: WorkState, packet: Option<Packet>)
      requires Valid() && i < SIM_TRANSFERS_MAX && Reading(host[i].file)
      modifies this`backlog, host
      ensures Produced(View(), packet) == SendData(old(View()), i, elapsed, ok)
      ensures work == (if elapsed then HasWork else WaitWork) && (packet.Some? <==> elapsed)
    {
      hide Reading, ReadWork;
      if !elapsed {
        return WaitWork, None;
      }
      ghost var was := host[..];
      var s := host[i];
      var r := ReadWork(s.file, ok);
      host[i] := s.(file := r.file);
      work := HasWork;
      match r.file.state {
        case Working =>
          packet := Some(TransferData(s.hdr.tid, r.bytes));
        case Finished =>
          packet := Some(TransferComplete(s.hdr.tid));
          host[i] := host[i].(file := host[i].file.(state := Closed));
          ZeroTransfer(host, i);
          PushBacklog(Completed, s.name);
        case _ =>
          var p := PutCancel(host, i);
          packet := Some(p);
      }
    }

    /** host_transfer_work: the first slot with something to send is served. */
    method HostTransferWork(elapsed: bool, ok: bool) returns (work: WorkState, packet: Option<Packet>)
      requires Valid() && Readable(View())
      modifies this`backlog, host
      ensures var i := Find(old(host[..]), HostBusy);
              if i < SIM_TRANSFERS_MAX then
                && Produced(View(), packet) == HostWork(old(View()), i, elapsed, ok)
                && work == (if old(host[i]).state == Active && !elapsed then WaitWork else HasWork)
                && (packet.Some? <==> work == HasWork)
              else work == NoWork && packet == None && View() == old(View())
    {
      hide Reading, SendData;
      var i := 0;
      while i < SIM_TRANSFERS_MAX && !Matches(host[i], HostBusy)
        invariant i <= SIM_TRANSFERS_MAX && forall j | 0 <= j < i :: !Matches(host[j], HostBusy)
      {
        i := i + 1;
      }
      FindIs(host[..], HostBusy, i);
      if i == SIM_TRANSFERS_MAX {
        return NoWork, None;
      }
      if host[i].state == Active {
        work, packet := PutData(i, elapsed, ok);
      } else if host[i].state == State.Cancel {
        var p := PutCancel(host, i);
        work, packet := HasWork, Some(p);
      } else {
        var p := PutRequest(i);
        work, packet := HasWork, Some(p);
      }
    }

    /** recv_transfer_work. */
    method RecvTransferWork() returns (work: WorkState, packet: Option<Packet>)
      requires Valid()
      modifies this`backlog, recv
      ensures var j := Find(old(recv[..]), RecvBusy);
              if j < SIM_TRANSFERS_MAX then work == HasWork && packet.Some? && Produced(View(), packet) == RecvWork(old(View()), j)
              else work == NoWork && packet == None && View() == old(View())
    {
      var j := 0;
      while j < SIM_TRANSFERS_MAX && !Matches(recv[j], RecvBusy)
        invariant j <= SIM_TRANSFERS_MAX && forall k | 0 <= k < j :: !Matches(recv[k], RecvBusy)
      {
        j := j + 1;
      }
      FindIs(recv[..], RecvBusy, j);
      if j == SIM_TRANSFERS_MAX {
        return NoWork, None;
      }
      work := HasWork;
      if recv[j].state == State.Cancel {
        var p := PutCancel(recv, j);
        packet := Some(p);
      } else {
        var p := PutReply(j);
        packet := Some(p);
      }
    }

    /**
     do_work: the commands first, then the host side, and the receive side when the host side is idle. There
     is a packet exactly when there is work, and a pause only while the first busy slot waits for its time.
     */
    method DoWork(elapsed: bool, ok: bool) returns (work: WorkState, packet: Option<Packet>)
      requires Valid() && Readable(ExecuteAll(View(), cmds))
      modifies this, host, recv
      ensures var run := Orders(old(cmds)) + [Turn(elapsed, ok)];
              Runnable(old(View()), run) && View() == Finally(old(View()), run)
      ensures cmds == [] && Produced(View(), packet) == Work(ExecuteAll(old(View()), old(cmds)), elapsed, ok)
      ensures packet.Some? <==> work == HasWork
      ensures var m := ExecuteAll(old(View()), old(cmds));
              var i, j := Find(m.host, HostBusy), Find(m.recv, RecvBusy);
              && (work == WaitWork <==> i < SIM_TRANSFERS_MAX && m.host[i].state == Active && !elapsed)
              && (work == NoWork <==> i == SIM_TRANSFERS_MAX == j)
    {
      hide Reading, HostWork, RecvWork;
      WorkIsRun(View(), cmds, elapsed, ok);
      ProcessCmds();
      work, packet := HostTransferWork(elapsed, ok);
      if work == NoWork {
        work, packet := RecvTransferWork();
      }
    }
  }
}
