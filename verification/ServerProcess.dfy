/**
 The packet handlers (qs_server/src/net_packet.c) and close_client (qs_server/src/net_close.c) as
 they stand: loops over cursors and slots that change the tables and fill the message queues in
 place. Each is proved to do what the function of ServerModel.dfy says: to the tables, and, packet by
 packet, to every queue.
 */
module ServerProcess {
  import opened Wire
  import opened ServerModel
  import opened Tables
  import opened Sends
  import opened Database
  import opened ClientTable
  import opened Guarantees
  import opened Membership

  class ServerProcess {
    const db: Database
    const clients: array<Client>
    var nCli: nat

    ghost predicate Valid()
      reads this, db, clients
    {
      clients.Length == MAX_CLIENTS && db.Valid() && DistinctIds(clients[..]) && nCli == |Order(clients[..])|
    }

    ghost function View(): Server
      reads this, db, clients
    {
      Server(ConnsOf(clients[..]), db.sessions, db.nextSession, db.transfers, db.rows, db.nextTid)
    }

    constructor ()
      ensures Valid() && View() == START && fresh(db) && fresh(clients)
    {
      db := new Database();
      clients := new Client[MAX_CLIENTS](_ => NO_CLIENT);
      nCli := 0;
      new;
      NobodyConnected(clients[..]);
    }

    // -------------------------------------------------------------- the client table

    /** client_find_by_id. */
    method FindById(id: ClientId) returns (i: nat)
      ensures i <= clients.Length && (i < clients.Length ==> Holds(clients[..], i, id))
      ensures i < clients.Length <==> id in ConnsOf(clients[..])
    {
      i := 0;
      while i < clients.Length && !(clients[i].state != CEmpty && clients[i].id == id)
        invariant i <= clients.Length && forall j: nat | j < i :: !Holds(clients[..], j, id)
      {
        i := i + 1;
      }
      ConnsMember(clients[..], id);
      assert i < clients.Length ==> Holds(clients[..], i, id);
      assert i == clients.Length ==> forall j: nat :: !Holds(clients[..], j, id);
    }

    /** client_find. */
    method FindByFd(fd: int) returns (i: nat)
      ensures i <= clients.Length && (i < clients.Length ==> clients[i].state != CEmpty && clients[i].fd == fd)
      ensures forall j | 0 <= j < i :: !(clients[j].state != CEmpty && clients[j].fd == fd)
    {
      i := 0;
      while i < clients.Length && !(clients[i].state != CEmpty && clients[i].fd == fd)
        invariant i <= clients.Length
        invariant forall j | 0 <= j < i :: !(clients[j].state != CEmpty && clients[j].fd == fd)
      {
        i := i + 1;
      }
    }

    /** client_init and client_configure: the first free slot, unless all 32 are taken. */
    method ClientInit(id: ClientId, fd: int) returns (i: nat)
      requires Valid() && id != 0 && id !in View().conns
      modifies this`nCli, clients
      ensures Valid() && (i == MAX_CLIENTS <==> |Order(old(clients[..]))| == MAX_CLIENTS)
      ensures i == MAX_CLIENTS ==> View() == old(View()) && clients[..] == old(clients[..])
      ensures i < MAX_CLIENTS ==>
                && old(clients[i].state) == CEmpty && (forall j | 0 <= j < i :: old(clients[j].state) != CEmpty)
                && clients[..] == old(clients[..])[i := Client(CConnected, id, fd, 0, "", [])]
                && View() == old(View()).(conns := old(View()).conns[id := Conn(false, 0, "")])
    {
      SomeSlotFree(clients[..]);
      if nCli == MAX_CLIENTS {
        return MAX_CLIENTS;
      }
      i := 0;
      while i < MAX_CLIENTS && clients[i].state != CEmpty
        invariant i <= MAX_CLIENTS && forall j | 0 <= j < i :: clients[j].state != CEmpty
      {
        i := i + 1;
      }
      var c := Client(CConnected, id, fd, 0, "", []);
      ConnsAdd(clients[..], i, c);
      OrderSize(clients[..], i, c);
      clients[i] := c;
      nCli := nCli + 1;
    }

    /** Putting a packet in the queue of the client in slot `i`. */
    method Enqueue(i: nat, p: Packet, ghost before: seq<Client>, ghost log: seq<Send>) returns (ghost more: seq<Send>)
      requires i < clients.Length && Tracks(before, clients[..],
              log) && DistinctIds(before) && before[i].state != CEmpty
      modifies clients
      ensures more == log + [Send(before[i].id, p)] && Tracks(before, clients[..], more)
    {
      more := log + [Send(before[i].id, p)];
      TracksOne(before, clients[..], log, i, p);
      ghost var was := clients[..];
      clients[i] := clients[i].(queue := clients[i].queue + [p]);
      assert clients[..] == was[i := was[i].(queue := was[i].queue + [p])];
    }

    /** Sending to a client looked up by its id, if it is connected. */
    method Deliver(id: ClientId, p: Packet, ghost before: seq<Client>,
          ghost log: seq<Send>) returns (ghost more: seq<Send>)
      requires Tracks(before, clients[..], log) && DistinctIds(before)
      modifies clients
      ensures more == log + (if id in ConnsOf(before) then [Send(id, p)] else []) && Tracks(before, clients[..], more)
    {
      TracksConns(before, clients[..], log);
      var i := FindById(id);
      if i < clients.Length {
        TracksSlot(before, clients[..], log, i);
        more := Enqueue(i, p, before, log);
      } else {
        more := log;
      }
    }

    // -------------------------------------------------------------- loops over cursors

    /** The packet to every recipient that has accepted. */
    method RelayAccepted(t: TransferId, p: Packet, ghost before: seq<Client>,
          ghost log: seq<Send>) returns (ghost more: seq<Send>)
      requires db.Valid() && Tracks(before, clients[..], log) && DistinctIds(before)
      modifies db`accepted, clients
      ensures db.Valid() && Tracks(before, clients[..], more)
      ensures more == log + Fan(ConnsOf(before), Clients(db.rows, t, Accepted), p)
    {
      hide Tracks, ConnsOf, Order, DistinctIds, Fan, Clients, CreatedBy, JoinedBy;
      ghost var conns := ConnsOf(before);
      ghost var seen: seq<ClientId> := [];
      FanNobody(conns, p);
      more := log;
      var recp := db.GetClientAllAccepted(t);
      assert log + [] == log;
      while recp != 0
        invariant db.Valid() && Tracks(before, clients[..], more) && more == log + Fan(conns, seen, p)
        invariant seen + (if recp == 0 then [] else [recp] + db.accepted) == Clients(db.rows, t, Accepted)
        invariant recp == 0 ==> db.accepted == []
        decreases |db.accepted|, recp
      {
        ghost var was := Fan(conns, seen, p);
        more := Deliver(recp, p, before, more);
        FanAppend(conns, seen, recp, p);
        ghost var now := if recp in conns then [Send(recp, p)] else [];
        assert log + was + now == log + (was + now);
        seen := seen + [recp];
        recp := db.ClientAllStepAccepted();
      }
      assert seen + [] == seen;
    }

    /** The packet to every recipient that has not denied. */
    method RelayNotDenied(t: TransferId, p: Packet, ghost before: seq<Client>,
          ghost log: seq<Send>) returns (ghost more: seq<Send>)
      requires db.Valid() && Tracks(before, clients[..], log) && DistinctIds(before)
      modifies db`notDenied, clients
      ensures db.Valid() && Tracks(before, clients[..], more)
      ensures more == log + Fan(ConnsOf(before), Clients(db.rows, t, NotDenied), p)
    {
      hide Tracks, ConnsOf, Order, DistinctIds, Fan, Clients, CreatedBy, JoinedBy;
      ghost var conns := ConnsOf(before);
      ghost var seen: seq<ClientId> := [];
      FanNobody(conns, p);
      more := log;
      var recp := db.GetClientAll(t);
      assert log + [] == log;
      while recp != 0
        invariant db.Valid() && Tracks(before, clients[..], more) && more == log + Fan(conns, seen, p)
        invariant seen + (if recp == 0 then [] else [recp] + db.notDenied) == Clients(db.rows, t, NotDenied)
        invariant recp == 0 ==> db.notDenied == []
        decreases |db.notDenied|, recp
      {
        ghost var was := Fan(conns, seen, p);
        more := Deliver(recp, p, before, more);
        FanAppend(conns, seen, recp, p);
        ghost var now := if recp in conns then [Send(recp, p)] else [];
        assert log + was + now == log + (was + now);
        seen := seen + [recp];
        recp := db.ClientAllStep();
      }
      assert seen + [] == seen;
    }

    // -------------------------------------------------------------- replies, data, completion

    /** packet_reply; the lookup of the creator is asserted to succeed. */
    method HandleReply(c: nat, t: TransferId, accept: bool)
      requires Valid() && c < MAX_CLIENTS && clients[c].state != CEmpty
      requires var creator := CreatorOf(db.transfers, t); creator == 0 || creator in View().conns
      modifies db, clients
      ensures var r := PacketReply(old(View()), old(clients[c].id), t, accept);
              Valid() && View() == r.server && Tracks(old(clients[..]), clients[..], r.sends)
    {
      hide Tracks, ConnsOf, Order, DistinctIds, Fan, Clients, CreatedBy, JoinedBy;
      ghost var before := clients[..];
      assert before == old(clients[..]);
      TracksNothing(before);
      db.ClientAccept(clients[c].id, t, accept);
      var creator := db.GetCreatorByTid(t);
      if creator != 0 {
        var i := FindById(creator);
        ghost var log := Enqueue(i, TransferReply(t, clients[c].id, accept), before, []);
        TracksConns(before, clients[..], log);
        assert log == PacketReply(old(View()), old(clients[c].id), t, accept).sends;
      }
    }

    /** packet_data. */
    method HandleData(p: Packet)
      requires Valid() && p.TransferData?
      modifies db, clients
      ensures var r := PacketData(old(View()), p);
              Valid() && View() == r.server && Tracks(old(clients[..]), clients[..], r.sends)
    {
      hide Tracks, ConnsOf, Order, DistinctIds, Fan, Clients, CreatedBy, JoinedBy;
      ghost var before := clients[..];
      assert before == old(clients[..]);
      TracksNothing(before);
      ghost var log := RelayAccepted(p.tid, p, before, []);
      assert log == PacketData(old(View()), p).sends;
      TracksConns(before, clients[..], log);
    }

    /** packet_complete: the creator's transfers are searched for the one that is complete. */
    method HandleComplete(c: nat, p: Packet)
      requires Valid() && c < MAX_CLIENTS && clients[c].state != CEmpty && p.TransferComplete?
      modifies db, clients
      ensures var r := PacketComplete(old(View()), old(clients[c].id), p);
              Valid() && View() == r.server && Tracks(old(clients[..]), clients[..], r.sends)
    {
      hide Tracks, ConnsOf, Order, DistinctIds, Fan, Clients, CreatedBy, JoinedBy;
      ghost var before := clients[..];
      assert before == old(clients[..]);
      ghost var all := CreatedBy(db.transfers, clients[c].id);
      ghost var seen: seq<TransferId> := [];
      TracksNothing(before);
      var t := db.GetTransfer(clients[c].id);
      while t != 0
        invariant Valid() && clients[..] == before && View() == old(View()) && p.tid !in seen
        invariant seen + (if t == 0 then [] else [t] + db.created) == all
        invariant t == 0 ==> db.created == []
        decreases |db.created|, t
      {
        if t == p.tid {
          assert t in all;
          ghost var log := RelayAccepted(t, p, before, []);
          assert log == PacketComplete(old(View()), old(clients[c].id), p).sends;
          TracksConns(before, clients[..], log);
          db.CleanupTransfer(t);
          return;
        }
        seen := seen + [t];
        t := db.TransferStep();
      }
      assert seen + [] == seen;
    }

    // -------------------------------------------------------------- cancelling

    /** cancel_as_creator. */
    method CancelAsCreator(c: nat, target: TransferId) returns (found: bool)
      requires Valid() && c < MAX_CLIENTS && clients[c].state != CEmpty
      modifies db, clients
      ensures Valid() && found == (target != 0 && target in CreatedBy(old(db.transfers), old(clients[c].id)))
      ensures !found ==> View() == old(View()) && clients[..] == old(clients[..])
      ensures found ==> View() == Cleanup(old(View()), target)
      ensures found ==>
                Tracks(old(clients[..]), clients[..],
                       Fan(old(View()).conns, Clients(old(db.rows), target, NotDenied), TransferCancel(target,
                             old(clients[c].id))))
    {
      hide Tracks, ConnsOf, Order, DistinctIds, Fan, Clients, CreatedBy, JoinedBy;
      ghost var before := clients[..];
      assert before == old(clients[..]);
      ghost var all := CreatedBy(db.transfers, clients[c].id);
      ghost var seen: seq<TransferId> := [];
      TracksNothing(before);
      var t := db.GetTransfer(clients[c].id);
      while t != 0
        invariant Valid() && clients[..] == before && View() == old(View()) && target !in seen
        invariant seen + (if t == 0 then [] else [t] + db.created) == all
        invariant t == 0 ==> db.created == []
        decreases |db.created|, t
      {
        if t == target {
          assert t in all;
          ghost var log := RelayNotDenied(t, TransferCancel(t, clients[c].id), before, []);
          assert log == Fan(old(View()).conns, Clients(old(db.rows), target, NotDenied), TransferCancel(target,
                old(clients[c].id)));
          TracksConns(before, clients[..], log);
          db.CleanupTransfer(t);
          return true;
        }
        seen := seen + [t];
        t := db.TransferStep();
      }
      assert seen + [] == seen;
      found := false;
    }

    /** cancel_as_recipient: the client's rows are deleted in every transfer. */
    method CancelAsRecipient(c: nat, target: TransferId) returns (found: bool)
      requires Valid() && c < MAX_CLIENTS && clients[c].state != CEmpty
      modifies db, clients
      ensures var s, id := old(View()), old(clients[c].id);
              var joined := JoinedBy(s.transfers, s.rows, id);
              var i := FindTransfer(joined, target);
              && Valid() && found == (i < |joined|)
              && (!found ==> View() == s && clients[..] == old(clients[..]))
              && (found ==> View() == s.(rows := WithoutClient(s.rows, id)))
              && (found ==> Tracks(old(clients[..]), clients[..], Fan(s.conns, [joined[i].creator],
                    TransferCancel(target, id))))
    {
      hide Tracks, ConnsOf, Order, DistinctIds, Fan, Clients, CreatedBy, JoinedBy;
      ghost var before := clients[..];
      assert before == old(clients[..]);
      ghost var all := JoinedBy(db.transfers, db.rows, clients[c].id);
      ghost var seen: seq<Transfer> := [];
      TracksNothing(before);
      var info := db.GetCreator(clients[c].id);
      while info.creator != 0
        invariant Valid() && clients[..] == before && View() == old(View()) && (forall tr | tr in seen :: tr.tid != target)
        invariant seen + (if info.creator == 0 then [] else [info] + db.joined) == all
        invariant info.creator == 0 ==> db.joined == []
        decreases |db.joined|, info.creator
      {
        if info.tid == target {
          assert all[|seen|] == info;
          FoundAt(all, target, |seen|);
          ghost var log := Deliver(info.creator, TransferCancel(info.tid, clients[c].id), before, []);
          FanSingle(ConnsOf(before), info.creator, TransferCancel(info.tid, before[c].id));
          assert log == Fan(ConnsOf(before), [info.creator], TransferCancel(target, before[c].id));
          TracksConns(before, clients[..], log);
          db.ClientDelete(clients[c].id);
          return true;
        }
        seen := seen + [info];
        info := db.CreatorStep();
      }
      assert seen + [] == seen;
      FoundAt(all, target, |all|);
      found := false;
    }

    /** packet_cancel. */
    method HandleCancel(c: nat, t: TransferId)
      requires Valid() && c < MAX_CLIENTS && clients[c].state != CEmpty
      modifies db, clients
      ensures var r := PacketCancel(old(View()), old(clients[c].id), t);
              Valid() && View() == r.server && Tracks(old(clients[..]), clients[..], r.sends)
    {
      hide Tracks, Clients, CreatedBy, JoinedBy, Fan, WithoutClient, Cleanup, FindTransfer;
      TracksNothing(clients[..]);
      FoundTid(JoinedBy(db.transfers, db.rows, clients[c].id), t);
      var found := CancelAsCreator(c, t);
      if !found {
        found := CancelAsRecipient(c, t);
      }
    }

    // -------------------------------------------------------------- requests

    /** check_recipients, which inserts a row for each recipient it has found to be valid. */
    method CheckRecipients(c: nat, t: TransferId, to: ToList) returns (ok: bool)
      requires Valid() && c < MAX_CLIENTS && clients[c].state != CEmpty
      modifies db`rows
      ensures Valid() && ConnsOf(clients[..]) == old(View()).conns && clients[c].id in old(View()).conns
      ensures ok <==> RecipientsOk(old(View()), clients[c].id, to)
      ensures ok ==> db.rows == old(db.rows) + NewRows(t, Recipients(to))
    {
      ConnsAt(clients[..], c);
      ghost var conns := ConnsOf(clients[..]);
      var i := 0;
      assert old(db.rows) + [] == old(db.rows);
      while i < TRANSFER_CLIENTS_MAX
        invariant i <= TRANSFER_CLIENTS_MAX && Valid() && forall j | 0 <= j < i :: to[j] != 0
        invariant forall j | 0 <= j < i :: to[j] in conns && conns[to[j]].session == conns[clients[c].id].session
        invariant db.rows == old(db.rows) + NewRows(t, to[..i])
      {
        if to[i] == 0 {
          LengthIs(to, i);
          return i != 0;
        }
        AtLeast(to, i);
        var r := FindById(to[i]);
        if r == MAX_CLIENTS {
          return false;
        }
        ConnsAt(clients[..], r);
        if clients[r].session != clients[c].session {
          return false;
        }
        db.CreateClient(t, to[i]);
        NewRowsAppend(t, to[..i], to[i]);
        assert to[..i + 1] == to[..i] + [to[i]];
        i := i + 1;
      }
      LengthIs(to, i);
      ok := true;
    }

    /** echo_transfer_request. */
    method EchoRequest(to: ToList, p: Packet, ghost before: seq<Client>,
          ghost log: seq<Send>) returns (ghost more: seq<Send>)
      requires Tracks(before, clients[..], log) && DistinctIds(before)
      modifies clients
      ensures Tracks(before, clients[..], more) && more == log + Fan(ConnsOf(before), Recipients(to), p)
    {
      hide Tracks, ConnsOf, DistinctIds, Fan;
      more := log;
      FanNobody(ConnsOf(before), p);
      assert log + [] == log;
      var i := 0;
      while i < TRANSFER_CLIENTS_MAX && to[i] != 0
        invariant i <= TRANSFER_CLIENTS_MAX && forall j | 0 <= j < i :: to[j] != 0
        invariant Tracks(before, clients[..], more) && more == log + Fan(ConnsOf(before), to[..i], p)
      {
        ghost var was := Fan(ConnsOf(before), to[..i], p);
        more := Deliver(to[i], p, before, more);
        FanAppend(ConnsOf(before), to[..i], to[i], p);
        ghost var now := if to[i] in ConnsOf(before) then [Send(to[i], p)] else [];
        assert log + was + now == log + (was + now);
        assert to[..i + 1] == to[..i] + [to[i]];
        i := i + 1;
      }
      LengthIs(to, i);
    }

    /** One packet to one client; for a header alone this is server_resposne. */
    method Respond(c: nat, p: Packet)
      requires Valid() && c < MAX_CLIENTS && clients[c].state != CEmpty
      modifies clients
      ensures Valid() && View() == old(View())
      ensures Tracks(old(clients[..]), clients[..], [Send(old(clients[c].id), p)])
    {
      hide Tracks, ConnsOf, Order, DistinctIds;
      ghost var before := clients[..];
      assert before == old(clients[..]);
      TracksNothing(before);
      ghost var log := Enqueue(c, p, before, []);
      assert log == [Send(before[c].id, p)];
      TracksConns(before, clients[..], log);
    }

    /** What is sent for a request that has been committed. */
    method AnswerValid(c: nat, req: Request, t: TransferId)
      requires Valid() && c < MAX_CLIENTS && clients[c].state != CEmpty
      modifies clients
      ensures Valid() && View() == old(View())
      ensures var id := old(clients[c].id);
              Tracks(old(clients[..]), clients[..],
                     [Send(id, TransferValid(req.(hdr := req.hdr.(tid := t))))]
                     + Fan(old(View()).conns, Recipients(req.hdr.to),
                           TransferRequest(req.(hdr := req.hdr.(tid := t, from := id)))))
    {
      hide Tracks, ConnsOf, Order, DistinctIds, Fan;
      ghost var before := clients[..];
      assert before == old(clients[..]);
      TracksNothing(before);
      ghost var log := Enqueue(c, TransferValid(req.(hdr := req.hdr.(tid := t))), before, []);
      assert log == [Send(before[c].id, TransferValid(req.(hdr := req.hdr.(tid := t))))];
      TracksSlot(before, clients[..], log, c);
      log := EchoRequest(req.hdr.to, TransferRequest(req.(hdr := req.hdr.(tid := t, from := clients[c].id))),
            before, log);
      TracksConns(before, clients[..], log);
    }

    /** packet_transfer: a request is committed with all its rows, or rolled back. */
    method HandleTransfer(c: nat, req: Request)
      requires Valid() && c < MAX_CLIENTS && clients[c].state != CEmpty
      modifies db, clients
      ensures old(clients[c].id) in old(View()).conns
      ensures var r := PacketTransfer(old(View()), old(clients[c].id), req);
              Valid() && View() == r.server && Tracks(old(clients[..]), clients[..], r.sends)
    {
      hide Tracks, ConnsOf, Order, DistinctIds, Fan, NewRows, RecipientsOk, Recipients;
      ghost var before := clients[..];
      assert before == old(clients[..]);
      ConnsAt(before, c);
      IdIsSet(before, c);
      db.Begin();
      var t := db.CreateTransfer(clients[c].id);
      ghost var s := View();
      var ok := CheckRecipients(c, t, req.hdr.to);
      SameRecipients(old(View()), s, clients[c].id, req.hdr.to);
      if ok {
        AnswerValid(c, req, t);
      } else {
        Respond(c, TransferInvalid(req));
        db.Rollback();
      }
    }

    // -------------------------------------------------------------- joining a session

    /** A turn of send_session_users that has found a fellow of the joiner in slot `i`. */
    method Introduce(c: nat, i: nat, count: nat, ghost mid: seq<Client>, ghost found: seq<ClientId>)
      requires clients.Length == |mid| && c < |mid| && i < |mid| && i != c && DistinctIds(mid)
      requires mid[c].state != CEmpty && mid[i].state != CEmpty && count == |found|
      requires mid[c].id !in found && mid[i].id !in found && forall id | id in found :: id in ConnsOf(mid)
      requires Greeted(mid, clients[..], c, found)
      modifies clients
      ensures mid[i].id in ConnsOf(mid) && Greeted(mid, clients[..], c, found + [mid[i].id])
    {
      hide ConnsOf;
      ConnsAt(mid, i);
      UsersOfAppend(ConnsOf(mid), found, mid[i].id);
      GreetedAt(mid, clients[..], c, found, c);
      GreetedAt(mid, clients[..], c, found, i);
      ghost var was := clients[..];
      var user := User(clients[i].id, clients[i].name);
      if count == 0 {
        clients[c] := clients[c].(queue := clients[c].queue + [NewUsers([])]);
      }
      var n := |clients[c].queue| - 1;
      clients[c] := clients[c].(queue := clients[c].queue[n := NewUsers(clients[c].queue[n].users + [user])]);
      clients[i] := clients[i].(queue := clients[i].queue + [NewUsers([User(clients[c].id, clients[c].name)])]);
      Introduced(mid, was, clients[..], c, i, found);
    }

    /** send_session_users: the joiner and its fellows hear of each other. */
    method SendSessionUsers(c: nat, ghost mid: seq<Client>)
      requires clients.Length == |mid| && c < |mid| && DistinctIds(mid) && mid[c].state == CComplete
      requires Greeted(mid, clients[..], c, [])
      modifies clients
      ensures var found := PeerIds(mid, mid[c].id, mid[c].session);
              (forall id | id in found :: id in ConnsOf(mid)) && Greeted(mid, clients[..], c, found)
    {
      hide ConnsOf, Greeted, DistinctIds;
      var count := 0;
      var i := 0;
      ghost var found: seq<ClientId> := [];
      while i < clients.Length
        invariant i <= clients.Length == |mid| && found == PeerIds(mid[..i], mid[c].id,
                mid[c].session) && count == |found|
        invariant (forall id | id in found :: id in ConnsOf(mid)) && Greeted(mid, clients[..], c, found)
      {
        GreetedFields(mid, clients[..], c, found, i);
        GreetedFields(mid, clients[..], c, found, c);
        assert mid[..i + 1] == mid[..i] + [mid[i]];
        PeerIdsAppend(mid[..i], mid[i], mid[c].id, mid[c].session);
        if clients[i].id != clients[c].id && clients[i].state == CComplete && clients[i].session == clients[c].session {
          NotYetFound(mid, i, c);
          Introduce(c, i, count, mid, found);
          found := found + [mid[i].id];
          count := count + 1;
        }
        i := i + 1;
      }
      assert mid[..i] == mid;
    }

    /** packet_intro. */
    method HandleIntro(c: nat, p: Packet)
      requires Valid() && c < MAX_CLIENTS && clients[c].state != CEmpty && p.ClientIntro?
      modifies db, clients
      ensures old(clients[c].id) in old(View()).conns
      ensures var r := PacketIntro(old(View()), Order(old(clients[..])), old(clients[c].id), p);
              && Valid() && View() == r.server && old(clients[c].id) in r.server.conns
              && Tracks(Updated(old(clients[..]), c, r.server.conns[old(clients[c].id)]), clients[..], r.sends)
    {
      hide Tracks, ConnsOf, Order, DistinctIds, Greeted, Peers, UsersOf, Fan, Welcome, Updated;
      ghost var before := clients[..];
      assert before == old(clients[..]);
      ConnsAt(before, c);
      SameSlots(before, c);
      IntroShape(View(), Order(before), clients[c].id, p);
      if clients[c].state == CComplete || p.session > 1 {
        Respond(c, ServerDeny);
        return;
      }
      var session: SessionId;
      if p.session == 0 {
        session := db.GetSession(p.sessionName);
      } else {
        session := db.CreateSession(p.sessionName);
      }
      if session == 0 {
        Respond(c, ServerDeny);
        return;
      }
      Join(c, session, p);
    }

    /** The part of packet_intro that admits the client. */
    method Join(c: nat, session: SessionId, p: Packet)
      requires Valid() && c < MAX_CLIENTS && clients[c].state != CEmpty && clients[c].state != CComplete
      requires p.ClientIntro?
      modifies clients
      ensures var id := old(clients[c].id);
              var mid := Updated(old(clients[..]), c, Conn(true, session, p.clientName));
              var conns := old(View()).conns[id := Conn(true, session, p.clientName)];
              var peers := Peers(conns, Order(old(clients[..])), id, session);
              && Valid() && View() == old(View()).(conns := conns)
              && (forall y | y in peers :: y in conns)
              && Tracks(mid, clients[..],
                        Welcome(id, UsersOf(conns, peers)) + Fan(conns, peers, NewUsers([User(id, p.clientName)])))
    {
      hide Tracks, ConnsOf, Order, DistinctIds, Greeted, PeerIds, Peers, UsersOf, Fan, Welcome;
      ghost var before := clients[..];
      assert before == old(clients[..]);
      ghost var mid := Updated(before, c, Conn(true, session, p.clientName));
      UpdatedConns(before, c, Conn(true, session, p.clientName));
      clients[c] := clients[c].(queue := clients[c].queue + [ServerOk]);
      clients[c] := clients[c].(state := CComplete, session := session, name := p.clientName);
      assert clients[..] == mid[c := mid[c].(queue := mid[c].queue + [ServerOk])];
      GreetedFirst(mid, c);
      SendSessionUsers(c, mid);
      PeersOf(mid, mid[c].id, session);
      OrderOf(mid);
      GreetedTracks(mid, clients[..], c);
      TracksConns(mid, clients[..],
                  Welcome(mid[c].id, UsersOf(ConnsOf(mid), PeerIds(mid, mid[c].id, session)))
                  + Fan(ConnsOf(mid), PeerIds(mid, mid[c].id, session), NewUsers([User(mid[c].id, mid[c].name)])));
    }

    // -------------------------------------------------------------- disconnecting

    /** cancel_transaction_creator: every transfer of the client is cancelled and cleaned up. */
    method CancelTransactionCreator(c: nat, first: TransferId, ghost before: seq<Client>) returns (ghost log: seq<Send>)
      requires Valid() && c < MAX_CLIENTS && clients[c].state != CEmpty && clients[..] == before
      requires Stepped(CreatedBy(db.transfers, clients[c].id), first, db.created) && first != 0
      modifies db, clients
      ensures var r := CancelCreated(old(View()), old(clients[c].id), CreatedBy(old(db.transfers), old(clients[c].id)));
              Valid() && View() == r.server && log == r.sends && Tracks(before, clients[..], log)
    {
      hide Tracks, ConnsOf, Order, DistinctIds, Fan, Clients, CreatedBy, CancelCreated, WithoutRows, WithoutTransfer,
        Stepped;
      assert before == old(clients[..]);
      TracksNothing(before);
      ghost var id := clients[c].id;
      ghost var all := CreatedBy(db.transfers, id);
      ghost var whole := CancelCreated(View(), id, all);
      log := [];
      var t := first;
      AheadIs(all, t, db.created);
      assert [] + whole.sends == whole.sends;
      while t != 0
        invariant Valid() && ConnsOf(clients[..]) == ConnsOf(before) && Tracks(before, clients[..], log)
        invariant clients[c].id == id && (t == 0 ==> db.created == [])
        invariant var rest := CancelCreated(View(), id, Ahead(t, db.created));
                  rest.server == whole.server && log + rest.sends == whole.sends
        decreases |db.created|, t
      {
        ghost var rest := db.created;
        CancelCreatedHead(View(), id, t, rest, log);
        log := RelayNotDenied(t, TransferCancel(t, clients[c].id), before, log);
        TracksConns(before, clients[..], log);
        TracksSlot(before, clients[..], log, c);
        db.CleanupTransfer(t);
        t := db.TransferStep();
        AheadIs(rest, t, db.created);
      }
      CancelCreatedNone(View(), id);
      assert log + [] == log;
    }

    /** cancel_transaction_user: the creators of the client's transfers are told, and its rows go. */
    method CancelTransactionUser(c: nat, ghost before: seq<Client>,
          ghost log: seq<Send>) returns (ghost more: seq<Send>)
      requires Valid() && c < MAX_CLIENTS && clients[c].state != CEmpty && c < |before| && before[c].state != CEmpty
      requires Tracks(before, clients[..], log) && DistinctIds(before)
      modifies db, clients
      ensures var s, id := old(View()), old(clients[c].id);
              && Valid() && View() == s.(rows := WithoutClient(s.rows, id)) && Tracks(before, clients[..], more)
              && more == log + CancelJoined(s.conns, id, JoinedBy(s.transfers, s.rows, id))
    {
      hide Tracks, ConnsOf, Order, DistinctIds, Fan, JoinedBy, CancelJoined, WithoutClient, SteppedInfo;
      ghost var id, conns := clients[c].id, ConnsOf(before);
      ghost var whole := CancelJoined(conns, id, JoinedBy(db.transfers, db.rows, id));
      TracksConns(before, clients[..], log);
      TracksSlot(before, clients[..], log, c);
      more := log;
      var info := db.GetCreator(clients[c].id);
      AheadInfoIs(JoinedBy(db.transfers, db.rows, id), info, db.joined);
      while info.creator != 0
        invariant Valid() && View() == old(View()) && Tracks(before, clients[..], more)
        invariant clients[c].id == id && (info.creator == 0 ==> db.joined == [])
        invariant more + CancelJoined(conns, id, AheadInfo(info, db.joined)) == log + whole
        decreases |db.joined|, info.creator
      {
        ghost var rest := db.joined;
        CancelJoinedHead(conns, id, info, rest, more);
        more := Deliver(info.creator, TransferCancel(info.tid, clients[c].id), before, more);
        TracksConns(before, clients[..], more);
        TracksSlot(before, clients[..], more, c);
        info := db.CreatorStep();
        AheadInfoIs(rest, info, db.joined);
      }
      CancelJoinedNone(conns, id);
      assert more + [] == more;
      db.ClientDelete(clients[c].id);
    }

    /** cancel_transaction. */
    method CancelAll(c: nat, ghost before: seq<Client>) returns (ghost log: seq<Send>)
      requires Valid() && c < MAX_CLIENTS && clients[c].state != CEmpty && clients[..] == before
      modifies db, clients
      ensures var r := CancelTransaction(old(View()), old(clients[c].id));
              Valid() && View() == r.server && log == r.sends && Tracks(before, clients[..], log)
    {
      hide Tracks, ConnsOf, Order, DistinctIds, CancelCreated, JoinedBy, CancelJoined, WithoutClient;
      assert before == old(clients[..]);
      log := [];
      TracksNothing(before);
      CancelCreatedNone(View(), clients[c].id);
      db.Begin();
      var t := db.GetTransfer(clients[c].id);
      if t != 0 {
        log := CancelTransactionCreator(c, t, before);
      }
      TracksSlot(before, clients[..], log, c);
      TracksConns(before, clients[..], log);
      assert View() == CancelCreated(old(View()), before[c].id, CreatedBy(old(db.transfers), before[c].id)).server;
      assert log == CancelCreated(old(View()), before[c].id, CreatedBy(old(db.transfers), before[c].id)).sends;
      log := CancelTransactionUser(c, before, log);
    }

    /** send_user_disconnect. */
    method SendUserDisconnect(c: nat, ghost before: seq<Client>, ghost log: seq<Send>) returns (ghost more: seq<Send>)
      requires Valid() && c < MAX_CLIENTS && |before| == MAX_CLIENTS && before[c].state != CEmpty
      requires Tracks(before, clients[..], log) && DistinctIds(before)
      modifies clients
      ensures Valid() && View() == old(View()) && Tracks(before, clients[..], more)
      ensures more == log + Fan(ConnsOf(before), Peers(ConnsOf(before), Order(before), before[c].id, before[c].session),
                                DelUser(User(before[c].id, before[c].name)))
    {
      hide Tracks, ConnsOf, Order, DistinctIds, Fan, Peers, PeerIds;
      ghost var id, session, conns := before[c].id, before[c].session, ConnsOf(before);
      ghost var gone := DelUser(User(id, before[c].name));
      TracksConns(before, clients[..], log);
      FanNobody(conns, gone);
      PeerIdsNone(id, session);
      more := log;
      assert log + [] == log && before[..0] == [];
      var i := 0;
      while i < MAX_CLIENTS
        invariant i <= MAX_CLIENTS && Tracks(before, clients[..], more)
        invariant more == log + Fan(conns, PeerIds(before[..i], id, session), gone)
      {
        TracksSlot(before, clients[..], more, i);
        TracksSlot(before, clients[..], more, c);
        assert before[..i + 1] == before[..i] + [before[i]];
        PeerIdsAppend(before[..i], before[i], id, session);
        if clients[i].id != clients[c].id && clients[i].session == clients[c].session && clients[i].state == CComplete {
          ConnsAt(before, i);
          FanAppend(conns, PeerIds(before[..i], id, session), before[i].id, gone);
          ghost var was := Fan(conns, PeerIds(before[..i], id, session), gone);
          more := Enqueue(i, DelUser(User(clients[c].id, clients[c].name)), before, more);
          assert log + was + [Send(before[i].id, gone)] == log + (was + [Send(before[i].id, gone)]);
        } else {
          assert PeerIds(before[..i], id, session) + [] == PeerIds(before[..i], id, session);
        }
        i := i + 1;
      }
      assert before[..i] == before;
      PeersOf(before, id, session);
      TracksConns(before, clients[..], more);
    }

    /** close_client, for a client that is connected. */
    method Close(c: nat)
      requires Valid() && c < MAX_CLIENTS && clients[c].state != CEmpty
      modifies this`nCli, db, clients
      ensures old(clients[c].id) in old(View()).conns && clients[c].state == CEmpty
      ensures var r := CloseClient(old(View()), Order(old(clients[..])), old(clients[c].id));
              && Valid() && View() == r.server
              && Tracks(old(clients[..]), clients[..][c := clients[c].(state := old(clients[c].state))], r.sends)
    {
      hide Tracks, ConnsOf, Order, DistinctIds, CancelTransaction, Peers, Fan;
      ghost var before := clients[..];
      assert before == old(clients[..]);
      ghost var log: seq<Send> := [];
      TracksNothing(before);
      ConnsAt(before, c);
      if clients[c].state == CComplete {
        log := CancelAll(c, before);
        TracksSlot(before, clients[..], log, c);
        log := SendUserDisconnect(c, before, log);
        TracksSlot(before, clients[..], log, c);
      }
      ghost var was := clients[..];
      TracksConns(before, was, log);
      Freed(was, c);
      clients[c] := clients[c].(state := CEmpty);
      nCli := nCli - 1;
      assert clients[..] == was[c := was[c].(state := CEmpty)];
      assert clients[..][c := clients[c].(state := old(clients[c].state))] == was;
    }

    /** close_client: the connection is looked up, and unknown ones are ignored. */
    method Disconnect(fd: int) returns (c: nat)
      requires Valid()
      modifies this`nCli, db, clients
      ensures Valid() && c <= MAX_CLIENTS
      ensures c == MAX_CLIENTS ==>
                && View() == old(View()) && clients[..] == old(clients[..])
                && forall j | 0 <= j < MAX_CLIENTS :: !(clients[j].state != CEmpty && clients[j].fd == fd)
      ensures c < MAX_CLIENTS ==>
                && old(clients[c].state) != CEmpty && old(clients[c].fd) == fd && old(clients[c].id) in old(View()).conns
                && clients[c].state == CEmpty
                && var r := CloseClient(old(View()), Order(old(clients[..])), old(clients[c].id));
                   && View() == r.server
                   && Tracks(old(clients[..]), clients[..][c := clients[c].(state := old(clients[c].state))], r.sends)
    {
      c := FindByFd(fd);
      if c < MAX_CLIENTS {
        Close(c);
      }
    }

    // -------------------------------------------------------------- dispatch

    /** analize_packet. */
    method Analize(c: nat, p: Packet)
      requires Valid() && c < MAX_CLIENTS && clients[c].state != CEmpty
      requires p.TransferReply? ==>
                 var creator := CreatorOf(db.transfers, p.tid); creator == 0 || creator in View().conns
      modifies db, clients
      ensures old(clients[c].id) in old(View()).conns
      ensures var r := Handle(old(View()), Order(old(clients[..])), old(clients[c].id), p);
              && Valid() && View() == r.server && old(clients[c].id) in r.server.conns
              && Tracks(Updated(old(clients[..]), c, r.server.conns[old(clients[c].id)]), clients[..], r.sends)
    {
      hide Tracks, ConnsOf, Order, DistinctIds, PacketIntro, PacketTransfer, PacketReply, PacketData,
            PacketComplete, PacketCancel;
      ghost var s, id := View(), clients[c].id;
      ConnsAt(clients[..], c);
      SameSlots(clients[..], c);
      TracksNothing(clients[..]);
      SameConns(s, id, p);
      match p {
        case ClientIntro(_, _, _) => HandleIntro(c, p);
        case TransferRequest(req) => HandleTransfer(c, req);
        case TransferReply(t, _, accept) => HandleReply(c, t, accept);
        case TransferData(_, _) => HandleData(p);
        case TransferComplete(_) => HandleComplete(c, p);
        case TransferCancel(t, _) => HandleCancel(c, t);
        case _ =>
      }
    }
  }

  // ---------------------------------------------------------------- facts about slots

  lemma NobodyConnected(slots: seq<Client>)
    requires forall i | 0 <= i < |slots| :: slots[i].state == CEmpty
    ensures ConnsOf(slots) == map[] && Order(slots) == [] && DistinctIds(slots)
  {
  }

  lemma IdIsSet(slots: seq<Client>, i: nat)
    requires DistinctIds(slots) && i < |slots| && slots[i].state != CEmpty
    ensures slots[i].id != 0
  {
  }

  /** When not all slots are taken, the search for a free one succeeds. */
  lemma {:induction false} SomeSlotFree(slots: seq<Client>)
    ensures |Order(slots)| <= |slots|
    ensures |Order(slots)| < |slots| ==> exists i :: 0 <= i < |slots| && slots[i].state == CEmpty
    ensures |Order(slots)| == |slots| ==> forall i | 0 <= i < |slots| :: slots[i].state != CEmpty
  {
    if slots != [] {
      SomeSlotFree(slots[1..]);
      assert forall i | 0 <= i < |slots[1..]| :: slots[1..][i] == slots[i + 1];
    }
  }

  /** Taking or giving back a slot changes the number of clients by one. */
  lemma {:induction false} OrderSize(slots: seq<Client>, i: nat, c: Client)
    requires i < |slots|
    ensures |Order(slots[i := c])| + (if slots[i].state == CEmpty then 0 else 1)
            == |Order(slots)| + if c.state == CEmpty then 0 else 1
  {
    if i == 0 {
      assert slots[i := c][1..] == slots[1..];
    } else {
      assert slots[i := c][1..] == slots[1..][i - 1 := c];
      OrderSize(slots[1..], i - 1, c);
    }
  }

  lemma TracksSlot(before: seq<Client>, after: seq<Client>, log: seq<Send>, i: nat)
    requires Tracks(before, after, log) && i < |after|
    ensures i < |before| && after[i].state == before[i].state && after[i].id == before[i].id
    ensures after[i].session == before[i].session && after[i].name == before[i].name
  {
  }

  lemma FoundAt(ts: seq<Transfer>, t: TransferId, i: nat)
    requires i <= |ts| && (forall j | 0 <= j < i :: ts[j].tid != t) && (i < |ts| ==> ts[i].tid == t)
    ensures FindTransfer(ts, t) == i
  {
  }

  lemma FoundTid(ts: seq<Transfer>, t: TransferId)
    ensures FindTransfer(ts, t) <= |ts|
  {
  }

  lemma FanSingle(conns: map<ClientId, Conn>, id: ClientId, p: Packet)
    ensures Fan(conns, [id], p) == if id in conns then [Send(id, p)] else []
  {
  }

  lemma FanNobody(conns: map<ClientId, Conn>, p: Packet)
    ensures Fan(conns, [], p) == []
  {
  }

  lemma LengthIs(to: seq<ClientId>, n: nat)
    requires n <= |to| && (forall j | 0 <= j < n :: to[j] != 0) && (n < |to| ==> to[n] == 0)
    ensures Len(to) == n
  {
  }

  lemma AtLeast(to: seq<ClientId>, i: nat)
    requires i < |to| && forall j | 0 <= j <= i :: to[j] != 0
    ensures i < Len(to)
  {
  }

  lemma {:induction false} NewRowsAppend(t: TransferId, ids: seq<ClientId>, id: ClientId)
    ensures NewRows(t, ids + [id]) == NewRows(t, ids) + [Row(t, id, UNANSWERED)]
  {
    if ids == [] {
      assert [] + [id] == [id];
      assert [id][1..] == [];
    } else {
      assert (ids + [id])[1..] == ids[1..] + [id];
      NewRowsAppend(t, ids[1..], id);
    }
  }

  lemma SameRecipients(s: Server, n: Server, c: ClientId, to: ToList)
    requires n.conns == s.conns && c in s.conns
    ensures RecipientsOk(n, c, to) == RecipientsOk(s, c, to)
  {
  }

  // ---------------------------------------------------------------- facts about joining

  /** The table once the client in slot `c` has become what `conn` says. */
  function Updated(slots: seq<Client>, c: nat, conn: Conn): seq<Client>
    requires c < |slots|
  {
    slots[c := slots[c].(state := if conn.complete then CComplete else slots[c].state,
                         session := conn.session, name := conn.name)]
  }

  lemma SameSlots(slots: seq<Client>, c: nat)
    requires c < |slots|
    ensures Updated(slots, c, ConnOf(slots[c])) == slots
  {
  }

  lemma UpdatedConns(slots: seq<Client>, c: nat, conn: Conn)
    requires c < |slots| && slots[c].state != CEmpty && DistinctIds(slots) && conn.complete
    ensures ConnsOf(Updated(slots, c, conn)) == ConnsOf(slots)[slots[c].id := conn]
    ensures Order(Updated(slots, c, conn)) == Order(slots) && DistinctIds(Updated(slots, c, conn))
  {
    ConnsUpdate(slots, c, Updated(slots, c, conn)[c]);
  }

  /** What one client has been sent when the joiner and the fellows `found` so far have been introduced. */
  function Greeting(mid: seq<Client>, c: nat, found: seq<ClientId>, id: ClientId): seq<Packet>
    requires c < |mid| && forall y | y in found :: y in ConnsOf(mid)
  {
    if id == mid[c].id then [ServerOk] + (if found == [] then [] else [NewUsers(UsersOf(ConnsOf(mid), found))])
    else if id in found then [NewUsers([User(mid[c].id, mid[c].name)])]
    else []
  }

  ghost predicate Greeted(mid: seq<Client>, now: seq<Client>, c: nat, found: seq<ClientId>)
    requires c < |mid| && forall y | y in found :: y in ConnsOf(mid)
  {
    && |now| == |mid|
    && forall j | 0 <= j < |mid| ::
         now[j] == mid[j].(queue := mid[j].queue + if mid[j].state == CEmpty then [] else Greeting(mid, c, found,
               mid[j].id))
  }

  lemma GreetedAt(mid: seq<Client>, now: seq<Client>, c: nat, found: seq<ClientId>, j: nat)
    requires c < |mid| && (forall y | y in found :: y in ConnsOf(mid)) && Greeted(mid, now, c, found)
    requires j < |mid| && mid[j].state != CEmpty
    ensures |now| == |mid| && now[j] == mid[j].(queue := mid[j].queue + Greeting(mid, c, found, mid[j].id))
  {
  }

  lemma GreetedFields(mid: seq<Client>, now: seq<Client>, c: nat, found: seq<ClientId>, j: nat)
    requires c < |mid| && (forall y | y in found :: y in ConnsOf(mid)) && Greeted(mid, now, c, found) && j < |mid|
    ensures |now| == |mid| && now[j].state == mid[j].state && now[j].id == mid[j].id && now[j].session == mid[j].session
  {
  }

  lemma GreetedFirst(mid: seq<Client>, c: nat)
    requires c < |mid| && DistinctIds(mid) && mid[c].state != CEmpty
    ensures Greeted(mid, mid[c := mid[c].(queue := mid[c].queue + [ServerOk])], c, [])
  {
  }

  /** The queues after one more introduction. */
  lemma Introduced(mid: seq<Client>, was: seq<Client>, now: seq<Client>, c: nat, i: nat, found: seq<ClientId>)
    requires c < |mid| && i < |mid| && i != c && DistinctIds(mid) && mid[c].state != CEmpty && mid[i].state != CEmpty
    requires mid[c].id !in found && mid[i].id !in found && forall y | y in found :: y in ConnsOf(mid)
    requires mid[i].id in ConnsOf(mid) && Greeted(mid, was, c, found) && |now| == |mid|
    requires forall j | 0 <= j < |mid| && j != i && j != c :: now[j] == was[j]
    requires now[i] == mid[i].(queue := mid[i].queue + [NewUsers([User(mid[c].id, mid[c].name)])])
    requires now[c] == mid[c].(queue := mid[c].queue + [ServerOk, NewUsers(UsersOf(ConnsOf(mid), found + [mid[i].id]))])
    ensures Greeted(mid, now, c, found + [mid[i].id])
  {
    hide ConnsOf, UsersOf;
    var more := found + [mid[i].id];
    forall j | 0 <= j < |mid| && mid[j].state != CEmpty
      ensures now[j] == mid[j].(queue := mid[j].queue + Greeting(mid, c, more, mid[j].id))
    {
      if j == c {
        assert [ServerOk] + [NewUsers(UsersOf(ConnsOf(mid), more))] == [ServerOk, NewUsers(UsersOf(ConnsOf(mid),
              more))];
      } else if j == i {
        assert mid[i].id in more;
      } else {
        assert mid[j].id in more <==> mid[j].id in found;
      }
    }
  }

  lemma {:induction false} UsersOfAppend(conns: map<ClientId, Conn>, ids: seq<ClientId>, id: ClientId)
    requires (forall y | y in ids :: y in conns) && id in conns
    ensures UsersOf(conns, ids + [id]) == UsersOf(conns, ids) + [User(id, conns[id].name)]
  {
    if ids == [] {
      assert [] + [id] == [id];
      assert [id][1..] == [];
    } else {
      assert (ids + [id])[1..] == ids[1..] + [id];
      UsersOfAppend(conns, ids[1..], id);
    }
  }

  lemma {:induction false} PeerIdsFrom(slots: seq<Client>, c: ClientId, session: SessionId, id: ClientId)
    requires id in PeerIds(slots, c, session)
    ensures id != c && exists j :: 0 <= j < |slots| && slots[j].state == CComplete && slots[j].id == id
  {
    if slots[0].id == id && id != c && slots[0].state == CComplete {
    } else {
      PeerIdsFrom(slots[1..], c, session, id);
      var j :| 0 <= j < |slots[1..]| && slots[1..][j].state == CComplete && slots[1..][j].id == id;
      assert slots[j + 1] == slots[1..][j];
    }
  }

  /** The fellow in slot `i` has not been introduced before. */
  lemma NotYetFound(mid: seq<Client>, i: nat, c: nat)
    requires DistinctIds(mid) && i < |mid| && c < |mid| && mid[i].state != CEmpty && mid[c].state != CEmpty
    requires mid[i].id != mid[c].id
    ensures i != c && mid[i].id !in PeerIds(mid[..i], mid[c].id, mid[c].session)
    ensures mid[c].id !in PeerIds(mid[..i], mid[c].id, mid[c].session)
  {
    var found := PeerIds(mid[..i], mid[c].id, mid[c].session);
    if mid[i].id in found {
      PeerIdsFrom(mid[..i], mid[c].id, mid[c].session, mid[i].id);
    }
    if mid[c].id in found {
      PeerIdsFrom(mid[..i], mid[c].id, mid[c].session, mid[c].id);
    }
  }

  lemma PeerIdsDistinct(mid: seq<Client>, c: ClientId, session: SessionId)
    requires DistinctIds(mid)
    ensures Distinct(PeerIds(mid, c, session))
  {
    PeersOf(mid, c, session);
    OrderOf(mid);
    PeersDistinct(ConnsOf(mid), Order(mid), c, session);
  }

  /** Introducing everybody is sending what packet_intro is specified to send. */
  lemma GreetedTracks(mid: seq<Client>, now: seq<Client>, c: nat)
    requires c < |mid| && DistinctIds(mid) && mid[c].state == CComplete
    requires forall y | y in PeerIds(mid, mid[c].id, mid[c].session) :: y in ConnsOf(mid)
    requires Greeted(mid, now, c, PeerIds(mid, mid[c].id, mid[c].session))
    ensures var found := PeerIds(mid, mid[c].id, mid[c].session);
            Tracks(mid, now, Welcome(mid[c].id, UsersOf(ConnsOf(mid), found))
                             + Fan(ConnsOf(mid), found, NewUsers([User(mid[c].id, mid[c].name)])))
  {
    hide ConnsOf, PeerIds, UsersOf, Fan, Welcome;
    var id := mid[c].id;
    var found := PeerIds(mid, id, mid[c].session);
    var news := NewUsers([User(id, mid[c].name)]);
    PeerIdsDistinct(mid, id, mid[c].session);
    UsersOfEmpty(ConnsOf(mid), found);
    SelfNotFound(mid, c);
    forall j | 0 <= j < |mid| && mid[j].state != CEmpty
      ensures For(Welcome(id, UsersOf(ConnsOf(mid), found)) + Fan(ConnsOf(mid), found, news), mid[j].id)
              == Greeting(mid, c, found, mid[j].id)
    {
      ForAppend(Welcome(id, UsersOf(ConnsOf(mid), found)), Fan(ConnsOf(mid), found, news), mid[j].id);
      WelcomeFor(id, UsersOf(ConnsOf(mid), found), mid[j].id);
      FanFor(ConnsOf(mid), found, news, mid[j].id);
    }
  }

  lemma SelfNotFound(mid: seq<Client>, c: nat)
    requires c < |mid|
    ensures mid[c].id !in PeerIds(mid, mid[c].id, mid[c].session)
  {
    if mid[c].id in PeerIds(mid, mid[c].id, mid[c].session) {
      PeerIdsFrom(mid, mid[c].id, mid[c].session, mid[c].id);
    }
  }

  // ---------------------------------------------------------------- facts about disconnecting

  lemma CancelCreatedHead(s: Server, c: ClientId, t: TransferId, rest: seq<TransferId>, log: seq<Send>)
    ensures var r := CancelCreated(Cleanup(s, t), c, rest);
            var whole := CancelCreated(s, c, [t] + rest);
            && whole.server == r.server
            && log + whole.sends == log + Fan(s.conns, Clients(s.rows, t, NotDenied), TransferCancel(t, c)) + r.sends
  {
    var r := CancelCreated(Cleanup(s, t), c, rest);
    var now := Fan(s.conns, Clients(s.rows, t, NotDenied), TransferCancel(t, c));
    assert CancelCreated(s, c, [t] + rest) == Reaction(r.server, now + r.sends);
    assert log + (now + r.sends) == log + now + r.sends;
  }

  lemma CancelCreatedNone(s: Server, c: ClientId)
    ensures CancelCreated(s, c, []) == Reaction(s, [])
  {
  }

  lemma CancelJoinedHead(conns: map<ClientId, Conn>, c: ClientId, info: Transfer, rest: seq<Transfer>, log: seq<Send>)
    ensures var now := if info.creator in conns then [Send(info.creator, TransferCancel(info.tid, c))] else [];
            log + CancelJoined(conns, c, [info] + rest) == log + now + CancelJoined(conns, c, rest)
  {
    var now := if info.creator in conns then [Send(info.creator, TransferCancel(info.tid, c))] else [];
    assert ([info] + rest)[1..] == rest;
    FanSingle(conns, info.creator, TransferCancel(info.tid, c));
    assert log + (now + CancelJoined(conns, c, rest)) == log + now + CancelJoined(conns, c, rest);
  }

  /** What a cursor that has just given `t` is still to give, `t` included. */
  ghost function Ahead(t: TransferId, rest: seq<TransferId>): seq<TransferId> {
    if t == 0 then [] else [t] + rest
  }

  lemma AheadIs(before: seq<TransferId>, t: TransferId, rest: seq<TransferId>)
    requires Stepped(before, t, rest)
    ensures before == Ahead(t, rest) && (t == 0 ==> rest == [])
  {
  }

  ghost function AheadInfo(info: Transfer, rest: seq<Transfer>): seq<Transfer> {
    if info.creator == 0 then [] else [info] + rest
  }

  lemma AheadInfoIs(before: seq<Transfer>, info: Transfer, rest: seq<Transfer>)
    requires SteppedInfo(before, info, rest)
    ensures before == AheadInfo(info, rest) && (info.creator == 0 ==> rest == [])
  {
  }

  lemma CancelJoinedNone(conns: map<ClientId, Conn>, c: ClientId)
    ensures CancelJoined(conns, c, []) == []
  {
  }

  lemma PeerIdsNone(c: ClientId, session: SessionId)
    ensures PeerIds([], c, session) == []
  {
  }

  /** Giving back a slot. */
  lemma Freed(slots: seq<Client>, c: nat)
    requires DistinctIds(slots) && c < |slots| && slots[c].state != CEmpty
    ensures var after := slots[c := slots[c].(state := CEmpty)];
            && ConnsOf(after) == ConnsOf(slots) - {slots[c].id} && DistinctIds(after)
            && |Order(after)| + 1 == |Order(slots)|
  {
    ConnsRemove(slots, c, slots[c].(state := CEmpty));
    OrderSize(slots, c, slots[c].(state := CEmpty));
  }

  /** No packet but an intro changes the client table. */
  lemma SameConns(s: Server, c: ClientId, p: Packet)
    requires c in s.conns
    ensures !p.ClientIntro? ==> forall order :: Handle(s, order, c, p).server.conns == s.conns
  {
  }
}
