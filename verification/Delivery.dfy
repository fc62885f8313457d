/**
 The theorems about all runs are not empty: there are runs in which a file arrives. For every file,
 one client can connect, open a session, offer the file to another that joins, have it accepted, and
 send it to its end, after which the recipient has logged COMPLETE and holds the whole file.
 */
module Delivery {
  import opened Wire
  import opened FileModel
  import opened Slots
  import opened ServerModel
  import opened Sends
  import opened Network
  import opened WellTyped
  import opened Preservation

  const HOST: ClientId := 1
  const GUEST: ClientId := 2
  const TID: TransferId := 1
  const TO: ToList := [2, 0, 0, 0, 0, 0]
  const BOTH: seq<ClientId> := [1, 2]

  // ---------------------------------------------------------------- two clients and a server

  function Pair(server: Server, host: Peer, guest: Peer, o: Origins, h: Files, relayed: map<TransferId, nat>): System
  {
    System(server, map[HOST := host, GUEST := guest], o, h, relayed)
  }

  /** A step of the host's process, and one of the guest's. */
  lemma HostStep(s: System, n: System, host: Peer, guest: Peer, now: Peer, a: Action)
    requires Reachable(s) && s == Pair(s.server, host, guest, s.origin, s.hosted, s.relayed) && Enabled(s, a)
    requires n == Pair(s.server, now, guest, s.origin, s.hosted, s.relayed)
    requires Next(s, a) == s.(peers := s.peers[HOST := now])
    ensures Reachable(n)
  {
    hide Reachable, Next, Enabled;
    ReachNext(s, a);
    assert s.peers[HOST := now] == map[HOST := now, GUEST := guest];
  }

  lemma GuestStep(s: System, n: System, host: Peer, guest: Peer, now: Peer, a: Action)
    requires Reachable(s) && s == Pair(s.server, host, guest, s.origin, s.hosted, s.relayed) && Enabled(s, a)
    requires n == Pair(s.server, host, now, s.origin, s.hosted, s.relayed)
    requires Next(s, a) == s.(peers := s.peers[GUEST := now])
    ensures Reachable(n)
  {
    hide Reachable, Next, Enabled;
    ReachNext(s, a);
    assert s.peers[GUEST := now] == map[HOST := host, GUEST := now];
  }

  /** The peers after the server has served one of them: one packet fewer here, some more there. */
  lemma ServedPeers(s: System, x: ClientId, order: seq<ClientId>, host: Peer, guest: Peer)
    requires s.peers == map[HOST := host, GUEST := guest] && (x == HOST || x == GUEST) && x in s.server.conns
    requires s.peers[x].up != []
    ensures var sends := Handle(s.server, order, x, s.peers[x].up[0]).sends;
            ServeNext(s, x, order).peers == map[
              HOST := host.(up := if x == HOST then host.up[1..] else host.up, down := host.down + For(sends, HOST)),
              GUEST := guest.(up := if x == GUEST then guest.up[1..] else guest.up, down := guest.down + For(sends,
                    GUEST))]
  {
    hide Handle, For, Broadcast;
    var sends := Handle(s.server, order, x, s.peers[x].up[0]).sends;
    var popped := s.peers[x := s.peers[x].(up := s.peers[x].up[1..])];
    ServeBroadcasts(s, x, order);
    assert popped.Keys == {HOST, GUEST};
    assert popped[HOST].down == host.down && popped[GUEST].down == guest.down;
  }

  // ---------------------------------------------------------------- the searches

  lemma FindFirst(slots: seq<Slot>, k: Key)
    requires slots != [] && Matches(slots[0], k)
    ensures Find(slots, k) == 0
  {
  }

  lemma FindNone(slots: seq<Slot>, k: Key)
    requires forall i | 0 <= i < |slots| :: !Matches(slots[i], k)
    ensures Find(slots, k) == |slots|
  {
  }

  /** The array whose first slot is `s` and whose others are free. */
  function First(s: Slot): SlotArray {
    [s, FREE_SLOT, FREE_SLOT, FREE_SLOT, FREE_SLOT, FREE_SLOT]
  }

  lemma FirstPut(s: Slot, t: Slot)
    ensures First(s)[0 := t] == First(t) && First(FREE_SLOT) == FREE_SLOTS
  {
  }

  // ---------------------------------------------------------------- the host's manager

  function HostSlot(state: State, tid: TransferId, answers: Answers, name: string, f: FileHandle): Slot {
    Slot(state, Hdr(tid, 0, TO), answers, 1, name, f)
  }

  function Hosting(s: Slot): Manager {
    Manager(First(s), FREE_SLOTS, 2, [])
  }

  const YES: Answers := [Accept, Empty, Empty, Empty, Empty, Empty]

  lemma HostRequests(name: string, contents: seq<byte>)
    requires contents != []
    ensures Execute(IDLE, CmdRequest(name, contents, TO)) ==
            Hosting(HostSlot(SendReq, 0, NO_ANSWERS, name, ReadFile(contents)))
  {
    FindFirst(FREE_SLOTS, Free);
    FirstPut(FREE_SLOT, HostSlot(SendReq, 0, NO_ANSWERS, name, ReadFile(contents)));
  }

  lemma HostSendsRequest(name: string, f: FileHandle)
    requires Readable(Hosting(HostSlot(SendReq, 0, NO_ANSWERS, name, f)))
    ensures Work(Hosting(HostSlot(SendReq, 0, NO_ANSWERS, name, f)), true, true) ==
            Produced(Hosting(HostSlot(GetResponse, 0, NO_ANSWERS, name, f)),
                     Some(TransferRequest(Request(Hdr(0, 0, TO), 1, name, f.size))))
  {
    FindFirst(First(HostSlot(SendReq, 0, NO_ANSWERS, name, f)), HostBusy);
    FirstPut(HostSlot(SendReq, 0, NO_ANSWERS, name, f), HostSlot(GetResponse, 0, NO_ANSWERS, name, f));
  }

  lemma HostIsValid(name: string, f: FileHandle)
    ensures Receive(Hosting(HostSlot(GetResponse, 0, NO_ANSWERS, name, f)),
                    TransferValid(Request(Hdr(TID, 0, TO), 1, name, f.size))) ==
            Hosting(HostSlot(Pending, TID, NO_ANSWERS, name, f))
  {
    FindFirst(First(HostSlot(GetResponse, 0, NO_ANSWERS, name, f)), Awaiting(1));
    FirstPut(HostSlot(GetResponse, 0, NO_ANSWERS, name, f), HostSlot(Pending, TID, NO_ANSWERS, name, f));
  }

  lemma HostIsAnswered(name: string, f: FileHandle)
    ensures Receive(Hosting(HostSlot(Pending, TID, NO_ANSWERS, name, f)), TransferReply(TID, GUEST, true)) ==
            Hosting(HostSlot(Active, TID, YES, name, f))
  {
    var s := HostSlot(Pending, TID, NO_ANSWERS, name, f);
    FindFirst(First(s), In(Pending, TID));
    assert IndexOf(TO, GUEST) == 0 && Len(TO) == 1 by {
      assert TO[1..][0] == 0;
    }
    assert NO_ANSWERS[0 := Accept] == YES && YES[0] == Accept;
    assert !AllDenied(TO, YES) && AllReplied(TO, YES);
    assert SetRequest(s, GUEST, true) == HostSlot(Active, TID, YES, name, f);
    FirstPut(s, HostSlot(Active, TID, YES, name, f));
  }

  lemma HostSends(name: string, f: FileHandle)
    requires Reading(f) && f.state == Working && Readable(Hosting(HostSlot(Active, TID, YES, name, f)))
    ensures var r := ReadWork(f, true);
            var p := Work(Hosting(HostSlot(Active, TID, YES, name, f)), true, true);
            && (r.file.state == Working ==>
                  p == Produced(Hosting(HostSlot(Active, TID, YES, name, r.file)), Some(TransferData(TID, r.bytes))))
            && (r.file.state != Working ==> p.packet == Some(TransferComplete(TID)))
  {
    var s := HostSlot(Active, TID, YES, name, f);
    FindFirst(First(s), HostBusy);
    ReadStep(f, true);
    hide ReadWork, Reading;
    FirstPut(s, HostSlot(Active, TID, YES, name, ReadWork(f, true).file));
  }

  // ---------------------------------------------------------------- the guest's manager

  function GuestSlot(state: State, name: string, f: FileHandle): Slot {
    Slot(state, Hdr(TID, HOST, TO), NO_ANSWERS, 0, name, f)
  }

  function Receiving(s: Slot): Manager {
    Manager(FREE_SLOTS, First(s), 1, [])
  }

  lemma NoHostBusy()
    ensures Find(FREE_SLOTS, HostBusy) == SIM_TRANSFERS_MAX
  {
    FindNone(FREE_SLOTS, HostBusy);
  }

  lemma GuestIsAsked(name: string, size: nat)
    ensures CanReceive(IDLE)
    ensures Receive(IDLE, TransferRequest(Request(Hdr(TID, HOST, TO), 1, name, size))) ==
            Receiving(GuestSlot(GetResponse, name, WriteFile(size)))
  {
    FindFirst(FREE_SLOTS, Free);
    FirstPut(FREE_SLOT, GuestSlot(GetResponse, name, WriteFile(size)));
  }

  lemma GuestDecides(name: string, f: FileHandle)
    ensures Execute(Receiving(GuestSlot(GetResponse, name, f)), CmdReply(TID, true)) == Receiving(GuestSlot(Accept,
            name, f))
  {
    FindFirst(First(GuestSlot(GetResponse, name, f)), In(GetResponse, TID));
    FirstPut(GuestSlot(GetResponse, name, f), GuestSlot(Accept, name, f));
  }

  lemma GuestReplies(name: string, f: FileHandle)
    ensures Readable(Receiving(GuestSlot(Accept, name, f)))
    ensures Work(Receiving(GuestSlot(Accept, name, f)), true, true) ==
            Produced(Receiving(GuestSlot(Active, name, f)), Some(TransferReply(TID, 0, true)))
  {
    NoHostBusy();
    FindFirst(First(GuestSlot(Accept, name, f)), RecvBusy);
    FirstPut(GuestSlot(Accept, name, f), GuestSlot(Active, name, f));
  }

  lemma GuestWrites(name: string, f: FileHandle, bytes: seq<byte>)
    requires f.size > 0
    ensures Receive(Receiving(GuestSlot(Active, name, f)), TransferData(TID, bytes)) ==
            Receiving(GuestSlot(Active, name, WriteWork(f, bytes)))
  {
    FindFirst(First(GuestSlot(Active, name, f)), In(Active, TID));
    FirstPut(GuestSlot(Active, name, f), GuestSlot(Active, name, WriteWork(f, bytes)));
  }

  lemma GuestCompletes(name: string, f: FileHandle)
    ensures var m := Receive(Receiving(GuestSlot(Active, name, f)), TransferComplete(TID));
            m.backlog == [Info(Completed, name)] && m.recv[0].file.disk == f.disk && m.recv[0].state == Empty
  {
    FindFirst(First(GuestSlot(Active, name, f)), In(Active, TID));
    assert [] + [Info(Completed, name)] == [Info(Completed, name)];
  }

  // ---------------------------------------------------------------- the server

  function Meeting(transfers: seq<Transfer>, rows: seq<Row>, next: TransferId): Server {
    Server(map[HOST := Conn(true, 1, "host"), GUEST := Conn(true, 1, "guest")], map["s" := 1], 2, transfers, rows, next)
  }

  const ONE_IN: Server := Server(map[HOST := Conn(true, 1, "host"), GUEST := Conn(false, 0, "")], map["s" := 1], 2,
        [], [], 1)
  const NONE_IN: Server := Server(map[HOST := Conn(false, 0, ""), GUEST := Conn(false, 0, "")], map[], 1, [], [], 1)

  lemma BothOrder(s: Server)
    requires s.conns.Keys == {HOST, GUEST}
    ensures IsOrder(BOTH, s.conns)
  {
    assert BOTH[0] == HOST && BOTH[1] == GUEST;
    assert forall id | id in s.conns :: id in s.conns.Keys;
    assert forall id | id in BOTH :: id in s.conns.Keys;
  }

  lemma OnlyFor(p: Packet, to: ClientId, id: ClientId)
    ensures For([Send(to, p)], id) == if id == to then [p] else []
  {
    assert [Send(to, p)][1..] == [];
  }

  lemma PeersOne(conns: map<ClientId, Conn>, id: ClientId, c: ClientId)
    ensures Peers(conns, [id], c, 1) ==
            if id != c && id in conns && conns[id].complete && conns[id].session == 1 then [id] else []
  {
    assert [id][1..] == [];
  }

  lemma HostJoins()
    ensures var r := Handle(NONE_IN, BOTH, HOST, ClientIntro("host", "s", 1));
            r.server == ONE_IN && r.sends == [Send(HOST, ServerOk)]
  {
    assert BOTH[1..] == [GUEST] && BOTH[1..][1..] == [];
    var conns := NONE_IN.conns[HOST := Conn(true, 1, "host")];
    assert conns == ONE_IN.conns;
    PeersOne(conns, GUEST, HOST);
    assert Peers(conns, BOTH, HOST, 1) == [];
    assert Handle(NONE_IN, BOTH, HOST, ClientIntro("host", "s", 1)).server.sessions == map["s" := 1];
  }

  lemma GuestJoins()
    ensures var r := Handle(ONE_IN, BOTH, GUEST, ClientIntro("guest", "s", 0));
            && r.server == Meeting([], [], 1)
            && For(r.sends, HOST) == [NewUsers([User(GUEST, "guest")])]
            && For(r.sends, GUEST) == [ServerOk, NewUsers([User(HOST, "host")])]
  {
    assert BOTH[1..] == [GUEST] && BOTH[1..][1..] == [];
    var conns := ONE_IN.conns[GUEST := Conn(true, 1, "guest")];
    assert conns == Meeting([], [], 1).conns;
    PeersOne(conns, GUEST, GUEST);
    assert Peers(conns, BOTH, GUEST, 1) == [HOST];
    assert UsersOf(conns, [HOST]) == [User(HOST, "host")];
    var a, b, c := Send(GUEST, ServerOk), Send(GUEST, NewUsers([User(HOST, "host")])), Send(HOST,
          NewUsers([User(GUEST, "guest")]));
    assert Fan(conns, [HOST], c.packet) == [c] by { assert [HOST][1..] == []; }
    var r := Handle(ONE_IN, BOTH, GUEST, ClientIntro("guest", "s", 0));
    assert r.sends == [a, b, c];
    assert [a, b, c][1..] == [b, c] && [b, c][1..] == [c] && [c][1..] == [];
    assert For([c], HOST) == [c.packet] && For([c], GUEST) == [];
    assert For([b, c], HOST) == [c.packet] && For([b, c], GUEST) == [b.packet];
  }

  lemma Listed()
    ensures Len(TO) == 1 && Recipients(TO) == [GUEST] && ProperList(TO, HOST)
  {
    assert TO[1..][0] == 0;
    assert Len(TO[1..]) == 0;
  }

  lemma TransferBegins(req: Request)
    requires req.hdr == Hdr(0, 0, TO)
    ensures var r := Handle(Meeting([], [], 1), BOTH, HOST, TransferRequest(req));
            && r.server == Meeting([Transfer(TID, HOST)], [Row(TID, GUEST, -1)], 2)
            && For(r.sends, HOST) == [TransferValid(req.(hdr := Hdr(TID, 0, TO)))]
            && For(r.sends, GUEST) == [TransferRequest(req.(hdr := Hdr(TID, HOST, TO)))]
  {
    Listed();
    var s := Meeting([], [], 1);
    assert TO[0] == GUEST && RecipientsOk(s, HOST, TO);
    assert NewRows(TID, [GUEST]) == [Row(TID, GUEST, -1)] by { assert [GUEST][1..] == []; }
    assert [] + [Transfer(TID, HOST)] == [Transfer(TID, HOST)] && [] + [Row(TID, GUEST, -1)] == [Row(TID, GUEST, -1)];
    var valid := Send(HOST, TransferValid(req.(hdr := Hdr(TID, 0, TO))));
    var p := TransferRequest(req.(hdr := Hdr(TID, HOST, TO)));
    assert Fan(s.conns, [GUEST], p) == [Send(GUEST, p)] by { assert [GUEST][1..] == []; }
    assert Handle(s, BOTH, HOST, TransferRequest(req)).sends == [valid, Send(GUEST, p)];
    assert [valid, Send(GUEST, p)][1..] == [Send(GUEST, p)];
    OnlyFor(p, GUEST, HOST);
    OnlyFor(p, GUEST, GUEST);
  }

  const OPEN: seq<Transfer> := [Transfer(1, 1)]
  const ASKED: seq<Row> := [Row(1, 2, -1)]
  const AGREED: seq<Row> := [Row(1, 2, 1)]

  lemma ReplyServed()
    ensures var r := Handle(Meeting(OPEN, ASKED, 2), BOTH, GUEST, TransferReply(TID, 0, true));
            && r.server == Meeting(OPEN, AGREED, 2)
            && For(r.sends, HOST) == [TransferReply(TID, GUEST, true)] && For(r.sends, GUEST) == []
  {
    assert ASKED[1..] == [];
    assert SetAccepted(ASKED, GUEST, TID, true) == AGREED;
    OnlyFor(TransferReply(TID, GUEST, true), HOST, HOST);
    OnlyFor(TransferReply(TID, GUEST, true), HOST, GUEST);
  }

  lemma AgreedClients()
    ensures Clients(AGREED, TID, Accepted) == [GUEST] && CreatedBy(OPEN, HOST) == [TID]
  {
    assert AGREED[1..] == [] && OPEN[1..] == [];
  }

  lemma DataServed(bytes: seq<byte>)
    ensures var p := TransferData(TID, bytes);
            var r := Handle(Meeting(OPEN, AGREED, 2), BOTH, HOST, p);
            r.server == Meeting(OPEN, AGREED, 2) && For(r.sends, GUEST) == [p] && For(r.sends, HOST) == []
  {
    AgreedClients();
    var p := TransferData(TID, bytes);
    FanFor(Meeting(OPEN, AGREED, 2).conns, [GUEST], p, GUEST);
    FanFor(Meeting(OPEN, AGREED, 2).conns, [GUEST], p, HOST);
  }

  lemma CompleteServed()
    ensures var p := TransferComplete(TID);
            var r := Handle(Meeting(OPEN, AGREED, 2), BOTH, HOST, p);
            r.server == Meeting([], [], 2) && For(r.sends, GUEST) == [p] && For(r.sends, HOST) == []
  {
    AgreedClients();
    var p := TransferComplete(TID);
    assert AGREED[1..] == [] && OPEN[1..] == [];
    assert WithoutRows(AGREED, TID) == [] && WithoutTransfer(OPEN, TID) == [];
    assert TID in CreatedBy(OPEN, HOST);
    FanFor(Meeting(OPEN, AGREED, 2).conns, [GUEST], p, GUEST);
    FanFor(Meeting(OPEN, AGREED, 2).conns, [GUEST], p, HOST);
  }

  // ---------------------------------------------------------------- the run

  lemma ReachServe(s: System, x: ClientId)
    requires Reachable(s) && x in s.peers && s.peers[x].up != [] && s.server.conns.Keys == {HOST, GUEST}
    requires x in s.server.conns
    ensures Reachable(ServeNext(s, x, BOTH))
  {
    hide Reachable, ServeNext, IsOrder;
    BothOrder(s.server);
    ReachNext(s, Serve(x, BOTH));
  }

  /** Serving the packet at the head of a client's stream. */
  lemma ServeStep(s: System, x: ClientId, host: Peer, guest: Peer, server: Server, toHost: seq<Packet>,
        toGuest: seq<Packet>)
    requires Reachable(s) && s == Pair(s.server, host, guest, s.origin, s.hosted, s.relayed)
    requires (x == HOST || x == GUEST) && s.peers[x].up != [] && s.server.conns.Keys == {HOST, GUEST}
    requires var p := s.peers[x].up[0];
             var r := Handle(s.server, BOTH, x, p);
             && !p.TransferRequest? && !p.TransferData?
             && r.server == server && For(r.sends, HOST) == toHost && For(r.sends, GUEST) == toGuest
    ensures Reachable(Pair(server, host.(up := if x == HOST then host.up[1..] else host.up, down := host.down + toHost),
                           guest.(up := if x == GUEST then guest.up[1..] else guest.up, down := guest.down + toGuest),
                           s.origin, s.hosted, s.relayed))
  {
    hide Reachable, Handle, For, ServeNext;
    ServedPeers(s, x, BOTH, host, guest);
    ServedPlain(s, x);
    ReachServe(s, x);
  }

  lemma ServedPlain(s: System, x: ClientId)
    requires x in s.peers && x in s.server.conns && s.peers[x].up != []
    requires !s.peers[x].up[0].TransferRequest? && !s.peers[x].up[0].TransferData?
    ensures var n := ServeNext(s, x, BOTH);
            && n.server == Handle(s.server, BOTH, x, s.peers[x].up[0]).server
            && n.origin == s.origin && n.hosted == s.hosted && n.relayed == s.relayed
  {
    hide Handle;
  }

  function Idle(users: seq<User>, joined: bool, up: seq<Packet>, down: seq<Packet>): Peer {
    Peer(IDLE, users, joined, up, down)
  }

  const INTRO_1: Packet := ClientIntro("host", "s", 1)
  const INTRO_2: Packet := ClientIntro("guest", "s", 0)

  lemma Connected()
    ensures Reachable(Pair(NONE_IN, NEW_PEER, NEW_PEER, map[], map[], map[]))
  {
    assert Possible(INITIAL, []) && After(INITIAL, []) == INITIAL;
    assert Reachable(INITIAL);
    hide Reachable;
    ReachNext(INITIAL, Connect(HOST));
    var s := Next(INITIAL, Connect(HOST));
    ReachNext(s, Connect(GUEST));
    var n := Next(s, Connect(GUEST));
    assert n.server.conns == NONE_IN.conns && n.peers == map[HOST := NEW_PEER, GUEST := NEW_PEER];
    assert n.server == NONE_IN;
  }

  lemma Met()
    ensures Reachable(Pair(Meeting([], [], 1), Idle([User(GUEST, "guest")], true, [], []),
                           Idle([User(HOST, "host")], true, [], []), map[], map[], map[]))
  {
    hide Reachable, Next, Enabled, Handle;
    Connected();
    Asked();
    var a := Pair(NONE_IN, Idle([], false, [INTRO_1], []), Idle([], false, [INTRO_2], []), map[], map[], map[]);
    HostJoins();
    OnlyFor(ServerOk, HOST, HOST);
    OnlyFor(ServerOk, HOST, GUEST);
    ServeStep(a, HOST, a.peers[HOST], a.peers[GUEST], ONE_IN, [ServerOk], []);
    var b := Pair(ONE_IN, Idle([], false, [], [ServerOk]), Idle([], false, [INTRO_2], []), map[], map[], map[]);
    assert [INTRO_1][1..] == [] && [INTRO_2][1..] == [];
    assert a.peers[HOST].(up := [], down := [] + [ServerOk]) == b.peers[HOST];
    assert a.peers[GUEST].(down := [] + []) == b.peers[GUEST];
    GuestJoins();
    var toHost, toGuest := [NewUsers([User(GUEST, "guest")])], [ServerOk, NewUsers([User(HOST, "host")])];
    ServeStep(b, GUEST, b.peers[HOST], b.peers[GUEST], Meeting([], [], 1), toHost, toGuest);
    assert [ServerOk] + toHost == [ServerOk, toHost[0]] && [] + toGuest == toGuest;
    Told();
  }

  /** Both clients ask for their session. */
  lemma Asked()
    requires Reachable(Pair(NONE_IN, NEW_PEER, NEW_PEER, map[], map[], map[]))
    ensures Reachable(Pair(NONE_IN, Idle([], false, [INTRO_1], []), Idle([], false, [INTRO_2], []), map[], map[],
            map[]))
  {
    hide Reachable;
    assert [] + [INTRO_1] == [INTRO_1] && [] + [INTRO_2] == [INTRO_2];
    var s := Pair(NONE_IN, NEW_PEER, NEW_PEER, map[], map[], map[]);
    var n := Pair(NONE_IN, Idle([], false, [INTRO_1], []), NEW_PEER, map[], map[], map[]);
    HostStep(s, n, NEW_PEER, NEW_PEER, Idle([], false, [INTRO_1], []), Ask(HOST, INTRO_1));
    GuestStep(n, Pair(NONE_IN, Idle([], false, [INTRO_1], []), Idle([], false, [INTRO_2], []), map[], map[], map[]),
              Idle([], false, [INTRO_1], []), NEW_PEER, Idle([], false, [INTRO_2], []), Ask(GUEST, INTRO_2));
  }

  /** Both clients hear that they have joined, and of each other. */
  lemma Told()
    requires var server := Meeting([], [], 1);
             Reachable(Pair(server, Idle([], false, [], [ServerOk, NewUsers([User(GUEST, "guest")])]),
                            Idle([], false, [], [ServerOk, NewUsers([User(HOST, "host")])]), map[], map[], map[]))
    ensures var server := Meeting([], [], 1);
            Reachable(Pair(server, Idle([User(GUEST, "guest")], true, [], []), Idle([User(HOST, "host")], true, [], []),
                           map[], map[], map[]))
  {
    hide Reachable;
    var server := Meeting([], [], 1);
    var u, v := NewUsers([User(GUEST, "guest")]), NewUsers([User(HOST, "host")]);
    var h0, h1, h2 := Idle([], false, [], [ServerOk, u]), Idle([], true, [], [u]), Idle(u.users, true, [], []);
    var g0, g1, g2 := Idle([], false, [], [ServerOk, v]), Idle([], true, [], [v]), Idle(v.users, true, [], []);
    assert [ServerOk, u][1..] == [u] && [u][1..] == [] && [ServerOk, v][1..] == [v] && [v][1..] == [];
    assert [] + u.users == u.users && [] + v.users == v.users;
    HostStep(Pair(server, h0, g0, map[], map[], map[]), Pair(server, h1, g0, map[], map[], map[]), h0, g0, h1,
          Deliver(HOST));
    HostStep(Pair(server, h1, g0, map[], map[], map[]), Pair(server, h2, g0, map[], map[], map[]), h1, g0, h2,
          Deliver(HOST));
    GuestStep(Pair(server, h2, g0, map[], map[], map[]), Pair(server, h2, g1, map[], map[], map[]), h2, g0, g1,
          Deliver(GUEST));
    GuestStep(Pair(server, h2, g1, map[], map[], map[]), Pair(server, h2, g2, map[], map[], map[]), h2, g1, g2,
          Deliver(GUEST));
  }

  // ---------------------------------------------------------------- the transfer

  const FELLOW_H: seq<User> := [User(2, "guest")]
  const FELLOW_G: seq<User> := [User(1, "host")]

  function HostPeer(m: Manager, up: seq<Packet>, down: seq<Packet>): Peer {
    Peer(m, FELLOW_H, true, up, down)
  }

  function GuestPeer(m: Manager, up: seq<Packet>, down: seq<Packet>): Peer {
    Peer(m, FELLOW_G, true, up, down)
  }

  function Offer(contents: seq<byte>): Files {
    map[(HOST, 1) := contents]
  }

  const BORN: Origins := map[1 := Origin(1, 1, TO)]

  /** The host is told to send a file. */
  lemma Ordered(name: string, contents: seq<byte>)
    requires contents != []
    ensures Reachable(Pair(Meeting([], [], 1),
                           HostPeer(Hosting(HostSlot(SendReq, 0, NO_ANSWERS, name, ReadFile(contents))), [], []),
                           GuestPeer(IDLE, [], []), map[], Offer(contents), map[]))
  {
    hide Reachable, Execute, Hosting, HostSlot, ReadFile, ProperList;
    Met();
    var h0, g := HostPeer(IDLE, [], []), GuestPeer(IDLE, [], []);
    var s := Pair(Meeting([], [], 1), h0, g, map[], map[], map[]);
    var a := Do(HOST, CmdRequest(name, contents, TO));
    Listed();
    HostRequests(name, contents);
    HostingNext(HostSlot(SendReq, 0, NO_ANSWERS, name, ReadFile(contents)));
    var h1 := HostPeer(Hosting(HostSlot(SendReq, 0, NO_ANSWERS, name, ReadFile(contents))), [], []);
    ReachNext(s, a);
    assert Next(s, a).peers == map[HOST := h1, GUEST := g];
    assert Next(s, a).hosted == Offer(contents);
  }

  /** The host has sent its request. */
  lemma Requested(name: string, contents: seq<byte>)
    requires contents != []
    ensures var f := ReadFile(contents);
            Reachable(Pair(Meeting([], [], 1),
                           HostPeer(Hosting(HostSlot(GetResponse, 0, NO_ANSWERS, name, f)),
                                    [TransferRequest(Request(Hdr(0, 0, TO), 1, name, f.size))], []),
                           GuestPeer(IDLE, [], []), map[], Offer(contents), map[]))
  {
    hide Reachable, Slots.Work, Hosting, ReadFile, Readable;
    Ordered(name, contents);
    var f := ReadFile(contents);
    var server, g := Meeting([], [], 1), GuestPeer(IDLE, [], []);
    var h1 := HostPeer(Hosting(HostSlot(SendReq, 0, NO_ANSWERS, name, f)), [], []);
    NoneActive(HostSlot(SendReq, 0, NO_ANSWERS, name, f));
    HostSendsRequest(name, f);
    var request := TransferRequest(Request(Hdr(0, 0, TO), 1, name, f.size));
    var h2 := HostPeer(Hosting(HostSlot(GetResponse, 0, NO_ANSWERS, name, f)), [request], []);
    assert [] + [request] == [request];
    HostStep(Pair(server, h1, g, map[], Offer(contents), map[]), Pair(server, h2, g, map[], Offer(contents), map[]),
             h1, g, h2, Produce(HOST, true, true));
  }

  lemma HostingNext(s: Slot)
    ensures Hosting(s).nextLocal == 2 && IDLE.nextLocal == 1
  {
  }

  lemma NoneActive(s: Slot)
    requires s.state == Active ==> Reading(s.file)
    ensures Readable(Hosting(s))
  {
  }

  /** Serving the request: the transfer is created, and history says what it is. */
  lemma Begun(name: string, contents: seq<byte>)
    requires contents != []
    ensures var f := ReadFile(contents);
            var req := Request(Hdr(TID, 0, TO), 1, name, f.size);
            Reachable(Pair(Meeting(OPEN, ASKED, 2),
                           HostPeer(Hosting(HostSlot(GetResponse, 0, NO_ANSWERS, name, f)), [], [TransferValid(req)]),
                           GuestPeer(IDLE, [], [TransferRequest(req.(hdr := Hdr(TID, HOST, TO)))]),
                           BORN, Offer(contents), map[TID := 0]))
  {
    hide Reachable, Handle, Hosting, HostSlot, ReadFile, For, ServeNext;
    Requested(name, contents);
    var f := ReadFile(contents);
    var sent := Request(Hdr(0, 0, TO), 1, name, f.size);
    var req := Request(Hdr(TID, 0, TO), 1, name, f.size);
    var m := Hosting(HostSlot(GetResponse, 0, NO_ANSWERS, name, f));
    var host, guest := HostPeer(m, [TransferRequest(sent)], []), GuestPeer(IDLE, [], []);
    var s := Pair(Meeting([], [], 1), host, guest, map[], Offer(contents), map[]);
    TransferBegins(sent);
    ServedPeers(s, HOST, BOTH, host, guest);
    ServedRequest(s);
    ReachServe(s, HOST);
    assert [TransferRequest(sent)][1..] == [];
    assert [] + [TransferValid(req)] == [TransferValid(req)];
    assert [] + [TransferRequest(req.(hdr := Hdr(TID, HOST, TO)))] == [TransferRequest(req.(hdr := Hdr(TID, HOST,
          TO)))];
    assert map[][TID := Origin(HOST, 1, TO)] == BORN;
  }

  lemma ServedRequest(s: System)
    requires HOST in s.peers && HOST in s.server.conns && s.peers[HOST].up != [] && s.peers[HOST].up[0].TransferRequest?
    requires Handle(s.server, BOTH, HOST, s.peers[HOST].up[0]).server.nextTid != s.server.nextTid
    ensures var n := ServeNext(s, HOST, BOTH);
            var req := s.peers[HOST].up[0].req;
            && n.server == Handle(s.server, BOTH, HOST, s.peers[HOST].up[0]).server && n.hosted == s.hosted
            && n.origin == s.origin[s.server.nextTid := Origin(HOST, req.local, req.hdr.to)]
            && n.relayed == s.relayed[s.server.nextTid := 0]
  {
    hide Handle;
  }

  /** The state in which the file flows: `n` bytes have been relayed. */
  function Flowing(name: string, contents: seq<byte>, f: FileHandle, g: FileHandle, n: nat): System {
    Pair(Meeting(OPEN, AGREED, 2),
         HostPeer(Hosting(HostSlot(Active, TID, YES, name, f)), [], []),
         GuestPeer(Receiving(GuestSlot(Active, name, g)), [], []), BORN, Offer(contents), map[TID := n])
  }

  /** Both sides take in what the server has sent them. */
  lemma Introduced(name: string, contents: seq<byte>)
    requires contents != []
    ensures var f, g := ReadFile(contents), WriteFile(|contents|);
            Reachable(Pair(Meeting(OPEN, ASKED, 2),
                           HostPeer(Hosting(HostSlot(Pending, TID, NO_ANSWERS, name, f)), [], []),
                           GuestPeer(Receiving(GuestSlot(GetResponse, name, g)), [], []), BORN, Offer(contents),
                                 map[TID := 0]))
  {
    hide Reachable, Receive, Hosting, Receiving, HostSlot, GuestSlot, CanReceive;
    Begun(name, contents);
    var f, g := ReadFile(contents), WriteFile(|contents|);
    var req := Request(Hdr(TID, 0, TO), 1, name, f.size);
    var ask := TransferRequest(req.(hdr := Hdr(TID, HOST, TO)));
    var server := Meeting(OPEN, ASKED, 2);
    var h0 := HostPeer(Hosting(HostSlot(GetResponse, 0, NO_ANSWERS, name, f)), [], [TransferValid(req)]);
    var h1 := HostPeer(Hosting(HostSlot(Pending, TID, NO_ANSWERS, name, f)), [], []);
    var g0 := GuestPeer(IDLE, [], [ask]);
    var g1 := GuestPeer(Receiving(GuestSlot(GetResponse, name, g)), [], []);
    HostIsValid(name, f);
    GuestIsAsked(name, f.size);
    assert [TransferValid(req)][1..] == [] && [ask][1..] == [];
    HostStep(Pair(server, h0, g0, BORN, Offer(contents), map[TID := 0]), Pair(server, h1, g0, BORN,
          Offer(contents), map[TID := 0]),
             h0, g0, h1, Deliver(HOST));
    GuestStep(Pair(server, h1, g0, BORN, Offer(contents), map[TID := 0]), Pair(server, h1, g1, BORN,
          Offer(contents), map[TID := 0]),
              h1, g0, g1, Deliver(GUEST));
  }

  /** The guest's user says yes. */
  lemma Decided(name: string, contents: seq<byte>)
    requires contents != []
    ensures var f, g := ReadFile(contents), WriteFile(|contents|);
            Reachable(Pair(Meeting(OPEN, ASKED, 2),
                           HostPeer(Hosting(HostSlot(Pending, TID, NO_ANSWERS, name, f)), [], []),
                           GuestPeer(Receiving(GuestSlot(Accept, name, g)), [], []), BORN, Offer(contents),
                                 map[TID := 0]))
  {
    hide Reachable, Execute, Hosting, Receiving, HostSlot, GuestSlot;
    Introduced(name, contents);
    var f, g := ReadFile(contents), WriteFile(|contents|);
    var server := Meeting(OPEN, ASKED, 2);
    var h := HostPeer(Hosting(HostSlot(Pending, TID, NO_ANSWERS, name, f)), [], []);
    var g1 := GuestPeer(Receiving(GuestSlot(GetResponse, name, g)), [], []);
    var g2 := GuestPeer(Receiving(GuestSlot(Accept, name, g)), [], []);
    GuestDecides(name, g);
    GuestStep(Pair(server, h, g1, BORN, Offer(contents), map[TID := 0]), Pair(server, h, g2, BORN, Offer(contents),
          map[TID := 0]),
              h, g1, g2, Do(GUEST, CmdReply(TID, true)));
  }

  /** The guest has sent its reply. */
  lemma Accepting(name: string, contents: seq<byte>)
    requires contents != []
    ensures var f, g := ReadFile(contents), WriteFile(|contents|);
            Reachable(Pair(Meeting(OPEN, ASKED, 2),
                           HostPeer(Hosting(HostSlot(Pending, TID, NO_ANSWERS, name, f)), [], []),
                           GuestPeer(Receiving(GuestSlot(Active, name, g)), [TransferReply(TID, 0, true)], []),
                           BORN, Offer(contents), map[TID := 0]))
  {
    hide Reachable, Slots.Work, Hosting, Receiving, HostSlot, GuestSlot, Readable;
    Decided(name, contents);
    var f, g := ReadFile(contents), WriteFile(|contents|);
    var server, reply := Meeting(OPEN, ASKED, 2), TransferReply(TID, 0, true);
    var h := HostPeer(Hosting(HostSlot(Pending, TID, NO_ANSWERS, name, f)), [], []);
    var g2 := GuestPeer(Receiving(GuestSlot(Accept, name, g)), [], []);
    var g3 := GuestPeer(Receiving(GuestSlot(Active, name, g)), [reply], []);
    GuestReplies(name, g);
    assert [] + [reply] == [reply];
    GuestStep(Pair(server, h, g2, BORN, Offer(contents), map[TID := 0]), Pair(server, h, g3, BORN, Offer(contents),
          map[TID := 0]),
              h, g2, g3, Produce(GUEST, true, true));
  }

  /** The reply reaches the host, and the file begins to flow. */
  lemma Starts(name: string, contents: seq<byte>)
    requires contents != []
    ensures Reachable(Flowing(name, contents, ReadFile(contents), WriteFile(|contents|), 0))
  {
    hide Reachable, Receive, Handle, Hosting, Receiving, HostSlot, GuestSlot, For;
    Accepting(name, contents);
    var f, g := ReadFile(contents), WriteFile(|contents|);
    var reply := TransferReply(TID, GUEST, true);
    var h0 := HostPeer(Hosting(HostSlot(Pending, TID, NO_ANSWERS, name, f)), [], []);
    var h1, h2 := h0.(down := [reply]), HostPeer(Hosting(HostSlot(Active, TID, YES, name, f)), [], []);
    var g0 := GuestPeer(Receiving(GuestSlot(Active, name, g)), [TransferReply(TID, 0, true)], []);
    var g1 := g0.(up := []);
    ReplyServed();
    ServeStep(Pair(Meeting(OPEN, ASKED, 2), h0, g0, BORN, Offer(contents), map[TID := 0]), GUEST, h0, g0,
              Meeting(OPEN, AGREED, 2), [reply], []);
    assert h0.(down := [] + [reply]) == h1 && g0.(up := [TransferReply(TID, 0, true)][1..], down := [] + []) == g1;
    HostIsAnswered(name, f);
    assert [reply][1..] == [];
    HostStep(Pair(Meeting(OPEN, AGREED, 2), h1, g1, BORN, Offer(contents), map[TID := 0]),
             Flowing(name, contents, f, g, 0), h1, g1, h2, Deliver(HOST));
  }

  /** The host's next packet is in its stream. */
  lemma PieceSent(name: string, contents: seq<byte>, f: FileHandle, g: FileHandle, n: nat)
    requires Reading(f) && f.state == Working && ReadWork(f, true).file.state == Working
    requires Reachable(Flowing(name, contents, f, g, n))
    ensures var r := ReadWork(f, true);
            Reachable(Pair(Meeting(OPEN, AGREED, 2),
                           HostPeer(Hosting(HostSlot(Active, TID, YES, name, r.file)), [TransferData(TID,
                                 r.bytes)], []),
                           GuestPeer(Receiving(GuestSlot(Active, name, g)), [], []), BORN, Offer(contents),
                                 map[TID := n]))
  {
    hide Reachable, Slots.Work, Hosting, Receiving, ReadWork, Reading, Readable;
    var r := ReadWork(f, true);
    var s := Flowing(name, contents, f, g, n);
    NoneActive(HostSlot(Active, TID, YES, name, f));
    HostSends(name, f);
    var now := HostPeer(Hosting(HostSlot(Active, TID, YES, name, r.file)), [TransferData(TID, r.bytes)], []);
    assert [] + [TransferData(TID, r.bytes)] == [TransferData(TID, r.bytes)];
    HostStep(s, Pair(s.server, now, s.peers[GUEST], BORN, Offer(contents), map[TID := n]),
             s.peers[HOST], s.peers[GUEST], now, Produce(HOST, true, true));
  }

  lemma ServedData(s: System)
    requires HOST in s.peers && HOST in s.server.conns && s.peers[HOST].up != [] && s.peers[HOST].up[0].TransferData?
    ensures var n := ServeNext(s, HOST, BOTH);
            var p := s.peers[HOST].up[0];
            && n.server == Handle(s.server, BOTH, HOST, p).server && n.hosted == s.hosted && n.origin == s.origin
            && (p.tid in s.relayed ==> n.relayed == s.relayed[p.tid := s.relayed[p.tid] + |p.bytes|])
  {
    hide Handle;
  }

  /** The server passes the piece on. */
  lemma Relayed(name: string, contents: seq<byte>, h: Manager, g: Manager, n: nat, bytes: seq<byte>)
    requires Reachable(Pair(Meeting(OPEN, AGREED, 2), HostPeer(h, [TransferData(TID, bytes)], []), GuestPeer(g, [], []),
                            BORN, Offer(contents), map[TID := n]))
    ensures Reachable(Pair(Meeting(OPEN, AGREED, 2), HostPeer(h, [], []), GuestPeer(g, [], [TransferData(TID, bytes)]),
                           BORN, Offer(contents), map[TID := n + |bytes|]))
  {
    hide Reachable, Handle, For, ServeNext;
    var data := TransferData(TID, bytes);
    var server := Meeting(OPEN, AGREED, 2);
    var h0, g0 := HostPeer(h, [data], []), GuestPeer(g, [], []);
    var s := Pair(server, h0, g0, BORN, Offer(contents), map[TID := n]);
    DataServed(bytes);
    ServedPeers(s, HOST, BOTH, h0, g0);
    ServedData(s);
    ReachServe(s, HOST);
    assert h0.(up := [data][1..], down := [] + []) == HostPeer(h, [], []);
    assert g0.(down := [] + [data]) == GuestPeer(g, [], [data]);
    assert map[TID := n][TID := n + |bytes|] == map[TID := n + |bytes|];
    assert ServeNext(s, HOST, BOTH) ==
           Pair(server, HostPeer(h, [], []), GuestPeer(g, [], [data]), BORN, Offer(contents), map[TID := n + |bytes|]);
  }

  /** One more piece of the file goes all the way. */
  lemma Flows(name: string, contents: seq<byte>, f: FileHandle, g: FileHandle, n: nat)
    requires Reading(f) && f.state == Working && ReadWork(f, true).file.state == Working && g.size > 0
    requires Reachable(Flowing(name, contents, f, g, n))
    ensures var r := ReadWork(f, true);
            Reachable(Flowing(name, contents, r.file, WriteWork(g, r.bytes), n + |r.bytes|))
  {
    hide Reachable, Receive, Hosting, Receiving, HostSlot, GuestSlot, ReadWork, WriteWork, Reading;
    PieceSent(name, contents, f, g, n);
    var r := ReadWork(f, true);
    var data := TransferData(TID, r.bytes);
    var h, m := Hosting(HostSlot(Active, TID, YES, name, r.file)), Receiving(GuestSlot(Active, name, g));
    Relayed(name, contents, h, m, n, r.bytes);
    GuestWrites(name, g, r.bytes);
    assert [data][1..] == [];
    var e := Flowing(name, contents, r.file, WriteWork(g, r.bytes), n + |r.bytes|);
    GuestStep(Pair(Meeting(OPEN, AGREED, 2), HostPeer(h, [], []), GuestPeer(m, [], [data]), BORN, Offer(contents),
                   map[TID := n + |r.bytes|]),
              e, HostPeer(h, [], []), GuestPeer(m, [], [data]), e.peers[GUEST], Deliver(GUEST));
  }

  lemma SentBound(f: FileHandle)
    requires Reading(f)
    ensures Sent(f) <= |f.disk|
  {
  }

  /** From any point on, the rest of the file flows, until the host finds its end. */
  lemma {:induction false} FlowsOn(name: string, contents: seq<byte>, f: FileHandle, g: FileHandle, n: nat)
    returns (f': FileHandle, g': FileHandle, n': nat)
    requires Reading(f) && f.state == Working && f.disk == contents && Writing(g) && g.state == Working
    requires g.size == |contents| && g.disk == contents[..Sent(f)] && Reachable(Flowing(name, contents, f, g, n))
    ensures Reading(f') && f'.state == Working && ReadWork(f', true).file.state != Working
    ensures g'.disk == contents && Reachable(Flowing(name, contents, f', g', n'))
    decreases |contents| - Sent(f)
  {
    hide Reachable, Flowing, ReadWork, WriteWork, Reading, Writing;
    ReadStep(f, true);
    SentBound(f);
    var r := ReadWork(f, true);
    if r.file.state == Working {
      Flows(name, contents, f, g, n);
      WriteStep(g, r.bytes);
      assert contents[..Sent(f)] + contents[Sent(f)..Sent(r.file)] == contents[..Sent(r.file)];
      f', g', n' := FlowsOn(name, contents, r.file, WriteWork(g, r.bytes), n + |r.bytes|);
    } else {
      f', g', n' := f, g, n;
      assert contents[..|contents|] == contents;
    }
  }

  /** The host once it has sent all of the file and the end of it. */
  function Ended(name: string, f: FileHandle): Manager
    requires Readable(Hosting(HostSlot(Active, TID, YES, name, f)))
  {
    Slots.Work(Hosting(HostSlot(Active, TID, YES, name, f)), true, true).manager
  }

  lemma HostEnds(name: string, f: FileHandle)
    requires Reading(f) && f.state == Working && ReadWork(f, true).file.state != Working
    ensures var m := Hosting(HostSlot(Active, TID, YES, name, f));
            Readable(m) && Slots.Work(m, true, true) == Produced(Ended(name, f), Some(TransferComplete(TID)))
  {
    hide Slots.Work, ReadWork, Reading, Readable;
    NoneActive(HostSlot(Active, TID, YES, name, f));
    HostSends(name, f);
  }

  /** The host reports the end. */
  lemma EndSent(name: string, contents: seq<byte>, f: FileHandle, g: FileHandle, n: nat)
    requires Reading(f) && f.state == Working && ReadWork(f, true).file.state != Working
    requires Reachable(Flowing(name, contents, f, g, n))
    ensures Readable(Hosting(HostSlot(Active, TID, YES, name, f)))
    ensures Reachable(Pair(Meeting(OPEN, AGREED, 2), HostPeer(Ended(name, f), [TransferComplete(TID)], []),
                           GuestPeer(Receiving(GuestSlot(Active, name, g)), [], []),
                           BORN, Offer(contents), map[TID := n]))
  {
    hide Reachable, Slots.Work, Hosting, HostSlot, Receiving, GuestSlot, ReadWork, Reading, Readable, Ended;
    HostEnds(name, f);
    var a, done := Flowing(name, contents, f, g, n), TransferComplete(TID);
    assert [] + [done] == [done];
    var h := HostPeer(Ended(name, f), [done], []);
    HostStep(a, Pair(a.server, h, a.peers[GUEST], BORN, Offer(contents), map[TID := n]), a.peers[HOST], a.peers[GUEST],
             h, Produce(HOST, true, true));
  }

  /** The server passes it on. */
  lemma EndPassed(h: Manager, m: Manager, contents: seq<byte>, n: nat)
    requires Reachable(Pair(Meeting(OPEN, AGREED, 2), HostPeer(h, [TransferComplete(TID)], []), GuestPeer(m, [], []),
                            BORN, Offer(contents), map[TID := n]))
    ensures Reachable(Pair(Meeting([], [], 2), HostPeer(h, [], []), GuestPeer(m, [], [TransferComplete(TID)]),
                           BORN, Offer(contents), map[TID := n]))
  {
    hide Reachable, Handle, For;
    var done := TransferComplete(TID);
    var h0, g0 := HostPeer(h, [done], []), GuestPeer(m, [], []);
    CompleteServed();
    assert [done][1..] == [];
    ServeStep(Pair(Meeting(OPEN, AGREED, 2), h0, g0, BORN, Offer(contents), map[TID := n]), HOST, h0, g0,
              Meeting([], [], 2), [], [done]);
    assert h0.(up := [], down := [] + []) == HostPeer(h, [], []);
    assert g0.(down := [] + [done]) == GuestPeer(m, [], [done]);
  }

  /** The guest completes. */
  lemma Ends(name: string, contents: seq<byte>, f: FileHandle, g: FileHandle, n: nat) returns (s: System)
    requires Reading(f) && f.state == Working && ReadWork(f, true).file.state != Working
    requires Reachable(Flowing(name, contents, f, g, n))
    ensures Reachable(s) && GUEST in s.peers
    ensures var m := s.peers[GUEST].manager;
            m.backlog == [Info(Completed, name)] && m.recv[0].file.disk == g.disk && m.recv[0].state == Empty
    ensures s.server.transfers == [] && s.server.rows == []
  {
    hide Reachable, Receive, Ended, Receiving, GuestSlot, Hosting, HostSlot, Readable, ReadWork, Reading, Flowing;
    EndSent(name, contents, f, g, n);
    EndPassed(Ended(name, f), Receiving(GuestSlot(Active, name, g)), contents, n);
    GuestCompletes(name, g);
    var done := TransferComplete(TID);
    assert [done][1..] == [];
    var h, g1 := HostPeer(Ended(name, f), [], []), GuestPeer(Receiving(GuestSlot(Active, name, g)), [], [done]);
    var g2 := GuestPeer(Receive(g1.manager, done), [], []);
    s := Pair(Meeting([], [], 2), h, g2, BORN, Offer(contents), map[TID := n]);
    GuestStep(Pair(Meeting([], [], 2), h, g1, BORN, Offer(contents), map[TID := n]), s, h, g1, g2, Deliver(GUEST));
  }

  /**
   Whatever the file, there is a run at the end of which the guest has logged COMPLETE and what it
   has written is the whole file, and the server has forgotten the transfer.
   */
  lemma FileArrives(name: string, contents: seq<byte>) returns (s: System)
    requires contents != []
    ensures Reachable(s) && GUEST in s.peers
    ensures var m := s.peers[GUEST].manager;
            m.backlog == [Info(Completed, name)] && m.recv[0].file.disk == contents && m.recv[0].state == Empty
    ensures s.server.transfers == [] && s.server.rows == []
  {
    hide Reachable, Flowing;
    Starts(name, contents);
    ReadFileReading(contents);
    WriteFileWriting(|contents|);
    assert contents[..0] == [];
    var f, g, n := FlowsOn(name, contents, ReadFile(contents), WriteFile(|contents|), 0);
    s := Ends(name, contents, f, g, n);
  }
}
