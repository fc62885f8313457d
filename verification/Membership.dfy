/**
 Every client's user list is a replica of the server's client table: whatever NEW_USERS and DEL_USERS
 messages are still on their way to a client, applying them to its list gives the other COMPLETE
 clients of its session.
 */
module Membership {
  import opened Wire
  import opened Slots
  import opened ServerModel
  import opened Tables
  import opened Sends
  import opened Network
  import opened WellTyped
  import opened Typing
  import opened Simulation
  import opened Preservation
  import opened Guarantees

  /** The user list once the messages of a stream have been handled. */
  function Replay(users: seq<User>, q: seq<Packet>): seq<User>
    decreases |q|
  {
    if q == [] then users
    else
      match q[0]
      case NewUsers(more) => Replay(users + more, q[1..])
      case DelUser(gone) => Replay(RemoveUser(users, gone.id), q[1..])
      case _ => Replay(users, q[1..])
  }

  predicate Silent(q: seq<Packet>) {
    forall p | p in q :: !p.NewUsers? && !p.DelUser?
  }

  lemma {:induction false} ReplaySilent(users: seq<User>, q: seq<Packet>)
    requires Silent(q)
    ensures Replay(users, q) == users
  {
    if q != [] {
      assert q[0] in q;
      ReplaySilent(users, q[1..]);
    }
  }

  lemma {:induction false} ReplayAppend(users: seq<User>, p: seq<Packet>, q: seq<Packet>)
    ensures Replay(users, p + q) == Replay(Replay(users, p), q)
    decreases |p|
  {
    if p == [] {
      assert p + q == q;
    } else {
      assert (p + q)[1..] == p[1..] + q;
      match p[0]
      case NewUsers(more) => ReplayAppend(users + more, p[1..], q);
      case DelUser(gone) => ReplayAppend(RemoveUser(users, gone.id), p[1..], q);
      case _ => ReplayAppend(users, p[1..], q);
    }
  }

  // ---------------------------------------------------------------- agreement

  /** The client `y` is to be on the list of client `x`. */
  predicate Fellow(conns: map<ClientId, Conn>, x: ClientId, y: ClientId) {
    && x in conns && y in conns && y != x && conns[x].complete && conns[y].complete
    && conns[x].session == conns[y].session
  }

  predicate DistinctUsers(users: seq<User>) {
    forall i, j | 0 <= i < j < |users| :: users[i].id != users[j].id
  }

  /** A list that has every fellow of `x` on it once, under its name, and nobody else. */
  ghost predicate Lists(conns: map<ClientId, Conn>, x: ClientId, users: seq<User>) {
    && DistinctUsers(users)
    && (forall u | u in users :: Fellow(conns, x, u.id) && u.name == conns[u.id].name)
    && (forall y :: Fellow(conns, x, y) ==> User(y, conns[y].name) in users)
  }

  ghost predicate Agrees(conns: map<ClientId, Conn>, x: ClientId, p: Peer) {
    Lists(conns, x, Replay(p.users, p.down))
  }

  ghost predicate AllAgree(s: System) {
    forall x | x in s.server.conns && x in s.peers :: Agrees(s.server.conns, x, s.peers[x])
  }

  // ---------------------------------------------------------------- lists

  lemma DistinctTail(users: seq<User>)
    requires users != [] && DistinctUsers(users)
    ensures DistinctUsers(users[1..])
    ensures forall u | u in users[1..] :: u.id != users[0].id
    ensures forall u :: u in users <==> u == users[0] || u in users[1..]
  {
    forall u | u in users[1..]
      ensures u.id != users[0].id
    {
      var i :| 0 <= i < |users[1..]| && users[1..][i] == u;
      assert users[i + 1] == u;
    }
    assert users == [users[0]] + users[1..];
  }

  lemma DistinctCons(u: User, users: seq<User>)
    requires DistinctUsers(users) && forall v | v in users :: v.id != u.id
    ensures DistinctUsers([u] + users)
    ensures forall v :: v in [u] + users <==> v == u || v in users
  {
  }

  lemma {:induction false} RemoveMember(users: seq<User>, id: ClientId)
    requires DistinctUsers(users)
    ensures DistinctUsers(RemoveUser(users, id))
    ensures forall u :: u in RemoveUser(users, id) <==> u in users && u.id != id
  {
    hide DistinctUsers;
    if users != [] {
      DistinctTail(users);
      RemoveMember(users[1..], id);
      if users[0].id != id {
        DistinctCons(users[0], RemoveUser(users[1..], id));
      }
    }
  }

  lemma {:induction false} UsersOfMember(conns: map<ClientId, Conn>, ids: seq<ClientId>)
    requires forall id | id in ids :: id in conns
    requires Distinct(ids)
    ensures DistinctUsers(UsersOf(conns, ids))
    ensures forall u :: u in UsersOf(conns, ids) <==> u.id in ids && u.name == conns[u.id].name
  {
    if ids != [] {
      assert Distinct(ids[1..]);
      assert ids[0] !in ids[1..];
      UsersOfMember(conns, ids[1..]);
    }
  }

  lemma NonEmptyMember(users: seq<User>)
    ensures users != [] ==> exists u :: u in users
  {
    if users != [] {
      assert users[0] in users;
    }
  }

  lemma EmptyLists(conns: map<ClientId, Conn>, x: ClientId, users: seq<User>)
    requires Lists(conns, x, users) && (x in conns ==> !conns[x].complete)
    ensures users == []
  {
    NonEmptyMember(users);
  }

  /** A client that joins finds everybody on the list it is sent. */
  lemma JoinerLists(conns: map<ClientId, Conn>, order: seq<ClientId>, c: ClientId)
    requires c in conns && conns[c].complete && IsOrder(order, conns)
    ensures var peers := Peers(conns, order, c, conns[c].session);
            (forall id | id in peers :: id in conns) && Lists(conns, c, UsersOf(conns, peers))
  {
    var peers := Peers(conns, order, c, conns[c].session);
    PeersConnected(conns, order, c, conns[c].session);
    PeersDistinct(conns, order, c, conns[c].session);
    UsersOfMember(conns, peers);
  }

  /** Everybody else puts the joiner on the list, or has nothing to do with it. */
  lemma OthersList(was: map<ClientId, Conn>, c: ClientId, conn: Conn, x: ClientId, users: seq<User>)
    requires c in was && !was[c].complete && conn.complete && x != c && Lists(was, x, users)
    ensures var now := was[c := conn];
            Lists(now, x, if Fellow(now, x, c) then users + [User(c, conn.name)] else users)
  {
  }

  lemma LeaverRemoved(was: map<ClientId, Conn>, c: ClientId, x: ClientId, users: seq<User>)
    requires c in was && x in was && x != c && Lists(was, x, users)
    ensures Lists(was - {c}, x, if Fellow(was, x, c) then RemoveUser(users, c) else users)
  {
    RemoveMember(users, c);
    var now := was - {c};
    assert forall y :: Fellow(now, x, y) <==> Fellow(was, x, y) && y != c;
  }

  // ---------------------------------------------------------------- the handlers

  /** No packet but an intro makes the server announce anybody. */
  lemma {:induction false} HandleSilent(s: Server, order: seq<ClientId>, c: ClientId, p: Packet, id: ClientId)
    requires c in s.conns && !p.ClientIntro?
    ensures Silent(For(Handle(s, order, c, p).sends, id))
  {
    ForMember(Handle(s, order, c, p).sends, id);
    match p
    case TransferRequest(req) =>
      var q := TransferRequest(req.(hdr := req.hdr.(tid := s.nextTid, from := c)));
      FanMember(s.conns, Recipients(req.hdr.to), q);
    case TransferData(t, _) => FanMember(s.conns, Clients(s.rows, t, Accepted), p);
    case TransferComplete(t) => FanMember(s.conns, Clients(s.rows, t, Accepted), p);
    case TransferCancel(t, _) =>
      FanMember(s.conns, Clients(s.rows, t, NotDenied), TransferCancel(t, c));
      var joined := JoinedBy(s.transfers, s.rows, c);
      var i := FindTransfer(joined, t);
      if i < |joined| { FanMember(s.conns, [joined[i].creator], TransferCancel(t, c)); }
    case _ =>
  }

  /** The client table and the packets after an intro. */
  lemma IntroShape(s: Server, order: seq<ClientId>, c: ClientId, p: Packet)
    requires c in s.conns && p.ClientIntro?
    ensures var r := PacketIntro(s, order, c, p);
            if r.server == s then r.sends == [Send(c, ServerDeny)]
            else
              var now := r.server.conns;
              c in now &&
              var peers := Peers(now, order, c, now[c].session);
              && !s.conns[c].complete && now == s.conns[c := now[c]] && now[c].complete
              && (forall y | y in peers :: y in now)
              && r.sends == Welcome(c, UsersOf(now, peers)) + Fan(now, peers, NewUsers([User(c, now[c].name)]))
  {
    var r := PacketIntro(s, order, c, p);
    if r.server != s {
      PeersConnected(r.server.conns, order, c, r.server.conns[c].session);
    }
  }

  function Welcome(c: ClientId, users: seq<User>): seq<Send> {
    [Send(c, ServerOk)] + (if users == [] then [] else [Send(c, NewUsers(users))])
  }

  lemma WelcomeFor(c: ClientId, users: seq<User>, id: ClientId)
    ensures For(Welcome(c, users), id) ==
            if id != c then [] else [ServerOk] + (if users == [] then [] else [NewUsers(users)])
  {
    assert Welcome(c, users)[1..] == if users == [] then [] else [Send(c, NewUsers(users))];
    assert For([Send(c, NewUsers(users))], id) == if id == c then [NewUsers(users)] else [] by {
      assert [Send(c, NewUsers(users))][1..] == [];
    }
  }

  /** What each client is sent when an intro is accepted. */
  lemma IntroSends(s: Server, order: seq<ClientId>, c: ClientId, p: Packet, id: ClientId)
    requires c in s.conns && p.ClientIntro? && IsOrder(order, s.conns) && id in s.conns
    requires PacketIntro(s, order, c, p).server != s
    ensures var r := PacketIntro(s, order, c, p);
            var now := r.server.conns;
            c in now &&
            var peers := Peers(now, order, c, now[c].session);
            && !s.conns[c].complete && now == s.conns[c := now[c]] && now[c].complete && IsOrder(order, now)
            && (forall y | y in peers :: y in now)
            && (id == c ==>
                  For(r.sends, c) == [ServerOk] + (if peers == [] then [] else [NewUsers(UsersOf(now, peers))]))
            && (id != c ==>
                  For(r.sends, id) == if Fellow(now, id, c) then [NewUsers([User(c, now[c].name)])] else [])
  {
    hide PacketIntro, Welcome, Fellow, Fan, For, Peers, UsersOf;
    IntroShape(s, order, c, p);
    var now := PacketIntro(s, order, c, p).server.conns;
    var peers := Peers(now, order, c, now[c].session);
    var news := NewUsers([User(c, now[c].name)]);
    NewsFor(now, order, c, news, id);
    WelcomeFor(c, UsersOf(now, peers), id);
    UsersOfEmpty(now, peers);
    ForAppend(Welcome(c, UsersOf(now, peers)), Fan(now, peers, news), id);
    NotOwnFellow(now, c);
  }

  lemma NotOwnFellow(conns: map<ClientId, Conn>, c: ClientId)
    ensures !Fellow(conns, c, c)
  {
  }

  lemma UsersOfEmpty(conns: map<ClientId, Conn>, ids: seq<ClientId>)
    requires forall id | id in ids :: id in conns
    ensures UsersOf(conns, ids) == [] <==> ids == []
  {
  }

  /** An announcement to the peers of a client reaches exactly its fellows. */
  lemma NewsFor(conns: map<ClientId, Conn>, order: seq<ClientId>, c: ClientId, news: Packet, id: ClientId)
    requires c in conns && conns[c].complete && IsOrder(order, conns) && id in conns
    ensures For(Fan(conns, Peers(conns, order, c, conns[c].session), news), id) ==
            if Fellow(conns, id, c) then [news] else []
  {
    var peers := Peers(conns, order, c, conns[c].session);
    PeersConnected(conns, order, c, conns[c].session);
    PeersDistinct(conns, order, c, conns[c].session);
    FanFor(conns, peers, news, id);
  }

  lemma DenySilent(c: ClientId, id: ClientId)
    ensures Silent(For([Send(c, ServerDeny)], id))
  {
  }

  /** What a client that does not close is sent when client `c` closes, as far as its list goes. */
  lemma CloseReplay(s: Server, o: Origins, order: seq<ClientId>, c: ClientId, x: ClientId, users: seq<User>)
    requires TablesOk(s, o) && c in s.conns && c != 0 && x in s.conns && x != c && IsOrder(order, s.conns)
    ensures Replay(users, For(CloseClient(s, order, c).sends, x)) ==
            if Fellow(s.conns, x, c) then RemoveUser(users, c) else users
  {
    hide TablesOk, RemoveUser;
    if s.conns[c].complete {
      var ts := CreatedBy(s.transfers, c);
      var r := CancelCreated(s, c, ts).server;
      var a := CancelsFor(s.rows, ts, c, x);
      var b := CancelsTo(JoinedBy(r.transfers, r.rows, c), c, x);
      var gone := DelUser(User(c, s.conns[c].name));
      CloseSends(s, o, order, c, x);
      CancelsSilent(s.rows, ts, JoinedBy(r.transfers, r.rows, c), c, x);
      ReplaySilent(users, a + b);
      ReplayAppend(users, a + b, [gone]);
      assert a + b + [] == a + b;
    }
  }

  lemma CancelsSilent(rows: seq<Row>, ts: seq<TransferId>, joined: seq<Transfer>, c: ClientId, x: ClientId)
    ensures Silent(CancelsFor(rows, ts, c, x) + CancelsTo(joined, c, x))
  {
  }

  // ---------------------------------------------------------------- the actions

  /** A step that changes no client table, and no list but by handling the head of a stream. */
  lemma SameLists(s: System, n: System)
    requires AllAgree(s) && n.server.conns == s.server.conns && n.peers.Keys == s.peers.Keys
    requires forall x | x in s.peers ::
               Replay(n.peers[x].users, n.peers[x].down) == Replay(s.peers[x].users, s.peers[x].down)
    ensures AllAgree(n)
  {
  }

  lemma DeliverReplay(p: Peer)
    requires p.down != []
    ensures Replay(Delivered(p).users, Delivered(p).down) == Replay(p.users, p.down)
  {
  }

  lemma ServeAgrees(s: System, c: ClientId, order: seq<ClientId>)
    requires AllAgree(s) && c in s.peers && c in s.server.conns && s.peers[c].up != [] && IsOrder(order, s.server.conns)
    ensures AllAgree(ServeNext(s, c, order))
  {
    hide Handle, Lists, RemoveUser;
    var p := s.peers[c].up[0];
    var e := ServeNext(s, c, order);
    var re := Handle(s.server, order, c, p);
    assert e.server == re.server;
    forall x | x in e.server.conns && x in e.peers
      ensures Agrees(e.server.conns, x, e.peers[x])
    {
      var users := Replay(s.peers[x].users, s.peers[x].down);
      ServeKeepsConns(s.server, order, c, p);
      assert Agrees(s.server.conns, x, s.peers[x]);
      ReplayAppend(s.peers[x].users, s.peers[x].down, For(re.sends, x));
      ServedList(s.server, order, c, p, x, users);
    }
  }

  lemma ServedList(s: Server, order: seq<ClientId>, c: ClientId, p: Packet, x: ClientId, users: seq<User>)
    requires c in s.conns && x in s.conns && IsOrder(order, s.conns) && Lists(s.conns, x, users)
    ensures var r := Handle(s, order, c, p);
            Lists(r.server.conns, x, Replay(users, For(r.sends, x)))
  {
    hide Lists, PacketTransfer, PacketReply, PacketComplete, PacketCancel, PacketIntro, PacketData;
    var r := Handle(s, order, c, p);
    if p.ClientIntro? {
      IntroShape(s, order, c, p);
      if r.server != s { IntroSends(s, order, c, p, x); }
      if r.server == s {
        DenySilent(c, x);
        ReplaySilent(users, For(r.sends, x));
      } else if x == c {
        EmptyLists(s.conns, c, users);
        JoinerLists(r.server.conns, order, c);
        JoinReplay(UsersOf(r.server.conns, Peers(r.server.conns, order, c, r.server.conns[c].session)));
      } else {
        OthersList(s.conns, c, r.server.conns[c], x, users);
        JoinedReplay(users, User(c, r.server.conns[c].name));
      }
    } else {
      HandleSilent(s, order, c, p, x);
      HandleKeepsTable(s, order, c, p);
      ReplaySilent(users, For(r.sends, x));
    }
  }

  lemma JoinReplay(users: seq<User>)
    ensures Replay([], [ServerOk, NewUsers(users)]) == users
    ensures Replay([], [ServerOk]) == []
  {
    assert [] + users == users;
    assert [ServerOk, NewUsers(users)][1..] == [NewUsers(users)];
    assert Replay([], [NewUsers(users)]) == Replay(users, []);
  }

  lemma JoinedReplay(users: seq<User>, u: User)
    ensures Replay(users, [NewUsers([u])]) == users + [u]
    ensures Replay(users, []) == users
  {
  }

  lemma HandleKeepsTable(s: Server, order: seq<ClientId>, c: ClientId, p: Packet)
    requires c in s.conns && !p.ClientIntro?
    ensures Handle(s, order, c, p).server.conns == s.conns
  {
  }

  lemma CloseAgrees(s: System, c: ClientId, order: seq<ClientId>)
    requires Typed(s) && AllAgree(s) && c in s.server.conns && IsOrder(order, s.server.conns)
    ensures AllAgree(React(s, CloseClient(s.server, order, c)))
  {
    hide Typed, TablesOk, CloseClient, Lists, RemoveUser;
    var re := CloseClient(s.server, order, c);
    var e := React(s, re);
    assert TablesOk(s.server, s.origin) && c != 0 by { TypedTables(s, c); }
    CloseTables(s.server, s.origin, order, c);
    forall x | x in e.server.conns && x in e.peers
      ensures Agrees(e.server.conns, x, e.peers[x])
    {
      var users := Replay(s.peers[x].users, s.peers[x].down);
      assert Agrees(s.server.conns, x, s.peers[x]);
      ReplayAppend(s.peers[x].users, s.peers[x].down, For(re.sends, x));
      CloseReplay(s.server, s.origin, order, c, x, users);
      LeaverRemoved(s.server.conns, c, x, users);
    }
  }

  lemma TypedTables(s: System, c: ClientId)
    requires Typed(s) && c in s.server.conns
    ensures TablesOk(s.server, s.origin) && c != 0
  {
  }

  lemma ConnectAgrees(s: System, c: ClientId)
    requires AllAgree(s) && c !in s.peers && c !in s.server.conns
    ensures AllAgree(s.(server := s.server.(conns := s.server.conns[c := Conn(false, 0, "")]),
                        peers := s.peers[c := NEW_PEER]))
  {
  }

  /** Every action keeps all replicas in agreement with the server's table. */
  lemma NextAgrees(s: System, a: Action)
    requires Typed(s) && AllAgree(s) && Enabled(s, a)
    ensures AllAgree(Next(s, a))
  {
    hide Typed, AllAgree, ServeNext, CloseClient, Execute, Slots.Work, Readable, CanReceive, IsOrder;
    hide Replay, RemoveUser;
    match a
    case Connect(c) => NotConnected(s, c); ConnectAgrees(s, c);
    case Ask(c, intro) => SameLists(s, Next(s, a));
    case Do(c, cmd) => SameLists(s, Next(s, a));
    case Produce(c, elapsed, ok) => SameLists(s, Next(s, a));
    case Deliver(c) => DeliverReplay(s.peers[c]); SameLists(s, Next(s, a));
    case Serve(c, order) => ServeAgrees(s, c, order);
    case Close(c, order) => CloseAgrees(s, c, order);
  }

  lemma NotConnected(s: System, c: ClientId)
    requires Typed(s) && c !in s.peers
    ensures c !in s.server.conns
  {
  }

  lemma {:induction false} RunAgrees(s: System, run: seq<Action>)
    requires Typed(s) && AllAgree(s) && Possible(s, run)
    ensures AllAgree(After(s, run))
    decreases |run|
  {
    hide Typed, AllAgree, Enabled, Next;
    if run != [] {
      NextTyped(s, run[0]);
      NextAgrees(s, run[0]);
      RunAgrees(Next(s, run[0]), run[1..]);
    }
  }

  /**
   In every reachable state, for every COMPLETE client: its user list, with the NEW and DEL messages
   that are queued for it applied, has every other COMPLETE client of its session on it exactly once,
   under the name the server knows, and nobody else.
   */
  lemma ReplicasAgree(s: System, x: ClientId)
    requires Reachable(s) && x in s.server.conns && s.server.conns[x].complete
    ensures x in s.peers
    ensures var users := Replay(s.peers[x].users, s.peers[x].down);
            && DistinctUsers(users)
            && (forall u | u in users :: Fellow(s.server.conns, x, u.id) && u.name == s.server.conns[u.id].name)
            && (forall y :: Fellow(s.server.conns, x, y) ==> User(y, s.server.conns[y].name) in users)
  {
    hide Typed, Possible, After, Replay;
    var run :| Possible(INITIAL, run) && After(INITIAL, run) == s;
    InitialTyped();
    RunAgrees(INITIAL, run);
    ReachableInvariant(s);
    ConnIsPeer(s, x);
    assert Agrees(s.server.conns, x, s.peers[x]);
  }
}
