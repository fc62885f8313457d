/**
 The whole system as a state machine: one server, every client process that ever connected, and a
 FIFO stream in each direction between them. One action is one packet handled by the server, one
 packet handled by a client, one GUI command, one packet produced by do_work, or one disconnect.

 `origin`, `hosted` and `relayed` are history: which request a transfer came from, which file a
 request was for, and how many bytes of a transfer the server has handled.
 */
module Network {
  import opened Wire
  import opened Slots
  import opened ServerModel

  /** A client process, with its stream to the server and its stream from the server. */
  datatype Peer = Peer(
    manager: Manager, users: seq<User>, joined: bool, up: seq<Packet>, down: seq<Packet>)

  const NEW_PEER := Peer(IDLE, [], false, [], [])

  datatype Origin = Origin(creator: ClientId, local: LocalId, to: ToList)

  datatype System = System(
    server: Server,
    peers: map<ClientId, Peer>,
    origin: map<TransferId, Origin>,
    hosted: map<(ClientId, LocalId), seq<byte>>,
    relayed: map<TransferId, nat>)

  const INITIAL := System(START, map[], map[], map[], map[])

  datatype Action =
    | Connect(id: ClientId)
    | Ask(id: ClientId, intro: Packet)
    | Do(id: ClientId, cmd: Command)
    | Produce(id: ClientId, elapsed: bool, ok: bool)
    | Deliver(id: ClientId)
    | Serve(id: ClientId, order: seq<ClientId>)
    | Close(id: ClientId, order: seq<ClientId>)

  /** A listing of the connected clients, as the slots of the server's table give it. */
  predicate IsOrder(order: seq<ClientId>, conns: map<ClientId, Conn>) {
    && (forall i, j | 0 <= i < j < |order| :: order[i] != order[j])
    && (forall id | id in order :: id in conns)
    && (forall id | id in conns :: id in order)
  }

  predicate Enabled(s: System, a: Action) {
    match a
    case Connect(id) => id != 0 && id !in s.peers
    case Ask(id, intro) => id in s.peers && intro.ClientIntro?
    case Do(id, cmd) =>
      id in s.peers && (cmd.CmdRequest? ==> s.peers[id].joined && ProperList(cmd.to, id))
    case Produce(id, _, _) => id in s.peers && Readable(s.peers[id].manager)
    case Deliver(id) =>
      && id in s.peers && s.peers[id].down != []
      && (s.peers[id].down[0].TransferRequest? ==> CanReceive(s.peers[id].manager))
    case Serve(id, order) =>
      id in s.peers && id in s.server.conns && s.peers[id].up != [] && IsOrder(order, s.server.conns)
    case Close(id, order) => id in s.server.conns && IsOrder(order, s.server.conns)
  }

  // ---------------------------------------------------------------- the effect of an action

  /** Network::analize. */
  function Analize(p: Peer, packet: Packet): Peer {
    match packet
    case ServerOk => p.(joined := true)
    case NewUsers(users) => p.(users := p.users + users)
    case DelUser(user) => p.(users := RemoveUser(p.users, user.id))
    case _ => p.(manager := Receive(p.manager, packet))
  }

  /** User_List::remove_user: erase the first entry with the id. */
  function RemoveUser(users: seq<User>, id: ClientId): seq<User> {
    if users == [] then []
    else if users[0].id == id then users[1..]
    else [users[0]] + RemoveUser(users[1..], id)
  }

  function Broadcast(peers: map<ClientId, Peer>, sends: seq<Send>): (r: map<ClientId, Peer>)
    ensures r.Keys == peers.Keys
    ensures forall id | id in peers :: r[id] == peers[id].(down := peers[id].down + For(sends, id))
  {
    map id | id in peers :: peers[id].(down := peers[id].down + For(sends, id))
  }

  function React(s: System, r: Reaction): System {
    s.(server := r.server, peers := Broadcast(s.peers, r.sends))
  }

  function Host(s: System, id: ClientId, c: Command): System
    requires id in s.peers
  {
    var m := s.peers[id].manager;
    var n := Execute(m, c);
    var t := s.(peers := s.peers[id := s.peers[id].(manager := n)]);
    if c.CmdRequest? && n.nextLocal != m.nextLocal
    then t.(hosted := t.hosted[(id, m.nextLocal) := c.contents])
    else t
  }

  function ServeNext(s: System, id: ClientId, order: seq<ClientId>): System
    requires id in s.peers && id in s.server.conns && s.peers[id].up != []
  {
    var p := s.peers[id].up[0];
    var popped := s.(peers := s.peers[id := s.peers[id].(up := s.peers[id].up[1..])]);
    var r := Handle(s.server, order, id, p);
    var t := React(popped, r);
    match p
    case TransferRequest(req) =>
      if r.server.nextTid != s.server.nextTid
      then t.(origin := s.origin[s.server.nextTid := Origin(id, req.local, req.hdr.to)],
              relayed := s.relayed[s.server.nextTid := 0])
      else t
    case TransferData(tid, bytes) =>
      if tid in s.relayed then t.(relayed := s.relayed[tid := s.relayed[tid] + |bytes|]) else t
    case _ => t
  }

  function Next(s: System, a: Action): System
    requires Enabled(s, a)
  {
    match a
    case Connect(id) =>
      s.(server := s.server.(conns := s.server.conns[id := Conn(false, 0, "")]),
         peers := s.peers[id := NEW_PEER])
    case Ask(id, intro) => s.(peers := s.peers[id := s.peers[id].(up := s.peers[id].up + [intro])])
    case Do(id, cmd) => Host(s, id, cmd)
    case Produce(id, elapsed, ok) =>
      var r := Slots.Work(s.peers[id].manager, elapsed, ok);
      s.(peers := s.peers[id := s.peers[id].(
           manager := r.manager,
           up := s.peers[id].up + (if r.packet.Some? then [r.packet.value] else []))])
    case Deliver(id) =>
      var p := s.peers[id];
      s.(peers := s.peers[id := Analize(p.(down := p.down[1..]), p.down[0])])
    case Serve(id, order) => ServeNext(s, id, order)
    case Close(id, order) => React(s, CloseClient(s.server, order, id))
  }

  // ---------------------------------------------------------------- runs

  predicate Possible(s: System, run: seq<Action>)
    decreases |run|
  {
    run == [] || (Enabled(s, run[0]) && Possible(Next(s, run[0]), run[1..]))
  }

  function After(s: System, run: seq<Action>): System
    requires Possible(s, run)
    decreases |run|
  {
    if run == [] then s else After(Next(s, run[0]), run[1..])
  }

  /** The states the system can get into. */
  ghost predicate Reachable(s: System) {
    exists run :: Possible(INITIAL, run) && After(INITIAL, run) == s
  }
}
