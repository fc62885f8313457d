/**
 What the server computes, on values: the client table, the Transfers and TransferClients tables,
 and one function per packet handler (qs_server/src/net_packet.c) and for close_client
 (qs_server/src/net_close.c). A handler returns the new server and the packets it enqueues, in order.

 Client lookups are by id. `order` lists the connected clients in the order of their slots.
 */
module ServerModel {
  import opened Wire

  type SessionId = nat

  /** A client slot in use; `complete` is state C_COMPLETE, reached when the intro is accepted. */
  datatype Conn = Conn(complete: bool, session: SessionId, name: string)

  datatype Transfer = Transfer(tid: TransferId, creator: ClientId)

  const UNANSWERED: int := -1

  /** A TransferClients row; `accepted` is -1 until the client replies, then 0 or 1. */
  datatype Row = Row(tid: TransferId, client: ClientId, accepted: int)

  /** What the table says about one transfer and one client. */
  datatype Entry = NoRow | Is(accepted: int)

  datatype Server = Server(
    conns: map<ClientId, Conn>,
    sessions: map<string, SessionId>, nextSession: SessionId,
    transfers: seq<Transfer>, rows: seq<Row>, nextTid: TransferId)

  const START := Server(map[], map[], 1, [], [], 1)

  datatype Send = Send(to: ClientId, packet: Packet)

  datatype Reaction = Reaction(server: Server, sends: seq<Send>)

  /** The packets of a run of sends that go to one client, in order. */
  function For(sends: seq<Send>, id: ClientId): seq<Packet> {
    if sends == [] then []
    else if sends[0].to == id then [sends[0].packet] + For(sends[1..], id)
    else For(sends[1..], id)
  }

  // ---------------------------------------------------------------- the two transfer tables

  datatype Filter = NotDenied | Accepted

  predicate Passes(r: Row, t: TransferId, f: Filter) {
    r.tid == t && (if f == Accepted then r.accepted == 1 else r.accepted != 0)
  }

  /** The clients a cursor over one transfer's rows visits. */
  function Clients(rows: seq<Row>, t: TransferId, f: Filter): seq<ClientId> {
    if rows == [] then []
    else if Passes(rows[0], t, f) then [rows[0].client] + Clients(rows[1..], t, f)
    else Clients(rows[1..], t, f)
  }

  /** The transfers a client created, as their cursor visits them. */
  function CreatedBy(transfers: seq<Transfer>, c: ClientId): seq<TransferId> {
    if transfers == [] then []
    else if transfers[0].creator == c then [transfers[0].tid] + CreatedBy(transfers[1..], c)
    else CreatedBy(transfers[1..], c)
  }

  /** The creator of a transfer, or 0 when there is no such transfer. */
  function CreatorOf(transfers: seq<Transfer>, t: TransferId): ClientId {
    if transfers == [] then 0
    else if transfers[0].tid == t then transfers[0].creator
    else CreatorOf(transfers[1..], t)
  }

  /** The join of both tables: the transfers a client takes part in, with their creators. */
  function JoinedBy(transfers: seq<Transfer>, rows: seq<Row>, c: ClientId): seq<Transfer> {
    if rows == [] then []
    else if rows[0].client == c && CreatorOf(transfers, rows[0].tid) != 0 then
      [Transfer(rows[0].tid, CreatorOf(transfers, rows[0].tid))] + JoinedBy(transfers, rows[1..], c)
    else JoinedBy(transfers, rows[1..], c)
  }

  function WithoutTransfer(transfers: seq<Transfer>, t: TransferId): seq<Transfer> {
    if transfers == [] then []
    else if transfers[0].tid == t then WithoutTransfer(transfers[1..], t)
    else [transfers[0]] + WithoutTransfer(transfers[1..], t)
  }

  function WithoutRows(rows: seq<Row>, t: TransferId): seq<Row> {
    if rows == [] then []
    else if rows[0].tid == t then WithoutRows(rows[1..], t)
    else [rows[0]] + WithoutRows(rows[1..], t)
  }

  function WithoutClient(rows: seq<Row>, c: ClientId): seq<Row> {
    if rows == [] then []
    else if rows[0].client == c then WithoutClient(rows[1..], c)
    else [rows[0]] + WithoutClient(rows[1..], c)
  }

  function SetAccepted(rows: seq<Row>, c: ClientId, t: TransferId, accept: bool): seq<Row> {
    if rows == [] then []
    else
      var row := rows[0];
      [if row.client == c && row.tid == t then row.(accepted := if accept then 1 else 0) else row]
      + SetAccepted(rows[1..], c, t, accept)
  }

  function NewRows(t: TransferId, clients: seq<ClientId>): seq<Row> {
    if clients == [] then [] else [Row(t, clients[0], UNANSWERED)] + NewRows(t, clients[1..])
  }

  /** db_cleanup_transfer: the transfer and all its rows. */
  function Cleanup(s: Server, t: TransferId): Server {
    s.(transfers := WithoutTransfer(s.transfers, t), rows := WithoutRows(s.rows, t))
  }

  // ---------------------------------------------------------------- sending

  /** The same packet to each listed client that is connected. */
  function Fan(conns: map<ClientId, Conn>, clients: seq<ClientId>, p: Packet): seq<Send> {
    if clients == [] then []
    else if clients[0] in conns then [Send(clients[0], p)] + Fan(conns, clients[1..], p)
    else Fan(conns, clients[1..], p)
  }

  // ---------------------------------------------------------------- joining a session

  /** The COMPLETE clients other than `c` in its session, in slot order. */
  function Peers(conns: map<ClientId, Conn>, order: seq<ClientId>, c: ClientId, session: SessionId): seq<ClientId> {
    if order == [] then []
    else if order[0] != c && order[0] in conns && conns[order[0]].complete && conns[order[0]].session == session
    then [order[0]] + Peers(conns, order[1..], c, session)
    else Peers(conns, order[1..], c, session)
  }

  function UsersOf(conns: map<ClientId, Conn>, ids: seq<ClientId>): seq<User>
    requires forall id | id in ids :: id in conns
  {
    if ids == [] then [] else [User(ids[0], conns[ids[0]].name)] + UsersOf(conns, ids[1..])
  }

  lemma {:induction false} PeersConnected(conns: map<ClientId, Conn>, order: seq<ClientId>, c: ClientId, session: SessionId)
    ensures forall id | id in Peers(conns, order, c, session) ::
              id in order && id != c && id in conns && conns[id].complete && conns[id].session == session
    ensures forall id | id in order && id != c && id in conns && conns[id].complete && conns[id].session == session ::
              id in Peers(conns, order, c, session)
  {
    if order != [] { PeersConnected(conns, order[1..], c, session); }
  }

  /** packet_intro, and send_session_users when the intro is accepted. */
  function PacketIntro(s: Server, order: seq<ClientId>, c: ClientId, p: Packet): Reaction
    requires c in s.conns && p.ClientIntro?
  {
    if s.conns[c].complete || p.session > 1 then Reaction(s, [Send(c, ServerDeny)])
    else
      var create := p.session == 1;
      var session :=
        if create then (if p.sessionName in s.sessions then 0 else s.nextSession)
        else (if p.sessionName in s.sessions then s.sessions[p.sessionName] else 0);
      if session == 0 then Reaction(s, [Send(c, ServerDeny)])
      else
        var conns := s.conns[c := Conn(true, session, p.clientName)];
        var peers := Peers(conns, order, c, session);
        PeersConnected(conns, order, c, session);
        Reaction(
          s.(conns := conns,
             sessions := if create then s.sessions[p.sessionName := session] else s.sessions,
             nextSession := if create then s.nextSession + 1 else s.nextSession),
          [Send(c, ServerOk)]
          + (if peers == [] then [] else [Send(c, NewUsers(UsersOf(conns, peers)))])
          + Fan(conns, peers, NewUsers([User(c, p.clientName)])))
  }

  // ---------------------------------------------------------------- transfers

  /** check_recipients: somebody is named, and all are connected and in the sender's session. */
  predicate RecipientsOk(s: Server, c: ClientId, to: ToList)
    requires c in s.conns
  {
    && Len(to) > 0
    && forall i | 0 <= i < Len(to) :: to[i] in s.conns && s.conns[to[i]].session == s.conns[c].session
  }

  function PacketTransfer(s: Server, c: ClientId, req: Request): Reaction
    requires c in s.conns
  {
    if RecipientsOk(s, c, req.hdr.to) then
      var t := s.nextTid;
      var clients := Recipients(req.hdr.to);
      Reaction(
        s.(transfers := s.transfers + [Transfer(t, c)], rows := s.rows + NewRows(t, clients), nextTid := t + 1),
        [Send(c, TransferValid(req.(hdr := req.hdr.(tid := t))))]
        + Fan(s.conns, clients, TransferRequest(req.(hdr := req.hdr.(tid := t, from := c)))))
    else Reaction(s, [Send(c, TransferInvalid(req))])
  }

  function PacketReply(s: Server, c: ClientId, t: TransferId, accept: bool): Reaction {
    var creator := CreatorOf(s.transfers, t);
    Reaction(
      s.(rows := SetAccepted(s.rows, c, t, accept)),
      if creator != 0 then [Send(creator, TransferReply(t, c, accept))] else [])
  }

  function PacketData(s: Server, p: Packet): Reaction
    requires p.TransferData?
  {
    Reaction(s, Fan(s.conns, Clients(s.rows, p.tid, Accepted), p))
  }

  function PacketComplete(s: Server, c: ClientId, p: Packet): Reaction
    requires p.TransferComplete?
  {
    if p.tid != 0 && p.tid in CreatedBy(s.transfers, c) then
      Reaction(Cleanup(s, p.tid), Fan(s.conns, Clients(s.rows, p.tid, Accepted), p))
    else Reaction(s, [])
  }

  function FindTransfer(ts: seq<Transfer>, t: TransferId): (i: nat)
    ensures i <= |ts|
    ensures i < |ts| ==> ts[i].tid == t
    ensures forall j | 0 <= j < i :: ts[j].tid != t
  {
    if ts == [] || ts[0].tid == t then 0 else 1 + FindTransfer(ts[1..], t)
  }

  /** packet_cancel: as the creator, else as a recipient. The latter loses its rows in every transfer. */
  function PacketCancel(s: Server, c: ClientId, t: TransferId): Reaction {
    var joined := JoinedBy(s.transfers, s.rows, c);
    var i := FindTransfer(joined, t);
    if t != 0 && t in CreatedBy(s.transfers, c) then
      Reaction(Cleanup(s, t), Fan(s.conns, Clients(s.rows, t, NotDenied), TransferCancel(t, c)))
    else if i < |joined| then
      Reaction(s.(rows := WithoutClient(s.rows, c)), Fan(s.conns, [joined[i].creator], TransferCancel(t, c)))
    else Reaction(s, [])
  }

  // ---------------------------------------------------------------- disconnecting

  /** cancel_transaction_creator over the transfers that remain to be visited. */
  function CancelCreated(s: Server, c: ClientId, ts: seq<TransferId>): Reaction
    decreases |ts|
  {
    if ts == [] then Reaction(s, [])
    else
      var r := CancelCreated(Cleanup(s, ts[0]), c, ts[1..]);
      Reaction(r.server,
               Fan(s.conns, Clients(s.rows, ts[0], NotDenied), TransferCancel(ts[0], c)) + r.sends)
  }

  /** The packets of cancel_transaction_user. */
  function CancelJoined(conns: map<ClientId, Conn>, c: ClientId, joined: seq<Transfer>): seq<Send> {
    if joined == [] then []
    else Fan(conns, [joined[0].creator], TransferCancel(joined[0].tid, c)) + CancelJoined(conns, c, joined[1..])
  }

  /** cancel_transaction. */
  function CancelTransaction(s: Server, c: ClientId): Reaction {
    var r := CancelCreated(s, c, CreatedBy(s.transfers, c));
    Reaction(
      r.server.(rows := WithoutClient(r.server.rows, c)),
      r.sends + CancelJoined(s.conns, c, JoinedBy(r.server.transfers, r.server.rows, c)))
  }

  function CloseClient(s: Server, order: seq<ClientId>, c: ClientId): Reaction
    requires c in s.conns
  {
    var me := s.conns[c];
    if me.complete then
      var r := CancelTransaction(s, c);
      Reaction(
        r.server.(conns := s.conns - {c}),
        r.sends + Fan(s.conns, Peers(s.conns, order, c, me.session), DelUser(User(c, me.name))))
    else Reaction(s.(conns := s.conns - {c}), [])
  }

  /** analize_packet. */
  function Handle(s: Server, order: seq<ClientId>, c: ClientId, p: Packet): Reaction
    requires c in s.conns
  {
    match p
    case ClientIntro(_, _, _) => PacketIntro(s, order, c, p)
    case TransferRequest(req) => PacketTransfer(s, c, req)
    case TransferReply(t, _, accept) => PacketReply(s, c, t, accept)
    case TransferData(_, _) => PacketData(s, p)
    case TransferComplete(_) => PacketComplete(s, c, p)
    case TransferCancel(t, _) => PacketCancel(s, c, t)
    case _ => Reaction(s, [])
  }
}
