/**
 What the server guarantees: its tables mention live clients only, a request is accepted or refused
 as a whole, and a client that goes away is cleaned up after.
 */
module Guarantees {
  import opened Wire
  import opened ServerModel
  import opened Tables
  import opened Sends
  import opened Network
  import opened WellTyped
  import opened Typing
  import opened Preservation

  predicate LiveClient(s: Server, id: ClientId) {
    id in s.conns && s.conns[id].complete
  }

  // ---------------------------------------------------------------- table integrity

  /** Every row belongs to an existing transfer, and everybody the tables name is a COMPLETE client. */
  lemma TablesIntact(s: System)
    requires Reachable(s)
    ensures forall tr | tr in s.server.transfers :: LiveClient(s.server, tr.creator)
    ensures forall row | row in s.server.rows ::
              && LiveClient(s.server, row.client) && -1 <= row.accepted <= 1
              && var creator := CreatorOf(s.server.transfers, row.tid);
                 && Transfer(row.tid, creator) in s.server.transfers
                 && LiveClient(s.server, creator) && creator != row.client
                 && s.server.conns[creator].session == s.server.conns[row.client].session
    ensures UniqueRows(s.server.rows) && UniqueTransfers(s.server.transfers)
  {
    hide Reachable, PeersOk, ConnsOk, SessionsOk;
    ReachableInvariant(s);
    forall tr | tr in s.server.transfers
      ensures LiveClient(s.server, tr.creator)
    {
      MemberCreator(s.server.transfers, tr);
    }
    forall row | row in s.server.rows
      ensures Transfer(row.tid, CreatorOf(s.server.transfers, row.tid)) in s.server.transfers
      ensures RowOf(s.server.rows, row.tid, row.client) == Is(row.accepted)
      ensures CreatorOf(s.server.transfers, row.tid) != row.client
    {
      RowInTable(s.server.rows, row);
      CreatorMember(s.server.transfers, row.tid);
      assert Takes(s.origin, row.tid, row.client);
    }
  }

  lemma {:induction false} RowInTable(rows: seq<Row>, row: Row)
    requires UniqueRows(rows) && row in rows
    ensures RowOf(rows, row.tid, row.client) == Is(row.accepted)
  {
    if rows[0] != row {
      RowInTable(rows[1..], row);
      RowOfMember(rows[1..], rows[0].tid, rows[0].client);
    }
  }

  /** The lookups that the handlers assert to succeed do succeed: creators, and recipients by any cursor. */
  lemma LookupsSucceed(s: System, c: ClientId, t: TransferId, f: Filter)
    requires Reachable(s)
    ensures CreatorOf(s.server.transfers, t) != 0 ==> CreatorOf(s.server.transfers, t) in s.server.conns
    ensures forall id | id in Clients(s.server.rows, t, f) :: id in s.server.conns
    ensures forall tr | tr in JoinedBy(s.server.transfers, s.server.rows, c) :: tr.creator in s.server.conns
  {
    hide Reachable, PeersOk, ConnsOk, SessionsOk;
    ReachableInvariant(s);
    forall id | id in Clients(s.server.rows, t, f)
      ensures id in s.server.conns
    {
      ClientsOf(s.server.rows, t, f, id);
    }
    JoinedByOf(s.server.transfers, s.server.rows, c, t);
  }

  // ---------------------------------------------------------------- packet_transfer

  /** A request is accepted exactly when it names somebody, and everybody it names is connected and in the sender's session. */
  lemma TransferDecides(s: Server, c: ClientId, req: Request)
    requires c in s.conns
    ensures var to := Recipients(req.hdr.to);
            PacketTransfer(s, c, req).server != s <==>
            to != [] && forall id | id in to :: id in s.conns && s.conns[id].session == s.conns[c].session
  {
    var to := Recipients(req.hdr.to);
    assert forall i | 0 <= i < Len(req.hdr.to) :: to[i] == req.hdr.to[i];
  }

  /**
   All or nothing: the creator is told VALID, and every listed recipient gets one unanswered row and
   one REQUEST that carries the new id and the creator; or nothing changes and INVALID is all that
   is sent.
   */
  lemma TransferAllOrNothing(s: Server, o: Origins, c: ClientId, req: Request)
    requires TablesOk(s, o) && c in s.conns && ProperList(req.hdr.to, c)
    requires s.nextTid !in o
    ensures var r := PacketTransfer(s, c, req);
            var t := s.nextTid;
            var to := Recipients(req.hdr.to);
            if RecipientsOk(s, c, req.hdr.to) then
              && r.server == s.(transfers := r.server.transfers, rows := r.server.rows, nextTid := t + 1)
              && r.server.transfers == s.transfers + [Transfer(t, c)] && |r.server.rows| == |s.rows| + |to|
              && (forall u, d :: RowOf(r.server.rows, u, d) == if u == t && d in to then Is(-1) else RowOf(s.rows,
                    u, d))
              && For(r.sends, c) == [TransferValid(req.(hdr := req.hdr.(tid := t)))]
              && (forall id | id in to :: For(r.sends, id) == [TransferRequest(req.(hdr := Hdr(t, c, req.hdr.to)))])
              && (forall id | id != c && id !in to :: For(r.sends, id) == [])
            else r.server == s && r.sends == [Send(c, TransferInvalid(req))]
  {
    hide TablesOk;
    if RecipientsOk(s, c, req.hdr.to) {
      var t := s.nextTid;
      var to := Recipients(req.hdr.to);
      var p := TransferRequest(req.(hdr := Hdr(t, c, req.hdr.to)));
      var valid := Send(c, TransferValid(req.(hdr := req.hdr.(tid := t))));
      UnusedId(s, o, t);
      NewRowsSize(t, to);
      RecipientsDistinct(req.hdr.to, c);
      forall u, d
        ensures RowOf(s.rows + NewRows(t, to), u, d) == if u == t && d in to then Is(-1) else RowOf(s.rows, u, d)
      {
        RowsAppendOf(s.rows, NewRows(t, to), u, d);
        NewRowsOf(t, to, u, d);
      }
      forall id
        ensures For([valid] + Fan(s.conns, to, p), id) ==
                (if id == c then [valid.packet] else []) + (if id in to then [p] else [])
      {
        ForAppend([valid], Fan(s.conns, to, p), id);
        FanFor(s.conns, to, p, id);
        assert [valid][1..] == [];
      }
    }
  }

  lemma UnusedId(s: Server, o: Origins, t: TransferId)
    requires TablesOk(s, o) && t !in o
    ensures forall d :: RowOf(s.rows, t, d) == NoRow
  {
  }

  lemma NewRowsSize(t: TransferId, ids: seq<ClientId>)
    ensures |NewRows(t, ids)| == |ids|
  {
  }

  // ---------------------------------------------------------------- replies, data and completion

  /** A reply is noted in the one row it answers, and goes to the creator and to nobody else. */
  lemma ReplyReaches(s: Server, o: Origins, x: ClientId, t: TransferId, accept: bool, u: TransferId, d: ClientId)
    requires TablesOk(s, o) && x in s.conns
    ensures var n := PacketReply(s, x, t, accept);
            && n.server == s.(rows := n.server.rows)
            && RowOf(n.server.rows, u, d) ==
               (if u == t && d == x && RowOf(s.rows, u,
                     d) != NoRow then Is(if accept then 1 else 0) else RowOf(s.rows, u, d))
            && For(n.sends, d) ==
               (if CreatorOf(s.transfers, t) == d != 0 then [TransferReply(t, x, accept)] else [])
  {
    hide TablesOk;
    SetAcceptedOf(s.rows, x, t, accept, u, d);
    var creator := CreatorOf(s.transfers, t);
    if creator != 0 {
      assert [Send(creator, TransferReply(t, x, accept))][1..] == [];
    }
  }

  /** Data goes to those whose row says yes, once to each. */
  lemma DataReaches(s: Server, o: Origins, p: Packet, id: ClientId)
    requires TablesOk(s, o) && p.TransferData?
    ensures var n := PacketData(s, p);
            n.server == s && For(n.sends, id) == if RowOf(s.rows, p.tid, id) == Is(1) then [p] else []
  {
    ClientsOf(s.rows, p.tid, Accepted, id);
    FanFor(s.conns, Clients(s.rows, p.tid, Accepted), p, id);
  }

  /** COMPLETE from the creator ends the transfer and goes to those whose row says yes; from others it is nothing. */
  lemma CompleteReaches(s: Server, o: Origins, x: ClientId, p: Packet, id: ClientId, u: TransferId, d: ClientId)
    requires TablesOk(s, o) && p.TransferComplete? && x != 0 && p.tid != 0
    ensures var n := PacketComplete(s, x, p);
            var ends := CreatorOf(s.transfers, p.tid) == x;
            && For(n.sends, id) == (if ends && RowOf(s.rows, p.tid, id) == Is(1) then [p] else [])
            && CreatorOf(n.server.transfers, u) == (if ends && u == p.tid then 0 else CreatorOf(s.transfers, u))
            && RowOf(n.server.rows, u, d) == (if ends && u == p.tid then NoRow else RowOf(s.rows, u, d))
  {
    CreatedByOf(s.transfers, x, p.tid);
    ClientsOf(s.rows, p.tid, Accepted, id);
    FanFor(s.conns, Clients(s.rows, p.tid, Accepted), p, id);
    WithoutRowsOf(s.rows, p.tid, u, d);
    WithoutTransferOf(s.transfers, p.tid, u);
  }

  // ---------------------------------------------------------------- packet_cancel

  /**
   CANCEL from the creator ends the transfer and goes to those that have not said no; from a
   recipient it goes to the creator; from anybody else it is nothing.
   */
  lemma CancelReaches(s: Server, o: Origins, x: ClientId, t: TransferId, id: ClientId)
    requires TablesOk(s, o) && x != 0 && t != 0
    ensures var n := PacketCancel(s, x, t);
            var creator := CreatorOf(s.transfers, t);
            && For(n.sends, id) ==
               (if creator == x then (if Passing(RowOf(s.rows, t, id), NotDenied) then [TransferCancel(t, x)] else [])
                else if RowOf(s.rows, t, x) != NoRow && id == creator then [TransferCancel(t, x)]
                else [])
            && CreatorOf(n.server.transfers, t) == (if creator == x then 0 else creator)
            && (creator != x && RowOf(s.rows, t, x) == NoRow ==> n.server == s)
  {
    CreatedByOf(s.transfers, x, t);
    ClientsOf(s.rows, t, NotDenied, id);
    FanFor(s.conns, Clients(s.rows, t, NotDenied), TransferCancel(t, x), id);
    WithoutTransferOf(s.transfers, t, t);
    var joined := JoinedBy(s.transfers, s.rows, x);
    JoinedByOf(s.transfers, s.rows, x, t);
    var i := FindTransfer(joined, t);
    if i < |joined| {
      assert joined[i] in joined;
      FanFor(s.conns, [joined[i].creator], TransferCancel(t, x), id);
    }
  }

  /**
   A recipient that cancels one transfer loses its rows in all of them, and nobody else loses any.
   So its part in another transfer survives exactly when it has none.
   */
  lemma RecipientCancelTables(s: Server, o: Origins, x: ClientId, u: TransferId, t: TransferId, d: ClientId)
    requires TablesOk(s, o) && x != 0 && CreatorOf(s.transfers, u) != x && RowOf(s.rows, u, x) != NoRow
    ensures var n := PacketCancel(s, x, u).server;
            && n.transfers == s.transfers
            && RowOf(n.rows, t, d) == (if d == x then NoRow else RowOf(s.rows, t, d))
            && (RowOf(n.rows, t, x) == RowOf(s.rows, t, x) <==> RowOf(s.rows, t, x) == NoRow)
  {
    CreatedByOf(s.transfers, x, u);
    JoinedByOf(s.transfers, s.rows, x, u);
    WithoutClientOf(s.rows, x, t, d);
    WithoutClientOf(s.rows, x, t, x);
    var joined := JoinedBy(s.transfers, s.rows, x);
    var i := FindTransfer(joined, u);
    assert i < |joined|;
  }

  // ---------------------------------------------------------------- close_client

  /** How many CANCELs for a transfer a stream holds. */
  function Cancels(q: seq<Packet>, t: TransferId): nat {
    if q == [] then 0
    else (if q[0].TransferCancel? && q[0].tid == t then 1 else 0) + Cancels(q[1..], t)
  }

  lemma {:induction false} CancelsAppend(p: seq<Packet>, q: seq<Packet>, t: TransferId)
    ensures Cancels(p + q, t) == Cancels(p, t) + Cancels(q, t)
  {
    if p == [] {
      assert p + q == q;
    } else {
      assert (p + q)[1..] == p[1..] + q;
      CancelsAppend(p[1..], q, t);
    }
  }

  predicate AllCancelsBy(q: seq<Packet>, c: ClientId) {
    forall p | p in q :: p.TransferCancel? && p.from == c
  }

  lemma {:induction false} CreatedCancels(rows: seq<Row>, ts: seq<TransferId>, c: ClientId, id: ClientId, t: TransferId)
    requires forall i, j | 0 <= i < j < |ts| :: ts[i] != ts[j]
    ensures AllCancelsBy(CancelsFor(rows, ts, c, id), c)
    ensures Cancels(CancelsFor(rows, ts, c, id), t) ==
            if t in ts && Passing(RowOf(rows, t, id), NotDenied) then 1 else 0
  {
    if ts != [] {
      CreatedCancels(rows, ts[1..], c, id, t);
      assert ts[0] == t ==> t !in ts[1..];
    }
  }

  lemma {:induction false} JoinedCancels(joined: seq<Transfer>, c: ClientId, id: ClientId, t: TransferId)
    requires forall i, j | 0 <= i < j < |joined| :: joined[i].tid != joined[j].tid
    ensures AllCancelsBy(CancelsTo(joined, c, id), c)
    ensures Cancels(CancelsTo(joined, c, id), t) == if Transfer(t, id) in joined then 1 else 0
  {
    if joined != [] {
      assert joined[0] in joined;
      JoinedCancels(joined[1..], c, id, t);
      assert joined[0].tid == t ==> Transfer(t, id) !in joined[1..];
    }
  }

  lemma {:induction false} PeersDistinct(conns: map<ClientId, Conn>, order: seq<ClientId>, c: ClientId, session: SessionId)
    requires Distinct(order)
    ensures Distinct(Peers(conns, order, c, session))
  {
    if order != [] {
      PeersDistinct(conns, order[1..], c, session);
      PeersConnected(conns, order[1..], c, session);
      assert order[0] !in order[1..];
    }
  }

  /** What one client is sent when another goes away: CANCELs, then the notice that it has gone. */
  lemma CloseSends(s: Server, o: Origins, order: seq<ClientId>, c: ClientId, id: ClientId)
    requires TablesOk(s, o) && c in s.conns && c != 0 && s.conns[c].complete && id in s.conns && IsOrder(order, s.conns)
    ensures var ts := CreatedBy(s.transfers, c);
            var r := CancelCreated(s, c, ts).server;
            For(CloseClient(s, order, c).sends, id) ==
            CancelsFor(s.rows, ts, c, id) + CancelsTo(JoinedBy(r.transfers, r.rows, c), c, id)
            + (if id != c && s.conns[id].complete && s.conns[id].session == s.conns[c].session
               then [DelUser(User(c, s.conns[c].name))] else [])
  {
    hide TablesOk, Peers;
    var me := s.conns[c];
    var peers := Peers(s.conns, order, c, me.session);
    var gone := DelUser(User(c, me.name));
    assert UniqueRows(s.rows) && UniqueTransfers(s.transfers) by { TablesUnique(s, o); }
    CancelTransactionSends(s, c, id);
    PeersConnected(s.conns, order, c, me.session);
    PeersDistinct(s.conns, order, c, me.session);
    FanFor(s.conns, peers, gone, id);
    ForAppend(CancelTransaction(s, c).sends, Fan(s.conns, peers, gone), id);
  }

  lemma TablesUnique(s: Server, o: Origins)
    requires TablesOk(s, o)
    ensures UniqueRows(s.rows) && UniqueTransfers(s.transfers)
  {
  }

  /** The transfers that a closing client still takes part in once those it created are gone. */
  lemma JoinedAfter(s: Server, o: Origins, c: ClientId, id: ClientId, t: TransferId)
    requires TablesOk(s, o) && c != 0 && id != c && id != 0
    ensures var r := CancelCreated(s, c, CreatedBy(s.transfers, c)).server;
            var joined := JoinedBy(r.transfers, r.rows, c);
            && (forall i, j | 0 <= i < j < |joined| :: joined[i].tid != joined[j].tid)
            && (Transfer(t, id) in joined <==> CreatorOf(s.transfers, t) == id && RowOf(s.rows, t, c) != NoRow)
  {
    TablesUnique(s, o);
    hide TablesOk;
    var ts := CreatedBy(s.transfers, c);
    var r := CancelCreated(s, c, ts).server;
    CreatedByOf(s.transfers, c, t);
    CancelCreatedTables(s, c, ts, t, c);
    JoinedByOf(r.transfers, r.rows, c, t);
    var joined := JoinedBy(r.transfers, r.rows, c);
    if CreatorOf(s.transfers, t) == id && RowOf(s.rows, t, c) != NoRow {
      var tr :| tr in joined && tr.tid == t;
      assert tr == Transfer(t, id);
    }
  }

  /**
   Closing a client, for all table contents. Any other client is sent, for each transfer, exactly one
   CANCEL if it is a recipient that has not denied a transfer the closing client created, or the
   creator of a transfer the closing client was in, and none otherwise. All CANCELs come before the
   DEL_USERS, which goes to the COMPLETE clients of the session.
   */
  lemma ClosingNotices(s: Server, o: Origins, order: seq<ClientId>, c: ClientId, id: ClientId, t: TransferId)
    requires TablesOk(s, o) && c in s.conns && c != 0 && s.conns[c].complete && IsOrder(order, s.conns)
    requires id in s.conns && id != c && id != 0
    ensures var got := For(CloseClient(s, order, c).sends, id);
            var near := s.conns[id].complete && s.conns[id].session == s.conns[c].session;
            var n := if near then |got| - 1 else |got|;
            && 0 <= n && AllCancelsBy(got[..n], c)
            && got[n..] == (if near then [DelUser(User(c, s.conns[c].name))] else [])
            && Cancels(got, t) ==
               (if (CreatorOf(s.transfers, t) == c && Passing(RowOf(s.rows, t, id), NotDenied))
                   || (CreatorOf(s.transfers, t) == id && RowOf(s.rows, t, c) != NoRow)
                then 1 else 0)
  {
    hide CloseClient, TablesOk, CancelCreated, CreatedBy, JoinedBy, RowOf, CreatorOf, IsOrder, UniqueRows, UniqueTransfers;
    TablesUnique(s, o);
    var ts := CreatedBy(s.transfers, c);
    var r := CancelCreated(s, c, ts).server;
    var joined := JoinedBy(r.transfers, r.rows, c);
    var a, b := CancelsFor(s.rows, ts, c, id), CancelsTo(joined, c, id);
    var near := s.conns[id].complete && s.conns[id].session == s.conns[c].session;
    var d: seq<Packet> := if near then [DelUser(User(c, s.conns[c].name))] else [];
    CloseSends(s, o, order, c, id);
    CreatedByOf(s.transfers, c, t);
    CreatedByDistinct(s.transfers, c);
    CreatedCancels(s.rows, ts, c, id, t);
    JoinedAfter(s, o, c, id, t);
    JoinedCancels(joined, c, id, t);
    CancelsAppend(a, b, t);
    CancelsAppend(a + b, d, t);
    assert (a + b + d)[..|a + b|] == a + b && (a + b + d)[|a + b|..] == d;
  }

  /** Afterwards no row and no transfer mentions the client, and nothing else has changed. */
  lemma ClosedTables(s: Server, o: Origins, order: seq<ClientId>, c: ClientId)
    requires TablesOk(s, o) && c in s.conns && c != 0
    ensures var r := CloseClient(s, order, c).server;
            && r == s.(conns := s.conns - {c}, transfers := r.transfers, rows := r.rows)
            && (forall tr | tr in r.transfers :: tr.creator != c) && (forall row | row in r.rows :: row.client != c)
            && (forall t :: CreatorOf(r.transfers, t) ==
                  if CreatorOf(s.transfers, t) == c then 0 else CreatorOf(s.transfers, t))
            && (forall t, d :: RowOf(r.rows, t, d) ==
                  if d == c || CreatorOf(s.transfers, t) == c then NoRow else RowOf(s.rows, t, d))
  {
    hide CloseClient;
    var r := CloseClient(s, order, c).server;
    CloseTables(s, o, order, c);
    forall tr | tr in r.transfers
      ensures tr.creator != c
    {
      MemberCreator(r.transfers, tr);
    }
    forall row | row in r.rows
      ensures row.client != c
    {
      RowOfMember(r.rows, row.tid, c);
    }
  }
}
