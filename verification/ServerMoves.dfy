/**
 What each handler of the server does to the one row, and to the two outgoing streams, that a lane
 shows.
 */
module ServerMoves {
  import opened Wire
  import opened ServerModel
  import opened Tables
  import opened Sends
  import opened WellTyped
  import opened Flows

  /** What a lens shows of the packets one client is sent. */
  function Got(sends: seq<Send>, id: ClientId, l: Lens): Flow {
    Sum(For(sends, id), l)
  }

  lemma FanGot(conns: map<ClientId, Conn>, ids: seq<ClientId>, p: Packet, id: ClientId, l: Lens)
    requires Distinct(ids)
    ensures Got(Fan(conns, ids, p), id, l) == if id in ids && id in conns then Seen(l, p) else NOTHING
  {
  }

  lemma OneGot(to: ClientId, p: Packet, id: ClientId, l: Lens)
    ensures Got([Send(to, p)], id, l) == if id == to then Seen(l, p) else NOTHING
  {
    assert [Send(to, p)][1..] == [];
    assert For([Send(to, p)], id) == if id == to then [p] else [];
    SumOne(p, l);
  }

  lemma GotAppend(a: seq<Send>, b: seq<Send>, id: ClientId, l: Lens)
    ensures Got(a + b, id, l) == Then(Got(a, id, l), Got(b, id, l))
  {
    ForAppend(a, b, id);
    SumAppend(For(a, id), For(b, id), l);
  }

  lemma {:induction false} BlindGot(sends: seq<Send>, id: ClientId, l: Lens)
    requires forall sd | sd in sends :: !Sees(l, sd.packet)
    ensures Got(sends, id, l) == NOTHING
  {
    if sends != [] {
      BlindGot(sends[1..], id, l);
      assert sends[0] in sends;
      ThenNothing(NOTHING);
    }
  }

  // ---------------------------------------------------------------- reading the tables through a lane

  /** The pairs a lane stands for: a transfer of host `c` and a recipient `r` of it. */
  predicate Pair(o: Origins, t: TransferId, c: ClientId, r: ClientId) {
    t != 0 && Gives(o, t, c) && Takes(o, t, r) && !Takes(o, t, c) && c != 0 && r != 0
  }

  lemma PairTables(s: Server, o: Origins, t: TransferId, c: ClientId, r: ClientId)
    requires TablesOk(s, o) && Pair(o, t, c, r)
    ensures CreatorOf(s.transfers, t) == 0 || CreatorOf(s.transfers, t) == c
    ensures CreatorOf(s.transfers, t) == c ==> c in s.conns
    ensures RowOf(s.rows, t, r) != NoRow ==> CreatorOf(s.transfers, t) == c && r in s.conns
    ensures RowOf(s.rows, t, c) == NoRow
  {
  }

  // ---------------------------------------------------------------- the handlers

  lemma IntroMove(s: Server, order: seq<ClientId>, x: ClientId, p: Packet, id: ClientId, l: Lens)
    requires x in s.conns && p.ClientIntro?
    ensures Got(PacketIntro(s, order, x, p).sends, id, l) == NOTHING
  {
    var r := PacketIntro(s, order, x, p);
    if r.server != s {
      var peers := Peers(r.server.conns, order, x, r.server.conns[x].session);
      FanBlind(r.server.conns, peers, NewUsers([User(x, p.clientName)]), l);
    }
    BlindGot(r.sends, id, l);
  }

  lemma FanBlind(conns: map<ClientId, Conn>, ids: seq<ClientId>, p: Packet, l: Lens)
    requires !Sees(l, p)
    ensures forall sd | sd in Fan(conns, ids, p) :: !Sees(l, sd.packet)
  {
  }

  lemma TransferMove(s: Server, o: Origins, x: ClientId, req: Request, t: TransferId, c: ClientId, r: ClientId)
    requires TablesOk(s, o) && x in s.conns && x != 0 && Pair(o, t, c, r) && t < s.nextTid
    requires forall u | u in o :: u < s.nextTid
    ensures var n := PacketTransfer(s, x, req);
            && CreatorOf(n.server.transfers, t) == CreatorOf(s.transfers, t)
            && RowOf(n.server.rows, t, r) == RowOf(s.rows, t, r)
            && Got(n.sends, r, ToRecipient(t)) == NOTHING && Got(n.sends, c, ToHost(t, r)) == NOTHING
  {
    var n := PacketTransfer(s, x, req);
    if RecipientsOk(s, x, req.hdr.to) {
      var u := s.nextTid;
      assert CreatorOf(s.transfers, u) == 0;
      TransferAppendUnique(s.transfers, Transfer(u, x));
      RowsAppendOf(s.rows, NewRows(u, Recipients(req.hdr.to)), t, r);
      NewRowsOf(u, Recipients(req.hdr.to), t, r);
      var q := TransferRequest(req.(hdr := req.hdr.(tid := u, from := x)));
      FanBlind(s.conns, Recipients(req.hdr.to), q, ToRecipient(t));
      FanBlind(s.conns, Recipients(req.hdr.to), q, ToHost(t, r));
    }
    BlindGot(n.sends, r, ToRecipient(t));
    BlindGot(n.sends, c, ToHost(t, r));
  }

  lemma ReplyMove(s: Server, o: Origins, x: ClientId, u: TransferId, b: bool, t: TransferId, c: ClientId, r: ClientId)
    requires TablesOk(s, o) && Pair(o, t, c, r) && x != 0
    ensures var n := PacketReply(s, x, u, b);
            var mine := u == t && x == r;
            && CreatorOf(n.server.transfers, t) == CreatorOf(s.transfers, t)
            && RowOf(n.server.rows, t, r) ==
                 (if mine && RowOf(s.rows, t, r) != NoRow then Is(if b then 1 else 0) else RowOf(s.rows, t, r))
            && Got(n.sends, r, ToRecipient(t)) == NOTHING
            && Got(n.sends, c, ToHost(t, r)) ==
                 (if mine && CreatorOf(s.transfers, t) != 0 then ReplyFlow(b) else NOTHING)
  {
    PairTables(s, o, t, c, r);
    SetAcceptedOf(s.rows, x, u, b, t, r);
    var creator := CreatorOf(s.transfers, u);
    if creator != 0 {
      OneGot(creator, TransferReply(u, x, b), r, ToRecipient(t));
      OneGot(creator, TransferReply(u, x, b), c, ToHost(t, r));
    }
  }

  lemma DataMove(s: Server, o: Origins, p: Packet, t: TransferId, c: ClientId, r: ClientId)
    requires TablesOk(s, o) && Pair(o, t, c, r) && p.TransferData?
    ensures var n := PacketData(s, p);
            && Got(n.sends, r, ToRecipient(t)) ==
                 (if p.tid == t && RowOf(s.rows, t, r) == Is(1) then DataFlow(p.bytes) else NOTHING)
            && Got(n.sends, c, ToHost(t, r)) == NOTHING
  {
    PairTables(s, o, t, c, r);
    var ids := Clients(s.rows, p.tid, Accepted);
    ClientsOf(s.rows, p.tid, Accepted, r);
    FanGot(s.conns, ids, p, r, ToRecipient(t));
    FanGot(s.conns, ids, p, c, ToHost(t, r));
  }

  lemma CleanupOf(s: Server, u: TransferId, t: TransferId, r: ClientId)
    ensures RowOf(Cleanup(s, u).rows, t, r) == if t == u then NoRow else RowOf(s.rows, t, r)
    ensures CreatorOf(Cleanup(s, u).transfers, t) == if t == u then 0 else CreatorOf(s.transfers, t)
  {
    WithoutRowsOf(s.rows, u, t, r);
    WithoutTransferOf(s.transfers, u, t);
  }

  lemma CompleteMove(s: Server, o: Origins, x: ClientId, p: Packet, t: TransferId, c: ClientId, r: ClientId)
    requires TablesOk(s, o) && Pair(o, t, c, r) && p.TransferComplete? && x != 0 && Gives(o, p.tid, x)
    ensures var n := PacketComplete(s, x, p);
            && CreatorOf(n.server.transfers, t) == (if p.tid == t then 0 else CreatorOf(s.transfers, t))
            && RowOf(n.server.rows, t, r) == (if p.tid == t then NoRow else RowOf(s.rows, t, r))
            && Got(n.sends, r, ToRecipient(t)) ==
                 (if p.tid == t && RowOf(s.rows, t, r) == Is(1) then COMPLETE else NOTHING)
            && Got(n.sends, c, ToHost(t, r)) == NOTHING
  {
    PairTables(s, o, t, c, r);
    CreatedByOf(s.transfers, x, p.tid);
    CleanupOf(s, p.tid, t, r);
    var ids := Clients(s.rows, p.tid, Accepted);
    ClientsOf(s.rows, p.tid, Accepted, r);
    FanGot(s.conns, ids, p, r, ToRecipient(t));
    FanGot(s.conns, ids, p, c, ToHost(t, r));
  }

  /** The host of a transfer cancels it. */
  lemma HostCancelMove(s: Server, o: Origins, x: ClientId, u: TransferId, t: TransferId, c: ClientId, r: ClientId)
    requires TablesOk(s, o) && Pair(o, t, c, r) && x != 0 && u != 0 && CreatorOf(s.transfers, u) == x
    ensures var n := PacketCancel(s, x, u);
            && CreatorOf(n.server.transfers, t) == (if u == t then 0 else CreatorOf(s.transfers, t))
            && RowOf(n.server.rows, t, r) == (if u == t then NoRow else RowOf(s.rows, t, r))
            && Got(n.sends, r, ToRecipient(t)) ==
                 (if u == t && Passing(RowOf(s.rows, t, r), NotDenied) then CANCEL else NOTHING)
            && Got(n.sends, c, ToHost(t, r)) == NOTHING
  {
    PairTables(s, o, t, c, r);
    CreatedByOf(s.transfers, x, u);
    CleanupOf(s, u, t, r);
    var ids := Clients(s.rows, u, NotDenied);
    ClientsOf(s.rows, u, NotDenied, r);
    FanGot(s.conns, ids, TransferCancel(u, x), r, ToRecipient(t));
    FanGot(s.conns, ids, TransferCancel(u, x), c, ToHost(t, r));
  }

  /** A client that is not the host cancels a transfer. */
  lemma RecipientCancelMove(s: Server, o: Origins, x: ClientId, u: TransferId, t: TransferId, c: ClientId, r: ClientId)
    requires TablesOk(s, o) && Pair(o, t, c, r) && x != 0 && CreatorOf(s.transfers, u) != x
    requires u == 0 || Gives(o, u, x) || Takes(o, u, x)
    ensures var n := PacketCancel(s, x, u);
            var found := RowOf(s.rows, u, x) != NoRow;
            && CreatorOf(n.server.transfers, t) == CreatorOf(s.transfers, t)
            && RowOf(n.server.rows, t, r) == (if found && x == r then NoRow else RowOf(s.rows, t, r))
            && Got(n.sends, r, ToRecipient(t)) == NOTHING
            && Got(n.sends, c, ToHost(t, r)) == (if found && u == t && x == r then CANCEL else NOTHING)
  {
    PairTables(s, o, t, c, r);
    CreatedByOf(s.transfers, x, u);
    WithoutClientOf(s.rows, x, t, r);
    var joined := JoinedBy(s.transfers, s.rows, x);
    JoinedByOf(s.transfers, s.rows, x, u);
    var i := FindTransfer(joined, u);
    if i < |joined| {
      assert joined[i] in joined;
      FanGot(s.conns, [joined[i].creator], TransferCancel(u, x), r, ToRecipient(t));
      FanGot(s.conns, [joined[i].creator], TransferCancel(u, x), c, ToHost(t, r));
    }
  }

  // ---------------------------------------------------------------- disconnecting

  lemma {:induction false} CancelsForSum(rows: seq<Row>, ts: seq<TransferId>, x: ClientId, id: ClientId, l: Lens, t: TransferId)
    requires forall i, j | 0 <= i < j < |ts| :: ts[i] != ts[j]
    requires forall u :: Sees(l, TransferCancel(u, x)) ==> u == t
    ensures Sum(CancelsFor(rows, ts, x, id), l) ==
            if t in ts && Passing(RowOf(rows, t, id), NotDenied) then Seen(l, TransferCancel(t, x)) else NOTHING
  {
    if ts != [] {
      CancelsForSum(rows, ts[1..], x, id, l, t);
      ThenNothing(Sum(CancelsFor(rows, ts[1..], x, id), l));
      ThenNothing(Seen(l, TransferCancel(t, x)));
      assert ts[0] == t ==> t !in ts[1..];
    }
  }

  lemma {:induction false} CancelsToSum(joined: seq<Transfer>, x: ClientId, id: ClientId, l: Lens, t: TransferId)
    requires forall i, j | 0 <= i < j < |joined| :: joined[i].tid != joined[j].tid
    requires forall u :: Sees(l, TransferCancel(u, x)) ==> u == t
    ensures Sum(CancelsTo(joined, x, id), l) ==
            if Transfer(t, id) in joined then Seen(l, TransferCancel(t, x)) else NOTHING
  {
    if joined != [] {
      assert joined[0] in joined;
      CancelsToSum(joined[1..], x, id, l, t);
      ThenNothing(Sum(CancelsTo(joined[1..], x, id), l));
      ThenNothing(Seen(l, TransferCancel(t, x)));
      assert joined[0].tid == t ==> Transfer(t, id) !in joined[1..];
    }
  }

  /** What reaches one client when `x` goes away, through a lens on one transfer. */
  lemma CloseGot(s: Server, o: Origins, order: seq<ClientId>, x: ClientId, id: ClientId, l: Lens, t: TransferId)
    requires x in s.conns && x != 0 && TablesOk(s, o) && id in s.conns && t != 0
    requires forall u :: Sees(l, TransferCancel(u, x)) ==> u == t
    ensures Got(CloseClient(s, order, x).sends, id, l) ==
            if (CreatorOf(s.transfers, t) == x && Passing(RowOf(s.rows, t, id), NotDenied))
               || (CreatorOf(s.transfers, t) == id && x != id && RowOf(s.rows, t, x) != NoRow)
            then Seen(l, TransferCancel(t, x)) else NOTHING
  {
    var r := CloseClient(s, order, x);
    if s.conns[x].complete {
      var ts := CreatedBy(s.transfers, x);
      CreatedByOf(s.transfers, x, t);
      CreatedByDistinct(s.transfers, x);
      CancelsForSum(s.rows, ts, x, id, l, t);
      var after := CancelCreated(s, x, ts).server;
      CancelCreatedTables(s, x, ts, t, x);
      var joined := JoinedBy(after.transfers, after.rows, x);
      JoinedByOf(after.transfers, after.rows, x, t);
      CancelsToSum(joined, x, id, l, t);
      CancelTransactionSends(s, x, id);
      var cancels := CancelTransaction(s, x).sends;
      SumAppend(CancelsFor(s.rows, ts, x, id), CancelsTo(joined, x, id), l);
      var del := DelUser(User(x, s.conns[x].name));
      var peers := Peers(s.conns, order, x, s.conns[x].session);
      FanBlind(s.conns, peers, del, l);
      BlindGot(Fan(s.conns, peers, del), id, l);
      GotAppend(cancels, Fan(s.conns, peers, del), id, l);
      ThenNothing(Got(cancels, id, l));
      ThenNothing(Sum(CancelsFor(s.rows, ts, x, id), l));
      ThenNothing(Sum(CancelsTo(joined, x, id), l));
    }
  }
}
