/**
 What each client is sent by the server's loops: `For(sends, id)` worked out for every shape of loop
 the handlers contain.
 */
module Sends {
  import opened Wire
  import opened ServerModel
  import opened Tables

  lemma {:induction false} ForAppend(a: seq<Send>, b: seq<Send>, id: ClientId)
    ensures For(a + b, id) == For(a, id) + For(b, id)
  {
    if a == [] {
      assert a + b == b;
    } else {
      assert (a + b)[1..] == a[1..] + b;
      ForAppend(a[1..], b, id);
    }
  }

  lemma {:induction false} FanFor(conns: map<ClientId, Conn>, ids: seq<ClientId>, p: Packet, id: ClientId)
    requires Distinct(ids)
    ensures For(Fan(conns, ids, p), id) == if id in ids && id in conns then [p] else []
  {
    if ids != [] {
      assert Distinct(ids[1..]);
      FanFor(conns, ids[1..], p, id);
      if ids[0] in conns {
        assert Fan(conns, ids, p)[1..] == Fan(conns, ids[1..], p);
      }
      if ids[0] == id {
        assert id !in ids[1..];
      }
    }
  }

  lemma FanOne(conns: map<ClientId, Conn>, target: ClientId, p: Packet, id: ClientId)
    ensures For(Fan(conns, [target], p), id) == if id == target && id in conns then [p] else []
  {
  }

  // ---------------------------------------------------------------- closing a client

  /** The CANCELs one client is due when the creator of the transfers `ts` goes away. */
  function CancelsFor(rows: seq<Row>, ts: seq<TransferId>, c: ClientId, id: ClientId): seq<Packet> {
    if ts == [] then []
    else if Passing(RowOf(rows, ts[0], id), NotDenied)
    then [TransferCancel(ts[0], c)] + CancelsFor(rows, ts[1..], c, id)
    else CancelsFor(rows, ts[1..], c, id)
  }

  /** The CANCELs a creator is due when a recipient of the transfers `joined` goes away. */
  function CancelsTo(joined: seq<Transfer>, c: ClientId, id: ClientId): seq<Packet> {
    if joined == [] then []
    else if joined[0].creator == id then [TransferCancel(joined[0].tid, c)] + CancelsTo(joined[1..], c, id)
    else CancelsTo(joined[1..], c, id)
  }

  lemma {:induction false} CancelsForFrame(rows: seq<Row>, u: TransferId, ts: seq<TransferId>, c: ClientId, id: ClientId)
    requires u !in ts
    ensures CancelsFor(WithoutRows(rows, u), ts, c, id) == CancelsFor(rows, ts, c, id)
  {
    if ts != [] {
      WithoutRowsOf(rows, u, ts[0], id);
      CancelsForFrame(rows, u, ts[1..], c, id);
    }
  }

  lemma {:induction false} CancelCreatedSends(s: Server, c: ClientId, ts: seq<TransferId>, id: ClientId)
    requires UniqueRows(s.rows) && id in s.conns
    requires forall i, j | 0 <= i < j < |ts| :: ts[i] != ts[j]
    ensures For(CancelCreated(s, c, ts).sends, id) == CancelsFor(s.rows, ts, c, id)
    decreases |ts|
  {
    if ts != [] {
      var t, rest := ts[0], ts[1..];
      assert t !in rest;
      var ids := Clients(s.rows, t, NotDenied);
      var after := Cleanup(s, t);
      var now := Fan(s.conns, ids, TransferCancel(t, c));
      var later := CancelCreated(after, c, rest).sends;
      calc {
        For(now + later, id);
        { ForAppend(now, later, id); }
        For(now, id) + For(later, id);
        { WithoutRowsUnique(s.rows, t); CancelCreatedSends(after, c, rest, id); }
        For(now, id) + CancelsFor(after.rows, rest, c, id);
        { CancelsForFrame(s.rows, t, rest, c, id); }
        For(now, id) + CancelsFor(s.rows, rest, c, id);
        { ClientsOf(s.rows, t, NotDenied, id); FanFor(s.conns, ids, TransferCancel(t, c), id); }
        CancelsFor(s.rows, ts, c, id);
      }
    }
  }

  /** Which rows and transfers are left once the transfers `ts` have been cancelled. */
  lemma {:induction false} CancelCreatedTables(s: Server, c: ClientId, ts: seq<TransferId>, t: TransferId, d: ClientId)
    requires UniqueRows(s.rows) && UniqueTransfers(s.transfers)
    ensures var r := CancelCreated(s, c, ts).server;
            && r == s.(rows := r.rows, transfers := r.transfers)
            && UniqueRows(r.rows) && UniqueTransfers(r.transfers)
            && RowOf(r.rows, t, d) == (if t in ts then NoRow else RowOf(s.rows, t, d))
            && CreatorOf(r.transfers, t) == (if t in ts then 0 else CreatorOf(s.transfers, t))
    decreases |ts|
  {
    if ts != [] {
      WithoutRowsUnique(s.rows, ts[0]);
      WithoutTransferUnique(s.transfers, ts[0]);
      WithoutRowsOf(s.rows, ts[0], t, d);
      WithoutTransferOf(s.transfers, ts[0], t);
      CancelCreatedTables(Cleanup(s, ts[0]), c, ts[1..], t, d);
    }
  }

  lemma {:induction false} CancelJoinedSends(conns: map<ClientId, Conn>, c: ClientId, joined: seq<Transfer>, id: ClientId)
    requires id in conns
    ensures For(CancelJoined(conns, c, joined), id) == CancelsTo(joined, c, id)
  {
    if joined != [] {
      var now := Fan(conns, [joined[0].creator], TransferCancel(joined[0].tid, c));
      FanOne(conns, joined[0].creator, TransferCancel(joined[0].tid, c), id);
      CancelJoinedSends(conns, c, joined[1..], id);
      ForAppend(now, CancelJoined(conns, c, joined[1..]), id);
    }
  }

  /** The tables after cancel_transaction: nothing mentions the client any more. */
  lemma CancelTransactionTables(s: Server, c: ClientId, t: TransferId, d: ClientId)
    requires UniqueRows(s.rows) && UniqueTransfers(s.transfers) && c != 0
    ensures var r := CancelTransaction(s, c).server;
            && r == s.(rows := r.rows, transfers := r.transfers)
            && UniqueRows(r.rows) && UniqueTransfers(r.transfers)
            && RowOf(r.rows, t, d) == (if CreatorOf(s.transfers, t) == c || d == c then NoRow else RowOf(s.rows, t, d))
            && CreatorOf(r.transfers, t) == (if CreatorOf(s.transfers, t) == c then 0 else CreatorOf(s.transfers, t))
  {
    var ts := CreatedBy(s.transfers, c);
    CreatedByOf(s.transfers, c, t);
    CancelCreatedTables(s, c, ts, t, d);
    var r := CancelCreated(s, c, ts).server;
    WithoutClientOf(r.rows, c, t, d);
    WithoutClientUnique(r.rows, c);
  }

  lemma CancelTransactionSends(s: Server, c: ClientId, id: ClientId)
    requires UniqueRows(s.rows) && UniqueTransfers(s.transfers) && c != 0 && id in s.conns
    ensures var ts := CreatedBy(s.transfers, c);
            var r := CancelCreated(s, c, ts).server;
            For(CancelTransaction(s, c).sends, id) ==
            CancelsFor(s.rows, ts, c, id) + CancelsTo(JoinedBy(r.transfers, r.rows, c), c, id)
  {
    var ts := CreatedBy(s.transfers, c);
    var r := CancelCreated(s, c, ts);
    CreatedByDistinct(s.transfers, c);
    CancelCreatedSends(s, c, ts, id);
    var joined := JoinedBy(r.server.transfers, r.server.rows, c);
    CancelJoinedSends(s.conns, c, joined, id);
    ForAppend(r.sends, CancelJoined(s.conns, c, joined), id);
  }
}
