/**
 Facts about the server's two tables and about the packets a handler enqueues. `RowOf` and
 `CreatorOf` say what the tables hold for one pair and for one transfer; every table operation is
 characterised through them.
 */
module Tables {
  import opened Wire
  import opened Flows
  import opened ServerModel

  /** The answer a recipient's row records. */
  function RowOf(rows: seq<Row>, t: TransferId, c: ClientId): Entry {
    if rows == [] then NoRow
    else if rows[0].tid == t && rows[0].client == c then Is(rows[0].accepted)
    else RowOf(rows[1..], t, c)
  }

  /** No transfer has two rows for the same client. */
  predicate UniqueRows(rows: seq<Row>) {
    rows == [] || (RowOf(rows[1..], rows[0].tid, rows[0].client) == NoRow && UniqueRows(rows[1..]))
  }

  /** No id is used for two transfers, and no id is 0. */
  predicate UniqueTransfers(ts: seq<Transfer>) {
    ts == [] || (CreatorOf(ts[1..], ts[0].tid) == 0 && ts[0].creator != 0 && UniqueTransfers(ts[1..]))
  }

  predicate Distinct(ids: seq<ClientId>) {
    forall i, j | 0 <= i < j < |ids| :: ids[i] != ids[j]
  }

  // ---------------------------------------------------------------- rows

  lemma {:induction false} RowOfMember(rows: seq<Row>, t: TransferId, c: ClientId)
    ensures RowOf(rows, t, c) != NoRow ==> Row(t, c, RowOf(rows, t, c).accepted) in rows
    ensures RowOf(rows, t, c) == NoRow ==> forall r | r in rows :: !(r.tid == t && r.client == c)
  {
    if rows != [] {
      RowOfMember(rows[1..], t, c);
    }
  }

  lemma {:induction false} WithoutRowsOf(rows: seq<Row>, u: TransferId, t: TransferId, c: ClientId)
    ensures RowOf(WithoutRows(rows, u), t, c) == if t == u then NoRow else RowOf(rows, t, c)
  {
    if rows != [] {
      WithoutRowsOf(rows[1..], u, t, c);
      assert rows[0].tid != u ==> WithoutRows(rows, u)[1..] == WithoutRows(rows[1..], u);
    }
  }

  lemma {:induction false} WithoutRowsUnique(rows: seq<Row>, u: TransferId)
    requires UniqueRows(rows)
    ensures UniqueRows(WithoutRows(rows, u))
  {
    if rows != [] {
      WithoutRowsOf(rows[1..], u, rows[0].tid, rows[0].client);
      WithoutRowsUnique(rows[1..], u);
      assert rows[0].tid != u ==> WithoutRows(rows, u)[1..] == WithoutRows(rows[1..], u);
    }
  }

  lemma {:induction false} WithoutClientOf(rows: seq<Row>, d: ClientId, t: TransferId, c: ClientId)
    ensures RowOf(WithoutClient(rows, d), t, c) == if c == d then NoRow else RowOf(rows, t, c)
  {
    if rows != [] {
      WithoutClientOf(rows[1..], d, t, c);
      assert rows[0].client != d ==> WithoutClient(rows, d)[1..] == WithoutClient(rows[1..], d);
    }
  }

  lemma {:induction false} WithoutClientUnique(rows: seq<Row>, d: ClientId)
    requires UniqueRows(rows)
    ensures UniqueRows(WithoutClient(rows, d))
  {
    if rows != [] {
      WithoutClientOf(rows[1..], d, rows[0].tid, rows[0].client);
      WithoutClientUnique(rows[1..], d);
      assert rows[0].client != d ==> WithoutClient(rows, d)[1..] == WithoutClient(rows[1..], d);
    }
  }

  lemma {:induction false} SetAcceptedOf(rows: seq<Row>, d: ClientId, u: TransferId, b: bool, t: TransferId, c: ClientId)
    ensures RowOf(SetAccepted(rows, d, u, b), t, c) ==
            if d == c && u == t && RowOf(rows, t, c) != NoRow then Is(if b then 1 else 0) else RowOf(rows, t, c)
  {
    if rows != [] {
      SetAcceptedOf(rows[1..], d, u, b, t, c);
      assert SetAccepted(rows, d, u, b)[1..] == SetAccepted(rows[1..], d, u, b);
    }
  }

  lemma {:induction false} SetAcceptedUnique(rows: seq<Row>, d: ClientId, u: TransferId, b: bool)
    requires UniqueRows(rows)
    ensures UniqueRows(SetAccepted(rows, d, u, b))
  {
    if rows != [] {
      SetAcceptedOf(rows[1..], d, u, b, rows[0].tid, rows[0].client);
      SetAcceptedUnique(rows[1..], d, u, b);
      assert SetAccepted(rows, d, u, b)[1..] == SetAccepted(rows[1..], d, u, b);
    }
  }

  lemma {:induction false} RowsAppendOf(p: seq<Row>, q: seq<Row>, t: TransferId, c: ClientId)
    ensures RowOf(p + q, t, c) == if RowOf(p, t, c) != NoRow then RowOf(p, t, c) else RowOf(q, t, c)
  {
    if p == [] {
      assert p + q == q;
    } else {
      assert (p + q)[1..] == p[1..] + q;
      RowsAppendOf(p[1..], q, t, c);
    }
  }

  lemma {:induction false} NewRowsOf(u: TransferId, ids: seq<ClientId>, t: TransferId, c: ClientId)
    ensures RowOf(NewRows(u, ids), t, c) == if t == u && c in ids then Is(UNANSWERED) else NoRow
  {
    if ids != [] {
      NewRowsOf(u, ids[1..], t, c);
      assert NewRows(u, ids)[1..] == NewRows(u, ids[1..]);
    }
  }

  lemma {:induction false} NewRowsUnique(rows: seq<Row>, u: TransferId, ids: seq<ClientId>)
    requires UniqueRows(rows) && Distinct(ids)
    requires forall c :: RowOf(rows, u, c) == NoRow
    ensures UniqueRows(rows + NewRows(u, ids))
  {
    if rows != [] {
      assert (rows + NewRows(u, ids))[1..] == rows[1..] + NewRows(u, ids);
      RowsAppendOf(rows[1..], NewRows(u, ids), rows[0].tid, rows[0].client);
      assert RowOf(rows, rows[0].tid, rows[0].client) != NoRow;
      NewRowsOf(u, ids, rows[0].tid, rows[0].client);
      forall c
        ensures RowOf(rows[1..], u, c) == NoRow
      {
        assert RowOf(rows, u, c) == NoRow;
      }
      NewRowsUnique(rows[1..], u, ids);
    } else {
      assert rows + NewRows(u, ids) == NewRows(u, ids);
      FreshRowsUnique(u, ids);
    }
  }

  lemma {:induction false} FreshRowsUnique(u: TransferId, ids: seq<ClientId>)
    requires Distinct(ids)
    ensures UniqueRows(NewRows(u, ids))
  {
    if ids != [] {
      assert NewRows(u, ids)[1..] == NewRows(u, ids[1..]);
      assert Distinct(ids[1..]) && ids[0] !in ids[1..];
      NewRowsOf(u, ids[1..], u, ids[0]);
      FreshRowsUnique(u, ids[1..]);
    }
  }

  predicate Passing(a: Entry, f: Filter) {
    a != NoRow && (if f == Accepted then a.accepted == 1 else a.accepted != 0)
  }

  /** A cursor over a transfer's rows visits a client at most once, and exactly when its row passes. */
  lemma {:induction false} ClientsOf(rows: seq<Row>, t: TransferId, f: Filter, c: ClientId)
    requires UniqueRows(rows)
    ensures c in Clients(rows, t, f) <==> Passing(RowOf(rows, t, c), f)
    ensures Distinct(Clients(rows, t, f))
  {
    if rows != [] {
      ClientsOf(rows[1..], t, f, c);
      ClientsOf(rows[1..], t, f, rows[0].client);
    }
  }

  // ---------------------------------------------------------------- transfers

  lemma CreatorMember(ts: seq<Transfer>, t: TransferId)
    ensures CreatorOf(ts, t) != 0 ==> Transfer(t, CreatorOf(ts, t)) in ts
  {
  }

  lemma {:induction false} MemberCreator(ts: seq<Transfer>, tr: Transfer)
    requires UniqueTransfers(ts) && tr in ts
    ensures CreatorOf(ts, tr.tid) == tr.creator && tr.creator != 0
  {
    if ts[0] != tr {
      MemberCreator(ts[1..], tr);
    }
  }

  lemma {:induction false} WithoutTransferOf(ts: seq<Transfer>, u: TransferId, t: TransferId)
    ensures CreatorOf(WithoutTransfer(ts, u), t) == if t == u then 0 else CreatorOf(ts, t)
  {
    if ts != [] {
      WithoutTransferOf(ts[1..], u, t);
      assert ts[0].tid != u ==> WithoutTransfer(ts, u)[1..] == WithoutTransfer(ts[1..], u);
    }
  }

  lemma {:induction false} WithoutTransferUnique(ts: seq<Transfer>, u: TransferId)
    requires UniqueTransfers(ts)
    ensures UniqueTransfers(WithoutTransfer(ts, u))
  {
    if ts != [] {
      WithoutTransferOf(ts[1..], u, ts[0].tid);
      WithoutTransferUnique(ts[1..], u);
      assert ts[0].tid != u ==> WithoutTransfer(ts, u)[1..] == WithoutTransfer(ts[1..], u);
    }
  }

  lemma {:induction false} TransferAppendUnique(ts: seq<Transfer>, tr: Transfer)
    requires UniqueTransfers(ts) && CreatorOf(ts, tr.tid) == 0 && tr.creator != 0
    ensures UniqueTransfers(ts + [tr])
    ensures forall t :: CreatorOf(ts + [tr], t) == if t == tr.tid then tr.creator else CreatorOf(ts, t)
  {
    if ts == [] {
      assert ts + [tr] == [tr];
    } else {
      assert (ts + [tr])[1..] == ts[1..] + [tr];
      TransferAppendUnique(ts[1..], tr);
    }
  }

  lemma {:induction false} CreatedByOf(ts: seq<Transfer>, c: ClientId, t: TransferId)
    requires UniqueTransfers(ts) && c != 0
    ensures t in CreatedBy(ts, c) <==> CreatorOf(ts, t) == c
  {
    if ts != [] {
      CreatedByOf(ts[1..], c, t);
    }
  }

  lemma {:induction false} CreatedByDistinct(ts: seq<Transfer>, c: ClientId)
    requires UniqueTransfers(ts) && c != 0
    ensures forall i, j | 0 <= i < j < |CreatedBy(ts, c)| :: CreatedBy(ts, c)[i] != CreatedBy(ts, c)[j]
  {
    if ts != [] {
      CreatedByDistinct(ts[1..], c);
      CreatedByOf(ts[1..], c, ts[0].tid);
    }
  }

  lemma {:induction false} JoinedByOf(ts: seq<Transfer>, rows: seq<Row>, c: ClientId, t: TransferId)
    requires UniqueRows(rows)
    ensures (exists tr :: tr in JoinedBy(ts, rows, c) && tr.tid == t)
              <==> RowOf(rows, t, c) != NoRow && CreatorOf(ts, t) != 0
    ensures forall tr | tr in JoinedBy(ts, rows, c) :: tr.creator == CreatorOf(ts, tr.tid) != 0
    ensures forall i, j | 0 <= i < j < |JoinedBy(ts, rows, c)| ::
              JoinedBy(ts, rows, c)[i].tid != JoinedBy(ts, rows, c)[j].tid
  {
    if rows != [] {
      JoinedByOf(ts, rows[1..], c, t);
      JoinedByOf(ts, rows[1..], c, rows[0].tid);
      if rows[0].client == c && CreatorOf(ts, rows[0].tid) != 0 {
        assert JoinedBy(ts, rows, c)[0].tid == rows[0].tid;
      }
    }
  }
}
