/**
 The server's database (qs_server/src/database.c): the Transfers and TransferClients tables, the
 sessions, and the statements that walk them. A select is a cursor: its first call takes a snapshot
 of the rows that match, and each further call returns the next of them, or 0 at the end.
 */
module Database {
  import opened Wire
  import opened ServerModel

  class Database {
    var sessions: map<string, SessionId>
    var nextSession: SessionId
    var transfers: seq<Transfer>
    var rows: seq<Row>
    var nextTid: TransferId

    var created: seq<TransferId>   // select from Transfers where creator_id = ?
    var notDenied: seq<ClientId>   // select from TransferClients where transfer_id = ? and accepted != 0
    var accepted: seq<ClientId>    // select from TransferClients where transfer_id = ? and accepted == 1
    var joined: seq<Transfer>      // the join of both tables for one client

    var savedTransfers: seq<Transfer>
    var savedRows: seq<Row>
    var savedTid: TransferId

    /** No id in use is 0, which is what ends the loops over a cursor. */
    ghost predicate Valid()
      reads this
    {
      && nextTid != 0 && nextSession != 0
      && (forall tr | tr in transfers :: tr.tid != 0 && tr.creator != 0)
      && (forall row | row in rows :: row.client != 0)
      && (forall t | t in created :: t != 0)
      && (forall c | c in notDenied :: c != 0) && (forall c | c in accepted :: c != 0)
      && (forall tr | tr in joined :: tr.creator != 0)
    }

    constructor ()
      ensures Valid() && sessions == map[] && transfers == [] && rows == [] && nextSession == 1 == nextTid
    {
      sessions, nextSession, transfers, rows, nextTid := map[], 1, [], [], 1;
      created, notDenied, accepted, joined := [], [], [], [];
      savedTransfers, savedRows, savedTid := [], [], 1;
    }

    // -------------------------------------------------------------- sessions

    /** db_create_session: 0 when the name is taken. */
    method CreateSession(name: string) returns (id: SessionId)
      requires Valid()
      modifies this`sessions, this`nextSession
      ensures Valid()
      ensures name in old(sessions) ==> id == 0 && sessions == old(sessions) && nextSession == old(nextSession)
      ensures name !in old(sessions) ==>
                id == old(nextSession) && sessions == old(sessions)[name := id] && nextSession == id + 1
    {
      if name in sessions {
        return 0;
      }
      id := nextSession;
      sessions := sessions[name := id];
      nextSession := nextSession + 1;
    }

    /** db_get_session: 0 when there is no such name. */
    method GetSession(name: string) returns (id: SessionId)
      ensures id == if name in sessions then sessions[name] else 0
    {
      id := if name in sessions then sessions[name] else 0;
    }

    // -------------------------------------------------------------- changes

    method Begin()
      modifies this`savedTransfers, this`savedRows, this`savedTid
      ensures savedTransfers == transfers && savedRows == rows && savedTid == nextTid
    {
      savedTransfers, savedRows, savedTid := transfers, rows, nextTid;
    }

    method Rollback()
      modifies this`transfers, this`rows, this`nextTid
      ensures transfers == savedTransfers && rows == savedRows && nextTid == savedTid
    {
      transfers, rows, nextTid := savedTransfers, savedRows, savedTid;
    }

    method CreateTransfer(c: ClientId) returns (t: TransferId)
      requires Valid() && c != 0
      modifies this`transfers, this`nextTid
      ensures Valid() && t == old(nextTid) && nextTid == t + 1 && transfers == old(transfers) + [Transfer(t, c)]
    {
      t := nextTid;
      transfers := transfers + [Transfer(t, c)];
      nextTid := nextTid + 1;
    }

    method CreateClient(t: TransferId, c: ClientId)
      requires Valid() && c != 0
      modifies this`rows
      ensures Valid() && rows == old(rows) + [Row(t, c, UNANSWERED)]
    {
      rows := rows + [Row(t, c, UNANSWERED)];
    }

    method ClientAccept(c: ClientId, t: TransferId, accept: bool)
      requires Valid()
      modifies this`rows
      ensures Valid() && rows == SetAccepted(old(rows), c, t, accept)
    {
      SetAcceptedClients(rows, c, t, accept);
      rows := SetAccepted(rows, c, t, accept);
    }

    method ClientDelete(c: ClientId)
      requires Valid()
      modifies this`rows
      ensures Valid() && rows == WithoutClient(old(rows), c)
    {
      WithoutClientSubset(rows, c);
      rows := WithoutClient(rows, c);
    }

    method CleanupTransfer(t: TransferId)
      requires Valid()
      modifies this`transfers, this`rows
      ensures Valid() && transfers == WithoutTransfer(old(transfers), t) && rows == WithoutRows(old(rows), t)
    {
      WithoutRowsSubset(rows, t);
      WithoutTransferSubset(transfers, t);
      transfers := WithoutTransfer(transfers, t);
      rows := WithoutRows(rows, t);
    }

    // -------------------------------------------------------------- cursors

    method GetTransfer(c: ClientId) returns (t: TransferId)
      requires Valid()
      modifies this`created
      ensures Valid() && Stepped(CreatedBy(transfers, c), t, created)
    {
      CreatedByIds(transfers, c);
      created := CreatedBy(transfers, c);
      t := TransferStep();
    }

    method TransferStep() returns (t: TransferId)
      requires Valid()
      modifies this`created
      ensures Valid() && Stepped(old(created), t, created)
    {
      if created == [] {
        return 0;
      }
      TailIds(created);
      t := created[0];
      created := created[1..];
    }

    method GetClientAll(t: TransferId) returns (c: ClientId)
      requires Valid()
      modifies this`notDenied
      ensures Valid() && Stepped(Clients(rows, t, NotDenied), c, notDenied)
    {
      ClientsIds(rows, t, NotDenied);
      notDenied := Clients(rows, t, NotDenied);
      c := ClientAllStep();
    }

    method ClientAllStep() returns (c: ClientId)
      requires Valid()
      modifies this`notDenied
      ensures Valid() && Stepped(old(notDenied), c, notDenied)
    {
      if notDenied == [] {
        return 0;
      }
      TailIds(notDenied);
      c := notDenied[0];
      notDenied := notDenied[1..];
    }

    method GetClientAllAccepted(t: TransferId) returns (c: ClientId)
      requires Valid()
      modifies this`accepted
      ensures Valid() && Stepped(Clients(rows, t, Accepted), c, accepted)
    {
      ClientsIds(rows, t, Accepted);
      accepted := Clients(rows, t, Accepted);
      c := ClientAllStepAccepted();
    }

    method ClientAllStepAccepted() returns (c: ClientId)
      requires Valid()
      modifies this`accepted
      ensures Valid() && Stepped(old(accepted), c, accepted)
    {
      if accepted == [] {
        return 0;
      }
      TailIds(accepted);
      c := accepted[0];
      accepted := accepted[1..];
    }

    method GetCreator(c: ClientId) returns (info: Transfer)
      requires Valid()
      modifies this`joined
      ensures Valid() && SteppedInfo(JoinedBy(transfers, rows, c), info, joined)
    {
      JoinedCreators(transfers, rows, c);
      joined := JoinedBy(transfers, rows, c);
      info := CreatorStep();
    }

    method CreatorStep() returns (info: Transfer)
      requires Valid()
      modifies this`joined
      ensures Valid() && SteppedInfo(old(joined), info, joined)
    {
      if joined == [] {
        return Transfer(0, 0);
      }
      assert joined[0] in joined;
      info := joined[0];
      joined := joined[1..];
    }

    method GetCreatorByTid(t: TransferId) returns (c: ClientId)
      ensures c == CreatorOf(transfers, t)
    {
      c := CreatorOf(transfers, t);
    }
  }

  /** What one step of a cursor returns and leaves: the next value, or 0 when there is none. */
  predicate Stepped(before: seq<nat>, value: nat, after: seq<nat>) {
    if before == [] then value == 0 && after == [] else value == before[0] != 0 && after == before[1..]
  }

  predicate SteppedInfo(before: seq<Transfer>, info: Transfer, after: seq<Transfer>) {
    if before == [] then info.creator == 0 && after == [] else info == before[0] && info.creator != 0 && after == before[1..]
  }

  // ---------------------------------------------------------------- ids in the tables

  lemma TailIds(ids: seq<nat>)
    requires ids != [] && forall id | id in ids :: id != 0
    ensures ids[0] != 0 && forall id | id in ids[1..] :: id != 0
  {
    assert ids[0] in ids;
    assert forall id | id in ids[1..] :: id in ids;
  }

  lemma CreatedByIds(transfers: seq<Transfer>, c: ClientId)
    requires forall tr | tr in transfers :: tr.tid != 0
    ensures forall t | t in CreatedBy(transfers, c) :: t != 0
  {
  }

  lemma ClientsIds(rows: seq<Row>, t: TransferId, f: Filter)
    requires forall row | row in rows :: row.client != 0
    ensures forall c | c in Clients(rows, t, f) :: c != 0
  {
  }

  lemma JoinedCreators(transfers: seq<Transfer>, rows: seq<Row>, c: ClientId)
    ensures forall tr | tr in JoinedBy(transfers, rows, c) :: tr.creator != 0
  {
  }

  lemma SetAcceptedClients(rows: seq<Row>, c: ClientId, t: TransferId, accept: bool)
    requires forall row | row in rows :: row.client != 0
    ensures forall row | row in SetAccepted(rows, c, t, accept) :: row.client != 0
  {
  }

  lemma WithoutClientSubset(rows: seq<Row>, c: ClientId)
    ensures forall row | row in WithoutClient(rows, c) :: row in rows
  {
  }

  lemma WithoutRowsSubset(rows: seq<Row>, t: TransferId)
    ensures forall row | row in WithoutRows(rows, t) :: row in rows
  {
  }

  lemma WithoutTransferSubset(transfers: seq<Transfer>, t: TransferId)
    ensures forall tr | tr in WithoutTransfer(transfers, t) :: tr in transfers
  {
  }
}
