/**
 The server's table of 32 client slots (qs_server/src/client.c), and what it stands for: the map of
 connected clients that the handlers are specified with.
 */
module ClientTable {
  import opened Wire
  import opened ServerModel
  import opened Tables
  import opened Sends

  const MAX_CLIENTS := 32

  datatype ClientState = CEmpty | CConnected | CSecure | CComplete

  /** One slot; `fd` identifies the connection and `queue` is the message queue. */
  datatype Client = Client(state: ClientState, id: ClientId, fd: int, session: SessionId, name: string,
        queue: seq<Packet>)

  const NO_CLIENT := Client(CEmpty, 0, 0, 0, "", [])

  function ConnOf(c: Client): Conn {
    Conn(c.state == CComplete, c.session, c.name)
  }

  /** The connected clients, in slot order. */
  function Order(slots: seq<Client>): seq<ClientId> {
    if slots == [] then []
    else if slots[0].state == CEmpty then Order(slots[1..])
    else [slots[0].id] + Order(slots[1..])
  }

  function ConnsOf(slots: seq<Client>): map<ClientId, Conn> {
    if slots == [] then map[]
    else if slots[0].state == CEmpty then ConnsOf(slots[1..])
    else ConnsOf(slots[1..])[slots[0].id := ConnOf(slots[0])]
  }

  /** Slots in use have ids of their own, none of them 0. */
  predicate DistinctIds(slots: seq<Client>) {
    && (forall i | 0 <= i < |slots| && slots[i].state != CEmpty :: slots[i].id != 0)
    && (forall i, j | 0 <= i < j < |slots| && slots[i].state != CEmpty && slots[j].state != CEmpty ::
          slots[i].id != slots[j].id)
  }

  /** The lookups: slot `i` holds the client with this id. */
  predicate Holds(slots: seq<Client>, i: nat, id: ClientId) {
    i < |slots| && slots[i].state != CEmpty && slots[i].id == id
  }

  lemma {:induction false} ConnsMember(slots: seq<Client>, id: ClientId)
    ensures id in ConnsOf(slots) <==> exists i: nat :: Holds(slots, i, id)
  {
    if slots != [] {
      ConnsMember(slots[1..], id);
      if i: nat :| Holds(slots, i, id) && i > 0 {
        assert Holds(slots[1..], i - 1, id);
      }
      if i: nat :| Holds(slots[1..], i, id) {
        assert Holds(slots, i + 1, id);
      }
      if Holds(slots, 0, id) {
        assert id in ConnsOf(slots);
      }
    }
  }

  lemma {:induction false} ConnsAt(slots: seq<Client>, i: nat)
    requires DistinctIds(slots) && i < |slots| && slots[i].state != CEmpty
    ensures slots[i].id in ConnsOf(slots) && ConnsOf(slots)[slots[i].id] == ConnOf(slots[i])
  {
    if i > 0 {
      assert slots[1..][i - 1] == slots[i];
      ConnsAt(slots[1..], i - 1);
    }
  }

  lemma HeadElsewhere(slots: seq<Client>)
    requires DistinctIds(slots) && slots != [] && slots[0].state != CEmpty
    ensures slots[0].id !in ConnsOf(slots[1..])
  {
    ConnsMember(slots[1..], slots[0].id);
    forall i: nat
      ensures !Holds(slots[1..], i, slots[0].id)
    {
      assert i < |slots[1..]| ==> slots[1..][i] == slots[i + 1];
    }
  }

  lemma {:induction false} OrderOf(slots: seq<Client>)
    requires DistinctIds(slots)
    ensures forall id :: id in Order(slots) <==> id in ConnsOf(slots)
    ensures Distinct(Order(slots))
  {
    if slots != [] {
      OrderOf(slots[1..]);
      if slots[0].state != CEmpty {
        HeadElsewhere(slots);
      }
    }
  }

  /** Overwriting a slot in use by the same client changes its entry and nothing else. */
  lemma {:induction false} ConnsUpdate(slots: seq<Client>, i: nat, c: Client)
    requires DistinctIds(slots) && i < |slots| && slots[i].state != CEmpty && c.state != CEmpty && c.id == slots[i].id
    ensures ConnsOf(slots[i := c]) == ConnsOf(slots)[c.id := ConnOf(c)]
    ensures Order(slots[i := c]) == Order(slots) && DistinctIds(slots[i := c])
  {
    if i == 0 {
      assert slots[i := c][1..] == slots[1..];
    } else {
      assert slots[i := c][1..] == slots[1..][i - 1 := c];
      ConnsUpdate(slots[1..], i - 1, c);
    }
  }

  lemma {:induction false} ConnsRemove(slots: seq<Client>, i: nat, c: Client)
    requires DistinctIds(slots) && i < |slots| && slots[i].state != CEmpty && c.state == CEmpty
    ensures ConnsOf(slots[i := c]) == ConnsOf(slots) - {slots[i].id} && DistinctIds(slots[i := c])
  {
    if i == 0 {
      assert slots[i := c][1..] == slots[1..];
      HeadElsewhere(slots);
    } else {
      assert slots[i := c][1..] == slots[1..][i - 1 := c];
      ConnsRemove(slots[1..], i - 1, c);
      assert slots[1..][i - 1] == slots[i];
    }
  }

  lemma {:induction false} ConnsAdd(slots: seq<Client>, i: nat, c: Client)
    requires DistinctIds(slots) && i < |slots| && slots[i].state == CEmpty && c.state != CEmpty
    requires c.id != 0 && c.id !in ConnsOf(slots)
    ensures ConnsOf(slots[i := c]) == ConnsOf(slots)[c.id := ConnOf(c)] && DistinctIds(slots[i := c])
  {
    ConnsMember(slots, c.id);
    forall j | 0 <= j < |slots| && slots[j].state != CEmpty
      ensures slots[j].id != c.id
    {
      assert !Holds(slots, j, c.id);
    }
    if i == 0 {
      assert slots[i := c][1..] == slots[1..];
    } else {
      assert slots[i := c][1..] == slots[1..][i - 1 := c];
      ConnsMember(slots[1..], c.id);
      forall j: nat
        ensures !Holds(slots[1..], j, c.id)
      {
        assert !Holds(slots, j + 1, c.id);
      }
      ConnsAdd(slots[1..], i - 1, c);
    }
  }

  // ---------------------------------------------------------------- sends and queues

  /** The queues have got the packets of `log`, and nothing else has changed. */
  ghost predicate Tracks(before: seq<Client>, after: seq<Client>, log: seq<Send>) {
    && |before| == |after|
    && forall i | 0 <= i < |before| ::
         after[i] == before[i].(queue := before[i].queue + (if before[i].state == CEmpty then [] else For(log,
               before[i].id)))
  }

  lemma TracksNothing(slots: seq<Client>)
    ensures Tracks(slots, slots, [])
  {
  }

  /** One packet is put in the queue of the client in slot `i`. */
  lemma TracksOne(before: seq<Client>, after: seq<Client>, log: seq<Send>, i: nat, p: Packet)
    requires Tracks(before, after, log) && DistinctIds(before) && i < |before| && before[i].state != CEmpty
    ensures Tracks(before, after[i := after[i].(queue := after[i].queue + [p])], log + [Send(before[i].id, p)])
  {
    var id := before[i].id;
    forall j | 0 <= j < |before| && before[j].state != CEmpty
      ensures For(log + [Send(id, p)], before[j].id) == For(log, before[j].id) + if j == i then [p] else []
    {
      ForAppend(log, [Send(id, p)], before[j].id);
      assert [Send(id, p)][1..] == [];
      assert For([Send(id, p)], before[j].id) == if before[j].id == id then [p] else [];
    }
  }

  /** A table that has only got packets stands for the same clients. */
  lemma {:induction false} TracksConns(before: seq<Client>, after: seq<Client>, log: seq<Send>)
    requires Tracks(before, after, log)
    ensures ConnsOf(after) == ConnsOf(before) && Order(after) == Order(before)
    ensures DistinctIds(before) ==> DistinctIds(after)
  {
    if before != [] {
      TracksTail(before, after, log);
      TracksConns(before[1..], after[1..], log);
    }
  }

  lemma TracksTail(before: seq<Client>, after: seq<Client>, log: seq<Send>)
    requires Tracks(before, after, log) && before != []
    ensures Tracks(before[1..], after[1..], log)
  {
  }

  lemma {:induction false} FanAppend(conns: map<ClientId, Conn>, ids: seq<ClientId>, id: ClientId, p: Packet)
    ensures Fan(conns, ids + [id], p) == Fan(conns, ids, p) + if id in conns then [Send(id, p)] else []
  {
    if ids == [] {
      assert [] + [id] == [id];
      assert [id][1..] == [];
    } else {
      assert (ids + [id])[1..] == ids[1..] + [id];
      FanAppend(conns, ids[1..], id, p);
    }
  }

  // ---------------------------------------------------------------- the COMPLETE clients of a session

  /** What the loops over all slots find: the COMPLETE clients of a session other than one. */
  function PeerIds(slots: seq<Client>, c: ClientId, session: SessionId): seq<ClientId> {
    if slots == [] then []
    else if slots[0].id != c && slots[0].state == CComplete && slots[0].session == session
    then [slots[0].id] + PeerIds(slots[1..], c, session)
    else PeerIds(slots[1..], c, session)
  }

  lemma {:induction false} PeersArePeerIds(conns: map<ClientId, Conn>, slots: seq<Client>, c: ClientId,
        session: SessionId)
    requires forall i | 0 <= i < |slots| && slots[i].state != CEmpty ::
               slots[i].id in conns && conns[slots[i].id] == ConnOf(slots[i])
    ensures Peers(conns, Order(slots), c, session) == PeerIds(slots, c, session)
  {
    if slots != [] {
      forall i | 0 <= i < |slots[1..]| && slots[1..][i].state != CEmpty
        ensures slots[1..][i].id in conns && conns[slots[1..][i].id] == ConnOf(slots[1..][i])
      {
        assert slots[i + 1] == slots[1..][i];
      }
      PeersArePeerIds(conns, slots[1..], c, session);
      if slots[0].state != CEmpty {
        assert Order(slots)[1..] == Order(slots[1..]);
      }
    }
  }

  lemma {:induction false} PeerIdsAppend(slots: seq<Client>, s: Client, c: ClientId, session: SessionId)
    ensures PeerIds(slots + [s], c, session) ==
            PeerIds(slots, c, session) + if s.id != c && s.state == CComplete && s.session == session then [s.id] else []
  {
    if slots == [] {
      assert [] + [s] == [s];
      assert [s][1..] == [];
    } else {
      assert (slots + [s])[1..] == slots[1..] + [s];
      PeerIdsAppend(slots[1..], s, c, session);
    }
  }

  lemma PeersOf(slots: seq<Client>, c: ClientId, session: SessionId)
    requires DistinctIds(slots)
    ensures Peers(ConnsOf(slots), Order(slots), c, session) == PeerIds(slots, c, session)
  {
    forall i | 0 <= i < |slots| && slots[i].state != CEmpty
      ensures slots[i].id in ConnsOf(slots) && ConnsOf(slots)[slots[i].id] == ConnOf(slots[i])
    {
      ConnsAt(slots, i);
    }
    PeersArePeerIds(ConnsOf(slots), slots, c, session);
  }
}
