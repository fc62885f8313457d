/**
 The messages that tell clients about each other, as they are built in a client's message queue. A
 slot of the queue keeps the bytes of the message that used it last; the batch of users that a joiner
 is sent counts its entries by incrementing whatever the slot holds.
 */
module SessionNotices {
  import opened Wire
  import opened RingQueue

  const CLIENT_LIST_LEN := 32

  datatype Kind = NoMessage | Ok | Deny | New | Del | Other

  const NOBODY := User(0, "")

  type UserArray = s: seq<User> | |s| == CLIENT_LIST_LEN witness seq(CLIENT_LIST_LEN, _ => NOBODY)

  /** One slot: the type in its header, and the parts of its body that NEW_USERS uses. */
  datatype Cell = Cell(kind: Kind, users: UserArray, usersLen: nat)

  const BLANK := Cell(NoMessage, seq(CLIENT_LIST_LEN, _ => NOBODY), 0)

  type MessageQueue = RingQueue<Cell>

  /** A client that reads the message sees exactly these users: as many as the count says. */
  predicate Tells(c: Cell, users: seq<User>) {
    c.usersLen <= CLIENT_LIST_LEN && c.users[..c.usersLen] == users
  }

  /** What is in the slot that the next enqueue hands out. */
  ghost function NextCell(q: MessageQueue): Cell
    requires q.Valid() && !q.Full()
    reads q, q.items
  {
    q.items[q.head]
  }

  /** No slot holds a count that an earlier message has left. */
  ghost predicate Clean(q: MessageQueue)
    reads q, q.items
  {
    forall i | 0 <= i < q.items.Length :: q.items[i].usersLen == 0
  }

  /** queue_reset, as client_configure calls it when a client connects. */
  method Connect(q: MessageQueue)
    requires q.Valid() && q.blank == BLANK
    modifies q, q.items
    ensures q.Valid() && q.Contents() == [] && Clean(q)
  {
    q.Reset();
  }

  /** dequeue, as write_data calls it: what was in the slot stays in it. */
  method Take(q: MessageQueue) returns (c: Option<Cell>)
    requires q.Valid()
    modifies q
    ensures q.Valid()
    ensures c == if old(q.Contents()) == [] then None else Some(old(q.Contents())[0])
    ensures q.Contents() == if old(q.Contents()) == [] then [] else old(q.Contents())[1..]
    ensures old(Clean(q)) ==> Clean(q)
  {
    c := q.Dequeue();
  }

  /** server_resposne: only the header of the slot is written. */
  method Respond(q: MessageQueue, kind: Kind) returns (sent: bool)
    requires q.Valid()
    modifies q, q.items
    ensures q.Valid() && (sent <==> !old(q.Full()))
    ensures !sent ==> q.Contents() == old(q.Contents())
    ensures sent ==> |q.Contents()| == old(|q.Contents()|) + 1 && q.Contents()[..old(|q.Contents()|)] == old(q.Contents())
    ensures sent ==> q.Contents()[old(|q.Contents()|)].kind == kind
    ensures old(Clean(q)) ==> Clean(q)
  {
    var slot := q.Enqueue();
    if slot.None? {
      return false;
    }
    q.Fill(slot.value, q.items[slot.value].(kind := kind));
    sent := true;
  }

  /** A slot with one more entry, written at place `n`. */
  function WithUser(c: Cell, n: nat, user: User): Cell
    requires n < CLIENT_LIST_LEN
  {
    c.(users := c.users[n := user], usersLen := c.usersLen + 1)
  }

  /** One turn of the loop in send_session_users, on the slot that was enqueued last. */
  method AddEntry(q: MessageQueue, slot: nat, n: nat, user: User)
    requires q.Valid() && q.count > 0 && slot == Place(q.tail, q.count - 1, q.len) && n < CLIENT_LIST_LEN
    modifies q.items
    ensures q.Valid() && slot < q.len && q.items[slot] == WithUser(old(q.items[slot]), n, user)
    ensures q.Contents() == old(q.Contents())[..q.count - 1] + [q.items[slot]]
  {
    q.Fill(slot, WithUser(q.items[slot], n, user));
  }

  /** The batch as it is built in a slot that holds what an earlier message has left. */
  function Built(c: Cell, found: seq<User>): Cell
    requires |found| <= CLIENT_LIST_LEN
  {
    Cell(New, found + c.users[|found|..], c.usersLen + |found|)
  }

  lemma BuiltOne(c: Cell, found: seq<User>, n: nat)
    requires n < |found| <= CLIENT_LIST_LEN
    ensures WithUser(Built(c, found[..n]), n, found[n]) == Built(c, found[..n + 1])
  {
    assert found[..n + 1] + c.users[n + 1..] == (found[..n] + c.users[n..])[n := found[n]];
  }

  /**
   send_session_users: the joiner's batch, one entry for each COMPLETE client found in its session.
   The entries are written from the front of the slot, but counted on top of the count that the slot
   holds already, so that what the joiner reads is right exactly when that count is 0.
   */
  method Batch(q: MessageQueue, found: seq<User>) returns (sent: bool)
    requires q.Valid() && |found| <= CLIENT_LIST_LEN
    modifies q, q.items
    ensures q.Valid() && (sent <==> found != [] && !old(q.Full()))
    ensures !sent ==> q.Contents() == old(q.Contents())
    ensures sent ==>
              && |q.Contents()| == old(|q.Contents()|) + 1
              && q.Contents()[..old(|q.Contents()|)] == old(q.Contents())
              && var c := q.Contents()[old(|q.Contents()|)];
                 && c == Built(old(NextCell(q)), found) && c.users[..|found|] == found
                 && (Tells(c, found) <==> old(NextCell(q)).usersLen == 0)
  {
    ghost var before := q.Contents();
    if found == [] {
      return false;
    }
    ghost var cell := if q.Full() then BLANK else NextCell(q);
    var slot := q.Enqueue();
    if slot.None? {
      return false;
    }
    var i := slot.value;
    q.Fill(i, q.items[i].(kind := New));
    var n := 0;
    assert found[..0] + cell.users[0..] == cell.users;
    while n < |found|
      invariant n <= |found| && q.Valid() && q.count == |before| + 1 && i == Place(q.tail, q.count - 1,
              q.len) && i < q.len
      invariant q.Contents() == before + [q.items[i]] && q.items[i] == Built(cell, found[..n])
    {
      hide RingQueue.Valid, RingQueue.Contents, Place, Built, WithUser;
      BuiltOne(cell, found, n);
      AddEntry(q, i, n, found[n]);
      n := n + 1;
    }
    assert found[..n] == found;
    sent := true;
  }

  /**
   What packet_intro puts in the queue of a client that it admits. Nothing has touched the body of a slot
   of its queue since the client connected, so that it will read exactly the users found.
   */
  method Admit(q: MessageQueue, found: seq<User>) returns (told: bool)
    requires q.Valid() && Clean(q) && |found| <= CLIENT_LIST_LEN
    modifies q, q.items
    ensures q.Valid() && old(q.Contents()) <= q.Contents()
    ensures told <==> found != [] && old(q.count) + 2 <= q.len
    ensures told ==>
              && |q.Contents()| == old(|q.Contents()|) + 2
              && q.Contents()[old(|q.Contents()|)].kind == Ok
              && var c := q.Contents()[old(|q.Contents()|) + 1];
                 c.kind == New && c.usersLen == |found| && Tells(c, found)
  {
    ghost var before := q.Contents();
    var ok := Respond(q, Ok);
    ghost var between := q.Contents();
    told := Batch(q, found);
    if told { assert q.Contents()[..|before|] == between[..|before|]; }
  }

  /** What happens to the queue of a client that has not joined: a header-only answer, or a dequeue. */
  datatype Use = Answer(kind: Kind) | Dequeue

  /** How many messages a queue of the given length holds after some uses. */
  function Load(uses: seq<Use>, len: nat): (n: nat)
    ensures n <= len
  {
    if uses == [] then 0
    else
      var n := Load(uses[..|uses| - 1], len);
      match uses[|uses| - 1]
      case Answer(_) => if n < len then n + 1 else n
      case Dequeue => if n > 0 then n - 1 else n
  }

  /**
   The queue of a client from its connect to its admission, whatever answers it was given before and whatever
   of them has been dequeued: the batch that it is sent behind the answer OK tells it exactly the users found.
   */
  method Joiner(q: MessageQueue, uses: seq<Use>, found: seq<User>) returns (told: bool)
    requires q.Valid() && q.blank == BLANK && |found| <= CLIENT_LIST_LEN
    modifies q, q.items
    ensures q.Valid() && (told <==> found != [] && Load(uses, q.len) + 2 <= q.len)
    ensures told ==>
              && |q.Contents()| == Load(uses, q.len) + 2
              && q.Contents()[|q.Contents()| - 2].kind == Ok
              && var c := q.Contents()[|q.Contents()| - 1];
                 c.kind == New && c.usersLen == |found| && Tells(c, found)
  {
    Connect(q);
    var i := 0;
    while i < |uses|
      invariant i <= |uses| && q.Valid() && Clean(q) && q.count == |q.Contents()| == Load(uses[..i], q.len)
    {
      hide RingQueue.Valid, RingQueue.Contents;
      assert uses[..i + 1][..i] == uses[..i];
      CountIs(q);
      match uses[i] {
        case Answer(kind) => var sent := Respond(q, kind);
        case Dequeue => var c := Take(q);
      }
      CountIs(q);
      i := i + 1;
    }
    assert uses[..i] == uses;
    told := Admit(q, found);
  }

  lemma CountIs(q: MessageQueue)
    requires q.Valid()
    ensures q.count == |q.Contents()|
  {
  }

  /** send_single_user with NEW: the slot is zeroed first, so that a used one does as well. */
  method Announce(q: MessageQueue, user: User) returns (sent: bool)
    requires q.Valid()
    modifies q, q.items
    ensures q.Valid() && (sent <==> !old(q.Full()))
    ensures !sent ==> q.Contents() == old(q.Contents())
    ensures sent ==> |q.Contents()| == old(|q.Contents()|) + 1 && q.Contents()[..old(|q.Contents()|)] == old(q.Contents())
    ensures sent ==>
              var c := q.Contents()[old(|q.Contents()|)]; c.kind == New && c.usersLen == 1 && Tells(c, [user])
  {
    var slot := q.Enqueue();
    if slot.None? {
      return false;
    }
    q.Fill(slot.value, BLANK.(kind := New, usersLen := 1, users := BLANK.users[0 := user]));
    sent := true;
  }
}
