/**
 The bounded queue of include/LockFreeQueueCpp11.h, one atomic access at a time: any number of
 producers inside `push`, one consumer inside `peek` or `pop`, in every interleaving. An element is
 several words, and copying it in or out takes one step for each word.

 `pushed` and `popped` are history: what each ticket was given out for, in ticket order, and what
 has been removed.
 */
module TicketQueue {
  import opened Arithmetic

  type Word = int
  type Value = seq<Word>

  datatype Node = Node(data: Value, tail: int, head: int)

  /** Where a producer is inside `push(value)`. */
  datatype Producer =
    | Outside
    | Loaded(value: Value, ticket: nat)      // has read _tail
    | Checked(value: Value, ticket: nat)     // has found the node's tail to be the ticket
    | Writing(value: Value, ticket: nat, done: nat)

  /** Where the consumer is inside `peek` or `pop`, and what its last successful peek has copied. */
  datatype Consumer =
    | Resting(peeked: Copied)
    | PeekLoaded(ticket: nat)
    | Peeking(ticket: nat, words: seq<Word>)
    | PopLoaded(ticket: nat, peeked: Copied)
    | PopChecked(ticket: nat, peeked: Copied)
    | Releasing(ticket: nat)

  datatype Copied = Nothing | Copied(value: Value)

  datatype Queue = Queue(
    capacity: nat, width: nat, nodes: seq<Node>, tail: nat, head: nat,
    producers: seq<Producer>, consumer: Consumer,
    pushed: seq<Value>, popped: seq<Value>)

  predicate Sized(s: Queue) {
    s.capacity > 0 && |s.nodes| == s.capacity
  }

  /** The node of a ticket: what masking it with capacity - 1 gives. */
  function Cell(capacity: nat, t: nat): (i: nat)
    requires capacity > 0
    ensures i < capacity
  {
    if t < capacity then t else Cell(capacity, t - capacity)
  }

  function At(s: Queue, t: nat): Node
    requires Sized(s)
  {
    s.nodes[Cell(s.capacity, t)]
  }

  function Put(s: Queue, t: nat, n: Node): (r: Queue)
    requires Sized(s)
    ensures Sized(r) && r == s.(nodes := r.nodes)
  {
    s.(nodes := s.nodes[Cell(s.capacity, t) := n])
  }

  function Turned(s: Queue, p: nat, to: Producer): Queue
    requires p < |s.producers|
  {
    s.(producers := s.producers[p := to])
  }

  /** The constructor, with the threads that will use the queue. */
  function Created(capacity: nat, width: nat, threads: nat, blank: Value): Queue
    requires capacity > 0
  {
    Queue(capacity, width, seq(capacity, i => Node(blank, i, -1)), 0, 0,
          seq(threads, _ => Outside), Resting(Nothing), [], [])
  }

  // ---------------------------------------------------------------- atomic steps

  datatype Step =
    | Enter(p: nat, value: Value)       // push: load _tail
    | Check(p: nat)                     // push: load node->tail; return false when it differs
    | Claim(p: nat, spurious: bool)     // push: compare_exchange_weak on _tail
    | Store(p: nat)                     // push: one word of the memcpy
    | Publish(p: nat)                   // push: store node->head; return true
    | PeekEnter                         // peek: load _head
    | PeekCheck                         // peek: load node->head; return false when it differs
    | PeekCopy                          // peek: one word of the copy
    | PeekDone                          // peek: return true
    | PopEnter                          // pop: load _head
    | PopCheck                          // pop: load node->head; return false when it differs
    | PopClaim(spurious: bool)          // pop: compare_exchange_weak on _head
    | Release                           // pop: store node->tail; return true

  predicate Enabled(s: Queue, a: Step) {
    && Sized(s)
    && match a
       case Enter(p, v) => p < |s.producers| && s.producers[p].Outside? && |v| == s.width
       case Check(p) => p < |s.producers| && s.producers[p].Loaded?
       case Claim(p, _) => p < |s.producers| && s.producers[p].Checked?
       case Store(p) =>
         && p < |s.producers| && s.producers[p].Writing?
         && s.producers[p].done < |s.producers[p].value| && s.producers[p].done < |At(s, s.producers[p].ticket).data|
       case Publish(p) =>
         p < |s.producers| && s.producers[p].Writing? && s.producers[p].done == |s.producers[p].value|
       case PeekEnter => s.consumer.Resting?
       case PeekCheck => s.consumer.PeekLoaded?
       case PeekCopy =>
         s.consumer.Peeking? && |s.consumer.words| < s.width
         && |s.consumer.words| < |At(s, s.consumer.ticket).data|
       case PeekDone => s.consumer.Peeking? && |s.consumer.words| == s.width
       case PopEnter => s.consumer.Resting?
       case PopCheck => s.consumer.PopLoaded?
       case PopClaim(_) => s.consumer.PopChecked?
       case Release => s.consumer.Releasing?
  }

  function Produce(s: Queue, a: Step): Queue
    requires Enabled(s, a) && (a.Enter? || a.Check? || a.Claim? || a.Store? || a.Publish?)
  {
    match a
    case Enter(p, v) => Turned(s, p, Loaded(v, s.tail))
    case Check(p) =>
      var me := s.producers[p];
      Turned(s, p, if At(s, me.ticket).tail == me.ticket then Checked(me.value, me.ticket) else Outside)
    case Claim(p, spurious) =>
      var me := s.producers[p];
      if s.tail == me.ticket && !spurious then
        Turned(s, p, Writing(me.value, me.ticket, 0)).(tail := s.tail + 1, pushed := s.pushed + [me.value])
      else Turned(s, p, Loaded(me.value, s.tail))
    case Store(p) =>
      var me := s.producers[p];
      var n := At(s, me.ticket);
      Turned(Put(s, me.ticket, n.(data := n.data[me.done := me.value[me.done]])), p, me.(done := me.done + 1))
    case Publish(p) =>
      var me := s.producers[p];
      Turned(Put(s, me.ticket, At(s, me.ticket).(head := me.ticket)), p, Outside)
  }

  function Consume(s: Queue, a: Step): Queue
    requires Enabled(s, a) && !(a.Enter? || a.Check? || a.Claim? || a.Store? || a.Publish?)
  {
    var me := s.consumer;
    match a
    case PeekEnter => s.(consumer := PeekLoaded(s.head))
    case PeekCheck =>
      s.(consumer := if At(s, me.ticket).head == me.ticket then Peeking(me.ticket, []) else Resting(Nothing))
    case PeekCopy =>
      s.(consumer := me.(words := me.words + [At(s, me.ticket).data[|me.words|]]))
    case PeekDone => s.(consumer := Resting(Copied(me.words)))
    case PopEnter => s.(consumer := PopLoaded(s.head, me.peeked))
    case PopCheck =>
      s.(consumer := if At(s, me.ticket).head == me.ticket then PopChecked(me.ticket,
            me.peeked) else Resting(me.peeked))
    case PopClaim(spurious) =>
      if s.head == me.ticket && !spurious then
        s.(head := s.head + 1, popped := s.popped + [At(s, me.ticket).data], consumer := Releasing(me.ticket))
      else s.(consumer := PopLoaded(s.head, me.peeked))
    case Release =>
      Put(s, me.ticket, At(s, me.ticket).(tail := me.ticket + s.capacity)).(consumer := Resting(Nothing))
  }

  function Next(s: Queue, a: Step): Queue
    requires Enabled(s, a)
  {
    if a.Enter? || a.Check? || a.Claim? || a.Store? || a.Publish? then Produce(s, a) else Consume(s, a)
  }

  // ---------------------------------------------------------------- the invariant

  /** The element of ticket `t` is complete and may be read. */
  predicate Published(s: Queue, t: nat)
    requires Sized(s)
  {
    s.head <= t < s.tail && At(s, t).head == t
  }

  /** The node of a ticket of the current window: free, being written or published. */
  predicate CellOk(s: Queue, t: nat)
    requires Sized(s) && |s.pushed| == s.tail
  {
    var n := At(s, t);
    && |n.data| == s.width
    && if t < s.tail then n.tail == t && (n.head < t || (n.head == t && n.data == s.pushed[t]))
       else n.head < t && (n.tail == t || (s.consumer.Releasing? && t == s.head + s.capacity - 1 && n.tail == t - s.capacity))
  }

  predicate ProducerOk(s: Queue, w: Producer)
    requires Sized(s) && |s.pushed| == s.tail
  {
    match w
    case Outside => true
    case Loaded(v, t) => t <= s.tail && |v| == s.width
    case Checked(v, t) =>
      t <= s.tail && |v| == s.width && (t == s.tail ==> t < s.head + s.capacity && At(s, t).tail == t)
    case Writing(v, t, k) =>
      && s.head <= t < s.tail && v == s.pushed[t] && |v| == s.width && k <= s.width
      && At(s, t).head < t && |At(s, t).data| == s.width && At(s, t).data[..k] == v[..k]
  }

  predicate PeekedOk(s: Queue, c: Copied)
    requires Sized(s) && |s.pushed| == s.tail
  {
    c.Copied? ==> Published(s, s.head) && c.value == s.pushed[s.head]
  }

  predicate ConsumerOk(s: Queue)
    requires Sized(s) && |s.pushed| == s.tail
  {
    match s.consumer
    case Resting(c) => PeekedOk(s, c)
    case PeekLoaded(t) => t == s.head
    case Peeking(t, words) =>
      t == s.head && Published(s, t) && |words| <= |s.pushed[t]| == s.width && words == s.pushed[t][..|words|]
    case PopLoaded(t, c) => t == s.head && PeekedOk(s, c)
    case PopChecked(t, c) => t == s.head && Published(s, t) && PeekedOk(s, c)
    case Releasing(t) => t + 1 == s.head && s.tail < s.head + s.capacity && At(s, t).tail == t
  }

  /** No ticket is being written by two producers. */
  predicate OneWriter(s: Queue) {
    forall p, q | 0 <= p < q < |s.producers| && s.producers[p].Writing? && s.producers[q].Writing? ::
      s.producers[p].ticket != s.producers[q].ticket
  }

  predicate Counted(s: Queue) {
    && Sized(s) && |s.pushed| == s.tail && s.head <= s.tail <= s.head + s.capacity
    && s.popped == s.pushed[..s.head]
  }

  predicate Inv(s: Queue) {
    && Counted(s)
    && (forall v | v in s.pushed :: |v| == s.width)
    && (forall t | s.head <= t < s.head + s.capacity :: CellOk(s, t))
    && (forall p | 0 <= p < |s.producers| :: ProducerOk(s, s.producers[p]))
    && OneWriter(s)
    && ConsumerOk(s)
  }

  // ---------------------------------------------------------------- tickets and nodes

  lemma {:induction false} CellIsModulo(c: nat, t: nat)
    requires c > 0
    ensures Cell(c, t) == t % c
  {
    if t >= c {
      CellIsModulo(c, t - c);
      ModUnique(t, c, (t - c) / c + 1, (t - c) % c);
    } else {
      ModUnique(t, c, 0, t);
    }
  }

  /** Tickets less than a capacity apart have different nodes. */
  lemma {:induction false} DifferentCells(c: nat, t: nat, u: nat)
    requires c > 0 && t < u < t + c
    ensures Cell(c, t) != Cell(c, u)
  {
    if t >= c {
      DifferentCells(c, t - c, u - c);
    } else if u >= c {
      assert Cell(c, u) == u - c;
    }
  }

  lemma SameCell(c: nat, t: nat)
    requires c > 0
    ensures Cell(c, t + c) == Cell(c, t)
  {
  }

  /** Writing one ticket's node leaves the other nodes of the window alone. */
  lemma PutElsewhere(s: Queue, t: nat, n: Node, u: nat)
    requires Sized(s) && t != u && t < u + s.capacity && u < t + s.capacity
    ensures At(Put(s, t, n), u) == At(s, u)
  {
    if t < u { DifferentCells(s.capacity, t, u); } else { DifferentCells(s.capacity, u, t); }
  }

  lemma PutHere(s: Queue, t: nat, n: Node)
    requires Sized(s)
    ensures At(Put(s, t, n), t) == n && Sized(Put(s, t, n))
  {
  }

  // ---------------------------------------------------------------- steps of a producer

  lemma EnterInv(s: Queue, p: nat, v: Value)
    requires Inv(s) && Enabled(s, Enter(p, v))
    ensures Inv(Next(s, Enter(p, v)))
  {
    hide Cell;
    var n := Next(s, Enter(p, v));
    SameNodes(s, n);
  }

  /** A step that changes only what the threads know. */
  lemma SameNodes(s: Queue, n: Queue)
    requires Inv(s) && n == s.(producers := n.producers, consumer := n.consumer)
    requires s.consumer.Releasing? ==> n.consumer.Releasing?
    requires forall p | 0 <= p < |n.producers| :: ProducerOk(s, n.producers[p])
    requires OneWriter(n) && ConsumerOk(n)
    ensures Inv(n)
  {
    hide Cell;
    forall t | n.head <= t < n.head + n.capacity
      ensures CellOk(n, t)
    {
      assert CellOk(s, t);
    }
    forall p | 0 <= p < |n.producers|
      ensures ProducerOk(n, n.producers[p])
    {
      assert ProducerOk(s, n.producers[p]);
    }
  }

  lemma CheckInv(s: Queue, p: nat)
    requires Inv(s) && Enabled(s, Check(p))
    ensures Inv(Next(s, Check(p)))
  {
    hide Cell;
    var n := Next(s, Check(p));
    var t := s.producers[p].ticket;
    assert ProducerOk(s, s.producers[p]);
    if t == s.tail && At(s, t).tail == t { CheckedInWindow(s, t); }
    SameNodes(s, n);
  }

  /** Only a ticket of the window can be found in its node. */
  lemma CheckedInWindow(s: Queue, t: nat)
    requires Inv(s) && t == s.tail && At(s, t).tail == t
    ensures t < s.head + s.capacity
  {
    hide Cell;
    SameCell(s.capacity, s.head);
    assert CellOk(s, s.head);
  }

  lemma ClaimInv(s: Queue, p: nat, spurious: bool)
    requires Inv(s) && Enabled(s, Claim(p, spurious))
    ensures Inv(Next(s, Claim(p, spurious)))
  {
    hide Cell;
    assert ProducerOk(s, s.producers[p]);
    if s.tail == s.producers[p].ticket && !spurious {
      ClaimedInv(s, p);
    } else {
      SameNodes(s, Next(s, Claim(p, spurious)));
    }
  }

  /** The state after a successful compare-exchange on _tail. */
  function Claimed(s: Queue, p: nat): Queue
    requires p < |s.producers| && s.producers[p].Checked?
  {
    var me := s.producers[p];
    Turned(s, p, Writing(me.value, me.ticket, 0)).(tail := s.tail + 1, pushed := s.pushed + [me.value])
  }

  lemma ClaimedCells(s: Queue, p: nat, t: nat)
    requires Inv(s) && p < |s.producers| && s.producers[p].Checked? && s.producers[p].ticket == s.tail
    requires s.head <= t < s.head + s.capacity
    ensures CellOk(Claimed(s, p), t)
  {
    hide Cell, OneWriter, ConsumerOk;
    assert CellOk(s, t);
    assert ProducerOk(s, s.producers[p]);
    assert t < s.tail ==> Claimed(s, p).pushed[t] == s.pushed[t];
  }

  lemma ClaimedProducers(s: Queue, p: nat, q: nat)
    requires Inv(s) && p < |s.producers| && s.producers[p].Checked? && s.producers[p].ticket == s.tail
    requires q < |s.producers|
    ensures ProducerOk(Claimed(s, p), Claimed(s, p).producers[q])
    ensures s.producers[q].Writing? ==> s.producers[q].ticket < s.tail
  {
    hide Cell, OneWriter, ConsumerOk;
    assert ProducerOk(s, s.producers[q]);
    if q == p {
      assert CellOk(s, s.tail);
    }
  }

  /** The compare-exchange that succeeds hands out the next ticket, and with it an empty node. */
  lemma ClaimedInv(s: Queue, p: nat)
    requires Inv(s) && p < |s.producers| && s.producers[p].Checked? && s.producers[p].ticket == s.tail
    ensures Inv(Claimed(s, p))
  {
    hide Cell, CellOk, ProducerOk, At;
    var n := Claimed(s, p);
    CheckedFacts(s, p);
    TicketTaken(s, s.tail);
    ConsumerFrame(s, n);
    assert n.pushed[..n.head] == s.pushed[..s.head];
    forall t | n.head <= t < n.head + n.capacity
      ensures CellOk(n, t)
    {
      ClaimedCells(s, p, t);
    }
    forall q | 0 <= q < |n.producers|
      ensures ProducerOk(n, n.producers[q])
      ensures s.producers[q].Writing? ==> s.producers[q].ticket < s.tail
    {
      ClaimedProducers(s, p, q);
    }
  }

  lemma CheckedFacts(s: Queue, p: nat)
    requires Inv(s) && p < |s.producers| && s.producers[p].Checked? && s.producers[p].ticket == s.tail
    ensures |s.producers[p].value| == s.width && s.tail < s.head + s.capacity && At(s, s.tail).tail == s.tail
  {
    assert ProducerOk(s, s.producers[p]);
  }

  /** The consumer does not mind another element being pushed. */
  lemma ConsumerFrame(s: Queue, n: Queue)
    requires Inv(s) && n == s.(producers := n.producers, tail := s.tail + 1, pushed := n.pushed)
    requires |n.pushed| == n.tail && n.pushed[..s.tail] == s.pushed
    requires s.consumer.Releasing? ==> n.tail < s.head + s.capacity
    ensures ConsumerOk(n)
  {
    assert forall t | 0 <= t < s.tail :: n.pushed[t] == n.pushed[..s.tail][t];
  }

  /** A consumer that is still to release a node keeps the last ticket of the window from being found. */
  lemma TicketTaken(s: Queue, t: nat)
    requires Inv(s) && t == s.tail && t < s.head + s.capacity && At(s, t).tail == t
    ensures s.consumer.Releasing? ==> t + 1 < s.head + s.capacity
  {
    hide Cell;
    if s.consumer.Releasing? {
      SameCell(s.capacity, s.consumer.ticket);
    }
  }

  lemma StoreInv(s: Queue, p: nat)
    requires Inv(s) && Enabled(s, Store(p))
    ensures Inv(Next(s, Store(p)))
  {
    hide Cell, Put, At;
    var me := s.producers[p];
    assert ProducerOk(s, me);
    var was := At(s, me.ticket);
    var now := was.(data := was.data[me.done := me.value[me.done]]);
    WriterWrites(s, p, now, me.(done := me.done + 1));
  }

  /** A producer may do to its own node what keeps the node right for it. */
  lemma WriterWrites(s: Queue, p: nat, now: Node, w: Producer)
    requires Inv(s) && p < |s.producers| && s.producers[p].Writing?
    requires var t := s.producers[p].ticket;
             && |now.data| == s.width && now.tail == At(s, t).tail
             && (now.head == At(s, t).head || (now.head == t && t < |s.pushed| && now.data == s.pushed[t]))
    requires match w
             case Outside => true
             case Writing(v, t, k) =>
               && v == s.producers[p].value && t == s.producers[p].ticket && k <= s.width && now.head < t
               && k <= |v| && now.data[..k] == v[..k]
             case _ => false
    ensures Inv(Turned(Put(s, s.producers[p].ticket, now), p, w))
  {
    hide Cell, Put, At;
    var t := s.producers[p].ticket;
    var m := Put(s, t, now);
    var n := Turned(m, p, w);
    assert ProducerOk(s, s.producers[p]) && CellOk(s, t);
    PutHere(s, t, now);
    AtFrame(m, n);
    forall u | n.head <= u < n.head + n.capacity
      ensures CellOk(n, u)
    {
      assert CellOk(s, u);
      if u != t { PutElsewhere(s, t, now, u); }
    }
    forall q | 0 <= q < |n.producers|
      ensures ProducerOk(n, n.producers[q])
    {
      assert ProducerOk(s, s.producers[q]);
      if q != p && !s.producers[q].Outside? {
        var u := s.producers[q].ticket;
        if s.head <= u < s.head + s.capacity && u != t { PutElsewhere(s, t, now, u); }
      }
    }
    ConsumerUntouched(s, t, now, n);
  }

  lemma AtFrame(m: Queue, n: Queue)
    requires Sized(m) && n.nodes == m.nodes && n.capacity == m.capacity
    ensures Sized(n) && forall u: nat :: At(n, u) == At(m, u)
  {
  }

  lemma ConsumerUntouched(s: Queue, t: nat, now: Node, n: Queue)
    requires Inv(s) && s.head <= t < s.tail && At(s, t).head < t && now.tail == At(s, t).tail
    requires n == Put(s, t, now).(producers := n.producers) && Sized(n)
    ensures ConsumerOk(n)
  {
    hide Cell, Put, At;
    AtFrame(Put(s, t, now), n);
    PutHere(s, t, now);
    if t != s.head { PutElsewhere(s, t, now, s.head); }
    if s.consumer.Releasing? {
      ReleasingApart(s, t);
      PutElsewhere(s, t, now, s.consumer.ticket);
    }
  }

  lemma ReleasingApart(s: Queue, t: nat)
    requires Inv(s) && s.consumer.Releasing? && s.head <= t < s.tail
    ensures s.consumer.ticket < t < s.consumer.ticket + s.capacity
  {
  }

  lemma PublishInv(s: Queue, p: nat)
    requires Inv(s) && Enabled(s, Publish(p))
    ensures Inv(Next(s, Publish(p)))
  {
    hide Cell, Put, At;
    var me := s.producers[p];
    assert ProducerOk(s, me);
    var was := At(s, me.ticket);
    assert was.data == was.data[..me.done] && me.value == me.value[..me.done];
    WriterWrites(s, p, was.(head := me.ticket), Outside);
  }

  // ---------------------------------------------------------------- steps of the consumer

  lemma ReadInv(s: Queue, a: Step)
    requires Inv(s) && Enabled(s, a)
    requires a.PeekEnter? || a.PeekCheck? || a.PeekCopy? || a.PeekDone? || a.PopEnter? || a.PopCheck?
    ensures Inv(Next(s, a))
  {
    hide Cell;
    var n := Next(s, a);
    assert CellOk(s, s.head);
    if Published(s, s.head) {
      assert s.pushed[s.head] in s.pushed;
    }
    SameNodes(s, n);
  }

  lemma PopClaimInv(s: Queue, spurious: bool)
    requires Inv(s) && Enabled(s, PopClaim(spurious))
    ensures Inv(Next(s, PopClaim(spurious)))
  {
    hide Cell;
    var n := Next(s, PopClaim(spurious));
    if s.head == s.consumer.ticket && !spurious {
      assert CellOk(s, s.head);
      assert n.pushed[..n.head] == s.pushed[..s.head] + [s.pushed[s.head]];
      SameCell(s.capacity, s.head);
      AtFrame(s, n);
      forall t | n.head <= t < n.head + n.capacity
        ensures CellOk(n, t)
      {
        if t < s.head + s.capacity { assert CellOk(s, t); }
      }
      forall p | 0 <= p < |n.producers|
        ensures ProducerOk(n, n.producers[p])
      {
        assert ProducerOk(s, s.producers[p]);
      }
    } else {
      SameNodes(s, n);
    }
  }

  lemma ReleaseInv(s: Queue)
    requires Inv(s) && Enabled(s, Release)
    ensures Inv(Next(s, Release))
  {
    hide Cell, Put, At;
    var n := Next(s, Release);
    var h := s.consumer.ticket;
    var was := At(s, h);
    var now := was.(tail := h + s.capacity);
    var last := h + s.capacity;
    ReleaseShape(s);
    AtFrame(Put(s, h, now), n);
    PutHere(s, h, now);
    AtSame(s, h);
    AtSame(n, h);
    assert CellOk(s, last);
    forall t | n.head <= t < n.head + n.capacity
      ensures CellOk(n, t)
    {
      assert CellOk(s, t);
      if t != last { PutElsewhere(s, h, now, t); }
    }
    forall p | 0 <= p < |n.producers|
      ensures ProducerOk(n, n.producers[p])
    {
      assert ProducerOk(s, s.producers[p]);
      if !s.producers[p].Outside? {
        var u := s.producers[p].ticket;
        if s.head <= u < last { PutElsewhere(s, h, now, u); }
      }
    }
  }

  lemma ReleaseShape(s: Queue)
    requires Enabled(s, Release)
    ensures var h := s.consumer.ticket;
            Next(s, Release) == Put(s, h, At(s, h).(tail := h + s.capacity)).(consumer := Resting(Nothing))
  {
  }

  lemma AtSame(s: Queue, t: nat)
    requires Sized(s)
    ensures At(s, t + s.capacity) == At(s, t)
  {
    SameCell(s.capacity, t);
  }

  // ---------------------------------------------------------------- runs

  lemma CreatedInv(capacity: nat, width: nat, threads: nat, blank: Value)
    requires capacity > 0 && |blank| == width
    ensures Inv(Created(capacity, width, threads, blank))
  {
    var s := Created(capacity, width, threads, blank);
    forall t: nat | t < capacity
      ensures CellOk(s, t)
    {
      assert Cell(capacity, t) == t;
    }
  }

  /** Every atomic step of every thread keeps the invariant. */
  lemma NextInv(s: Queue, a: Step)
    requires Inv(s) && Enabled(s, a)
    ensures Inv(Next(s, a))
  {
    hide Inv, Enabled, Next;
    match a
    case Enter(p, v) => EnterInv(s, p, v);
    case Check(p) => CheckInv(s, p);
    case Claim(p, spurious) => ClaimInv(s, p, spurious);
    case Store(p) => StoreInv(s, p);
    case Publish(p) => PublishInv(s, p);
    case PopClaim(spurious) => PopClaimInv(s, spurious);
    case Release => ReleaseInv(s);
    case _ => ReadInv(s, a);
  }

  predicate Possible(s: Queue, run: seq<Step>)
    decreases |run|
  {
    run == [] || (Enabled(s, run[0]) && Possible(Next(s, run[0]), run[1..]))
  }

  function After(s: Queue, run: seq<Step>): Queue
    requires Possible(s, run)
    decreases |run|
  {
    if run == [] then s else After(Next(s, run[0]), run[1..])
  }

  lemma {:induction false} RunInv(s: Queue, run: seq<Step>)
    requires Inv(s) && Possible(s, run)
    ensures Inv(After(s, run))
    decreases |run|
  {
    hide Inv, Enabled, Next;
    if run != [] {
      NextInv(s, run[0]);
      RunInv(Next(s, run[0]), run[1..]);
    }
  }

  /** The states that any number of threads can get a new queue into. */
  ghost predicate Reachable(s: Queue) {
    exists capacity: nat, width: nat, threads: nat, blank: Value, run: seq<Step> ::
      && capacity > 0 && |blank| == width && Possible(Created(capacity, width, threads, blank), run)
      && After(Created(capacity, width, threads, blank), run) == s
  }

  lemma ReachableInv(s: Queue)
    requires Reachable(s)
    ensures Inv(s)
  {
    hide Inv, Possible, After, Created;
    var capacity: nat, width: nat, threads: nat, blank: Value, run: seq<Step> :|
      && capacity > 0 && |blank| == width && Possible(Created(capacity, width, threads, blank), run)
      && After(Created(capacity, width, threads, blank), run) == s;
    CreatedInv(capacity, width, threads, blank);
    RunInv(Created(capacity, width, threads, blank), run);
  }

  // ---------------------------------------------------------------- what the queue guarantees

  /**
   The queue is a FIFO: with any number of producers and under every interleaving, what has been
   popped is what was pushed first, in ticket order, nothing lost, repeated or half-written; and the
   counters stay within a capacity of each other.
   */
  lemma RefinesFifo(capacity: nat, width: nat, threads: nat, blank: Value, run: seq<Step>)
    requires capacity > 0 && |blank| == width && Possible(Created(capacity, width, threads, blank), run)
    ensures var s := After(Created(capacity, width, threads, blank), run);
            && s.popped <= s.pushed && |s.popped| == s.head && |s.pushed| == s.tail
            && s.head <= s.tail <= s.head + s.capacity
  {
    CreatedInv(capacity, width, threads, blank);
    RunInv(Created(capacity, width, threads, blank), run);
  }

  /** What a peek has copied is the element that the next pop removes, whatever the producers do meanwhile. */
  lemma PopRemovesPeeked(s: Queue, run: seq<Step>, v: Value)
    requires Reachable(s) && s.consumer == Resting(Copied(v))
    requires Possible(s, run) && forall a | a in run :: !a.PeekEnter? && a != PopClaim(false)
    requires Enabled(After(s, run), PopClaim(false))
    ensures var e := After(s, run);
            var n := Next(e, PopClaim(false));
            n.popped == s.popped + [v] && n.head == s.head + 1
  {
    hide Inv, Reachable, Next;
    ReachableInv(s);
    KeepsPeeked(s, run, v);
    RunInv(s, run);
    PoppedIsPeeked(After(s, run), v);
  }

  predicate HoldsPeeked(s: Queue, v: Value) {
    (s.consumer.Resting? || s.consumer.PopLoaded? || s.consumer.PopChecked?) && s.consumer.peeked == Copied(v)
  }

  lemma PoppedIsPeeked(e: Queue, v: Value)
    requires Inv(e) && HoldsPeeked(e, v) && Enabled(e, PopClaim(false))
    ensures var n := Next(e, PopClaim(false)); n.popped == e.popped + [v] && n.head == e.head + 1
  {
    hide Cell;
    assert CellOk(e, e.head);
  }

  lemma KeepStep(s: Queue, a: Step, v: Value)
    requires Inv(s) && HoldsPeeked(s, v) && Enabled(s, a) && !a.PeekEnter? && a != PopClaim(false)
    ensures HoldsPeeked(Next(s, a), v) && Next(s, a).popped == s.popped && Next(s, a).head == s.head
  {
    hide Cell;
    assert CellOk(s, s.head);
  }

  lemma {:induction false} KeepsPeeked(s: Queue, run: seq<Step>, v: Value)
    requires Inv(s) && HoldsPeeked(s, v) && Possible(s, run)
    requires forall a | a in run :: !a.PeekEnter? && a != PopClaim(false)
    ensures HoldsPeeked(After(s, run), v) && After(s, run).popped == s.popped && After(s, run).head == s.head
    decreases |run|
  {
    hide Inv, Next, Enabled, HoldsPeeked;
    if run != [] {
      assert run[0] in run;
      KeepStep(s, run[0], v);
      NextInv(s, run[0]);
      KeepsPeeked(Next(s, run[0]), run[1..], v);
    }
  }

  /** The data of a node belongs to one thread at a time: to one producer, or to the consumer. */
  lemma OneOwner(s: Queue, p: nat, q: nat)
    requires Reachable(s) && p < |s.producers| && s.producers[p].Writing?
    ensures s.capacity > 0
    ensures q < |s.producers| && q != p && s.producers[q].Writing? ==>
              Cell(s.capacity, s.producers[p].ticket) != Cell(s.capacity, s.producers[q].ticket)
    ensures s.consumer.Peeking? || s.consumer.PopChecked? || s.consumer.Releasing? ==>
              Cell(s.capacity, s.producers[p].ticket) != Cell(s.capacity, s.consumer.ticket)
  {
    hide Cell, Reachable;
    ReachableInv(s);
    assert ProducerOk(s, s.producers[p]);
    var t := s.producers[p].ticket;
    if q < |s.producers| && q != p && s.producers[q].Writing? {
      assert ProducerOk(s, s.producers[q]);
      Apart(s, t, s.producers[q].ticket);
    }
    if s.consumer.Peeking? || s.consumer.PopChecked? || s.consumer.Releasing? {
      Apart(s, t, s.consumer.ticket);
    }
  }

  lemma Apart(s: Queue, t: nat, u: nat)
    requires Sized(s) && t != u && t < u + s.capacity && u < t + s.capacity
    ensures Cell(s.capacity, t) != Cell(s.capacity, u)
  {
    if t < u { DifferentCells(s.capacity, t, u); } else { DifferentCells(s.capacity, u, t); }
  }

  /**
   A producer that holds the current _tail is turned away exactly when the queue is full, or would be
   once the element that is just being popped is counted as still there.
   */
  lemma RefusedExactly(s: Queue)
    requires Reachable(s)
    ensures Sized(s)
    ensures At(s, s.tail).tail != s.tail <==>
            s.tail == s.head + s.capacity || (s.consumer.Releasing? && s.tail + 1 == s.head + s.capacity)
  {
    hide Cell, Reachable;
    ReachableInv(s);
    SameCell(s.capacity, s.head);
    assert CellOk(s, s.head);
    if s.tail < s.head + s.capacity {
      assert CellOk(s, s.tail);
    }
    if s.consumer.Releasing? {
      SameCell(s.capacity, s.consumer.ticket);
    }
  }
}
