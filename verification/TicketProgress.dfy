/**
 What the calls of the bounded queue come to: when a push or a pop succeeds, when it is refused, and that
 every element that has been pushed is either published or still being written by its producer.
 */
module TicketProgress {
  import opened Arithmetic
  import opened TicketQueue

  // ---------------------------------------------------------------- where every ticket is

  /** Somebody is writing the element of ticket `t`. */
  predicate BeingWritten(s: Queue, t: nat) {
    exists p | 0 <= p < |s.producers| :: s.producers[p].Writing? && s.producers[p].ticket == t
  }

  /** No element is forgotten: whatever is in the queue can be read, or will be once its producer goes on. */
  predicate Accounted(s: Queue)
    requires Sized(s)
  {
    forall t | s.head <= t < s.tail :: Published(s, t) || BeingWritten(s, t)
  }

  lemma StillWritten(s: Queue, n: Queue, t: nat, q: nat)
    requires BeingWritten(s, t) && |n.producers| == |s.producers| && q < |s.producers|
    requires forall p | 0 <= p < |s.producers| && p != q :: n.producers[p] == s.producers[p]
    requires s.producers[q].Writing? && s.producers[q].ticket == t ==>
               n.producers[q].Writing? && n.producers[q].ticket == t
    ensures BeingWritten(n, t)
  {
    var p :| 0 <= p < |s.producers| && s.producers[p].Writing? && s.producers[p].ticket == t;
    assert n.producers[p].Writing? && n.producers[p].ticket == t;
  }

  lemma AccountedProduce(s: Queue, a: Step, q: nat, t: nat)
    requires Inv(s) && Accounted(s) && Enabled(s, a) && s.head <= t < Next(s, a).tail
    requires (a.Enter? || a.Check? || a.Claim? || a.Store? || a.Publish?) && q == a.p
    ensures Sized(Next(s, a)) && (Published(Next(s, a), t) || BeingWritten(Next(s, a), t))
  {
    hide Inv, Cell, ConsumerOk, ProducerOk, CellOk, OneWriter, BeingWritten, Counted;
    var n := Next(s, a);
    if t < s.tail {
      if a.Publish? && s.producers[q].ticket == t {
        PublishedBy(s, q);
      } else {
        if Published(s, t) { StaysPublished(s, a, t); }
        if BeingWritten(s, t) { StillWritten(s, n, t, q); }
      }
    } else {
      ClaimWrites(s, a, t);
    }
  }

  lemma PublishedBy(s: Queue, p: nat)
    requires Inv(s) && Enabled(s, Publish(p))
    ensures var n := Next(s, Publish(p)); Sized(n) && Published(n, s.producers[p].ticket)
  {
    hide Cell;
    assert ProducerOk(s, s.producers[p]);
  }

  lemma ClaimWrites(s: Queue, a: Step, t: nat)
    requires Enabled(s, a) && (a.Enter? || a.Check? || a.Claim? || a.Store? || a.Publish?)
    requires s.tail <= t < Next(s, a).tail
    ensures BeingWritten(Next(s, a), t)
  {
    assert a.Claim?;
    var n := Next(s, a);
    assert n.producers[a.p].Writing? && s.producers[a.p].ticket == t;
  }

  /** Writing and publishing one element leaves the others published. */
  lemma StaysPublished(s: Queue, a: Step, t: nat)
    requires Inv(s) && Enabled(s, a) && Published(s, t) && t < Next(s, a).tail
    requires a.Enter? || a.Check? || a.Claim? || a.Store? || a.Publish?
    ensures Sized(Next(s, a)) && Published(Next(s, a), t)
  {
    hide Cell;
    if a.Store? || a.Publish? {
      assert ProducerOk(s, s.producers[a.p]);
      var u := s.producers[a.p].ticket;
      if u != t { Apart(s, t, u); }
    }
  }

  /** The consumer leaves what is in the queue as it is. */
  lemma AccountedConsume(s: Queue, a: Step, t: nat)
    requires Inv(s) && Accounted(s) && Enabled(s, a) && Next(s, a).head <= t < Next(s, a).tail
    requires !(a.Enter? || a.Check? || a.Claim? || a.Store? || a.Publish?)
    ensures Sized(Next(s, a)) && (Published(Next(s, a), t) || BeingWritten(Next(s, a), t))
  {
    hide Cell, CellOk, ProducerOk, BeingWritten;
    var n := Next(s, a);
    if BeingWritten(s, t) {
      SameProducers(s, n, t);
    } else if a.Release? {
      Apart(s, t, s.consumer.ticket);
    }
  }

  lemma SameProducers(s: Queue, n: Queue, t: nat)
    requires BeingWritten(s, t) && n.producers == s.producers
    ensures BeingWritten(n, t)
  {
  }

  lemma AccountedStep(s: Queue, a: Step)
    requires Inv(s) && Accounted(s) && Enabled(s, a)
    ensures Inv(Next(s, a)) && Sized(Next(s, a)) && Accounted(Next(s, a))
  {
    hide Inv, Cell, Enabled, Next, Published, BeingWritten;
    NextInv(s, a);
    var n := Next(s, a);
    InvSized(n);
    forall t | n.head <= t < n.tail
      ensures Published(n, t) || BeingWritten(n, t)
    {
      if a.Enter? || a.Check? || a.Claim? || a.Store? || a.Publish? {
        ProducerKeepsHead(s, a);
        AccountedProduce(s, a, a.p, t);
      } else {
        AccountedConsume(s, a, t);
      }
    }
  }

  lemma InvSized(s: Queue)
    requires Inv(s)
    ensures Sized(s)
  {
  }

  lemma ProducerKeepsHead(s: Queue, a: Step)
    requires Enabled(s, a) && (a.Enter? || a.Check? || a.Claim? || a.Store? || a.Publish?)
    ensures Next(s, a).head == s.head
  {
  }

  lemma {:induction false} AccountedRun(s: Queue, run: seq<Step>)
    requires Inv(s) && Accounted(s) && Possible(s, run)
    ensures Inv(After(s, run)) && Sized(After(s, run)) && Accounted(After(s, run))
    decreases |run|
  {
    hide Inv, Enabled, Next, Accounted;
    InvSized(s);
    if run != [] {
      AccountedStep(s, run[0]);
      AccountedRun(Next(s, run[0]), run[1..]);
    }
  }

  /**
   In every reachable state every element in the queue is published or is being written by some producer:
   none is forgotten, and none that nobody writes is unreadable.
   */
  lemma NothingForgotten(s: Queue)
    requires Reachable(s)
    ensures Inv(s) && Sized(s)
    ensures forall t | s.head <= t < s.tail :: Published(s, t) <==> !BeingWritten(s, t)
  {
    hide Inv, Possible, After, Created, Accounted;
    var capacity: nat, width: nat, threads: nat, blank: Value, run: seq<Step> :|
      && capacity > 0 && |blank| == width && Possible(Created(capacity, width, threads, blank), run)
      && After(Created(capacity, width, threads, blank), run) == s;
    var c := Created(capacity, width, threads, blank);
    CreatedInv(capacity, width, threads, blank);
    CreatedAccounted(capacity, width, threads, blank);
    AccountedRun(c, run);
    ReadOrWritten(s);
  }

  lemma CreatedAccounted(capacity: nat, width: nat, threads: nat, blank: Value)
    requires capacity > 0
    ensures var c := Created(capacity, width, threads, blank); Sized(c) && Accounted(c)
  {
  }

  lemma ReadOrWritten(s: Queue)
    requires Inv(s) && Accounted(s)
    ensures forall t | s.head <= t < s.tail :: Published(s, t) <==> !BeingWritten(s, t)
  {
    hide Cell;
    forall t | s.head <= t < s.tail && BeingWritten(s, t)
      ensures !Published(s, t)
    {
      var p :| 0 <= p < |s.producers| && s.producers[p].Writing? && s.producers[p].ticket == t;
      assert ProducerOk(s, s.producers[p]);
    }
  }

  // ---------------------------------------------------------------- when push is refused

  /** There is no room for one more element, counting one whose pop has not given its node back. */
  predicate NoRoom(s: Queue) {
    s.tail == s.head + s.capacity || (s.consumer.Releasing? && s.tail + 1 == s.head + s.capacity)
  }

  /** The node of a ticket that has gone by belongs to a ticket of the current window. */
  lemma {:induction false} Successor(c: nat, head: nat, t: nat) returns (u: nat)
    requires c > 0 && t < head
    ensures head <= u < head + c && t + c <= u && Cell(c, u) == Cell(c, t)
    ensures u == t + c <==> head <= t + c
    decreases head - t
  {
    SameCell(c, t);
    if t + c >= head {
      u := t + c;
    } else {
      u := Successor(c, head, t + c);
    }
  }

  /**
   What the test in push decides. With the current ticket it turns the producer away exactly when there is no
   room; with an older ticket that is still in the queue it lets it go on to the compare-and-swap, which
   fails; and with one that has been popped it turns it away whatever room there is.
   */
  lemma CheckDecides(s: Queue, p: nat)
    requires Reachable(s) && Enabled(s, Check(p))
    ensures var me, now := s.producers[p], Next(s, Check(p)).producers[p];
            && me.ticket <= s.tail
            && (now == Outside || now == Checked(me.value, me.ticket))
            && (me.ticket == s.tail ==> (now == Outside <==> NoRoom(s)))
            && (s.head <= me.ticket < s.tail ==> now != Outside)
            && (me.ticket < s.head ==> (now == Outside <==> !(s.consumer.Releasing? && s.consumer.ticket == me.ticket)))
  {
    hide Cell, Reachable;
    ReachableInv(s);
    var me := s.producers[p];
    assert ProducerOk(s, me);
    if me.ticket == s.tail {
      RefusedExactly(s);
    } else if s.head <= me.ticket {
      assert CellOk(s, me.ticket);
    } else {
      var u := Successor(s.capacity, s.head, me.ticket);
      assert CellOk(s, u);
      if s.consumer.Releasing? { SameCell(s.capacity, s.consumer.ticket); }
    }
  }

  /** The compare-and-swap succeeds exactly with the current ticket, unless it fails spuriously; then push starts over. */
  lemma ClaimDecides(s: Queue, p: nat, spurious: bool)
    requires Reachable(s) && Enabled(s, Claim(p, spurious))
    ensures var me, n := s.producers[p], Next(s, Claim(p, spurious));
            && p < |n.producers|
            && if me.ticket == s.tail && !spurious
               then n.producers[p].Writing? && n.producers[p].ticket == s.tail && n.tail == s.tail + 1
                    && n.pushed == s.pushed + [me.value] && s.tail < s.head + s.capacity
               else n == s.(producers := n.producers) && n.producers[p] == Loaded(me.value, s.tail)
  {
    hide Cell, Reachable;
    ReachableInv(s);
    assert ProducerOk(s, s.producers[p]);
  }

  /** The compare-and-swap of pop succeeds unless it fails spuriously; then pop starts over. */
  lemma PopClaimDecides(s: Queue, spurious: bool)
    requires Reachable(s) && Enabled(s, PopClaim(spurious))
    ensures var n := Next(s, PopClaim(spurious));
            if spurious then n == s.(consumer := PopLoaded(s.head, s.consumer.peeked))
            else s.head < |s.pushed| && n == s.(head := s.head + 1, popped := s.popped + [s.pushed[s.head]],
                                                consumer := Releasing(s.head))
  {
    hide Cell, Reachable;
    ReachableInv(s);
    assert CellOk(s, s.head);
  }

  // ---------------------------------------------------------------- a whole push

  /** The rest of a push that has `k` words still to write. */
  function Finish(p: nat, k: nat): seq<Step> {
    if k == 0 then [Publish(p)] else [Store(p)] + Finish(p, k - 1)
  }

  function PushRun(p: nat, v: Value): seq<Step> {
    [Enter(p, v)] + ([Check(p)] + ([Claim(p, false)] + Finish(p, |v|)))
  }

  lemma {:induction false} FinishRuns(s: Queue, p: nat, k: nat)
    requires Inv(s) && p < |s.producers| && s.producers[p].Writing? && s.producers[p].done + k == |s.producers[p].value|
    ensures Possible(s, Finish(p, k)) && Inv(After(s, Finish(p, k)))
    ensures var e := After(s, Finish(p, k));
            && e == s.(nodes := e.nodes, producers := s.producers[p := Outside])
            && Sized(e) && Published(e, s.producers[p].ticket)
    decreases k
  {
    hide Inv, Cell;
    if k == 0 {
      PublishRuns(s, p);
      OneStep(s, Publish(p));
    } else {
      StoreRuns(s, p);
      var n := Next(s, Store(p));
      FinishRuns(n, p, k - 1);
      StepThen(s, Store(p), Finish(p, k - 1));
      assert n.producers[p := Outside] == s.producers[p := Outside];
    }
  }

  lemma OneStep(s: Queue, a: Step)
    requires Enabled(s, a)
    ensures Possible(s, [a]) && After(s, [a]) == Next(s, a)
  {
    hide Enabled, Next;
    assert [a][1..] == [];
    assert Possible(Next(s, a), []);
  }

  lemma StepThen(s: Queue, a: Step, rest: seq<Step>)
    requires Enabled(s, a) && Possible(Next(s, a), rest)
    ensures Possible(s, [a] + rest) && After(s, [a] + rest) == After(Next(s, a), rest)
  {
    hide Enabled, Next;
    assert ([a] + rest)[1..] == rest;
  }

  lemma PublishRuns(s: Queue, p: nat)
    requires Inv(s) && p < |s.producers| && s.producers[p].Writing? && s.producers[p].done == |s.producers[p].value|
    ensures Enabled(s, Publish(p)) && Inv(Next(s, Publish(p)))
    ensures var e := Next(s, Publish(p));
            e == s.(nodes := e.nodes, producers := s.producers[p := Outside])
            && Sized(e) && Published(e, s.producers[p].ticket)
  {
    hide Cell;
    InvSized(s);
    NextInv(s, Publish(p));
    PublishedBy(s, p);
  }

  lemma StoreRuns(s: Queue, p: nat)
    requires Inv(s) && p < |s.producers| && s.producers[p].Writing? && s.producers[p].done < |s.producers[p].value|
    ensures Enabled(s, Store(p)) && Inv(Next(s, Store(p)))
    ensures var e, me := Next(s, Store(p)), s.producers[p];
            e == s.(nodes := e.nodes, producers := s.producers[p := me.(done := me.done + 1)])
  {
    hide Cell;
    assert ProducerOk(s, s.producers[p]);
    NextInv(s, Store(p));
  }

  lemma PushBegins(s: Queue, p: nat, v: Value)
    requires Reachable(s) && p < |s.producers| && s.producers[p] == Outside && |v| == s.width && !NoRoom(s)
    ensures Inv(s) && Enabled(s, Enter(p, v))
    ensures var a := Next(s, Enter(p, v));
            && Enabled(a, Check(p))
            && var b := Next(a, Check(p));
               && Enabled(b, Claim(p, false))
               && var c := Next(b, Claim(p, false));
                  && Inv(c)
                  && c == s.(producers := s.producers[p := Writing(v, s.tail, 0)], tail := s.tail + 1, pushed := s.pushed + [v])
  {
    hide Cell, Reachable;
    ReachableInv(s);
    RefusedExactly(s);
    var a := Next(s, Enter(p, v));
    NextInv(s, Enter(p, v));
    var b := Next(a, Check(p));
    NextInv(a, Check(p));
    NextInv(b, Claim(p, false));
  }

  /**
   Whenever there is room, a producer that is left to itself pushes its value: the run of its steps is
   possible, and at its end the value is the last of what has been pushed, can be read, and nobody
   else has noticed anything.
   */
  lemma PushSucceeds(s: Queue, p: nat, v: Value)
    requires Reachable(s) && p < |s.producers| && s.producers[p] == Outside && |v| == s.width && !NoRoom(s)
    ensures Possible(s, PushRun(p, v))
    ensures var e := After(s, PushRun(p, v));
            && e == s.(nodes := e.nodes, tail := s.tail + 1, pushed := s.pushed + [v])
            && Sized(e) && Published(e, s.tail)
  {
    hide Inv, Enabled, Next, Reachable, NoRoom;
    PushBegins(s, p, v);
    var a := Next(s, Enter(p, v));
    var b := Next(a, Check(p));
    var c := Next(b, Claim(p, false));
    FinishRuns(c, p, |v|);
    var rest := Finish(p, |v|);
    StepThen(b, Claim(p, false), rest);
    StepThen(a, Check(p), [Claim(p, false)] + rest);
    StepThen(s, Enter(p, v), [Check(p)] + ([Claim(p, false)] + rest));
    assert c.producers[p := Outside] == s.producers;
  }

  /** Without room it is turned away, and nothing has changed. */
  lemma PushRefused(s: Queue, p: nat, v: Value)
    requires Reachable(s) && p < |s.producers| && s.producers[p] == Outside && |v| == s.width && NoRoom(s)
    ensures Possible(s, [Enter(p, v), Check(p)]) && After(s, [Enter(p, v), Check(p)]) == s
  {
    hide Cell, Reachable;
    ReachableInv(s);
    RefusedExactly(s);
    var a := Next(s, Enter(p, v));
    OneStep(a, Check(p));
    assert [Enter(p, v), Check(p)][1..] == [Check(p)];
    assert s.producers[p := Loaded(v, s.tail)][p := Outside] == s.producers;
  }

  // ---------------------------------------------------------------- a whole peek, a whole pop

  function Copy(k: nat): seq<Step> {
    if k == 0 then [PeekDone] else [PeekCopy] + Copy(k - 1)
  }

  lemma {:induction false} CopyRuns(s: Queue, k: nat)
    requires Inv(s) && s.consumer.Peeking? && |s.consumer.words| + k == s.width
    ensures Possible(s, Copy(k)) && s.head < |s.pushed|
    ensures After(s, Copy(k)) == s.(consumer := Resting(Copied(s.pushed[s.head])))
    decreases k
  {
    hide Inv, Cell;
    PeekingFacts(s);
    if k == 0 {
      OneStep(s, PeekDone);
    } else {
      NextInv(s, PeekCopy);
      CopyRuns(Next(s, PeekCopy), k - 1);
      assert ([PeekCopy] + Copy(k - 1))[1..] == Copy(k - 1);
    }
  }

  lemma PeekingFacts(s: Queue)
    requires Inv(s) && s.consumer.Peeking?
    ensures Sized(s) && s.head < |s.pushed| && |At(s, s.consumer.ticket).data| == s.width == |s.pushed[s.head]|
    ensures |s.consumer.words| == s.width ==> s.consumer.words == s.pushed[s.head]
  {
    hide Cell;
    assert CellOk(s, s.head);
  }

  /** A peek copies the oldest element if it has been published, and otherwise finds nothing. */
  lemma PeekDecides(s: Queue)
    requires Reachable(s) && s.consumer.Resting?
    ensures Sized(s)
    ensures if Published(s, s.head)
            then Possible(s, [PeekEnter, PeekCheck] + Copy(s.width)) && s.head < |s.pushed|
                 && After(s, [PeekEnter, PeekCheck] + Copy(s.width)) == s.(consumer := Resting(Copied(s.pushed[s.head])))
            else Possible(s, [PeekEnter, PeekCheck])
                 && After(s, [PeekEnter, PeekCheck]) == s.(consumer := Resting(Nothing))
  {
    hide Cell, Reachable, Inv;
    ReachableInv(s);
    HeadCell(s);
    var a := Next(s, PeekEnter);
    NextInv(s, PeekEnter);
    var b := Next(a, PeekCheck);
    NextInv(a, PeekCheck);
    if Published(s, s.head) {
      CopyRuns(b, s.width);
      var rest := Copy(s.width);
      assert ([PeekEnter, PeekCheck] + rest)[1..] == [PeekCheck] + rest && ([PeekCheck] + rest)[1..] == rest;
    } else {
      OneStep(a, PeekCheck);
      assert [PeekEnter, PeekCheck][1..] == [PeekCheck];
    }
  }

  /** The node of the head says whether the oldest element can be read. */
  lemma HeadCell(s: Queue)
    requires Inv(s)
    ensures Sized(s) && (At(s, s.head).head == s.head <==> Published(s, s.head))
  {
    hide Cell;
    assert CellOk(s, s.head);
  }

  /** A pop removes the oldest element if it has been published, and otherwise nothing. */
  lemma PopDecides(s: Queue)
    requires Reachable(s) && s.consumer.Resting?
    ensures Sized(s)
    ensures if Published(s, s.head)
            then Possible(s, [PopEnter, PopCheck, PopClaim(false), Release]) && s.head < |s.pushed|
                 && var e := After(s, [PopEnter, PopCheck, PopClaim(false), Release]);
                    e == s.(nodes := e.nodes, head := s.head + 1, popped := s.popped + [s.pushed[s.head]],
                            consumer := Resting(Nothing))
            else Possible(s, [PopEnter, PopCheck]) && After(s, [PopEnter, PopCheck]) == s
  {
    hide Cell, Reachable, Inv;
    ReachableInv(s);
    HeadCell(s);
    var a := Next(s, PopEnter);
    NextInv(s, PopEnter);
    var b := Next(a, PopCheck);
    NextInv(a, PopCheck);
    if Published(s, s.head) {
      var c := Next(b, PopClaim(false));
      HeadData(s);
      OneStep(c, Release);
      assert [PopClaim(false), Release][1..] == [Release];
      assert [PopCheck, PopClaim(false), Release][1..] == [PopClaim(false), Release];
      assert [PopEnter, PopCheck, PopClaim(false), Release][1..] == [PopCheck, PopClaim(false), Release];
    } else {
      OneStep(a, PopCheck);
      assert [PopEnter, PopCheck][1..] == [PopCheck];
    }
  }

  lemma HeadData(s: Queue)
    requires Inv(s) && Published(s, s.head)
    ensures s.head < |s.pushed| && At(s, s.head).data == s.pushed[s.head]
  {
    hide Cell;
    assert CellOk(s, s.head);
  }

  /** While nobody is writing, whatever has been pushed and not popped can be peeked: the queue looks empty only when it is. */
  lemma EmptyExactly(s: Queue)
    requires Reachable(s) && forall p | 0 <= p < |s.producers| :: !s.producers[p].Writing?
    ensures Sized(s) && (Published(s, s.head) <==> s.head < s.tail)
  {
    hide Reachable, Inv;
    NothingForgotten(s);
  }
}
