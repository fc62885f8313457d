/**
 A stream of packets, seen through a lens that shows only what one transfer has to do with one
 client, follows a fixed order: an opening packet, at most one reply, data, an end. `Flow` is the
 summary of such a stream; a stream that breaks the order is `Broken`.
 */
module Flows {
  import opened Wire

  datatype End = Unended | ByComplete | ByCancel

  datatype Reply = NoReply | Said(accept: bool)

  datatype Flow =
    | Broken
    | Flow(first: bool, reply: Reply, data: seq<byte>, end: End)

  const NOTHING := Flow(false, NoReply, [], Unended)
  const OPENING := NOTHING.(first := true)
  const COMPLETE := NOTHING.(end := ByComplete)
  const CANCEL := NOTHING.(end := ByCancel)
  function ReplyFlow(b: bool): Flow { NOTHING.(reply := Said(b)) }
  function DataFlow(bytes: seq<byte>): Flow { NOTHING.(data := bytes) }

  /** Which packets of a stream concern transfer `t` and its recipient `r`. */
  datatype Lens =
    | ToRecipient(t: TransferId)
    | FromRecipient(t: TransferId)
    | ToHost(t: TransferId, r: ClientId)
    | FromHost(t: TransferId)

  predicate Sees(l: Lens, p: Packet) {
    match l
    case ToRecipient(t) =>
      (match p
       case TransferRequest(req) => req.hdr.tid == t
       case TransferData(u, _) => u == t
       case TransferComplete(u) => u == t
       case TransferCancel(u, _) => u == t
       case _ => false)
    case FromRecipient(t) =>
      (match p
       case TransferReply(u, _, _) => u == t
       case TransferCancel(u, _) => u == t
       case _ => false)
    case ToHost(t, r) =>
      (match p
       case TransferValid(req) => req.hdr.tid == t
       case TransferReply(u, from, _) => u == t && from == r
       case TransferCancel(u, from) => u == t && from == r
       case _ => false)
    case FromHost(t) =>
      (match p
       case TransferData(u, _) => u == t
       case TransferComplete(u) => u == t
       case TransferCancel(u, _) => u == t
       case _ => false)
  }

  /** The flow of a single packet. */
  function One(p: Packet): Flow {
    match p
    case TransferRequest(_) => OPENING
    case TransferValid(_) => OPENING
    case TransferReply(_, _, b) => ReplyFlow(b)
    case TransferData(_, bytes) => DataFlow(bytes)
    case TransferComplete(_) => COMPLETE
    case TransferCancel(_, _) => CANCEL
    case _ => Broken
  }

  /** One flow after another. */
  function Then(a: Flow, b: Flow): Flow {
    if a == Broken || b == Broken then Broken
    else if b.first && a != NOTHING then Broken
    else if b.reply != NoReply && (a.reply != NoReply || a.data != [] || a.end != Unended) then Broken
    else if b.data != [] && a.end != Unended then Broken
    else if b.end != Unended && a.end != Unended then Broken
    else Flow(a.first || b.first, if b.reply != NoReply then b.reply else a.reply, a.data + b.data,
              if b.end != Unended then b.end else a.end)
  }

  lemma ThenAssociative(a: Flow, b: Flow, c: Flow)
    ensures Then(Then(a, b), c) == Then(a, Then(b, c))
  {
  }

  lemma ThenNothing(a: Flow)
    ensures Then(a, NOTHING) == a == Then(NOTHING, a)
  {
  }

  function Seen(l: Lens, p: Packet): Flow {
    if Sees(l, p) then One(p) else NOTHING
  }

  /** The summary of a stream through a lens. */
  function Sum(q: seq<Packet>, l: Lens): Flow {
    if q == [] then NOTHING else Then(Seen(l, q[0]), Sum(q[1..], l))
  }

  lemma {:induction false} SumAppend(p: seq<Packet>, q: seq<Packet>, l: Lens)
    ensures Sum(p + q, l) == Then(Sum(p, l), Sum(q, l))
  {
    if p == [] {
      assert p + q == q;
      ThenNothing(Sum(q, l));
    } else {
      assert (p + q)[1..] == p[1..] + q;
      SumAppend(p[1..], q, l);
      ThenAssociative(Seen(l, p[0]), Sum(p[1..], l), Sum(q, l));
    }
  }

  lemma SumOne(p: Packet, l: Lens)
    ensures Sum([p], l) == Seen(l, p)
  {
  }

  /** A stream none of whose packets the lens shows. */
  lemma {:induction false} SumBlind(q: seq<Packet>, l: Lens)
    requires forall p | p in q :: !Sees(l, p)
    ensures Sum(q, l) == NOTHING
  {
    if q != [] {
      assert q[0] in q;
      SumBlind(q[1..], l);
      ThenNothing(NOTHING);
    }
  }
}
