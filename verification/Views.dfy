/**
 The lane of a transfer and one of its recipients, read off a state of the system.
 */
module Views {
  import opened Wire
  import opened FileModel
  import opened Slots
  import opened ServerModel
  import opened Tables
  import opened Network
  import opened WellTyped
  import opened Flows
  import opened Lanes

  // ---------------------------------------------------------------- the slots of one transfer

  datatype Pick = NoSlot | TheSlot(slot: Slot) | ManySlots

  predicate Bears(s: Slot, t: TransferId) {
    s.state != Empty && s.hdr.tid == t
  }

  /** The slots in use for a transfer, if there is at most one. */
  function PickOf(slots: seq<Slot>, t: TransferId): Pick {
    if slots == [] then NoSlot
    else if !Bears(slots[0], t) then PickOf(slots[1..], t)
    else if PickOf(slots[1..], t) == NoSlot then TheSlot(slots[0])
    else ManySlots
  }

  lemma {:induction false} PickNone(slots: seq<Slot>, t: TransferId)
    ensures PickOf(slots, t) == NoSlot <==> forall i | 0 <= i < |slots| :: !Bears(slots[i], t)
  {
    if slots != [] {
      PickNone(slots[1..], t);
      assert forall i | 0 <= i < |slots| :: i == 0 || slots[i] == slots[1..][i - 1];
      assert forall i | 0 <= i < |slots[1..]| :: slots[1..][i] == slots[i + 1];
    }
  }

  /** A slot of the transfer is the picked one, when there is at most one. */
  lemma {:induction false} PickThe(slots: seq<Slot>, t: TransferId, i: nat)
    requires i < |slots| && Bears(slots[i], t) && PickOf(slots, t) != ManySlots
    ensures PickOf(slots, t) == TheSlot(slots[i])
  {
    if i == 0 {
    } else {
      assert slots[i] == slots[1..][i - 1];
      PickNone(slots[1..], t);
      PickThe(slots[1..], t, i - 1);
    }
  }

  lemma {:induction false} PickMember(slots: seq<Slot>, t: TransferId) returns (i: nat)
    requires PickOf(slots, t).TheSlot?
    ensures i < |slots| && slots[i] == PickOf(slots, t).slot && Bears(slots[i], t)
  {
    if Bears(slots[0], t) {
      i := 0;
    } else {
      var j := PickMember(slots[1..], t);
      i := j + 1;
    }
  }

  /** What becomes of the pick when one slot of the array is overwritten. */
  lemma {:induction false} PickUpdate(slots: seq<Slot>, i: nat, s: Slot, t: TransferId)
    requires i < |slots|
    ensures !Bears(slots[i], t) && !Bears(s, t) ==> PickOf(slots[i := s], t) == PickOf(slots, t)
    ensures !Bears(slots[i], t) && Bears(s, t) && PickOf(slots, t) == NoSlot ==>
              PickOf(slots[i := s], t) == TheSlot(s)
    ensures Bears(slots[i], t) && PickOf(slots, t) != ManySlots ==>
              PickOf(slots[i := s], t) == if Bears(s, t) then TheSlot(s) else NoSlot
  {
    if i == 0 {
      assert slots[0 := s][1..] == slots[1..];
    } else {
      assert slots[i := s][1..] == slots[1..][i - 1 := s];
      PickUpdate(slots[1..], i - 1, s, t);
      PickNone(slots[1..], t);
      assert slots[i] == slots[1..][i - 1];
    }
  }

  /** A search by transfer id finds the picked slot or nothing. */
  lemma PickFind(slots: seq<Slot>, k: Key, t: TransferId)
    requires PickOf(slots, t) != ManySlots
    requires (k.In? && k.state != Empty && k.tid == t) || (k.Cancellable? && k.tid == t)
    ensures var i := Find(slots, k);
            if i < |slots| then PickOf(slots, t) == TheSlot(slots[i])
            else PickOf(slots, t).TheSlot? ==> Bears(PickOf(slots, t).slot, t) && !Matches(PickOf(slots, t).slot, k)
  {
  }

  // ---------------------------------------------------------------- the lane

  function HeldOf(p: Pick): Held {
    match p
    case NoSlot => Vacant
    case TheSlot(s) => Held(s.state, s.file.disk)
    case ManySlots => Twice
  }

  function SentBy(s: Slot): nat {
    if Reading(s.file) then Sent(s.file) else 0
  }

  /** The host's slot as the recipient at place `k` of the list is concerned with it. */
  function SourceOf(p: Pick, k: nat): Source {
    match p
    case NoSlot => Absent
    case TheSlot(s) => Source(s.state, k < TRANSFER_CLIENTS_MAX && s.answers[k] != Empty, SentBy(s))
    case ManySlots => Double
  }

  predicate IsLane(s: System, t: TransferId, r: ClientId) {
    && Takes(s.origin, t, r) && HasFile(s.origin, s.hosted, t) && t in s.relayed
    && r in s.peers && s.origin[t].creator in s.peers && r != s.origin[t].creator
  }

  function LaneOf(s: System, t: TransferId, r: ClientId): Lane
    requires IsLane(s, t, r)
  {
    var o := s.origin[t];
    var me, host := s.peers[r], s.peers[o.creator];
    Lane(
      r in s.server.conns, CreatorOf(s.server.transfers, t) != 0, RowOf(s.server.rows, t, r),
      Sum(me.down, ToRecipient(t)), Sum(me.up, FromRecipient(t)), HeldOf(PickOf(me.manager.recv, t)),
      Sum(host.down, ToHost(t, r)), Sum(host.up, FromHost(t)),
      SourceOf(PickOf(host.manager.host, t), IndexOf(o.to, r)),
      File(s.origin, s.hosted, t), s.relayed[t])
  }

  lemma IndexOfRecipient(to: ToList, r: ClientId)
    requires r in Recipients(to)
    ensures IndexOf(to, r) < Len(to)
  {
  }

  lemma TypedLane(s: System, t: TransferId, r: ClientId)
    requires Typed(s) && Takes(s.origin, t, r) && r in s.peers
    ensures IsLane(s, t, r) && t != 0
  {
  }

  /** Every lane of a state is sound. */
  ghost predicate LanesSound(s: System) {
    forall t, r | IsLane(s, t, r) :: Sound(LaneOf(s, t, r))
  }
}
