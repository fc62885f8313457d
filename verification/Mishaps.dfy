/**
 Two runs in which a recipient is stranded, with a slot that stays ACTIVE for good: one in which it misses
 the host's CANCEL, and one in which cancelling one transfer takes it out of another. The two clients and
 the first steps are those of Delivery.dfy; in the second run the host offers its file twice.
 */
module Mishaps {
  import opened Wire
  import opened FileModel
  import opened Slots
  import opened ServerModel
  import opened Tables
  import opened Sends
  import opened Network
  import opened WellTyped
  import opened Preservation
  import opened Delivery
  import Shortcomings

  lemma StrandedAt(s: System, i: nat, t: TransferId)
    requires GUEST in s.peers && i < SIM_TRANSFERS_MAX && s.peers[GUEST].down == []
    requires s.peers[GUEST].manager.recv[i].state == Active && s.peers[GUEST].manager.recv[i].hdr.tid == t
    requires RowOf(s.server.rows, t, GUEST) == NoRow
    ensures Shortcomings.Stranded(s, GUEST, i, t)
  {
    assert Flows.Sum([], Flows.ToRecipient(t)) == Flows.NOTHING;
  }

  // ---------------------------------------------------------------- a CANCEL that is missed

  lemma HostCancels(name: string, f: FileHandle)
    ensures Execute(Hosting(HostSlot(Pending, TID, NO_ANSWERS, name, f)), CmdCancel(TID)) ==
            Hosting(HostSlot(State.Cancel, TID, NO_ANSWERS, name, f))
  {
    var s := HostSlot(Pending, TID, NO_ANSWERS, name, f);
    FindNone(FREE_SLOTS, Cancellable(TID));
    FindFirst(First(s), Cancellable(TID));
    FirstPut(s, HostSlot(State.Cancel, TID, NO_ANSWERS, name, f));
  }

  lemma HostSendsCancel(name: string, f: FileHandle)
    ensures var m := Hosting(HostSlot(State.Cancel, TID, NO_ANSWERS, name, f));
            Readable(m) && Slots.Work(m, true, true).packet == Some(TransferCancel(TID, 0))
  {
    var s := HostSlot(State.Cancel, TID, NO_ANSWERS, name, f);
    NoneActive(s);
    FindFirst(First(s), HostBusy);
  }

  lemma CancelServed()
    ensures var r := Handle(Meeting(OPEN, ASKED, 2), BOTH, HOST, TransferCancel(TID, 0));
            && r.server == Meeting([], [], 2)
            && For(r.sends, HOST) == [] && For(r.sends, GUEST) == [TransferCancel(TID, HOST)]
  {
    assert ASKED[1..] == [] && OPEN[1..] == [];
    assert Clients(ASKED, TID, NotDenied) == [GUEST] && CreatedBy(OPEN, HOST) == [TID];
    assert WithoutRows(ASKED, TID) == [] && WithoutTransfer(OPEN, TID) == [];
    assert TID in CreatedBy(OPEN, HOST);
    FanFor(Meeting(OPEN, ASKED, 2).conns, [GUEST], TransferCancel(TID, HOST), GUEST);
    FanFor(Meeting(OPEN, ASKED, 2).conns, [GUEST], TransferCancel(TID, HOST), HOST);
  }

  lemma GuestIgnores(name: string, g: FileHandle)
    ensures Receive(Receiving(GuestSlot(Accept, name, g)), TransferCancel(TID, HOST)) ==
            Receiving(GuestSlot(Accept, name, g))
  {
    FindNone(First(GuestSlot(Accept, name, g)), Cancellable(TID));
    FindNone(FREE_SLOTS, Cancellable(TID));
  }

  /** The host cancels while the guest's user has decided and the reply has not been sent. */
  lemma HostWithdraws(name: string, contents: seq<byte>)
    requires contents != []
    ensures var m := Hosting(HostSlot(State.Cancel, TID, NO_ANSWERS, name, ReadFile(contents)));
            Readable(m) &&
            Reachable(Pair(Meeting([], [], 2), HostPeer(Slots.Work(m, true, true).manager, [], []),
                           GuestPeer(Receiving(GuestSlot(Accept, name, WriteFile(|contents|))), [], [TransferCancel(TID,
                                 HOST)]),
                           BORN, Offer(contents), map[TID := 0]))
  {
    hide Reachable, Execute, Slots.Work, Handle, For, Hosting, Receiving, HostSlot, GuestSlot, Readable;
    Decided(name, contents);
    var f, g := ReadFile(contents), WriteFile(|contents|);
    var server, cancel := Meeting(OPEN, ASKED, 2), TransferCancel(TID, 0);
    var m := Hosting(HostSlot(State.Cancel, TID, NO_ANSWERS, name, f));
    HostCancels(name, f);
    HostSendsCancel(name, f);
    var h0, h1 := HostPeer(Hosting(HostSlot(Pending, TID, NO_ANSWERS, name, f)), [], []), HostPeer(m, [], []);
    var h2 := HostPeer(Slots.Work(m, true, true).manager, [cancel], []);
    var g0 := GuestPeer(Receiving(GuestSlot(Accept, name, g)), [], []);
    var a, b := Pair(server, h0, g0, BORN, Offer(contents), map[TID := 0]), Pair(server, h1, g0, BORN, Offer(contents),
          map[TID := 0]);
    HostStep(a, b, h0, g0, h1, Do(HOST, CmdCancel(TID)));
    assert [] + [cancel] == [cancel];
    var c := Pair(server, h2, g0, BORN, Offer(contents), map[TID := 0]);
    HostStep(b, c, h1, g0, h2, Produce(HOST, true, true));
    CancelServed();
    ServeStep(c, HOST, h2, g0, Meeting([], [], 2), [], [TransferCancel(TID, HOST)]);
    assert h2.(up := [cancel][1..], down := [] + []) == HostPeer(h2.manager, [], []);
    assert g0.(down := [] + [TransferCancel(TID, HOST)]) == GuestPeer(g0.manager, [], [TransferCancel(TID, HOST)]);
  }

  /**
   For every file there is a run to a state `s` in which a CANCEL is about to reach a guest that has just
   accepted. It is ignored, and the run goes on to a state `e` in which the guest's slot is ACTIVE, without
   a row at the server, which has forgotten the transfer.
   */
  lemma CancelMissed(name: string, contents: seq<byte>) returns (s: System, e: System)
    requires contents != []
    ensures Reachable(s) && GUEST in s.peers && s.peers[GUEST].down == [TransferCancel(TID, HOST)]
    ensures s.peers[GUEST].manager.recv[0].state == Accept && s.peers[GUEST].manager.recv[0].hdr.tid == TID
    ensures Enabled(s, Deliver(GUEST)) && Enabled(Next(s, Deliver(GUEST)), Produce(GUEST, true, true))
    ensures e == Next(Next(s, Deliver(GUEST)), Produce(GUEST, true, true)) && Reachable(e)
    ensures e.server.transfers == [] && Shortcomings.Stranded(e, GUEST, 0, TID)
  {
    hide Reachable, Slots.Work, Receive, Hosting, HostSlot;
    HostWithdraws(name, contents);
    var g := WriteFile(|contents|);
    var m := Hosting(HostSlot(State.Cancel, TID, NO_ANSWERS, name, ReadFile(contents)));
    s := Pair(Meeting([], [], 2), HostPeer(Slots.Work(m, true, true).manager, [], []),
         GuestPeer(Receiving(GuestSlot(Accept, name, g)), [], [TransferCancel(TID, HOST)]), BORN, Offer(contents),
         map[TID := 0]);
    GuestIgnores(name, g);
    GuestReplies(name, g);
    assert [TransferCancel(TID, HOST)][1..] == [];
    var n := Next(s, Deliver(GUEST));
    ReachNext(s, Deliver(GUEST));
    assert n.peers[GUEST] == GuestPeer(Receiving(GuestSlot(Accept, name, g)), [], []);
    e := Next(n, Produce(GUEST, true, true));
    ReachNext(n, Produce(GUEST, true, true));
    assert e.peers[GUEST].manager == Receiving(GuestSlot(Active, name, g));
    StrandedAt(e, 0, TID);
  }

  // ---------------------------------------------------------------- a cancel that spills over

  const TID2: TransferId := 2

  lemma FindSecond(slots: seq<Slot>, k: Key)
    requires |slots| >= 2 && !Matches(slots[0], k) && Matches(slots[1], k)
    ensures Find(slots, k) == 1
  {
  }

  /** The array whose first two slots are `s` and `t` and whose others are free. */
  function Two(s: Slot, t: Slot): SlotArray {
    [s, t, FREE_SLOT, FREE_SLOT, FREE_SLOT, FREE_SLOT]
  }

  lemma TwoPut(s: Slot, t: Slot, n: Slot)
    ensures Two(s, t)[0 := n] == Two(n, t) && Two(s, t)[1 := n] == Two(s, n) && First(s)[1 := n] == Two(s, n)
  {
  }

  // The host offers the file again while its first slot is PENDING.

  function HostSlot2(state: State, name: string, f: FileHandle): Slot {
    Slot(state, Hdr(0, 0, TO), NO_ANSWERS, 2, name, f)
  }

  function Hosting2(s: Slot, t: Slot): Manager {
    Manager(Two(s, t), FREE_SLOTS, 3, [])
  }

  lemma HostRequests2(s: Slot, name: string, contents: seq<byte>)
    requires contents != [] && s.state == Pending
    ensures Execute(Hosting(s), CmdRequest(name, contents, TO)) ==
            Hosting2(s, HostSlot2(SendReq, name, ReadFile(contents)))
  {
    FindSecond(First(s), Free);
    TwoPut(s, s, HostSlot2(SendReq, name, ReadFile(contents)));
  }

  lemma HostSendsRequest2(s: Slot, name: string, f: FileHandle)
    requires s.state == Pending
    ensures var m := Hosting2(s, HostSlot2(SendReq, name, f));
            && Readable(m)
            && Slots.Work(m, true, true) == Produced(Hosting2(s, HostSlot2(GetResponse, name, f)),
                                                     Some(TransferRequest(Request(Hdr(0, 0, TO), 2, name, f.size))))
  {
    FindSecond(Two(s, HostSlot2(SendReq, name, f)), HostBusy);
    TwoPut(s, HostSlot2(SendReq, name, f), HostSlot2(GetResponse, name, f));
  }

  // The guest takes both.

  function GuestSlot2(state: State, name: string, g: FileHandle): Slot {
    Slot(state, Hdr(TID2, HOST, TO), NO_ANSWERS, 0, name, g)
  }

  function Receiving2(s: Slot, t: Slot): Manager {
    Manager(FREE_SLOTS, Two(s, t), 1, [])
  }

  lemma GuestIsAsked2(s: Slot, name: string, size: nat)
    requires s.state != Empty
    ensures CanReceive(Receiving(s))
    ensures Receive(Receiving(s), TransferRequest(Request(Hdr(TID2, HOST, TO), 2, name, size))) ==
            Receiving2(s, GuestSlot2(GetResponse, name, WriteFile(size)))
  {
    FindSecond(First(s), Free);
    TwoPut(s, s, GuestSlot2(GetResponse, name, WriteFile(size)));
  }

  lemma GuestDecides2(s: Slot, name: string, g: FileHandle)
    requires s.state != GetResponse
    ensures Execute(Receiving2(s, GuestSlot2(GetResponse, name, g)), CmdReply(TID2, true)) ==
            Receiving2(s, GuestSlot2(Accept, name, g))
  {
    FindSecond(Two(s, GuestSlot2(GetResponse, name, g)), In(GetResponse, TID2));
    TwoPut(s, GuestSlot2(GetResponse, name, g), GuestSlot2(Accept, name, g));
  }

  lemma GuestReplies2(name: string, g: FileHandle, t: Slot)
    ensures Readable(Receiving2(GuestSlot(Accept, name, g), t))
    ensures Slots.Work(Receiving2(GuestSlot(Accept, name, g), t), true, true) ==
            Produced(Receiving2(GuestSlot(Active, name, g), t), Some(TransferReply(TID, 0, true)))
  {
    NoHostBusy();
    FindFirst(Two(GuestSlot(Accept, name, g), t), RecvBusy);
    TwoPut(GuestSlot(Accept, name, g), t, GuestSlot(Active, name, g));
  }

  lemma GuestRepliesAgain(s: Slot, name: string, g: FileHandle)
    requires s.state == Active
    ensures Readable(Receiving2(s, GuestSlot2(Accept, name, g)))
    ensures Slots.Work(Receiving2(s, GuestSlot2(Accept, name, g)), true, true) ==
            Produced(Receiving2(s, GuestSlot2(Active, name, g)), Some(TransferReply(TID2, 0, true)))
  {
    NoHostBusy();
    FindSecond(Two(s, GuestSlot2(Accept, name, g)), RecvBusy);
    TwoPut(s, GuestSlot2(Accept, name, g), GuestSlot2(Active, name, g));
  }

  lemma GuestCancels(name: string, g: FileHandle, t: Slot)
    ensures Execute(Receiving2(GuestSlot(Active, name, g), t), CmdCancel(TID)) ==
            Receiving2(GuestSlot(State.Cancel, name, g), t)
  {
    FindFirst(Two(GuestSlot(Active, name, g), t), Cancellable(TID));
    TwoPut(GuestSlot(Active, name, g), t, GuestSlot(State.Cancel, name, g));
  }

  lemma GuestSendsCancel(name: string, g: FileHandle, t: Slot)
    ensures Readable(Receiving2(GuestSlot(State.Cancel, name, g), t))
    ensures var p := Slots.Work(Receiving2(GuestSlot(State.Cancel, name, g), t), true, true);
            p.packet == Some(TransferCancel(TID, HOST)) && p.manager.recv[1] == t
  {
    NoHostBusy();
    FindFirst(Two(GuestSlot(State.Cancel, name, g), t), RecvBusy);
  }

  // The server.

  const OPEN2: seq<Transfer> := [Transfer(1, 1), Transfer(2, 1)]
  function Rows2(a: int, b: int): seq<Row> { [Row(1, 2, a), Row(2, 2, b)] }

  lemma TransferBegins2(req: Request)
    requires req.hdr == Hdr(0, 0, TO)
    ensures var r := Handle(Meeting(OPEN, ASKED, 2), BOTH, HOST, TransferRequest(req));
            && r.server == Meeting(OPEN2, Rows2(-1, -1), 3)
            && For(r.sends, HOST) == [TransferValid(req.(hdr := Hdr(TID2, 0, TO)))]
            && For(r.sends, GUEST) == [TransferRequest(req.(hdr := Hdr(TID2, HOST, TO)))]
  {
    Listed();
    var s := Meeting(OPEN, ASKED, 2);
    assert TO[0] == GUEST && RecipientsOk(s, HOST, TO);
    assert NewRows(TID2, [GUEST]) == [Row(TID2, GUEST, -1)] by { assert [GUEST][1..] == []; }
    assert OPEN + [Transfer(TID2, HOST)] == OPEN2 && ASKED + [Row(TID2, GUEST, -1)] == Rows2(-1, -1);
    var valid := Send(HOST, TransferValid(req.(hdr := Hdr(TID2, 0, TO))));
    var p := TransferRequest(req.(hdr := Hdr(TID2, HOST, TO)));
    assert Fan(s.conns, [GUEST], p) == [Send(GUEST, p)] by { assert [GUEST][1..] == []; }
    assert Handle(s, BOTH, HOST, TransferRequest(req)).sends == [valid, Send(GUEST, p)];
    assert [valid, Send(GUEST, p)][1..] == [Send(GUEST, p)];
    OnlyFor(p, GUEST, HOST);
    OnlyFor(p, GUEST, GUEST);
  }

  lemma RepliesServed(t: TransferId, a: int, b: int)
    requires t == TID || t == TID2
    ensures var r := Handle(Meeting(OPEN2, Rows2(a, b), 3), BOTH, GUEST, TransferReply(t, 0, true));
            && r.server == Meeting(OPEN2, if t == TID then Rows2(1, b) else Rows2(a, 1), 3)
            && For(r.sends, HOST) == [TransferReply(t, GUEST, true)] && For(r.sends, GUEST) == []
  {
    var rows := Rows2(a, b);
    assert rows[1..] == [Row(2, 2, b)] && rows[1..][1..] == [];
    assert SetAccepted(rows[1..], GUEST, t, true) == [Row(2, 2, if t == TID2 then 1 else b)];
    assert SetAccepted(rows, GUEST, t, true) == if t == TID then Rows2(1, b) else Rows2(a, 1);
    assert OPEN2[1..] == [Transfer(2, 1)];
    assert CreatorOf(OPEN2, t) == HOST;
    OnlyFor(TransferReply(t, GUEST, true), HOST, HOST);
    OnlyFor(TransferReply(t, GUEST, true), HOST, GUEST);
  }

  lemma SpillServed()
    ensures var r := Handle(Meeting(OPEN2, Rows2(1, 1), 3), BOTH, GUEST, TransferCancel(TID, HOST));
            r.server == Meeting(OPEN2, [], 3) && For(r.sends, GUEST) == []
    ensures CreatorOf(OPEN2, TID2) == HOST && RowOf(Rows2(1, 1), TID2, GUEST) == Is(1)
  {
    var rows := Rows2(1, 1);
    assert rows[1..] == [Row(2, 2, 1)] && rows[1..][1..] == [];
    assert OPEN2[1..] == [Transfer(2, 1)] && OPEN2[1..][1..] == [];
    assert CreatedBy(OPEN2, GUEST) == [];
    assert WithoutClient(rows, GUEST) == [] by { assert WithoutClient(rows[1..], GUEST) == []; }
    assert CreatorOf(OPEN2, TID) == HOST && CreatorOf(OPEN2, TID2) == HOST;
    var joined := JoinedBy(OPEN2, rows, GUEST);
    assert JoinedBy(OPEN2, rows[1..], GUEST) == [Transfer(TID2, HOST)] + JoinedBy(OPEN2, [], GUEST);
    assert joined[0] == Transfer(TID, HOST);
    assert FindTransfer(joined, TID) == 0;
    FanFor(Meeting(OPEN2, rows, 3).conns, [HOST], TransferCancel(TID, GUEST), GUEST);
  }

  // ---------------------------------------------------------------- the second run

  const BORN2: Origins := map[1 := Origin(1, 1, TO), 2 := Origin(1, 2, TO)]

  function Offers(contents: seq<byte>): Files {
    map[(HOST, 1) := contents, (HOST, 2) := contents]
  }

  /** The host once it has sent its second request; it takes no further step. */
  function Hosted(name: string, contents: seq<byte>): Manager
    requires contents != []
  {
    Hosting2(HostSlot(Pending, TID, NO_ANSWERS, name, ReadFile(contents)), HostSlot2(GetResponse, name,
          ReadFile(contents)))
  }

  function Second(name: string, contents: seq<byte>): Request {
    Request(Hdr(0, 0, TO), 2, name, |contents|)
  }

  /** The state with both transfers in the server's table, as it concerns the guest. */
  function Twice(name: string, contents: seq<byte>, rows: seq<Row>, down: seq<Packet>, guest: Peer): System
    requires contents != []
  {
    Pair(Meeting(OPEN2, rows, 3), HostPeer(Hosted(name, contents), [], down), guest, BORN2, Offers(contents),
         map[1 := 0, 2 := 0])
  }

  lemma OfferedAgain(name: string, contents: seq<byte>)
    requires contents != []
    ensures Reachable(Pair(Meeting(OPEN, ASKED, 2),
                           HostPeer(Hosted(name, contents), [TransferRequest(Second(name, contents))], []),
                           GuestPeer(Receiving(GuestSlot(Accept, name, WriteFile(|contents|))), [], []),
                           BORN, Offers(contents), map[TID := 0]))
  {
    hide Reachable, Execute, Slots.Work, Hosting, Hosting2, Receiving, GuestSlot, ReadFile, ProperList, Readable;
    Decided(name, contents);
    var f, g := ReadFile(contents), WriteFile(|contents|);
    ReadFileReading(contents);
    var server := Meeting(OPEN, ASKED, 2);
    var p := HostSlot(Pending, TID, NO_ANSWERS, name, f);
    var m := Hosting2(p, HostSlot2(SendReq, name, f));
    var h0, h1 := HostPeer(Hosting(p), [], []), HostPeer(m, [], []);
    var h2 := HostPeer(Hosted(name, contents), [TransferRequest(Second(name, contents))], []);
    var guest := GuestPeer(Receiving(GuestSlot(Accept, name, g)), [], []);
    var s := Pair(server, h0, guest, BORN, Offer(contents), map[TID := 0]);
    var a := Do(HOST, CmdRequest(name, contents, TO));
    Listed();
    HostRequests2(p, name, contents);
    HostingNext(p);
    assert m.nextLocal == 3 by { NextLocal3(p, HostSlot2(SendReq, name, f)); }
    ReachNext(s, a);
    var n := Pair(server, h1, guest, BORN, Offers(contents), map[TID := 0]);
    assert Next(s, a).peers == map[HOST := h1, GUEST := guest];
    assert Next(s, a).hosted == Offers(contents);
    HostSendsRequest2(p, name, f);
    assert f.size == |contents| by { FileSize(contents); }
    assert [] + [TransferRequest(Second(name, contents))] == [TransferRequest(Second(name, contents))];
    HostStep(n, Pair(server, h2, guest, BORN, Offers(contents), map[TID := 0]), h1, guest, h2, Produce(HOST, true, true));
  }

  lemma FileSize(contents: seq<byte>)
    requires contents != []
    ensures ReadFile(contents).size == |contents|
  {
  }

  lemma NextLocal3(s: Slot, t: Slot)
    ensures Hosting2(s, t).nextLocal == 3
  {
  }

  lemma OpenedAgain(name: string, contents: seq<byte>)
    requires contents != []
    ensures var req := Second(name, contents);
            Reachable(Twice(name, contents, Rows2(-1, -1), [TransferValid(req.(hdr := Hdr(TID2, 0, TO)))],
                            GuestPeer(Receiving(GuestSlot(Accept, name, WriteFile(|contents|))), [],
                                      [TransferRequest(req.(hdr := Hdr(TID2, HOST, TO)))])))
  {
    hide Reachable, Handle, Hosted, Receiving, GuestSlot, For, ServeNext;
    OfferedAgain(name, contents);
    var req := Second(name, contents);
    var host := HostPeer(Hosted(name, contents), [TransferRequest(req)], []);
    var guest := GuestPeer(Receiving(GuestSlot(Accept, name, WriteFile(|contents|))), [], []);
    var s := Pair(Meeting(OPEN, ASKED, 2), host, guest, BORN, Offers(contents), map[TID := 0]);
    TransferBegins2(req);
    ServedPeers(s, HOST, BOTH, host, guest);
    ServedRequest(s);
    ReachServe(s, HOST);
    var valid, ask := TransferValid(req.(hdr := Hdr(TID2, 0, TO))), TransferRequest(req.(hdr := Hdr(TID2, HOST, TO)));
    assert [TransferRequest(req)][1..] == [] && [] + [valid] == [valid] && [] + [ask] == [ask];
    assert BORN[TID2 := Origin(HOST, 2, TO)] == BORN2 && map[TID := 0][TID2 := 0] == map[1 := 0, 2 := 0];
    assert ServeNext(s, HOST, BOTH) ==
           Twice(name, contents, Rows2(-1, -1), [valid], GuestPeer(guest.manager, [], [ask]));
  }

  /** A step of the guest's process in such a state. */
  lemma GuestActs(name: string, contents: seq<byte>, rows: seq<Row>, down: seq<Packet>, guest: Peer, now: Peer, a: Action)
    requires contents != []
    requires var s := Twice(name, contents, rows, down, guest);
             Reachable(s) && Enabled(s, a) && Next(s, a) == s.(peers := s.peers[GUEST := now])
    ensures Reachable(Twice(name, contents, rows, down, now))
  {
    hide Reachable, Enabled, Next;
    var s, n := Twice(name, contents, rows, down, guest), Twice(name, contents, rows, down, now);
    GuestStep(s, n, s.peers[HOST], guest, now, a);
  }

  /** The guest takes both transfers and has sent both replies. */
  lemma BothTaken(name: string, contents: seq<byte>) returns (down: seq<Packet>)
    requires contents != []
    ensures var g := WriteFile(|contents|);
            Reachable(Twice(name, contents, Rows2(-1, -1), down,
                            GuestPeer(Receiving2(GuestSlot(Active, name, g), GuestSlot2(Active, name, g)),
                                      [TransferReply(TID, 0, true), TransferReply(TID2, 0, true)], [])))
  {
    hide Reachable, Execute, Receive, Slots.Work, Hosted, Receiving, Receiving2, GuestSlot, GuestSlot2, CanReceive,
      Readable, WriteFile;
    OpenedAgain(name, contents);
    var req := Second(name, contents);
    var g, rows := WriteFile(|contents|), Rows2(-1, -1);
    down := [TransferValid(req.(hdr := Hdr(TID2, 0, TO)))];
    var ask := TransferRequest(req.(hdr := Hdr(TID2, HOST, TO)));
    var r1, r2 := TransferReply(TID, 0, true), TransferReply(TID2, 0, true);
    var yes, on := GuestSlot(Accept, name, g), GuestSlot(Active, name, g);
    var asked, yes2, on2 := GuestSlot2(GetResponse, name, g), GuestSlot2(Accept, name, g), GuestSlot2(Active, name, g);
    States(name, g);
    assert [ask][1..] == [] && [] + [r1] == [r1] && [r1] + [r2] == [r1, r2];
    GuestIsAsked2(yes, name, |contents|);
    var p0, p1 := GuestPeer(Receiving(yes), [], [ask]), GuestPeer(Receiving2(yes, asked), [], []);
    GuestActs(name, contents, rows, down, p0, p1, Deliver(GUEST));
    GuestDecides2(yes, name, g);
    var p2 := GuestPeer(Receiving2(yes, yes2), [], []);
    GuestActs(name, contents, rows, down, p1, p2, Do(GUEST, CmdReply(TID2, true)));
    GuestReplies2(name, g, yes2);
    var p3 := GuestPeer(Receiving2(on, yes2), [r1], []);
    GuestActs(name, contents, rows, down, p2, p3, Produce(GUEST, true, true));
    GuestRepliesAgain(on, name, g);
    GuestActs(name, contents, rows, down, p3, GuestPeer(Receiving2(on, on2), [r1, r2], []), Produce(GUEST, true, true));
  }

  lemma States(name: string, g: FileHandle)
    ensures GuestSlot(Accept, name, g).state == Accept && GuestSlot(Active, name, g).state == Active
    ensures GuestSlot2(Active, name, g).state == Active && GuestSlot2(Active, name, g).hdr.tid == TID2
  {
  }

  /** The server has both replies, and the guest has sent its cancel of the first transfer. */
  lemma BothAgreed(name: string, contents: seq<byte>) returns (down: seq<Packet>, m: Manager)
    requires contents != []
    ensures m.recv[1] == GuestSlot2(Active, name, WriteFile(|contents|))
    ensures Reachable(Twice(name, contents, Rows2(1, 1), down, GuestPeer(m, [TransferCancel(TID, HOST)], [])))
  {
    hide Reachable, Execute, Slots.Work, Handle, For, Hosted, Receiving2, GuestSlot, GuestSlot2, Readable, WriteFile;
    var before := BothTaken(name, contents);
    var g := WriteFile(|contents|);
    var on, on2 := GuestSlot(Active, name, g), GuestSlot2(Active, name, g);
    var r1, r2 := TransferReply(TID, 0, true), TransferReply(TID2, 0, true);
    var a1, a2 := TransferReply(TID, GUEST, true), TransferReply(TID2, GUEST, true);
    var g0, g1, g2 := GuestPeer(Receiving2(on, on2), [r1, r2], []), GuestPeer(Receiving2(on, on2), [r2], []),
                      GuestPeer(Receiving2(on, on2), [], []);
    assert [r1, r2][1..] == [r2] && [r2][1..] == [];
    RepliesServed(TID, -1, -1);
    var s0 := Twice(name, contents, Rows2(-1, -1), before, g0);
    ServeStep(s0, GUEST, s0.peers[HOST], g0, Meeting(OPEN2, Rows2(1, -1), 3), [a1], []);
    assert g0.(up := [r2], down := [] + []) == g1;
    RepliesServed(TID2, 1, -1);
    var s1 := Twice(name, contents, Rows2(1, -1), before + [a1], g1);
    ServeStep(s1, GUEST, s1.peers[HOST], g1, Meeting(OPEN2, Rows2(1, 1), 3), [a2], []);
    assert g1.(up := [], down := [] + []) == g2;
    down := before + [a1] + [a2];
    GuestCancels(name, g, on2);
    var going := Receiving2(GuestSlot(State.Cancel, name, g), on2);
    GuestActs(name, contents, Rows2(1, 1), down, g2, GuestPeer(going, [], []), Do(GUEST, CmdCancel(TID)));
    GuestSendsCancel(name, g, on2);
    m := Slots.Work(going, true, true).manager;
    assert [] + [TransferCancel(TID, HOST)] == [TransferCancel(TID, HOST)];
    GuestActs(name, contents, Rows2(1, 1), down, GuestPeer(going, [], []), GuestPeer(m, [TransferCancel(TID, HOST)], []),
              Produce(GUEST, true, true));
  }

  /**
   For every file there is a run to a state `s` in which a guest has accepted two transfers and its cancel of
   the first is about to be served. Serving it deletes the row of the second: the transfer is still open, and
   the guest's slot for it is ACTIVE, but the guest is stranded.
   */
  lemma CancelSpillsOver(name: string, contents: seq<byte>) returns (s: System)
    requires contents != []
    ensures Reachable(s) && Enabled(s, Serve(GUEST, BOTH)) && s.peers[GUEST].up == [TransferCancel(TID, HOST)]
    ensures RowOf(s.server.rows, TID2, GUEST) == Is(1)
    ensures var e := Next(s, Serve(GUEST, BOTH));
            Reachable(e) && CreatorOf(e.server.transfers, TID2) == HOST && Shortcomings.Stranded(e, GUEST, 1, TID2)
  {
    hide Reachable, Handle, For, Hosted, ServeNext;
    var down, m := BothAgreed(name, contents);
    var guest := GuestPeer(m, [TransferCancel(TID, HOST)], []);
    s := Twice(name, contents, Rows2(1, 1), down, guest);
    SpillServed();
    BothOrder(s.server);
    ServedPeers(s, GUEST, BOTH, s.peers[HOST], guest);
    ServedPlain(s, GUEST);
    ReachServe(s, GUEST);
    var e := Next(s, Serve(GUEST, BOTH));
    assert e == ServeNext(s, GUEST, BOTH);
    StrandedAt(e, 1, TID2);
  }
}
