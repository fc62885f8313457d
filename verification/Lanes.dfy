/**
 One transfer as one of its recipients sees it. A lane holds what concerns that pair and nothing
 else: the recipient's slot and row, the host's slot, and the four streams between them. `Move`
 lists everything that can happen to a lane; `Sound` is what every move keeps. Simulation.dfy shows
 that each step of the whole system moves every lane.
 */
module Lanes {
  import opened Wire
  import opened Slots
  import opened ServerModel
  import opened Flows

  /** The recipient's slot for the transfer: its state and what has been written to the file. */
  datatype Held = Vacant | Held(state: State, disk: seq<byte>) | Twice

  /** The host's slot: its state, whether it has this recipient's answer, and the bytes sent. */
  datatype Source = Absent | Source(state: State, heard: bool, sent: nat) | Double

  datatype Lane = Lane(
    live: bool,       // the recipient is connected
    open: bool,       // the transfer is in the server's table
    row: Entry,       // the recipient's row in the server's table
    toR: Flow,        // server to recipient
    fromR: Flow,      // recipient to server
    slot: Held,
    toC: Flow,        // server to host, about this recipient
    fromC: Flow,      // host to server
    host: Source,
    file: seq<byte>,  // the file the host was asked to send
    relayed: nat)     // how many bytes of it the server has handled

  predicate Undecided(s: Held) {
    s.Held? && (s.state == GetResponse || s.state == Accept || s.state == Deny)
  }

  predicate Unbroken(v: Lane) {
    v.toR.Flow? && v.fromR.Flow? && v.toC.Flow? && v.fromC.Flow? && !v.slot.Twice? && !v.host.Double?
  }

  /** The recipient may still send its one reply, or has sent it and the server has not handled it. */
  predicate Outstanding(v: Lane)
    requires Unbroken(v)
  {
    v.toR.first || Undecided(v.slot) || v.fromR.reply != NoReply
  }

  /** The server has all the answer it will ever get from the recipient. */
  predicate Answered(v: Lane)
    requires Unbroken(v)
  {
    v.row != Is(-1) && (v.live ==> !Outstanding(v))
  }

  /** Bytes of the file have left the host, or the whole of it. */
  predicate Started(v: Lane)
    requires Unbroken(v)
  {
    v.relayed > 0 || v.fromC.data != [] || v.fromC.end == ByComplete || (v.host.Source? && v.host.sent > 0)
  }

  // ---------------------------------------------------------------- the invariant

  predicate RecipientSide(v: Lane)
    requires Unbroken(v)
  {
    && v.toR.reply == NoReply
    && !v.fromR.first && v.fromR.data == [] && v.fromR.end != ByComplete
    && (v.toR.first ==> v.slot == Vacant && v.fromR == NOTHING)
    && (v.slot.Held? ==> Undecided(v.slot) || v.slot.state == Active || v.slot.state == State.Cancel)
    && (Undecided(v.slot) ==> v.fromR == NOTHING)
    && (v.slot.Held? ==> v.fromR.end == Unended)
    && (Outstanding(v) ==>
          && (v.row == NoRow || v.row == Is(-1))
          && v.toR.data == [] && v.toR.end != ByComplete
          && (v.slot.Held? ==> v.slot.disk == []))
  }

  predicate HostSide(v: Lane)
    requires Unbroken(v)
  {
    && v.toC.data == [] && v.toC.end != ByComplete
    && !v.fromC.first && v.fromC.reply == NoReply
    && (v.toC.first ==> v.host == Absent && v.fromC == NOTHING && v.relayed == 0)
    && (v.host.Source? ==>
          && (v.host.state == Pending || v.host.state == Active || v.host.state == State.Cancel)
          && v.relayed + |v.fromC.data| == v.host.sent
          && (v.host.state == Pending ==> v.host.sent == 0)
          && (v.host.state == Active ==> v.host.heard)
          && v.fromC.end == Unended
          && (v.host.heard ==> Answered(v) && v.toC.reply == NoReply))
  }

  predicate ServerSide(v: Lane)
    requires Unbroken(v)
  {
    && (v.row.Is? ==> v.open && v.live && -1 <= v.row.accepted <= 1)
    && (v.toC.reply != NoReply || v.toC.end != Unended ==> Answered(v))
    && (v.toC.end != Unended ==> v.row == NoRow)
    && (v.toR.end != Unended ==> v.row == NoRow)
    && (Started(v) ==> Answered(v))
  }

  /** Where every byte of the file is. */
  predicate Conserved(v: Lane)
    requires Unbroken(v)
  {
    var n := v.relayed + |v.fromC.data|;
    && n <= |v.file|
    && v.fromC.data == v.file[v.relayed..n]
    && (v.fromC.end == ByComplete ==> n == |v.file|)
    && (v.slot.Held? ==> v.slot.disk <= v.file[..v.relayed])
    && (v.slot.Held? && v.slot.state == Active ==>
          var all := v.slot.disk + v.toR.data;
          && all <= v.file[..v.relayed]
          && (v.row == Is(1) ==> all == v.file[..v.relayed])
          && (v.toR.end == ByComplete ==> all == v.file))
  }

  predicate Sound(v: Lane) {
    Unbroken(v) && RecipientSide(v) && HostSide(v) && ServerSide(v) && Conserved(v)
  }

  /** A lane right after packet_transfer has accepted the request. */
  predicate Fresh(v: Lane) {
    && v.live && v.open && v.row == Is(-1)
    && v.toR == OPENING && v.fromR == NOTHING && v.slot == Vacant
    && v.toC == OPENING && v.fromC == NOTHING && v.host == Absent
    && v.relayed == 0
  }

  lemma FreshSound(v: Lane)
    requires Fresh(v)
    ensures Sound(v)
  {
  }

  // ---------------------------------------------------------------- moves of the recipient

  predicate TakeRequest(v: Lane, w: Lane, rest: Flow) {
    && v.toR == Then(OPENING, rest)
    && v.slot == Vacant
    && w == v.(toR := rest, slot := Held(GetResponse, []))
  }

  predicate Decide(v: Lane, w: Lane, st: State) {
    && v.slot.Held?
    && ((v.slot.state == GetResponse && (st == Accept || st == Deny || st == State.Cancel))
        || (v.slot.state == Active && st == State.Cancel))
    && w == v.(slot := v.slot.(state := st))
  }

  predicate PutReply(v: Lane, w: Lane) {
    && v.slot.Held?
    && (v.slot.state == Accept || v.slot.state == Deny)
    && var b := v.slot.state == Accept;
       w == v.(fromR := Then(v.fromR, ReplyFlow(b)),
               slot := if b then v.slot.(state := Active) else Vacant)
  }

  predicate PutCancel(v: Lane, w: Lane) {
    && v.slot.Held? && v.slot.state == State.Cancel
    && w == v.(fromR := Then(v.fromR, CANCEL), slot := Vacant)
  }

  predicate TakeData(v: Lane, w: Lane, b: seq<byte>, rest: Flow) {
    && v.toR == Then(DataFlow(b), rest)
    && w == v.(toR := rest,
               slot := if v.slot.Held? && v.slot.state == Active then v.slot.(disk := v.slot.disk + b) else v.slot)
  }

  predicate TakeComplete(v: Lane, w: Lane, rest: Flow) {
    && v.toR == Then(COMPLETE, rest)
    && w == v.(toR := rest, slot := if v.slot.Held? && v.slot.state == Active then Vacant else v.slot)
  }

  predicate TakeCancel(v: Lane, w: Lane, rest: Flow) {
    && v.toR == Then(CANCEL, rest)
    && w == v.(toR := rest,
               slot := if v.slot.Held? && (v.slot.state == Active || v.slot.state == GetResponse) then Vacant
                       else v.slot)
  }

  // ---------------------------------------------------------------- moves of the host

  predicate TakeValid(v: Lane, w: Lane, rest: Flow) {
    && v.toC == Then(OPENING, rest)
    && (w == v.(toC := rest) || w == v.(toC := rest, host := Source(Pending, false, 0)))
  }

  /** This recipient's reply or cancel arrives at the host, and is counted if it still waits for it. */
  predicate Hear(v: Lane, w: Lane, one: Flow, rest: Flow) {
    && (one == ReplyFlow(true) || one == ReplyFlow(false) || one == CANCEL)
    && v.toC == Then(one, rest)
    && (w == v.(toC := rest)
        || (v.host.Source? && (v.host.state == Pending || v.host.state == Active)
            && exists st: State :: (st == v.host.state || st == Active || st == State.Cancel)
                          && w == v.(toC := rest, host := v.host.(state := st, heard := true))))
  }

  /** Another recipient's reply or cancel arrives at the host. */
  predicate HearOther(v: Lane, w: Lane, st: State) {
    && v.host.Source? && (v.host.state == Pending || v.host.state == Active)
    && (st == v.host.state || st == State.Cancel || (st == Active && v.host.heard))
    && w == v.(host := v.host.(state := st))
  }

  predicate Abandon(v: Lane, w: Lane) {
    v.host.Source? && w == v.(host := v.host.(state := State.Cancel))
  }

  predicate PutHostCancel(v: Lane, w: Lane) {
    v.host.Source? && w == v.(host := Absent, fromC := Then(v.fromC, CANCEL))
  }

  predicate PutData(v: Lane, w: Lane, b: seq<byte>) {
    && v.host.Source? && v.host.state == Active
    && v.host.sent + |b| <= |v.file| && b == v.file[v.host.sent..v.host.sent + |b|]
    && w == v.(host := v.host.(sent := v.host.sent + |b|), fromC := Then(v.fromC, DataFlow(b)))
  }

  predicate PutComplete(v: Lane, w: Lane) {
    && v.host.Source? && v.host.state == Active && v.host.sent == |v.file|
    && w == v.(host := Absent, fromC := Then(v.fromC, COMPLETE))
  }

  // ---------------------------------------------------------------- moves of the server

  predicate ServeReply(v: Lane, w: Lane, b: bool, rest: Flow) {
    && v.live && v.fromR == Then(ReplyFlow(b), rest)
    && w == v.(fromR := rest,
               row := if v.row == NoRow then NoRow else Is(if b then 1 else 0),
               toC := if v.open then Then(v.toC, ReplyFlow(b)) else v.toC)
  }

  predicate ServeCancel(v: Lane, w: Lane, rest: Flow) {
    && v.live && v.fromR == Then(CANCEL, rest)
    && w == v.(fromR := rest, row := NoRow,
               toC := if v.row == NoRow then v.toC else Then(v.toC, CANCEL))
  }

  /** The recipient cancels some other transfer, which deletes its row in this one as well. */
  predicate LoseRow(v: Lane, w: Lane) {
    w == v.(row := NoRow)
  }

  predicate ServeData(v: Lane, w: Lane, b: seq<byte>, rest: Flow) {
    && v.fromC == Then(DataFlow(b), rest)
    && w == v.(fromC := rest, relayed := v.relayed + |b|,
               toR := if v.row == Is(1) then Then(v.toR, DataFlow(b)) else v.toR)
  }

  predicate ServeComplete(v: Lane, w: Lane, rest: Flow) {
    && v.fromC == Then(COMPLETE, rest)
    && w == v.(fromC := rest, open := false, row := NoRow,
               toR := if v.row == Is(1) then Then(v.toR, COMPLETE) else v.toR)
  }

  predicate ServeHostCancel(v: Lane, w: Lane, rest: Flow) {
    && v.fromC == Then(CANCEL, rest)
    && w == v.(fromC := rest, open := false, row := NoRow, toR := Dropped(v))
  }

  function Dropped(v: Lane): Flow {
    if v.row != NoRow && v.row != Is(0) then Then(v.toR, CANCEL) else v.toR
  }

  predicate LoseRecipient(v: Lane, w: Lane) {
    w == v.(live := false, row := NoRow,
            toC := if v.row == NoRow then v.toC else Then(v.toC, CANCEL))
  }

  predicate LoseHost(v: Lane, w: Lane) {
    w == v.(open := false, row := NoRow, toR := Dropped(v))
  }

  // ---------------------------------------------------------------- every move keeps the invariant

  /** The name of a move, with the values it depends on. */
  datatype Move =
    | Stay
    | DoTakeRequest(rest: Flow)
    | DoDecide(state: State)
    | DoPutReply
    | DoPutCancel
    | DoTakeData(bytes: seq<byte>, rest: Flow)
    | DoTakeComplete(rest: Flow)
    | DoTakeCancel(rest: Flow)
    | DoTakeValid(rest: Flow)
    | DoHear(one: Flow, rest: Flow)
    | DoHearOther(state: State)
    | DoAbandon
    | DoPutHostCancel
    | DoPutData(bytes: seq<byte>)
    | DoPutComplete
    | DoServeReply(accept: bool, rest: Flow)
    | DoServeCancel(rest: Flow)
    | DoLoseRow
    | DoServeData(bytes: seq<byte>, rest: Flow)
    | DoServeComplete(rest: Flow)
    | DoServeHostCancel(rest: Flow)
    | DoLoseRecipient
    | DoLoseHost

  predicate Moves(v: Lane, w: Lane, m: Move) {
    match m
    case Stay => w == v
    case DoTakeRequest(rest) => TakeRequest(v, w, rest)
    case DoDecide(state) => Decide(v, w, state)
    case DoPutReply => PutReply(v, w)
    case DoPutCancel => PutCancel(v, w)
    case DoTakeData(bytes, rest) => TakeData(v, w, bytes, rest)
    case DoTakeComplete(rest) => TakeComplete(v, w, rest)
    case DoTakeCancel(rest) => TakeCancel(v, w, rest)
    case DoTakeValid(rest) => TakeValid(v, w, rest)
    case DoHear(one, rest) => Hear(v, w, one, rest)
    case DoHearOther(state) => HearOther(v, w, state)
    case DoAbandon => Abandon(v, w)
    case DoPutHostCancel => PutHostCancel(v, w)
    case DoPutData(bytes) => PutData(v, w, bytes)
    case DoPutComplete => PutComplete(v, w)
    case DoServeReply(accept, rest) => ServeReply(v, w, accept, rest)
    case DoServeCancel(rest) => ServeCancel(v, w, rest)
    case DoLoseRow => LoseRow(v, w)
    case DoServeData(bytes, rest) => ServeData(v, w, bytes, rest)
    case DoServeComplete(rest) => ServeComplete(v, w, rest)
    case DoServeHostCancel(rest) => ServeHostCancel(v, w, rest)
    case DoLoseRecipient => LoseRecipient(v, w)
    case DoLoseHost => LoseHost(v, w)
  }

  lemma TakeDataSound(v: Lane, w: Lane, b: seq<byte>, rest: Flow)
    requires Sound(v) && TakeData(v, w, b, rest)
    ensures Sound(w)
  {
    if v.slot.Held? {
      assert v.slot.disk + v.toR.data == (v.slot.disk + b) + rest.data;
    }
  }

  lemma TakeRequestSound(v: Lane, w: Lane, rest: Flow)
    requires Sound(v) && TakeRequest(v, w, rest)
    ensures Sound(w)
  {
  }

  lemma DecideSound(v: Lane, w: Lane, st: State)
    requires Sound(v) && Decide(v, w, st)
    ensures Sound(w)
  {
  }

  lemma PutReplySound(v: Lane, w: Lane)
    requires Sound(v) && PutReply(v, w)
    ensures Sound(w)
  {
  }

  lemma PutCancelSound(v: Lane, w: Lane)
    requires Sound(v) && PutCancel(v, w)
    ensures Sound(w)
  {
  }

  lemma TakeCompleteSound(v: Lane, w: Lane, rest: Flow)
    requires Sound(v) && TakeComplete(v, w, rest)
    ensures Sound(w)
  {
  }

  lemma TakeCancelSound(v: Lane, w: Lane, rest: Flow)
    requires Sound(v) && TakeCancel(v, w, rest)
    ensures Sound(w)
  {
  }

  lemma TakeValidSound(v: Lane, w: Lane, rest: Flow)
    requires Sound(v) && TakeValid(v, w, rest)
    ensures Sound(w)
  {
  }

  lemma HearSound(v: Lane, w: Lane, one: Flow, rest: Flow)
    requires Sound(v) && Hear(v, w, one, rest)
    ensures Sound(w)
  {
  }

  lemma HearOtherSound(v: Lane, w: Lane, st: State)
    requires Sound(v) && HearOther(v, w, st)
    ensures Sound(w)
  {
  }

  lemma AbandonSound(v: Lane, w: Lane)
    requires Sound(v) && Abandon(v, w)
    ensures Sound(w)
  {
  }

  lemma PutHostCancelSound(v: Lane, w: Lane)
    requires Sound(v) && PutHostCancel(v, w)
    ensures Sound(w)
  {
  }

  lemma PutDataSound(v: Lane, w: Lane, b: seq<byte>)
    requires Sound(v) && PutData(v, w, b)
    ensures Sound(w)
  {
  }

  lemma PutCompleteSound(v: Lane, w: Lane)
    requires Sound(v) && PutComplete(v, w)
    ensures Sound(w)
  {
  }

  /** The next piece of a file, taken off what is on its way. */
  lemma NextPiece(file: seq<byte>, i: nat, b: seq<byte>, rest: seq<byte>)
    requires i + |b| + |rest| <= |file| && file[i..i + |b| + |rest|] == b + rest
    ensures file[i + |b|..i + |b| + |rest|] == rest && file[..i + |b|] == file[..i] + b
  {
    assert file[i..i + |b| + |rest|][..|b|] == b && file[i..i + |b| + |rest|][|b|..] == rest;
    assert file[i..i + |b| + |rest|][..|b|] == file[i..i + |b|];
  }

  lemma Associative(a: seq<byte>, b: seq<byte>, c: seq<byte>)
    ensures a + (b + c) == a + b + c
  {
  }

  lemma ServeDataConserved(v: Lane, w: Lane, b: seq<byte>, rest: Flow)
    requires Sound(v) && ServeData(v, w, b, rest) && Unbroken(w)
    ensures Conserved(w)
  {
    hide RecipientSide, HostSide;
    assert v.fromC.data == b + rest.data && v.fromC.end == rest.end;
    NextPiece(v.file, v.relayed, b, rest.data);
    if v.slot.Held? {
      assert v.file[..v.relayed] <= v.file[..v.relayed] + b;
      Associative(v.slot.disk, v.toR.data, b);
    }
  }

  lemma ServeDataSound(v: Lane, w: Lane, b: seq<byte>, rest: Flow)
    requires Sound(v) && ServeData(v, w, b, rest)
    ensures Sound(w)
  {
    hide Conserved;
    assert Unbroken(w);
    ServeDataConserved(v, w, b, rest);
  }

  lemma ServeReplySound(v: Lane, w: Lane, b: bool, rest: Flow)
    requires Sound(v) && ServeReply(v, w, b, rest)
    ensures Sound(w)
  {
  }

  lemma ServeCancelSound(v: Lane, w: Lane, rest: Flow)
    requires Sound(v) && ServeCancel(v, w, rest)
    ensures Sound(w)
  {
  }

  lemma LoseRowSound(v: Lane, w: Lane)
    requires Sound(v) && LoseRow(v, w)
    ensures Sound(w)
  {
  }

  lemma ServeCompleteSound(v: Lane, w: Lane, rest: Flow)
    requires Sound(v) && ServeComplete(v, w, rest)
    ensures Sound(w)
  {
  }

  lemma ServeHostCancelSound(v: Lane, w: Lane, rest: Flow)
    requires Sound(v) && ServeHostCancel(v, w, rest)
    ensures Sound(w)
  {
  }

  lemma LoseRecipientSound(v: Lane, w: Lane)
    requires Sound(v) && LoseRecipient(v, w)
    ensures Sound(w)
  {
  }

  lemma LoseHostSound(v: Lane, w: Lane)
    requires Sound(v) && LoseHost(v, w)
    ensures Sound(w)
  {
  }

  /** Whatever happens to a lane, it stays sound. */
  lemma MoveSound(v: Lane, w: Lane, m: Move)
    requires Sound(v) && Moves(v, w, m)
    ensures Sound(w)
  {
    match m
    case Stay =>
    case DoTakeRequest(rest) => TakeRequestSound(v, w, rest);
    case DoDecide(state) => DecideSound(v, w, state);
    case DoPutReply => PutReplySound(v, w);
    case DoPutCancel => PutCancelSound(v, w);
    case DoTakeData(bytes, rest) => TakeDataSound(v, w, bytes, rest);
    case DoTakeComplete(rest) => TakeCompleteSound(v, w, rest);
    case DoTakeCancel(rest) => TakeCancelSound(v, w, rest);
    case DoTakeValid(rest) => TakeValidSound(v, w, rest);
    case DoHear(one, rest) => HearSound(v, w, one, rest);
    case DoHearOther(state) => HearOtherSound(v, w, state);
    case DoAbandon => AbandonSound(v, w);
    case DoPutHostCancel => PutHostCancelSound(v, w);
    case DoPutData(bytes) => PutDataSound(v, w, bytes);
    case DoPutComplete => PutCompleteSound(v, w);
    case DoServeReply(accept, rest) => ServeReplySound(v, w, accept, rest);
    case DoServeCancel(rest) => ServeCancelSound(v, w, rest);
    case DoLoseRow => LoseRowSound(v, w);
    case DoServeData(bytes, rest) => ServeDataSound(v, w, bytes, rest);
    case DoServeComplete(rest) => ServeCompleteSound(v, w, rest);
    case DoServeHostCancel(rest) => ServeHostCancelSound(v, w, rest);
    case DoLoseRecipient => LoseRecipientSound(v, w);
    case DoLoseHost => LoseHostSound(v, w);
  }
}
