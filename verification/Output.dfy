/**
 The server's output to one client (qs_server/src/net_write.c, secure_queue_write of
 qs_server/src/secure.c): packets wait in the message queue, are encrypted into a buffer of 2880 bytes
 and leave it through a socket that may take a part, take nothing for now, or fail. TLS is the
 identity: it may take a packet in parts, and what comes out is read in chunks of at most 64 bytes.
 */
module Output {
  import opened Wire
  import opened RingQueue

  const CHUNK := 64

  /** The size of encrypted_buf. */
  const ROOM := 2 * PACKET_MAX_SIZE

  /** What one call of write(2) answers; 0 bytes taken count as a failure. */
  datatype Answer = Takes(n: nat) | WouldBlock | Fails

  datatype WriteResult = Error | Done | Block

  /** A socket, by what it will answer; when there is nothing left of the list it would block. */
  class Socket {
    var sent: seq<byte>
    var answers: seq<Answer>

    constructor (answers: seq<Answer>)
      ensures sent == [] && this.answers == answers
    {
      sent := [];
      this.answers := answers;
    }

    /** write(2). */
    method Write(data: seq<byte>) returns (result: WriteResult, n: nat)
      requires data != []
      modifies this
      ensures answers == if old(answers) == [] then [] else old(answers)[1..]
      ensures var a := if old(answers) == [] then WouldBlock else old(answers)[0];
              match a
              case Takes(k) =>
                n == (if k < |data| then k else |data|) && sent == old(sent) + data[..n]
                && result == (if n == 0 then Error else Done)
              case WouldBlock => n == 0 && result == Block && sent == old(sent)
              case Fails => n == 0 && result == Error && sent == old(sent)
    {
      result, n := Block, 0;
      if answers != [] {
        match answers[0] {
          case Takes(k) =>
            n := if k < |data| then k else |data|;
            sent := sent + data[..n];
            result := if n == 0 then Error else Done;
          case WouldBlock =>
          case Fails => result := Error;
        }
        answers := answers[1..];
      }
    }
  }

  function Flat(packets: seq<seq<byte>>): seq<byte> {
    if packets == [] then [] else packets[0] + Flat(packets[1..])
  }

  lemma {:induction false} FlatAppend(packets: seq<seq<byte>>, p: seq<byte>)
    ensures Flat(packets + [p]) == Flat(packets) + p
  {
    if packets == [] {
      assert [] + [p] == [p];
      assert [p][1..] == [];
      assert p + [] == p == [] + p;
    } else {
      assert (packets + [p])[1..] == packets[1..] + [p];
      FlatAppend(packets[1..], p);
      assert packets[0] + (Flat(packets[1..]) + p) == packets[0] + Flat(packets[1..]) + p;
    }
  }

  predicate IsPacket(p: seq<byte>) {
    PACKET_HDR_SIZE <= |p| <= PACKET_MAX_SIZE
  }

  /** What a call of write_data comes to; `Aborted` is a failed capacity assertion. */
  datatype Outcome = Drained | Blocked | Closed | Aborted

  // ---------------------------------------------------------------- write_data on values

  /** The bytes that have left, those in the buffer, the packets still queued, and what the socket will answer. */
  datatype State = State(sent: seq<byte>, buffer: seq<byte>, queue: seq<seq<byte>>, answers: seq<Answer>)

  datatype Written = Written(result: WriteResult, state: State)
  datatype Run = Run(outcome: Outcome, state: State)

  /** write_bytes. */
  function BytesWritten(s: State): (w: Written)
    ensures w.state.queue == s.queue && |w.state.buffer| <= |s.buffer|
    ensures w.result == Done <==> w.state.buffer == []
    decreases |s.buffer|
  {
    if s.buffer == [] then Written(Done, s)
    else if s.answers == [] then Written(Block, s)
    else
      var t := s.(answers := s.answers[1..]);
      match s.answers[0]
      case Takes(n) =>
        if n == 0 then Written(Error, t)
        else
          var k := if n < |s.buffer| then n else |s.buffer|;
          BytesWritten(t.(sent := s.sent + s.buffer[..k], buffer := s.buffer[k..]))
      case WouldBlock => Written(Block, t)
      case Fails => Written(Error, t)
  }

  /** write_data. */
  function DataWritten(s: State): (r: Run)
    decreases |s.queue|
  {
    var w := BytesWritten(s);
    var t := w.state;
    if w.result == Error then Run(Closed, t)
    else if t.queue != [] && |t.buffer| + |t.queue[0]| >= ROOM then Run(Aborted, t)
    else
      var u := if t.queue == [] then t else t.(buffer := t.buffer + t.queue[0], queue := t.queue[1..]);
      if w.result == Block then Run(Blocked, u)
      else if u.buffer == [] then Run(Drained, u)
      else DataWritten(u)
  }

  predicate AllPackets(queue: seq<seq<byte>>) {
    forall p | p in queue :: IsPacket(p)
  }

  /** Everything that has been put in the queue, in order. */
  function Stream(s: State): seq<byte> {
    s.sent + s.buffer + Flat(s.queue)
  }

  lemma {:induction false} BufferConserves(s: State)
    ensures var t := BytesWritten(s).state; t.sent + t.buffer == s.sent + s.buffer && s.sent <= t.sent
    decreases |s.buffer|
  {
    if s.buffer != [] && s.answers != [] && s.answers[0].Takes? && s.answers[0].n > 0 {
      var n := s.answers[0].n;
      var k := if n < |s.buffer| then n else |s.buffer|;
      assert s.sent + s.buffer[..k] + s.buffer[k..] == s.sent + s.buffer;
      BufferConserves(State(s.sent + s.buffer[..k], s.buffer[k..], s.queue, s.answers[1..]));
    }
  }

  /** Moving a packet from the queue to the buffer leaves the stream what it is. */
  lemma Flattened(s: State)
    requires AllPackets(s.queue) && s.queue != []
    ensures Stream(s.(buffer := s.buffer + s.queue[0], queue := s.queue[1..])) == Stream(s)
    ensures AllPackets(s.queue[1..]) && s.queue[0] != []
  {
    assert s.queue[0] in s.queue;
    assert s.sent + (s.buffer + s.queue[0]) + Flat(s.queue[1..]) == s.sent + s.buffer + (s.queue[0] + Flat(s.queue[1..]));
  }

  /**
   Whatever the socket answers: nothing is lost, repeated or reordered, what has left stays the beginning
   of it all, and a call that neither blocks nor fails leaves nothing behind.
   */
  lemma {:induction false} OutputConserves(s: State)
    requires AllPackets(s.queue)
    ensures var r := DataWritten(s);
            && s.sent <= r.state.sent && AllPackets(r.state.queue) && Stream(r.state) == Stream(s)
            && (r.outcome == Drained ==> r.state.sent == Stream(s))
            && (|s.buffer| < ROOM ==> |r.state.buffer| < ROOM)
    decreases |s.queue|
  {
    hide AllPackets, Flat, Stream;
    var w := BytesWritten(s);
    var t := w.state;
    BufferConserves(s);
    SameStream(s, t);
    if w.result != Error && t.queue != [] && |t.buffer| + |t.queue[0]| < ROOM {
      var u := t.(buffer := t.buffer + t.queue[0], queue := t.queue[1..]);
      Flattened(t);
      if w.result != Block {
        OutputConserves(u);
      }
    } else if t.queue == [] && t.buffer == [] {
      NothingLeft(t);
    }
  }

  lemma SameStream(s: State, t: State)
    requires t.sent + t.buffer == s.sent + s.buffer && t.queue == s.queue
    ensures Stream(t) == Stream(s)
  {
  }

  lemma Joined(s: State, packet: seq<byte>)
    requires AllPackets(s.queue) && IsPacket(packet)
    ensures var t := s.(queue := s.queue + [packet]); Stream(t) == Stream(s) + packet && AllPackets(t.queue)
  {
    FlatAppend(s.queue, packet);
  }

  lemma NothingLeft(s: State)
    requires s.buffer == [] && s.queue == []
    ensures Stream(s) == s.sent
  {
  }

  /**
   The buffer cannot take the next packet if the socket blocks at the worst moment: with all that is in
   the buffer left, or with the whole of some queued packet left in front of the one behind it.
   */
  predicate Crowded(len: nat, queue: seq<seq<byte>>) {
    || (len > 0 && queue != [] && len + |queue[0]| >= ROOM)
    || exists i | 0 <= i < |queue| - 1 :: |queue[i]| + |queue[i + 1]| >= ROOM
  }

  lemma CrowdedTail(queue: seq<seq<byte>>)
    requires queue != []
    ensures Crowded(|queue[0]|, queue[1..]) ==> Crowded(0, queue)
    ensures Crowded(0, queue) && |queue[0]| > 0 ==> Crowded(|queue[0]|, queue[1..])
  {
    var rest := queue[1..];
    if Crowded(|queue[0]|, rest) {
      if rest != [] && |queue[0]| + |rest[0]| >= ROOM {
        assert |queue[0]| + |queue[0 + 1]| >= ROOM;
      } else {
        var i :| 0 <= i < |rest| - 1 && |rest[i]| + |rest[i + 1]| >= ROOM;
        assert |queue[i + 1]| + |queue[i + 1 + 1]| >= ROOM;
      }
    }
    if Crowded(0, queue) && |queue[0]| > 0 {
      var i :| 0 <= i < |queue| - 1 && |queue[i]| + |queue[i + 1]| >= ROOM;
      if i > 0 {
        assert |rest[i - 1]| + |rest[i - 1 + 1]| >= ROOM;
      }
    }
  }

  /** A queue that is not crowded is safe, whatever the socket answers. */
  lemma {:induction false} RoomyNeverAborts(s: State)
    requires AllPackets(s.queue) && !Crowded(|s.buffer|, s.queue)
    ensures DataWritten(s).outcome != Aborted
    decreases |s.queue|
  {
    hide IsPacket;
    var w := BytesWritten(s);
    var t := w.state;
    if w.result != Error && t.queue != [] {
      Fits(t.queue);
      var u := t.(buffer := t.buffer + t.queue[0], queue := t.queue[1..]);
      if w.result == Done {
        CrowdedTail(t.queue);
        assert u.buffer == t.queue[0];
        assert !Crowded(0, t.queue);
        RoomyNeverAborts(u);
      }
    }
  }

  lemma Fits(queue: seq<seq<byte>>)
    requires AllPackets(queue) && queue != []
    ensures 0 < |queue[0]| < ROOM
  {
    assert queue[0] in queue;
  }

  /** A crowded one is not: a socket that takes packet after packet and then blocks makes it fail. */
  lemma {:induction false} CrowdedAborts(s: State) returns (answers: seq<Answer>)
    requires AllPackets(s.queue) && |s.buffer| < ROOM && Crowded(|s.buffer|, s.queue)
    ensures DataWritten(s.(answers := answers)).outcome == Aborted
    decreases |s.queue|
  {
    hide IsPacket, Crowded;
    if s.buffer != [] && s.queue != [] && |s.buffer| + |s.queue[0]| >= ROOM {
      answers := [WouldBlock];
    } else {
      LaterPair(s);
      CrowdedTail(s.queue);
      Fits(s.queue);
      var u := State(s.sent + s.buffer, s.queue[0], s.queue[1..], []);
      var rest := CrowdedAborts(u);
      answers := if s.buffer == [] then rest else [Takes(|s.buffer|)] + rest;
      var t := s.(answers := answers);
      TakesAll(t, rest);
      assert [] + s.queue[0] == s.queue[0];
      assert DataWritten(t) == DataWritten(u.(answers := rest));
    }
  }

  lemma LaterPair(s: State)
    requires Crowded(|s.buffer|, s.queue) && (s.buffer != [] && s.queue != [] ==> |s.buffer| + |s.queue[0]| < ROOM)
    ensures s.queue != [] && Crowded(0, s.queue)
  {
  }

  lemma TakesAll(s: State, rest: seq<Answer>)
    requires s.answers == if s.buffer == [] then rest else [Takes(|s.buffer|)] + rest
    ensures BytesWritten(s) == Written(Done, State(s.sent + s.buffer, [], s.queue, rest))
  {
    if s.buffer != [] {
      assert s.answers[1..] == rest && s.buffer[..|s.buffer|] == s.buffer;
      assert s.buffer[|s.buffer|..] == [];
    } else {
      assert s.sent + [] == s.sent;
    }
  }

  /** The capacity assertion can fail if and only if the buffer and the queue are crowded when the call is made. */
  lemma AbortsIffCrowded(s: State)
    requires AllPackets(s.queue) && |s.buffer| < ROOM
    ensures (exists answers :: DataWritten(s.(answers := answers)).outcome == Aborted) <==> Crowded(|s.buffer|, s.queue)
  {
    hide DataWritten, Crowded, IsPacket;
    if Crowded(|s.buffer|, s.queue) {
      var answers := CrowdedAborts(s);
    } else {
      forall answers
        ensures DataWritten(s.(answers := answers)).outcome != Aborted
      {
        RoomyNeverAborts(s.(answers := answers));
      }
    }
  }

  /** Two full packets in the queue and a socket that takes nothing of the first make it fail. */
  lemma TwoFullPackets(sent: seq<byte>, p: seq<byte>, q: seq<byte>)
    requires |p| == |q| == PACKET_MAX_SIZE
    ensures DataWritten(State(sent, [], [p, q], [WouldBlock])).outcome == Aborted
  {
    var s := State(sent, p, [q], [WouldBlock]);
    assert [p, q][1..] == [q] && [] + p == p;
    assert BytesWritten(s) == Written(Block, s.(answers := [])) by { assert [WouldBlock][1..] == []; }
    assert DataWritten(s).outcome == Aborted;
    assert DataWritten(State(sent, [], [p, q], [WouldBlock])) == DataWritten(s);
  }

  // ---------------------------------------------------------------- what the socket decides

  /** The write took some bytes. */
  predicate Good(a: Answer) {
    a.Takes? && a.n > 0
  }

  /** The write failed. */
  predicate Bad(a: Answer) {
    a == Fails || a == Takes(0)
  }

  /** The answers that a call has used: those in front of what it has left. */
  predicate Uses(before: seq<Answer>, used: seq<Answer>, after: seq<Answer>) {
    before == used + after
  }

  /** All but the last took some bytes. */
  predicate GoodSoFar(used: seq<Answer>) {
    forall i | 0 <= i < |used| - 1 :: Good(used[i])
  }

  predicate EndsWith(used: seq<Answer>, a: Answer) {
    used != [] && used[|used| - 1] == a
  }

  predicate EndsBadly(used: seq<Answer>) {
    used != [] && Bad(used[|used| - 1])
  }

  /** write_bytes goes on while the socket takes bytes, and reports why it has stopped. */
  predicate Stopped(s: State, used: seq<Answer>, w: Written) {
    && Uses(s.answers, used, w.state.answers) && GoodSoFar(used)
    && (w.result == Error <==> EndsBadly(used))
    && (w.result == Block <==> EndsWith(used, WouldBlock) ||
                               (w.state.answers == [] && !EndsBadly(used) && w.state.buffer != []))
    && (w.result == Done ==> used == [] || Good(used[|used| - 1]))
  }

  /** One write that takes some bytes. */
  function Taken(s: State): State
    requires s.answers != [] && Good(s.answers[0])
  {
    var n := s.answers[0].n;
    var k := if n < |s.buffer| then n else |s.buffer|;
    State(s.sent + s.buffer[..k], s.buffer[k..], s.queue, s.answers[1..])
  }

  lemma OneUsed(a: Answer)
    ensures GoodSoFar([a])
  {
  }

  lemma StoppedAtOnce(s: State)
    requires s.buffer == [] || s.answers == []
    ensures Stopped(s, [], BytesWritten(s))
  {
    assert s.answers == [] + s.answers;
  }

  lemma StoppedByOne(s: State)
    requires s.buffer != [] && s.answers != [] && !Good(s.answers[0])
    ensures Stopped(s, [s.answers[0]], BytesWritten(s))
  {
    assert s.answers == [s.answers[0]] + s.answers[1..];
  }

  lemma StoppedLater(s: State, rest: seq<Answer>, w: Written)
    requires s.answers != [] && Good(s.answers[0]) && Stopped(Taken(s), rest, w)
    ensures Stopped(s, [s.answers[0]] + rest, w)
  {
    hide GoodSoFar;
    OneUsed(s.answers[0]);
    GoodAppend([s.answers[0]], rest);
    assert s.answers == [s.answers[0]] + s.answers[1..];
    assert [s.answers[0]] + (rest + w.state.answers) == [s.answers[0]] + rest + w.state.answers;
  }

  lemma {:induction false} AnswersDecideBytes(s: State) returns (used: seq<Answer>)
    ensures Stopped(s, used, BytesWritten(s))
    decreases |s.buffer|
  {
    hide Stopped;
    if s.buffer == [] || s.answers == [] {
      used := [];
      StoppedAtOnce(s);
    } else if Good(s.answers[0]) {
      used := AnswersDecideBytes(Taken(s));
      StoppedLater(s, used, BytesWritten(Taken(s)));
      used := [s.answers[0]] + used;
    } else {
      used := [s.answers[0]];
      StoppedByOne(s);
    }
  }

  /**
   Why write_data stops, whatever the socket answers: the client is closed exactly when a write has failed,
   and a call that does not abort is blocked exactly when the socket would block with bytes left, never
   after a write that took only a part.
   */
  lemma {:induction false} AnswersDecide(s: State) returns (used: seq<Answer>)
    requires AllPackets(s.queue)
    ensures var r := DataWritten(s);
            && Uses(s.answers, used, r.state.answers) && GoodSoFar(used)
            && (r.outcome == Closed <==> EndsBadly(used))
            && (r.outcome == Blocked || r.outcome == Aborted ==>
                  EndsWith(used, WouldBlock) || (r.state.answers == [] && !EndsBadly(used)))
            && (r.outcome != Aborted ==>
                  (r.outcome == Blocked <==> EndsWith(used, WouldBlock) ||
                                             (r.state.answers == [] && !EndsBadly(used) && r.state.buffer != [])))
    decreases |s.queue|
  {
    hide IsPacket, BytesWritten;
    var w := BytesWritten(s);
    var t := w.state;
    used := AnswersDecideBytes(s);
    if w.result != Error && t.queue != [] {
      Fits(t.queue);
      var u := t.(buffer := t.buffer + t.queue[0], queue := t.queue[1..]);
      if w.result == Done {
        assert u.buffer == t.queue[0];
        var rest := AnswersDecide(u);
        assert s.answers == (used + rest) + DataWritten(u).state.answers;
        GoodAppend(used, rest);
        used := used + rest;
      }
    }
  }

  lemma GoodAppend(a: seq<Answer>, b: seq<Answer>)
    requires GoodSoFar(a) && GoodSoFar(b) && (a == [] || Good(a[|a| - 1]))
    ensures GoodSoFar(a + b) && (b != [] ==> (a + b)[|a + b| - 1] == b[|b| - 1]) && (b == [] ==> a + b == a)
  {
  }

  // ---------------------------------------------------------------- as it runs

  class Output {
    const queue: RingQueue<seq<byte>>
    const sock: Socket
    const buf: array<byte>
    var len: nat
    ghost var enqueued: seq<byte>   // everything ever put in the queue, serialised

    ghost predicate Valid()
      reads this, queue, queue.items, sock, buf
    {
      && queue.Valid() && buf.Length == ROOM && len < buf.Length
      && AllPackets(queue.Contents()) && Stream(View()) == enqueued
    }

    ghost function View(): State
      requires queue.Valid() && len <= buf.Length
      reads this, queue, queue.items, sock, buf
    {
      State(sock.sent, buf[..len], queue.Contents(), sock.answers)
    }

    constructor (queue: RingQueue<seq<byte>>, sock: Socket)
      requires queue.Valid() && queue.Contents() == [] && sock.sent == []
      ensures Valid() && this.queue == queue && this.sock == sock && fresh(buf)
    {
      this.queue := queue;
      this.sock := sock;
      buf := new byte[ROOM];
      len := 0;
      enqueued := [];
    }

    /** A handler puts a packet in the queue. */
    method Enqueue(packet: seq<byte>) returns (ok: bool)
      requires Valid() && IsPacket(packet)
      modifies this`enqueued, queue, queue.items
      ensures Valid() && (ok <==> !old(queue.Full()))
      ensures enqueued == old(enqueued) + if ok then packet else []
      ensures queue.Contents() == old(queue.Contents()) + if ok then [packet] else []
    {
      hide RingQueue.Valid, RingQueue.Contents, Stream, AllPackets, IsPacket;
      ghost var before := View();
      var slot := queue.Enqueue();
      ok := slot.Some?;
      if ok {
        SlotLast();
        queue.Fill(slot.value, packet);
        assert View() == before.(queue := before.queue + [packet]);
        Joined(before, packet);
        enqueued := enqueued + packet;
      } else {
        assert before.queue + [] == before.queue;
      }
    }

    lemma SlotLast()
      requires queue.Valid()
      ensures |queue.Contents()| == queue.count
    {
    }

    /** write_bytes: writes until the buffer is empty or the socket takes no more. */
    method WriteBytes() returns (result: WriteResult)
      requires queue.Valid() && len <= buf.Length
      modifies this`len, sock, buf
      ensures len <= old(len) && BytesWritten(old(View())) == Written(result, View())
      ensures sock.sent + buf[..len] == old(sock.sent + buf[..len]) && (result == Done <==> len == 0)
    {
      hide RingQueue.Valid, RingQueue.Contents;
      BufferConserves(View());
      while len > 0
        invariant len <= old(len) && queue.Contents() == old(queue.Contents())
        invariant BytesWritten(View()) == BytesWritten(old(View()))
        decreases len
      {
        ghost var s := View();
        var n;
        result, n := sock.Write(buf[..len]);
        if result != Done {
          return;
        }
        Shift(n);
        assert View() == State(s.sent + s.buffer[..n], s.buffer[n..], s.queue, s.answers[1..]);
      }
      result := Done;
    }

    /** memmove the unwritten bytes to the front. */
    method Shift(n: nat)
      requires 1 <= n <= len <= buf.Length
      modifies this`len, buf
      ensures len == old(len) - n && buf[..len] == old(buf[n..len])
    {
      ghost var rest := buf[n..len];
      var i := 0;
      while i < len - n
        invariant i <= len - n && len == old(len)
        invariant buf[..i] == rest[..i] && buf[n + i..len] == rest[i..]
      {
        assert buf[n + i] == buf[n + i..len][0] == rest[i];
        buf[i] := buf[n + i];
        assert buf[n + i + 1..len] == rest[i + 1..];
        i := i + 1;
      }
      len := len - n;
    }

    /** secure_queue_write; the assertion in front of it is what `ok` reports. */
    method Append(bytes: seq<byte>) returns (ok: bool)
      requires len < buf.Length
      modifies this`len, buf
      ensures len < buf.Length && (ok <==> old(len) + |bytes| < buf.Length)
      ensures ok ==> buf[..len] == old(buf[..len]) + bytes
      ensures !ok ==> buf[..len] == old(buf[..len])
    {
      ok := len + |bytes| < buf.Length;
      if ok {
        var i := 0;
        while i < |bytes|
          invariant i <= |bytes| && len == old(len)
          invariant buf[..len + i] == old(buf[..len]) + bytes[..i]
        {
          buf[len + i] := bytes[i];
          i := i + 1;
        }
        assert bytes[..i] == bytes;
        len := len + |bytes|;
      }
    }

    /** The inner loop of encrypt: what TLS has produced goes to the buffer chunk by chunk. */
    method Collect(produced: seq<byte>) returns (ok: bool)
      requires len < buf.Length
      modifies this`len, buf
      ensures len < buf.Length && (ok <==> old(len) + |produced| < buf.Length)
      ensures ok ==> buf[..len] == old(buf[..len]) + produced
    {
      var bio := produced;
      ok := true;
      while bio != []
        invariant len < buf.Length && |bio| <= |produced| && bio == produced[|produced| - |bio|..]
        invariant buf[..len] == old(buf[..len]) + produced[..|produced| - |bio|]
        decreases |bio|
      {
        var n := if |bio| < CHUNK then |bio| else CHUNK;
        ok := Append(bio[..n]);
        if !ok {
          return;
        }
        ghost var k := |produced| - |bio|;
        assert produced[..k] + bio[..n] == produced[..k + n];
        bio := bio[n..];
      }
      assert produced[..|produced|] == produced;
    }

    /** encrypt: the packet reaches the buffer whole exactly when the buffer has more room than it takes. */
    method Encrypt(packet: seq<byte>) returns (ok: bool)
      requires len < buf.Length && packet != []
      modifies this`len, buf
      ensures len < buf.Length && (ok <==> old(len) + |packet| < buf.Length)
      ensures ok ==> buf[..len] == old(buf[..len]) + packet
    {
      var data := packet;
      ok := true;
      while data != []
        invariant len < buf.Length && |data| <= |packet| && data == packet[|packet| - |data|..]
        invariant buf[..len] == old(buf[..len]) + packet[..|packet| - |data|]
        decreases |data|
      {
        var n :| 1 <= n <= |data|;
        ok := Collect(data[..n]);
        if !ok {
          return;
        }
        ghost var k := |packet| - |data|;
        assert packet[..k] + data[..n] == packet[..k + n];
        data := data[n..];
      }
      assert packet[..|packet|] == packet;
    }

    /** The next queued packet goes to the buffer. */
    method EncryptNext() returns (ok: bool)
      requires Valid() && !queue.Empty()
      modifies this`len, queue, buf
      ensures queue.Valid() && queue.count == old(queue.count) - 1 && len < buf.Length
      ensures old(queue.Contents()) != [] && IsPacket(old(queue.Contents()[0]))
      ensures ok <==> old(len) + |old(queue.Contents()[0])| < ROOM
      ensures ok ==> View() == old(View()).(buffer := old(buf[..len]) + old(queue.Contents()[0]),
                                            queue := old(queue.Contents())[1..])
    {
      hide RingQueue.Contents;
      SlotLast();
      ghost var before := queue.Contents();
      var packet := queue.Dequeue();
      assert packet.Some? && packet.value == before[0] && before[0] in before;
      ok := Encrypt(packet.value);
      SlotLast();
    }

    /**
     write_data, as the function says, whatever the socket answers. Unless the capacity assertion fails,
     the bytes that have left, those in the buffer and those still queued are, in this order, everything
     that was ever enqueued; the loop ends; and a call that neither blocks nor fails leaves nothing behind.
     The assertion does not fail unless the buffer and the queue are crowded when the call is made.
     */
    method WriteData() returns (outcome: Outcome)
      requires Valid()
      modifies this`len, sock, queue, buf
      ensures enqueued == old(enqueued) && outcome == DataWritten(old(View())).outcome
      ensures outcome != Aborted ==> Valid() && View() == DataWritten(old(View())).state
      ensures sock.sent == DataWritten(old(View())).state.sent
      ensures outcome == Drained ==> len == 0 && queue.Empty() && sock.sent == enqueued
      ensures outcome == Closed || outcome == Blocked ==> len > 0
      ensures !Crowded(old(len), old(queue.Contents())) ==> outcome != Aborted
    {
      hide RingQueue.Valid, RingQueue.Contents, Flat, Crowded, IsPacket, Stream, AllPackets;
      ghost var s := View();
      if !Crowded(|s.buffer|, s.queue) { RoomyNeverAborts(s); }
      OutputConserves(s);
      var result := Done;
      var again := true;
      while again
        invariant Valid() && enqueued == old(enqueued) && (again ==> result == Done)
        invariant if again then DataWritten(View()) == DataWritten(s)
                  else DataWritten(s) == Run(if result == Block then Blocked else Drained, View())
        invariant !again ==> (if result == Block then len > 0 else len == 0 && queue.Empty())
        decreases queue.count, again
      {
        ghost var t := View();
        BufferConserves(t);
        SameStream(t, BytesWritten(t).state);
        if len > 0 {
          result := WriteBytes();
          if result == Error {
            return Closed;
          }
        }
        ghost var u := View();
        assert BytesWritten(t) == Written(result, u) && AllPackets(u.queue);
        SlotLast();
        if !queue.Empty() {
          var ok := EncryptNext();
          if !ok {
            return Aborted;
          }
          Flattened(u);
        }
        again := result != Block && len > 0;
      }
      if result == Block {
        return Blocked;
      }
      outcome := Drained;
    }
  }
}
