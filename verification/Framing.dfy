/**
 Packets as bytes: a header of two little-endian 32-bit numbers, the type and the size of what
 follows, and then that many bytes. A reader takes whatever pieces the stream comes in, over as many
 calls as it likes.
 */
module Framing {
  import opened Wire

  const PAYLOAD_MAX := 1432

  datatype Frame = Frame(kind: nat, payload: seq<byte>)

  predicate FrameOk(f: Frame) {
    f.kind < 0x1_0000_0000 && |f.payload| <= PAYLOAD_MAX
  }

  predicate AllOk(fs: seq<Frame>) {
    forall f | f in fs :: FrameOk(f)
  }

  // ---------------------------------------------------------------- bytes

  function Le32(n: nat): (b: seq<byte>)
    requires n < 0x1_0000_0000
    ensures |b| == 4
  {
    [(n % 256) as byte, (n / 256 % 256) as byte, (n / 65536 % 256) as byte, (n / 16777216) as byte]
  }

  function FromLe32(b: seq<byte>): (n: nat)
    requires |b| == 4
    ensures n < 0x1_0000_0000
  {
    b[0] as nat + 256 * b[1] as nat + 65536 * b[2] as nat + 16777216 * b[3] as nat
  }

  lemma Le32RoundTrip(n: nat)
    requires n < 0x1_0000_0000
    ensures FromLe32(Le32(n)) == n
  {
    var a, b, c := n / 256, n / 65536, n / 16777216;
    assert n == 256 * a + n % 256 && a == 256 * b + a % 256 && b == 256 * c + b % 256;
  }

  lemma Digit(x: nat, y: nat)
    requires x < 256
    ensures (x + 256 * y) % 256 == x && (x + 256 * y) / 256 == y
  {
  }

  lemma DivideAgain(n: nat)
    ensures n / 65536 == n / 256 / 256 && n / 16777216 == n / 65536 / 256
  {
  }

  lemma FromLe32RoundTrip(b: seq<byte>)
    requires |b| == 4
    ensures Le32(FromLe32(b)) == b
  {
    var n := FromLe32(b);
    var x0, x1, x2, x3 := b[0] as nat, b[1] as nat, b[2] as nat, b[3] as nat;
    assert n == x0 + 256 * (x1 + 256 * (x2 + 256 * x3));
    Digit(x0, x1 + 256 * (x2 + 256 * x3));
    Digit(x1, x2 + 256 * x3);
    Digit(x2, x3);
    DivideAgain(n);
  }

  function Encode(f: Frame): (b: seq<byte>)
    requires FrameOk(f)
    ensures |b| == PACKET_HDR_SIZE + |f.payload| <= PACKET_MAX_SIZE
  {
    Le32(f.kind) + Le32(|f.payload|) + f.payload
  }

  function EncodeAll(fs: seq<Frame>): seq<byte>
    requires AllOk(fs)
  {
    if fs == [] then [] else Encode(fs[0]) + EncodeAll(fs[1..])
  }

  lemma {:induction false} EncodeAppend(fs: seq<Frame>, gs: seq<Frame>)
    requires AllOk(fs) && AllOk(gs)
    ensures AllOk(fs + gs) && EncodeAll(fs + gs) == EncodeAll(fs) + EncodeAll(gs)
  {
    hide Encode;
    if fs == [] {
      assert fs + gs == gs;
    } else {
      assert (fs + gs)[1..] == fs[1..] + gs;
      EncodeAppend(fs[1..], gs);
    }
  }

  // ---------------------------------------------------------------- parsing

  /** The size field of a header that has arrived. */
  function SizeField(b: seq<byte>): nat
    requires |b| >= PACKET_HDR_SIZE
  {
    FromLe32(b[4..8])
  }

  function KindField(b: seq<byte>): nat
    requires |b| >= PACKET_HDR_SIZE
  {
    FromLe32(b[..4])
  }

  /** Fewer bytes than the next packet takes. */
  predicate Partial(b: seq<byte>) {
    |b| < PACKET_HDR_SIZE || (SizeField(b) <= PAYLOAD_MAX && |b| < PACKET_HDR_SIZE + SizeField(b))
  }

  /** A stream whose headers all announce a size that fits a packet. */
  predicate Sane(b: seq<byte>)
    decreases |b|
  {
    |b| < PACKET_HDR_SIZE ||
    (SizeField(b) <= PAYLOAD_MAX &&
     (|b| < PACKET_HDR_SIZE + SizeField(b) || Sane(b[PACKET_HDR_SIZE + SizeField(b)..])))
  }

  /** The complete packets of a stream. */
  function Frames(b: seq<byte>): (fs: seq<Frame>)
    requires Sane(b)
    ensures AllOk(fs)
    decreases |b|
  {
    if Partial(b) then []
    else
      var n := PACKET_HDR_SIZE + SizeField(b);
      [Frame(KindField(b), b[PACKET_HDR_SIZE..n])] + Frames(b[n..])
  }

  /** What is left behind the last complete packet. */
  function Rest(b: seq<byte>): (r: seq<byte>)
    requires Sane(b)
    ensures Partial(r) && Sane(r)
    decreases |b|
  {
    if Partial(b) then b else Rest(b[PACKET_HDR_SIZE + SizeField(b)..])
  }

  lemma HeaderOf(f: Frame, rest: seq<byte>)
    requires FrameOk(f)
    ensures var b := Encode(f) + rest;
            && SizeField(b) == |f.payload| && KindField(b) == f.kind && !Partial(b)
            && b[PACKET_HDR_SIZE..PACKET_HDR_SIZE + |f.payload|] == f.payload
            && b[PACKET_HDR_SIZE + |f.payload|..] == rest && |f.payload| <= PAYLOAD_MAX
  {
    var b := Encode(f) + rest;
    assert b[..4] == Le32(f.kind) && b[4..8] == Le32(|f.payload|);
    Le32RoundTrip(f.kind);
    Le32RoundTrip(|f.payload|);
  }

  /** Taking the first packet off a stream. */
  lemma Unfold(b: seq<byte>)
    requires |b| >= PACKET_HDR_SIZE && SizeField(b) <= PAYLOAD_MAX && |b| >= PACKET_HDR_SIZE + SizeField(b)
    ensures var n := PACKET_HDR_SIZE + SizeField(b);
            && (Sane(b) <==> Sane(b[n..])) && !Partial(b)
            && (Sane(b) ==> Frames(b) == [Frame(KindField(b), b[PACKET_HDR_SIZE..n])] + Frames(b[n..])
                            && Rest(b) == Rest(b[n..]))
  {
  }

  lemma UnfoldPartial(b: seq<byte>)
    requires Partial(b)
    ensures Sane(b) && Frames(b) == [] && Rest(b) == b
  {
  }

  /** Reading back what was written, in front of whatever follows. */
  lemma {:induction false} FramesOfEncoded(fs: seq<Frame>, rest: seq<byte>)
    requires AllOk(fs) && Sane(rest)
    ensures var b := EncodeAll(fs) + rest;
            Sane(b) && Frames(b) == fs + Frames(rest) && Rest(b) == Rest(rest)
    decreases |fs|
  {
    hide Encode, SizeField, KindField, Sane, Frames, Rest, Partial;
    if fs == [] {
      assert EncodeAll(fs) + rest == rest;
    } else {
      var tail := EncodeAll(fs[1..]) + rest;
      var b := Encode(fs[0]) + tail;
      assert EncodeAll(fs) + rest == b;
      assert fs[0] in fs;
      HeaderOf(fs[0], tail);
      Unfold(b);
      FramesOfEncoded(fs[1..], rest);
      assert Frames(b) == [fs[0]] + (fs[1..] + Frames(rest));
    }
  }

  lemma SizeFits(b: seq<byte>)
    requires Sane(b) && !Partial(b)
    ensures PACKET_HDR_SIZE + SizeField(b) <= |b| && SizeField(b) <= PAYLOAD_MAX
  {
  }

  lemma Thirds(b: seq<byte>, n: nat)
    requires PACKET_HDR_SIZE <= n <= |b|
    ensures b[..4] + b[4..8] + b[PACKET_HDR_SIZE..n] == b[..n]
  {
  }

  lemma HeaderWritten(b: seq<byte>)
    requires |b| >= PACKET_HDR_SIZE
    ensures KindField(b) < 0x1_0000_0000 && SizeField(b) < 0x1_0000_0000
    ensures Le32(KindField(b)) == b[..4] && Le32(SizeField(b)) == b[4..8]
  {
    hide Le32, FromLe32;
    FromLe32RoundTrip(b[..4]);
    FromLe32RoundTrip(b[4..8]);
  }

  lemma EncodeOfParsed(b: seq<byte>)
    requires Sane(b) && !Partial(b)
    ensures var n := PACKET_HDR_SIZE + SizeField(b);
            var f := Frame(KindField(b), b[PACKET_HDR_SIZE..n]);
            n <= |b| && FrameOk(f) && Encode(f) == b[..n]
  {
    hide Le32, FromLe32, Sane, Partial, SizeField, KindField;
    SizeFits(b);
    HeaderWritten(b);
    Thirds(b, PACKET_HDR_SIZE + SizeField(b));
  }

  /** Writing back what was read, followed by what was left, gives the stream. */
  lemma {:induction false} EncodedFrames(b: seq<byte>)
    requires Sane(b)
    ensures EncodeAll(Frames(b)) + Rest(b) == b
    decreases |b|
  {
    hide Encode, SizeField, KindField, Sane, Frames, Rest, Partial;
    if Partial(b) {
      UnfoldPartial(b);
      assert [] + b == b;
    } else {
      EncodeOfParsed(b);
      Unfold(b);
      var n := PACKET_HDR_SIZE + SizeField(b);
      EncodedFrames(b[n..]);
      var f, fs := Frame(KindField(b), b[PACKET_HDR_SIZE..n]), Frames(b[n..]);
      assert ([f] + fs)[1..] == fs;
      assert Encode(f) + EncodeAll(fs) + Rest(b[n..]) == b[..n] + (EncodeAll(fs) + Rest(b[n..]));
    }
  }

  /** More bytes behind a header leave it what it is. */
  lemma HeaderExtends(a: seq<byte>, b: seq<byte>)
    requires |a| >= PACKET_HDR_SIZE
    ensures SizeField(a + b) == SizeField(a) && KindField(a + b) == KindField(a)
  {
  }

  lemma {:induction false} SanePrefix(a: seq<byte>, b: seq<byte>)
    requires Sane(a + b)
    ensures Sane(a)
    decreases |a|
  {
    if |a| >= PACKET_HDR_SIZE {
      HeaderExtends(a, b);
      var n := PACKET_HDR_SIZE + SizeField(a);
      if |a| >= n {
        assert (a + b)[n..] == a[n..] + b;
        SanePrefix(a[n..], b);
      }
    }
  }

  /**
   Parsing does not depend on how the stream is cut up: what was left of the first part, followed by
   the second, gives the packets that the first part alone did not.
   */
  lemma {:induction false} FramesAppend(a: seq<byte>, b: seq<byte>)
    requires Sane(a + b)
    ensures Sane(a) && Sane(Rest(a) + b)
    ensures Frames(a + b) == Frames(a) + Frames(Rest(a) + b) && Rest(a + b) == Rest(Rest(a) + b)
    decreases |a|
  {
    hide SizeField, KindField, Rest, Frames, Sane;
    SanePrefix(a, b);
    if Partial(a) {
      UnfoldPartial(a);
      assert [] + Frames(a + b) == Frames(a + b);
    } else {
      HeaderExtends(a, b);
      WholeHead(a);
      var n := PACKET_HDR_SIZE + SizeField(a);
      Unfold(a);
      Unfold(a + b);
      assert (a + b)[n..] == a[n..] + b && (a + b)[PACKET_HDR_SIZE..n] == a[PACKET_HDR_SIZE..n];
      FramesAppend(a[n..], b);
      var f := Frame(KindField(a), a[PACKET_HDR_SIZE..n]);
      assert [f] + (Frames(a[n..]) + Frames(Rest(a[n..]) + b)) == ([f] + Frames(a[n..])) + Frames(Rest(a[n..]) + b);
    }
  }

  lemma WholeHead(b: seq<byte>)
    requires Sane(b) && !Partial(b)
    ensures |b| >= PACKET_HDR_SIZE && SizeField(b) <= PAYLOAD_MAX && |b| >= PACKET_HDR_SIZE + SizeField(b)
  {
  }

  /** One packet's worth of bytes is one packet and nothing else. */
  lemma FramesOne(b: seq<byte>)
    requires |b| >= PACKET_HDR_SIZE && SizeField(b) <= PAYLOAD_MAX && |b| == PACKET_HDR_SIZE + SizeField(b)
    ensures Sane(b) && Frames(b) == [Frame(KindField(b), b[PACKET_HDR_SIZE..])] && Rest(b) == []
  {
    assert b[|b|..] == [] && b[PACKET_HDR_SIZE..|b|] == b[PACKET_HDR_SIZE..];
  }

  /** Whoever has read the first part of a stream of packets has been handed the first packets. */
  lemma PrefixOfStream(fs: seq<Frame>, a: seq<byte>, b: seq<byte>)
    requires AllOk(fs) && EncodeAll(fs) == a + b
    ensures Sane(a) && Frames(a) <= fs && (b == [] ==> Frames(a) == fs && Rest(a) == [])
  {
    hide SizeField, KindField, EncodeAll, Sane, Frames, Rest;
    assert EncodeAll(fs) + [] == EncodeAll(fs) && fs + [] == fs;
    UnfoldPartial([]);
    FramesOfEncoded(fs, []);
    FramesAppend(a, b);
    if b == [] { assert a + b == a; }
  }
}
