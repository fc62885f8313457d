/**
 The resumable readers of packets: decrypt_data on the server (qs_server/src/net_read.c) and
 read_data on the client (src/network.cpp). Both keep the unfinished packet in a buffer of 1440 bytes
 and ask the stream for no more than the packet at hand still needs.
 */
module FrameReader {
  import opened Wire
  import opened Framing

  /** TLS as a stream of bytes: a read returns some non-empty piece of what has arrived, if anything has. */
  class TlsStream {
    var arrived: seq<byte>
    var pending: bool   // a part of what has arrived can be read at once

    constructor (bytes: seq<byte>)
      ensures arrived == bytes
    {
      arrived := bytes;
      pending := false;
    }

    /** SSL_read, with any length it may choose. */
    method Read(max: nat) returns (bytes: seq<byte>)
      requires max > 0
      modifies this
      ensures old(arrived) == bytes + arrived && |bytes| <= max
      ensures old(arrived) != [] ==> bytes != []
      ensures pending ==> arrived != []
    {
      if arrived == [] {
        pending := false;
        return [];
      }
      var most := if max < |arrived| then max else |arrived|;
      var n :| 1 <= n <= most;
      bytes := arrived[..n];
      arrived := arrived[n..];
      pending := *;
      if arrived == [] {
        pending := false;
      }
    }

    /** SSL_pending. */
    method Pending() returns (more: bool)
      ensures more == pending
    {
      more := pending;
    }
  }

  class FrameReader {
    const buf: array<byte>
    var len: nat
    var size: nat
    var handed: seq<Frame>          // the packets given to the dispatcher, in order
    ghost var consumed: seq<byte>   // all bytes read so far

    ghost predicate Valid()
      reads this, buf
    {
      && buf.Length == PACKET_MAX_SIZE && size <= PAYLOAD_MAX && len < PACKET_HDR_SIZE + size
      && size == (if len >= PACKET_HDR_SIZE then SizeField(buf[..len]) else 0)
      && Sane(consumed) && handed == Frames(consumed) && buf[..len] == Rest(consumed)
    }

    constructor ()
      ensures Valid() && handed == [] && consumed == [] && fresh(buf)
    {
      buf := new byte[PACKET_MAX_SIZE];
      len, size, handed, consumed := 0, 0, [], [];
    }

    /** The bytes of one read go behind what is in the buffer. */
    method Store(bytes: seq<byte>)
      requires len + |bytes| <= buf.Length
      modifies this`len, buf
      ensures len == old(len) + |bytes| && buf[..len] == old(buf[..len]) + bytes
    {
      var i := 0;
      while i < |bytes|
        invariant i <= |bytes| && len == old(len)
        invariant buf[..len + i] == old(buf[..len]) + bytes[..i]
      {
        buf[len + i] := bytes[i];
        i := i + 1;
      }
      assert bytes[..i] == bytes;
      len := len + |bytes|;
    }

    /** The dispatcher gets the packet, and the buffer is empty again. */
    method HandOver()
      requires PACKET_HDR_SIZE <= len <= buf.Length
      modifies this`len, this`size, this`handed
      ensures len == 0 == size
      ensures handed == old(handed) + [Frame(KindField(old(buf[..len])), old(buf[..len])[PACKET_HDR_SIZE..])]
    {
      handed := handed + [Frame(KindField(buf[..len]), buf[..len][PACKET_HDR_SIZE..])];
      len, size := 0, 0;
    }

    /** The body of the reading loop, for what one read has returned. */
    method Accept(bytes: seq<byte>)
      requires Valid() && 0 < |bytes| <= PACKET_HDR_SIZE + size - len && Sane(consumed + bytes)
      modifies this, buf
      ensures Valid() && consumed == old(consumed) + bytes
    {
      hide SizeField, KindField, Sane, Frames, Rest;
      ghost var head := buf[..len];
      FramesAppend(consumed, bytes);
      Store(bytes);
      ghost var all := buf[..len];
      SaneHead(all);
      if |head| >= PACKET_HDR_SIZE {
        HeaderExtends(head, bytes);
      }
      if len == PACKET_HDR_SIZE {
        size := SizeField(buf[..len]);
      }
      consumed := consumed + bytes;
      if len == size + PACKET_HDR_SIZE {
        FramesOne(all);
        HandOver();
        assert buf[..len] == [];
      } else {
        UnfoldPartial(all);
      }
    }

    lemma SaneHead(b: seq<byte>)
      requires Sane(b)
      ensures |b| >= PACKET_HDR_SIZE ==> SizeField(b) <= PAYLOAD_MAX
    {
    }

    /** decrypt_data: reads until the stream has nothing more to give. */
    method DecryptData(tls: TlsStream)
      requires Valid() && Sane(consumed + tls.arrived)
      modifies this, buf, tls
      ensures Valid() && tls.arrived == [] && consumed == old(consumed) + old(tls.arrived)
    {
      hide Valid, Sane;
      ghost var stream := consumed + tls.arrived;
      var more := true;
      while more
        invariant Valid() && consumed + tls.arrived == stream && (!more ==> tls.arrived == [])
        decreases |tls.arrived|, more
      {
        more := Once(tls, stream);
      }
      assert consumed + [] == consumed;
    }

    /** One read of at most what the packet at hand needs, and what is done with it. */
    method Once(tls: TlsStream, ghost stream: seq<byte>) returns (more: bool)
      requires Valid() && consumed + tls.arrived == stream && Sane(stream)
      modifies this, buf, tls
      ensures Valid() && consumed + tls.arrived == stream
      ensures more ==> |tls.arrived| < |old(tls.arrived)|
      ensures !more ==> tls.arrived == [] && old(tls.arrived) == []
      ensures tls.pending ==> tls.arrived != []
    {
      hide Sane, SizeField, Frames, Rest;
      var bytes := tls.Read(PACKET_HDR_SIZE + size - len);
      more := |bytes| > 0;
      if more {
        assert stream == (consumed + bytes) + tls.arrived;
        SanePrefix(consumed + bytes, tls.arrived);
        Accept(bytes);
      }
    }

    /** read_data: reads once, and stops only when no part of what has arrived is at hand. */
    method ReadData(tls: TlsStream)
      requires Valid() && Sane(consumed + tls.arrived)
      modifies this, buf, tls
      ensures Valid() && consumed + tls.arrived == old(consumed) + old(tls.arrived)
      ensures old(tls.arrived) != [] ==> |tls.arrived| < |old(tls.arrived)|
      ensures !tls.pending
    {
      hide Valid, Sane;
      ghost var stream := consumed + tls.arrived;
      var more := Once(tls, stream);
      if more {
        more := tls.Pending();
      }
      while more
        invariant Valid() && consumed + tls.arrived == stream
        invariant old(tls.arrived) != [] ==> |tls.arrived| < |old(tls.arrived)|
        invariant (tls.pending ==> tls.arrived != []) && (!more ==> !tls.pending)
        decreases |tls.arrived|, more
      {
        more := Once(tls, stream);
        if more {
          more := tls.Pending();
        }
      }
    }

    /**
     Whatever the packets, however their bytes were cut up and over however many calls: a reader that
     has read the bytes of some packets and the beginning of another has handed over exactly those
     packets, in order, and holds exactly the beginning.
     */
    lemma HandsOverExactly(fs: seq<Frame>, begun: seq<byte>)
      requires Valid() && AllOk(fs) && Partial(begun) && consumed == EncodeAll(fs) + begun
      ensures handed == fs && buf[..len] == begun
    {
      hide SizeField, Sane, Frames, Rest;
      UnfoldPartial(begun);
      FramesOfEncoded(fs, begun);
    }
  }
}
