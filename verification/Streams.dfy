/**
 From the server's message queue to the client's dispatcher: the packets that `Output` sends, in whatever
 pieces the socket takes them, are those that `FrameReader` hands over.
 */
module Streams {
  import opened Framing
  import FrameReader
  import Output

  /**
   A reader that has read some of what has left the writer has handed over the first of the packets that
   were put in the queue, in order and complete; and all of them once it has read everything.
   */
  lemma ReaderFollowsWriter(o: Output.Output, r: FrameReader.FrameReader, fs: seq<Frame>)
    requires o.Valid() && r.Valid() && AllOk(fs) && o.enqueued == EncodeAll(fs) && r.consumed <= o.sock.sent
    ensures r.handed <= fs
    ensures r.consumed == o.enqueued ==> r.handed == fs && r.len == 0
  {
    hide SizeField, Sane, Frames, Rest, EncodeAll;
    var rest := o.enqueued[|r.consumed|..];
    SentFirst(o);
    assert o.enqueued == r.consumed + rest;
    PrefixOfStream(fs, r.consumed, rest);
    assert |Rest(r.consumed)| == r.len;
  }

  lemma SentFirst(o: Output.Output)
    requires o.Valid()
    ensures o.sock.sent <= o.enqueued
  {
  }
}
