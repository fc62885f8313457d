/**
 A file on its way from disk to disk: how `read_work` cuts it up, and that `write_work` puts it back
 together.
 */
module Chunks {
  import opened Wire
  import opened FileModel

  /** The pieces that one read_work after another hands out, until it reports COMPLETE. */
  function Drain(f: FileHandle): (pieces: seq<seq<byte>>)
    requires Reading(f) && f.state == Working
    decreases |f.disk| - Sent(f)
  {
    ReadStep(f, true);
    var r := ReadWork(f, true);
    if r.file.state == Working then [r.bytes] + Drain(r.file) else []
  }

  /** What is left of the handle when read_work no longer reports WORKING. */
  function Drained(f: FileHandle): (g: FileHandle)
    requires Reading(f) && f.state == Working
    decreases |f.disk| - Sent(f)
  {
    ReadStep(f, true);
    var r := ReadWork(f, true);
    if r.file.state == Working then Drained(r.file) else r.file
  }

  function Concat(pieces: seq<seq<byte>>): seq<byte> {
    if pieces == [] then [] else pieces[0] + Concat(pieces[1..])
  }

  /** write_work on each piece in turn. */
  function Fold(f: FileHandle, pieces: seq<seq<byte>>): FileHandle
    requires f.size > 0
    decreases |pieces|
  {
    if pieces == [] then f else Fold(WriteWork(f, pieces[0]), pieces[1..])
  }

  // ---------------------------------------------------------------- how many pieces

  function CeilDiv(a: nat, b: nat): nat
    requires b > 0
  {
    (a + b - 1) / b
  }

  /** Three pieces for every full buffer, and one for every 1416 bytes or less of the rest. */
  function PieceCount(n: nat): nat {
    3 * (n / FILE_BUFFER_SIZE) + CeilDiv(n % FILE_BUFFER_SIZE, DATA_BYTES_MAX)
  }

  lemma BufferPieces(n: nat)
    ensures n >= FILE_BUFFER_SIZE ==> PieceCount(n) == 3 + PieceCount(n - FILE_BUFFER_SIZE)
    ensures n < FILE_BUFFER_SIZE ==> PieceCount(n) == CeilDiv(n, DATA_BYTES_MAX)
    ensures CeilDiv(FILE_BUFFER_SIZE, DATA_BYTES_MAX) == 3
  {
  }

  lemma OnePieceFewer(n: nat)
    requires n > 0
    ensures CeilDiv(n, DATA_BYTES_MAX) == 1 + CeilDiv(n - Min(n, DATA_BYTES_MAX), DATA_BYTES_MAX)
  {
  }

  lemma {:induction false} DrainCount(f: FileHandle)
    requires Reading(f) && f.state == Working
    ensures |Drain(f)| == CeilDiv(f.bufLen, DATA_BYTES_MAX) + PieceCount(|f.disk| - f.pos)
    decreases |f.disk| - Sent(f)
  {
    hide PieceCount, CeilDiv;
    ReadStep(f, true);
    BufferPieces(|f.disk| - f.pos);
    NoPieces();
    var r := ReadWork(f, true);
    if r.file.state == Working {
      DrainCount(r.file);
      var filled := if f.bufLen > 0 then f else Fill(f);
      OnePieceFewer(filled.bufLen);
    }
  }

  lemma NoPieces()
    ensures CeilDiv(0, DATA_BYTES_MAX) == 0 && PieceCount(0) == 0
  {
  }

  // ---------------------------------------------------------------- what is in them

  lemma {:induction false} DrainBytes(f: FileHandle)
    requires Reading(f) && f.state == Working
    ensures Concat(Drain(f)) == f.disk[Sent(f)..]
    ensures forall k | 0 <= k < |Drain(f)| :: 1 <= |Drain(f)[k]| <= DATA_BYTES_MAX
    ensures Drained(f).state == Finished && Reading(Drained(f)) && Sent(Drained(f)) == |f.disk|
    decreases |f.disk| - Sent(f)
  {
    hide ReadWork;
    ReadStep(f, true);
    ReadEnds(f);
    var r := ReadWork(f, true);
    if r.file.state == Working {
      DrainBytes(r.file);
      assert f.disk[Sent(f)..] == f.disk[Sent(f)..Sent(r.file)] + f.disk[Sent(r.file)..];
      assert Drain(f)[1..] == Drain(r.file);
    }
  }

  lemma ReadEnds(f: FileHandle)
    requires Reading(f) && f.state == Working
    ensures ReadWork(f, true).file.state == Working || ReadWork(f, true).file.state == Finished
  {
  }

  lemma {:induction false} FoldBytes(f: FileHandle, pieces: seq<seq<byte>>)
    requires Writing(f) && f.state == Working
    ensures var g := Fold(f, pieces);
            Writing(g) && g.state == Working && g.size == f.size && g.disk == f.disk + Concat(pieces)
    decreases |pieces|
  {
    if pieces == [] {
      assert f.disk + [] == f.disk;
    } else {
      WriteStep(f, pieces[0]);
      FoldBytes(WriteWork(f, pieces[0]), pieces[1..]);
      assert f.disk + (pieces[0] + Concat(pieces[1..])) == (f.disk + pieces[0]) + Concat(pieces[1..]);
    }
  }

  /**
   Chunking. A file of n > 0 bytes is cut into exactly 3 * (n / 3072) + ceil(n % 3072 / 1416) pieces
   of 1 to 1416 bytes, after which read_work reports COMPLETE; the pieces, in order, are the file, and
   write_work on them rebuilds it and shows 100 per cent.
   */
  lemma FileRoundTrip(contents: seq<byte>)
    requires contents != []
    ensures Reading(ReadFile(contents))
    ensures var pieces := Drain(ReadFile(contents));
            && |pieces| == PieceCount(|contents|)
            && (forall k | 0 <= k < |pieces| :: 1 <= |pieces[k]| <= DATA_BYTES_MAX)
            && Concat(pieces) == contents && Drained(ReadFile(contents)).state == Finished
            && Fold(WriteFile(|contents|), pieces).disk == contents
            && Fold(WriteFile(|contents|), pieces).progress == 100
  {
    hide Drain, Drained, Fold, Concat, PieceCount, CeilDiv, Reading, Sent;
    var f := ReadFile(contents);
    ReadFileReading(contents);
    DrainCount(f);
    DrainBytes(f);
    NoPieces();
    assert contents[0..] == contents;
    WriteFileWriting(|contents|);
    FoldBytes(WriteFile(|contents|), Drain(f));
    assert [] + contents == contents;
    WholePercent(|contents|);
  }

  lemma WholePercent(n: nat)
    requires n > 0
    ensures n * 100 / n == 100
  {
  }
}
