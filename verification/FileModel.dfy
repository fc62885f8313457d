/**
 What src/file_manager.cpp computes, on values: `FileHandle` is the state of one File_Manager.
 For a file being read `disk` is its contents and `pos` the stream position;
 for a file being written `disk` is what has been written so far.
 */
module FileModel {
  import opened Wire

  datatype FileState = Closed | Failed | Working | Finished

  datatype FileHandle = FileHandle(
    state: FileState, progress: nat, size: nat, disk: seq<byte>,
    pos: nat, buf: seq<byte>, bufLen: nat, bufCnt: nat)

  const CLOSED := FileHandle(Closed, 0, 0, [], 0, [], 0, 0)

  function Min(a: nat, b: nat): nat { if a < b then a else b }

  /** read_file on a file that opens and is not empty. */
  function ReadFile(contents: seq<byte>): FileHandle
    requires contents != []
  {
    FileHandle(Working, 0, |contents|, contents, 0, [], 0, 0)
  }

  /** write_file, the open having succeeded. */
  function WriteFile(size: nat): FileHandle {
    FileHandle(Working, 0, size, [], 0, [], 0, 0)
  }

  /** The consistency of a handle opened with `ReadFile`. */
  predicate Reading(f: FileHandle) {
    && f.disk != [] && f.size == |f.disk|
    && f.pos <= |f.disk|
    && |f.buf| <= f.pos && f.buf == f.disk[f.pos - |f.buf|..f.pos]
    && f.bufCnt + f.bufLen == |f.buf|
    && f.progress == f.pos * 100 / f.size
  }

  /** How many bytes have been handed out so far. */
  function Sent(f: FileHandle): nat
    requires Reading(f)
  {
    f.pos - f.bufLen
  }

  /** fread: fill the 3072-byte buffer, or take all that is left. */
  function Fill(f: FileHandle): FileHandle
    requires Reading(f)
  {
    var n := Min(FILE_BUFFER_SIZE, |f.disk| - f.pos);
    f.(buf := f.disk[f.pos..f.pos + n], bufLen := n, bufCnt := 0, pos := f.pos + n)
  }

  datatype ReadResult = ReadResult(file: FileHandle, bytes: seq<byte>)

  /** Hand out the next piece of the buffer and publish the progress. */
  function Emit(f: FileHandle): ReadResult
    requires f.size > 0 && f.bufCnt + f.bufLen <= |f.buf|
  {
    var n := Min(f.bufLen, DATA_BYTES_MAX);
    ReadResult(
      f.(bufLen := f.bufLen - n, bufCnt := f.bufCnt + n, progress := f.pos * 100 / f.size),
      f.buf[f.bufCnt..f.bufCnt + n])
  }

  /** read_work; `ok` is false when the stream reports an error on an empty read. */
  function ReadWork(f: FileHandle, ok: bool): ReadResult
    requires Reading(f)
  {
    if f.state != Working then ReadResult(f, [])
    else if f.bufLen > 0 then Emit(f)
    else
      var g := Fill(f);
      if g.bufLen > 0 then Emit(g)
      else ReadResult(f.(state := if ok then Finished else Failed), [])
  }

  /** write_work; the announced size is the divisor of the progress. */
  function WriteWork(f: FileHandle, bytes: seq<byte>): FileHandle
    requires f.size > 0
  {
    if f.state != Working then f
    else
      f.(disk := f.disk + bytes,
         bufLen := f.bufLen + |bytes|,
         progress := (f.bufLen + |bytes|) * 100 / f.size)
  }

  /** The consistency of a handle opened with `WriteFile`. */
  predicate Writing(f: FileHandle) {
    f.size > 0 && f.bufLen == |f.disk| && f.progress == |f.disk| * 100 / f.size
  }

  // ---------------------------------------------------------------- one read_work, one write_work

  lemma ReadFileReading(contents: seq<byte>)
    requires contents != []
    ensures Reading(ReadFile(contents)) && Sent(ReadFile(contents)) == 0
  {
  }

  lemma WriteFileWriting(size: nat)
    requires size > 0
    ensures Writing(WriteFile(size))
  {
  }

  lemma FillStep(f: FileHandle)
    requires Reading(f) && f.bufLen == 0
    ensures var g := Fill(f);
            && g.disk == f.disk && g.size == f.size && g.state == f.state
            && f.pos <= g.pos <= |f.disk| && |g.buf| <= g.pos && g.buf == f.disk[g.pos - |g.buf|..g.pos]
            && g.bufCnt == 0 && g.bufLen == |g.buf| == g.pos - f.pos
            && (g.bufLen == 0 <==> f.pos == |f.disk|)
  {
  }

  lemma PieceOfPiece(s: seq<byte>, a: nat, b: nat, i: nat, j: nat)
    requires a <= b <= |s| && i <= j <= b - a
    ensures s[a..b][i..j] == s[a + i..a + j]
  {
    forall k | 0 <= k < j - i
      ensures s[a..b][i..j][k] == s[a + i..a + j][k]
    {
      assert s[a..b][i..j][k] == s[a..b][i + k] == s[a + (i + k)];
    }
  }

  lemma EmitStep(f: FileHandle)
    requires f.disk != [] && f.size == |f.disk| && f.pos <= |f.disk|
    requires |f.buf| <= f.pos && f.buf == f.disk[f.pos - |f.buf|..f.pos]
    requires f.bufCnt + f.bufLen == |f.buf| && f.bufLen > 0
    ensures var r := Emit(f);
            && Reading(r.file) && r.file.disk == f.disk && r.file.state == f.state
            && 1 <= |r.bytes| <= DATA_BYTES_MAX && Sent(r.file) == f.pos - f.bufLen + |r.bytes|
            && r.bytes == f.disk[f.pos - f.bufLen..Sent(r.file)]
  {
    var n := |Emit(f).bytes|;
    var from := f.pos - |f.buf|;
    PieceOfPiece(f.disk, from, f.pos, f.bufCnt, f.bufCnt + n);
  }

  /** One read_work hands out the next bytes of the file, 1 to 1416 of them, or finds its end. */
  lemma ReadStep(f: FileHandle, ok: bool)
    requires Reading(f) && f.state == Working
    ensures var r := ReadWork(f, ok);
            && Reading(r.file) && r.file.disk == f.disk && r.file.state != Closed
            && Sent(r.file) == Sent(f) + |r.bytes| && r.bytes == f.disk[Sent(f)..Sent(r.file)]
            && (r.file.state == Working <==> Sent(f) < |f.disk|)
            && (r.file.state == Working ==> 1 <= |r.bytes| <= DATA_BYTES_MAX)
            && (Sent(f) == |f.disk| ==> r.file.state == if ok then Finished else Failed)
  {
    if f.bufLen > 0 {
      EmitStep(f);
    } else {
      FillStep(f);
      if Fill(f).bufLen > 0 {
        EmitStep(Fill(f));
      }
    }
  }

  lemma WriteStep(f: FileHandle, bytes: seq<byte>)
    requires Writing(f) && f.state == Working
    ensures var g := WriteWork(f, bytes);
            Writing(g) && g.state == Working && g.size == f.size && g.disk == f.disk + bytes
  {
  }
}
