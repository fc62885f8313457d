/**
 File_Manager of src/file_manager.cpp as it stands: a 3072-byte buffer that is filled from the file
 and emptied piece by piece, or a file that grows with every packet.
 */
module FileManager {
  import opened Wire
  import opened FileModel

  /** What fopen and the stream functions work on: the contents and a position. */
  class File {
    var contents: seq<byte>
    var pos: nat

    constructor (contents: seq<byte>)
      ensures this.contents == contents && pos == 0
    {
      this.contents := contents;
      pos := 0;
    }

    /** fread into a buffer: as much as fits, or all that is left. */
    method Read(buf: array<byte>) returns (n: nat)
      requires pos <= |contents|
      modifies this`pos, buf
      ensures n == Min(buf.Length, |contents| - old(pos)) && pos == old(pos) + n
      ensures buf[..n] == contents[old(pos)..pos] && buf[n..] == old(buf[n..])
    {
      n := Min(buf.Length, |contents| - pos);
      var i := 0;
      while i < n
        invariant 0 <= i <= n && pos == old(pos)
        invariant buf[..i] == contents[pos..pos + i] && buf[i..] == old(buf[i..])
      {
        buf[i] := contents[pos + i];
        i := i + 1;
      }
      pos := pos + n;
    }

    /** fwrite at the end. */
    method Append(bytes: seq<byte>)
      modifies this`contents
      ensures contents == old(contents) + bytes
    {
      contents := contents + bytes;
    }
  }

  class FileManager {
    var state: FileState
    var progress: nat
    var file: File
    const buf: array<byte>
    var bufLen: nat
    var bufCnt: nat
    var size: nat

    ghost predicate Valid()
      reads this, file, buf
    {
      buf.Length == FILE_BUFFER_SIZE && bufCnt + bufLen <= buf.Length && file.pos <= |file.contents|
    }

    ghost predicate IsReading()
      reads this, file, buf
    {
      Valid() && Reading(View())
    }

    ghost function View(): FileHandle
      reads this, file, buf
      requires Valid()
    {
      FileHandle(state, progress, size, file.contents, file.pos, buf[..bufCnt + bufLen], bufLen, bufCnt)
    }

    /** What a manager that writes has to show; its buffer length counts the bytes written. */
    ghost function Written(): FileHandle
      reads this, file
    {
      FileHandle(state, progress, size, file.contents, 0, [], bufLen, 0)
    }

    /** A manager whose `read_file` has just opened the file. */
    constructor ForReading(f: File)
      requires f.contents != [] && f.pos == 0
      ensures IsReading() && file == f && View() == ReadFile(f.contents) && fresh(buf)
    {
      buf := new byte[FILE_BUFFER_SIZE];
      file := f;
      state, progress, size, bufLen, bufCnt := Working, 0, |f.contents|, 0, 0;
    }

    /** A manager whose `write_file` has just created the file; it has no buffer. */
    constructor ForWriting(f: File, size: nat)
      requires f.contents == []
      ensures file == f && Written() == WriteFile(size)
    {
      buf := new byte[0];
      file := f;
      state, progress, bufLen, bufCnt := Working, 0, 0, 0;
      this.size := size;
    }

    /** The fread of read_from_file. */
    method Refill() returns (n: nat)
      requires IsReading() && state == Working && bufLen == 0
      modifies this`bufLen, this`bufCnt, file`pos, buf
      ensures Valid() && file.contents == old(file.contents) && n == Fill(old(View())).bufLen
      ensures View() == if n > 0 then Fill(old(View())) else old(View())
    {
      n := file.Read(buf);
      if n > 0 {
        bufLen, bufCnt := n, 0;
      } else {
        assert buf[..] == old(buf[..]);
      }
    }

    /** Copying the next piece into the packet. */
    method TakePiece() returns (bytes: seq<byte>)
      requires Valid() && size > 0 && bufLen > 0
      modifies this`bufLen, this`bufCnt, this`progress
      ensures Valid() && View() == Emit(old(View())).file && bytes == Emit(old(View())).bytes
    {
      var n := Min(bufLen, DATA_BYTES_MAX);
      bytes := buf[bufCnt..bufCnt + n];
      bufLen := bufLen - n;
      bufCnt := bufCnt + n;
      progress := file.pos * 100 / size;
    }

    /** read_from_file: the piece to send, or no success when the stream is broken. */
    method ReadFromFile(streamOk: bool) returns (ok: bool, bytes: seq<byte>)
      requires IsReading() && state == Working
      modifies this`state, this`progress, this`bufLen, this`bufCnt, file`pos, buf
      ensures Valid() && file.contents == old(file.contents) && bytes == ReadWork(old(View()), streamOk).bytes
      ensures ok ==> View() == ReadWork(old(View()), streamOk).file
      ensures !ok ==> View().(state := Failed) == ReadWork(old(View()), streamOk).file
    {
      hide Reading, Emit, Fill;
      PositiveSize();
      if bufLen == 0 {
        var n := Refill();
        if n == 0 {
          if !streamOk {
            return false, [];
          }
          state := Finished;
          return true, [];
        }
        KeepsSize(old(View()));
      }
      bytes := TakePiece();
      ok := true;
    }

    lemma PositiveSize()
      requires IsReading()
      ensures size > 0
    {
    }

    lemma KeepsSize(f: FileHandle)
      requires Reading(f)
      ensures Fill(f).size == f.size > 0 && Fill(f).state == f.state
    {
    }

    /** read_work. */
    method Read(streamOk: bool) returns (bytes: seq<byte>)
      requires IsReading()
      modifies this`state, this`progress, this`bufLen, this`bufCnt, file`pos, buf
      ensures IsReading() && file.contents == old(file.contents)
      ensures View() == ReadWork(old(View()), streamOk).file && bytes == ReadWork(old(View()), streamOk).bytes
    {
      hide ReadWork, Reading;
      StaysReading(View(), streamOk);
      bytes := [];
      if state == Working {
        var ok;
        ok, bytes := ReadFromFile(streamOk);
        if !ok {
          state := Failed;
        }
      }
    }

    lemma StaysReading(f: FileHandle, streamOk: bool)
      requires Reading(f)
      ensures Reading(ReadWork(f, streamOk).file)
      ensures f.state != Working ==> ReadWork(f, streamOk) == ReadResult(f, [])
    {
    }

    /** write_work: the announced size is what the percentage is taken of. */
    method Write(bytes: seq<byte>)
      requires size > 0
      modifies this`progress, this`bufLen, file`contents
      ensures Written() == WriteWork(old(Written()), bytes)
    {
      if state == Working {
        file.Append(bytes);
        bufLen := bufLen + |bytes|;
        progress := bufLen * 100 / size;
      }
    }
  }
}
