/** The receive ring buffer. Cursors are offsets from the head; either may rest at the tail. */
module CircleBuffers {
  import opened Bytes

  const FAILED: int := -1

  /** What the ring holds: from the read cursor up to the tail and on from the head. */
  function Window(bytes: seq<Byte>, size: nat, read: nat, count: nat): (r: seq<Byte>)
    requires |bytes| > size >= read && count <= size
    ensures |r| == count
  {
    if read + count <= size then bytes[read..read + count]
    else bytes[read..size] + bytes[..read + count - size]
  }

  /** Where byte `i` after the read cursor lives. */
  function Place(size: nat, read: nat, i: nat): nat {
    if read + i < size then read + i else read + i - size
  }

  lemma WindowAt(bytes: seq<Byte>, size: nat, read: nat, count: nat, i: nat)
    requires |bytes| > size >= read && i < count <= size
    ensures Place(size, read, i) < size
    ensures Window(bytes, size, read, count)[i] == bytes[Place(size, read, i)]
  {
  }

  /** Bytes stored right behind the window extend it, and do not disturb what it holds. */
  lemma WindowGrows(bytes: seq<Byte>, bytes': seq<Byte>, size: nat, read: nat, count: nat, src: seq<Byte>)
    requires |bytes| == |bytes'| > size >= read && count + |src| <= size
    requires forall i :: 0 <= i < count ==> bytes'[Place(size, read, i)] == bytes[Place(size, read, i)]
    requires forall i :: 0 <= i < |src| ==> bytes'[Place(size, read, count + i)] == src[i]
    ensures Window(bytes', size, read, count + |src|) == Window(bytes, size, read, count) + src
  {
    var w, w' := Window(bytes, size, read, count), Window(bytes', size, read, count + |src|);
    forall k | 0 <= k < count + |src| ensures w'[k] == (w + src)[k] {
      WindowAt(bytes', size, read, count + |src|, k);
      if k < count {
        WindowAt(bytes, size, read, count, k);
      } else {
        assert Place(size, read, count + (k - count)) == Place(size, read, k);
      }
    }
  }

  /** The front of the window is the window of fewer bytes. */
  lemma WindowFront(bytes: seq<Byte>, size: nat, read: nat, count: nat, n: nat)
    requires |bytes| > size >= read && n <= count <= size
    ensures Window(bytes, size, read, count)[..n] == Window(bytes, size, read, n)
  {
    var w, front := Window(bytes, size, read, count), Window(bytes, size, read, n);
    forall k | 0 <= k < n ensures w[..n][k] == front[k] {
      WindowAt(bytes, size, read, count, k);
      WindowAt(bytes, size, read, n, k);
    }
  }

  /** Moving the read cursor drops the front of the window. */
  lemma WindowShrinks(bytes: seq<Byte>, size: nat, read: nat, count: nat, n: nat)
    requires |bytes| > size >= read && n <= count <= size
    ensures var read' := if size - read < n then n - (size - read) else read + n;
            Window(bytes, size, read', count - n) == Window(bytes, size, read, count)[n..]
  {
    var read' := if size - read < n then n - (size - read) else read + n;
    var w, w' := Window(bytes, size, read, count), Window(bytes, size, read', count - n);
    forall k | 0 <= k < count - n ensures w'[k] == w[n + k] {
      WindowAt(bytes, size, read, count, n + k);
      WindowAt(bytes, size, read', count - n, k);
    }
  }

  /** `after` is `before` with `src` stored from `at` on, around the end if need be. */
  ghost predicate Around(before: seq<Byte>, after: seq<Byte>, size: nat, at: nat, src: seq<Byte>)
    requires |before| == |after| == size + 1 && at <= size && |src| <= size
  {
    var gap := size - at;
    if gap < |src| then
      && (forall i :: at <= i < size ==> after[i] == src[i - at])
      && (forall i :: 0 <= i < |src| - gap ==> after[i] == src[gap + i])
      && (forall i :: |src| - gap <= i < at ==> after[i] == before[i])
    else
      && (forall i :: at <= i < at + |src| ==> after[i] == src[i - at])
      && (forall i :: 0 <= i < size && !(at <= i < at + |src|) ==> after[i] == before[i])
  }

  class CircleBuffer {
    const buffer: array<Byte>
    const size: nat
    var read: nat
    var write: nat
    var dataSize: nat

    /** The write cursor is `dataSize` bytes after the read cursor, once around the ring at most. */
    ghost predicate Valid()
      reads this
    {
      && buffer.Length == size + 1 && read <= size && write <= size && dataSize <= size
      && (read + dataSize == write || read + dataSize == write + size)
    }

    ghost function Contents(): (r: seq<Byte>)
      requires Valid()
      reads this, buffer
    {
      Window(buffer[..], size, read, dataSize)
    }

    constructor (size: nat)
      ensures Valid() && fresh(buffer) && this.size == size && Contents() == []
    {
      this.size := size;
      buffer := new Byte[size + 1](_ => 0);
      read, write, dataSize := 0, 0, 0;
    }

    method Reset()
      requires Valid()
      modifies this, buffer
      ensures Valid() && Contents() == []
    {
      dataSize := 0;
      read, write := 0, 0;
      forall i | 0 <= i < size {
        buffer[i] := 0;
      }
    }

    method CopyIn(at: nat, src: seq<Byte>)
      requires buffer.Length == size + 1 && at + |src| <= size
      modifies buffer
      ensures forall i :: 0 <= i < |src| ==> buffer[at + i] == src[i]
      ensures forall i :: 0 <= i < buffer.Length && !(at <= i < at + |src|) ==> buffer[i] == old(buffer[i])
    {
      forall i | 0 <= i < |src| {
        buffer[at + i] := src[i];
      }
    }

    /** Copies `src` to the write cursor, around the end of the buffer if need be. */
    method CopyAround(src: seq<Byte>)
      requires buffer.Length == size + 1 && write <= size && |src| <= size
      modifies this`write, buffer
      ensures var gap := size - old(write); write == if gap < |src| then |src| - gap else old(write) + |src|
      ensures Around(old(buffer[..]), buffer[..], size, old(write), src)
    {
      var gap := size - write;
      if gap < |src| {
        CopyIn(write, src[..gap]);
        write := 0;
        CopyIn(write, src[gap..]);
        write := write + (|src| - gap);
      } else {
        CopyIn(write, src);
        write := write + |src|;
      }
    }

    /** Appends all of `src`, or changes nothing if it does not fit. */
    method Write(src: seq<Byte>) returns (r: int)
      requires Valid()
      modifies this`write, this`dataSize, buffer
      ensures Valid()
      ensures if |src| <= size - old(dataSize)
              then r == dataSize && Contents() == old(Contents()) + src
              else r == FAILED && Contents() == old(Contents())
    {
      var empty := size - dataSize;
      if empty < |src| {
        return FAILED;
      }
      ghost var before, count, at := buffer[..], dataSize, write;
      CopyAround(src);
      dataSize := dataSize + |src|;
      Stored(before, buffer[..], size, read, count, at, src);
      return dataSize;
    }

    /** Copies the first `n` bytes out without consuming them. */
    method Read(n: nat) returns (r: int, dest: seq<Byte>)
      requires Valid()
      ensures if n <= dataSize then r == n && dest == Contents()[..n] else r == FAILED && dest == []
    {
      if dataSize < n {
        return FAILED, [];
      }
      var mark := read;
      var gap := size - mark;
      WindowFront(buffer[..], size, read, dataSize, n);
      if gap < n {
        dest := buffer[mark..size];
        mark := 0;
        dest := dest + buffer[mark..n - gap];
        assert dest == buffer[..][read..size] + buffer[..][..n - gap];
      } else {
        dest := buffer[read..read + n];
        assert dest == buffer[..][read..read + n];
      }
      assert dest == Window(buffer[..], size, read, n);
      r := n;
    }

    /** Consumes the first `n` bytes, or changes nothing if there are fewer. */
    method Erase(n: nat) returns (r: int)
      requires Valid()
      modifies this`read, this`dataSize
      ensures Valid()
      ensures if n <= old(dataSize) then r == dataSize && Contents() == old(Contents())[n..]
              else r == FAILED && Contents() == old(Contents())
    {
      if dataSize < n {
        return FAILED;
      }
      WindowShrinks(buffer[..], size, read, dataSize, n);
      var gap := size - read;
      if gap < n {
        read := n - gap;
        dataSize := dataSize - n;
      } else {
        read := read + n;
        dataSize := dataSize - n;
      }
      return dataSize;
    }
  }

  /** The wrapped copy lands exactly behind the window. */
  lemma Stored(before: seq<Byte>, after: seq<Byte>, size: nat, read: nat, count: nat, at: nat, src: seq<Byte>)
    requires |before| == |after| == size + 1 && read <= size && at <= size && count + |src| <= size
    requires read + count == at || read + count == at + size
    requires Around(before, after, size, at, src)
    ensures Window(after, size, read, count + |src|) == Window(before, size, read, count) + src
  {
    WindowGrows(before, after, size, read, count, src);
  }

  // ---------------------------------------------------------------- every sequence of calls

  datatype Call = WriteCall(src: seq<Byte>) | ReadCall(n: nat) | EraseCall(n: nat) | ResetCall

  /** The bounded FIFO: its contents after one call, and what the call reports. */
  function Fifo(contents: seq<Byte>, size: nat, c: Call): (seq<Byte>, int, seq<Byte>) {
    match c
    case WriteCall(src) =>
      if |contents| + |src| <= size then (contents + src, |contents| + |src|, []) else (contents, FAILED, [])
    case ReadCall(n) => if n <= |contents| then (contents, n, contents[..n]) else (contents, FAILED, [])
    case EraseCall(n) => if n <= |contents| then (contents[n..], |contents| - n, []) else (contents, FAILED, [])
    case ResetCall => ([], 0, [])
  }

  /** What a sequence of calls reports. */
  function FifoRun(contents: seq<Byte>, size: nat, calls: seq<Call>): seq<(int, seq<Byte>)>
    decreases |calls|
  {
    if calls == [] then []
    else
      var (next, r, out) := Fifo(contents, size, calls[0]);
      [(r, out)] + FifoRun(next, size, calls[1..])
  }

  method Perform(b: CircleBuffer, c: Call) returns (r: int, out: seq<Byte>)
    requires b.Valid()
    modifies b, b.buffer
    ensures b.Valid() && (b.Contents(), r, out) == Fifo(old(b.Contents()), b.size, c)
  {
    out := [];
    match c
    case WriteCall(src) => r := b.Write(src);
    case ReadCall(n) => r, out := b.Read(n);
    case EraseCall(n) => r := b.Erase(n);
    case ResetCall => b.Reset(); r := 0;
  }

  /** Under every sequence of calls a fresh ring cannot be told from a bounded FIFO of bytes. */
  method PerformAll(size: nat, calls: seq<Call>) returns (results: seq<(int, seq<Byte>)>)
    ensures results == FifoRun([], size, calls)
  {
    var b := new CircleBuffer(size);
    results := [];
    var i := 0;
    assert calls[0..] == calls;
    while i < |calls|
      invariant 0 <= i <= |calls| && b.Valid() && fresh(b) && fresh(b.buffer) && b.size == size
      invariant results + FifoRun(b.Contents(), size, calls[i..]) == FifoRun([], size, calls)
    {
      assert calls[i..][0] == calls[i] && calls[i..][1..] == calls[i + 1..];
      ghost var before := b.Contents();
      var r, out := Perform(b, calls[i]);
      assert FifoRun(before, size, calls[i..]) == [(r, out)] + FifoRun(b.Contents(), size, calls[i + 1..]);
      results := results + [(r, out)];
      i := i + 1;
    }
    assert calls[i..] == [];
  }
}
