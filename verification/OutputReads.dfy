/** Bounded reads of an output file, and the bounded copy cleanup makes of it. */
module OutputReads {
  import opened Basics

  type Byte = b: int | 0 <= b < 256

  const MAX_BYTES_CEILING: nat := 1048576

  datatype Read = Read(offset: nat, bytes: seq<Byte>, total: nat, next: Option<nat>)

  /** Where a requested offset falls; a negative one counts from the end. */
  function StartOf(total: nat, requested: int): (offset: nat)
    ensures offset <= total
  {
    if requested < 0 then Max(0, total + requested) else Min(requested, total)
  }

  /** What a read of at most `maxBytes` returns. */
  function ReadOf(content: seq<Byte>, requested: int, maxBytes: nat): Read {
    var offset := StartOf(|content|, requested);
    var end := offset + Min(maxBytes, |content| - offset);
    Read(offset, content[offset..end], |content|, if end < |content| then Some(end) else None)
  }

  /** Fills a buffer from the file; each read returns some of the bytes asked for. */
  method ReadBounded(content: seq<Byte>, requested: int, maxBytes: nat) returns (r: Read)
    ensures r == ReadOf(content, requested, maxBytes)
  {
    var total := |content|;
    var offset := if requested < 0 then Max(0, total + requested) else Min(requested, total);
    var length := Min(maxBytes, total - offset);
    var bytes := new Byte[Max(0, length)];
    var read := 0;
    while read < length
      invariant 0 <= read <= length == bytes.Length
      invariant forall k :: 0 <= k < read ==> bytes[k] == content[offset + k]
    {
      var n :| 1 <= n <= length - read;
      forall k | 0 <= k < n {
        bytes[read + k] := content[offset + read + k];
      }
      read := read + n;
    }
    var end := offset + read;
    r := Read(offset, bytes[..read], total, if end < total then Some(end) else None);
  }

  /** The bytes of a read and of those that go on from where each one says, until one says no more. */
  function ReadOn(content: seq<Byte>, offset: nat, maxBytes: nat): seq<Byte>
    requires offset <= |content| && maxBytes > 0
    decreases |content| - offset
  {
    var r := ReadOf(content, offset, maxBytes);
    r.bytes + if r.next.Some? then ReadOn(content, r.next.value, maxBytes) else []
  }

  /** Reading on from an offset gives the rest of the file, however much one read may return. */
  lemma {:induction false} ReadingOnGivesTheRest(content: seq<Byte>, offset: nat, maxBytes: nat)
    requires offset <= |content| && maxBytes > 0
    ensures ReadOn(content, offset, maxBytes) == content[offset..]
    decreases |content| - offset
  {
    var r := ReadOf(content, offset, maxBytes);
    if r.next.Some? {
      ReadingOnGivesTheRest(content, r.next.value, maxBytes);
      assert content[offset..] == content[offset..r.next.value] + content[r.next.value..];
    }
  }

  /** An offset counted from the end gives the last bytes, or the whole of a shorter file. */
  lemma LastBytes(content: seq<Byte>, requested: int, maxBytes: nat)
    requires requested < 0 <= requested + maxBytes
    ensures var r := ReadOf(content, requested, maxBytes);
            r.bytes == content[Max(0, |content| + requested)..] && r.next == None && r.total == |content|
  {
  }

  // ----- The bounded copy -----

  const COPY_MAX_BYTES: nat := MAX_BYTES_CEILING
  const COPY_CHUNK: nat := 65536

  function CopyOf(content: seq<Byte>): seq<Byte> {
    content[..Min(COPY_MAX_BYTES, |content|)]
  }

  /** Writes the first n bytes of the chunk; a write may take less than it was given. */
  method WriteChunk(out: seq<Byte>, chunk: array<Byte>, n: nat) returns (more: seq<Byte>)
    requires n <= chunk.Length
    ensures more == out + chunk[..n]
  {
    more := out;
    var written := 0;
    while written < n
      invariant 0 <= written <= n && more == out + chunk[..written]
    {
      var taken :| 1 <= taken <= n - written;
      more := more + chunk[written..written + taken];
      written := written + taken;
    }
  }

  /** Copies the file's beginning chunk by chunk; a read may return less than a chunk. */
  method CopyBounded(source: seq<Byte>, maxBytes: nat) returns (target: seq<Byte>, copied: nat, truncated: bool)
    ensures target == source[..Min(maxBytes, |source|)]
    ensures copied == |target| && (truncated <==> maxBytes < |source|)
  {
    var total := |source|;
    var length := Min(total, maxBytes);
    var chunk := new Byte[Max(Min(length, COPY_CHUNK), 1)];
    target, copied := [], 0;
    while copied < length
      invariant 0 <= copied <= length <= |source| && target == source[..copied]
    {
      var room := Min(chunk.Length, length - copied);
      var n: nat :| 1 <= n <= room;
      forall k | 0 <= k < n {
        chunk[k] := source[copied + k];
      }
      assert chunk[..n] == source[copied..copied + n];
      target := WriteChunk(target, chunk, n);
      copied := copied + n;
    }
    truncated := total > copied;
  }

  /** The range lies inside what a truncated copy holds, however long the file is. */
  predicate InsideCopy(total: nat, requested: int, maxBytes: int) {
    if requested < 0 then total + requested <= 0 else requested + maxBytes <= COPY_MAX_BYTES
  }

  /** A copy that was not cut short reads like the file for every range. */
  lemma WholeCopyReadsAlike(content: seq<Byte>, requested: int, maxBytes: nat)
    requires |content| <= COPY_MAX_BYTES
    ensures ReadOf(CopyOf(content), requested, maxBytes) == ReadOf(content, requested, maxBytes)
  {
    assert CopyOf(content) == content;
  }

  /**
   A copy that was cut short returns the same bytes from the same offset exactly for the
   ranges inside it, and then goes on at the same offset unless the read ends at its end.
   */
  lemma CutCopyReadsAlikeInside(content: seq<Byte>, requested: int, maxBytes: nat)
    requires COPY_MAX_BYTES < |content| && 0 < maxBytes <= MAX_BYTES_CEILING
    ensures var live, copy := ReadOf(content, requested, maxBytes), ReadOf(CopyOf(content), requested, maxBytes);
      && (live.offset == copy.offset && live.bytes == copy.bytes <==> InsideCopy(|content|, requested, maxBytes))
      && (InsideCopy(|content|, requested, maxBytes) ==>
            (live.next == copy.next <==> live.offset + |live.bytes| < COPY_MAX_BYTES))
  {
    var live, copy := ReadOf(content, requested, maxBytes), ReadOf(CopyOf(content), requested, maxBytes);
    if InsideCopy(|content|, requested, maxBytes) {
      SliceOfSlice(content, 0, COPY_MAX_BYTES, live.offset, live.offset + |live.bytes|);
    } else {
      assert live.offset != copy.offset || |live.bytes| != |copy.bytes|;
    }
  }
}
