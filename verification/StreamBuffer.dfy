/** freertos/stream_buffer.c: a byte ring between one writer and one reader, with wrap-around
    copies in two parts, and the length-framed messages carried over it. */
module StreamBuffers {

  newtype byte = x: int | 0 <= x < 0x100

  function Min(a: int, b: int): int { if a < b then a else b }

  // ----- The ring -------------------------------------------------------------------------------

  /** pucBuffer, xHead and xTail. */
  datatype Ring = Ring(mem: seq<byte>, head: int, tail: int)

  predicate Valid(b: Ring) {
    0 <= b.head < |b.mem| && 0 <= b.tail < |b.mem|
  }

  /** prvBytesInBuffer */
  function Count(b: Ring): int {
    var n := |b.mem| + b.head - b.tail;
    if n >= |b.mem| then n - |b.mem| else n
  }

  /** xStreamBufferSpacesAvailable */
  function Space(b: Ring): int {
    var n := |b.mem| + b.tail - b.head - 1;
    if n >= |b.mem| then n - |b.mem| else n
  }

  function Wrap(x: int, length: int): int { if x >= length then x - length else x }

  /** The bytes written and not yet read. */
  ghost function Bytes(b: Ring): seq<byte>
    requires Valid(b)
  {
    seq(Count(b), k requires 0 <= k < Count(b) => b.mem[Wrap(b.tail + k, |b.mem|)])
  }

  function Put(mem: seq<byte>, at: int, data: seq<byte>): seq<byte>
    requires 0 <= at && at + |data| <= |mem|
  {
    mem[..at] + data + mem[at + |data|..]
  }

  /** prvWriteBytesToBuffer: up to the end of the storage, and the rest at its start. */
  function Write(b: Ring, data: seq<byte>): Ring
    requires Valid(b) && |data| < |b.mem|
  {
    var first := Min(|b.mem| - b.head, |data|);
    var mem := Put(b.mem, b.head, data[..first]);
    var all := if |data| > first then Put(mem, 0, data[first..]) else mem;
    b.(mem := all, head := Wrap(b.head + |data|, |b.mem|))
  }

  /** prvReadBytesFromBuffer, given how many bytes the caller saw available. */
  function Read(b: Ring, maxCount: int, available: int): (Ring, seq<byte>)
    requires Valid(b) && 0 <= maxCount && 0 <= available < |b.mem|
  {
    var n := Min(available, maxCount);
    var first := Min(|b.mem| - b.tail, n);
    var data := b.mem[b.tail..b.tail + first] + b.mem[..n - first];
    (b.(tail := Wrap(b.tail + n, |b.mem|)), data)
  }

  lemma CountAndSpace(b: Ring)
    requires Valid(b)
    ensures 0 <= Count(b) == |Bytes(b)| < |b.mem|
    ensures Count(b) + Space(b) == |b.mem| - 1
  {
  }

  /** A write that fits appends. */
  lemma WriteAppends(b: Ring, data: seq<byte>)
    requires Valid(b) && |data| <= Space(b)
    ensures Valid(Write(b, data)) && |Write(b, data).mem| == |b.mem| && Write(b, data).tail == b.tail
    ensures Bytes(Write(b, data)) == Bytes(b) + data
  {
    CountAndSpace(b);
    var r := Write(b, data);
    CountAndSpace(r);
    assert Count(r) == Count(b) + |data|;
    forall k | 0 <= k < Count(r)
      ensures Bytes(r)[k] == (Bytes(b) + data)[k]
    {
      WriteAt(b, data, k);
    }
  }

  lemma WriteAt(b: Ring, data: seq<byte>, k: int)
    requires Valid(b) && |data| <= Space(b) && 0 <= k < Count(b) + |data|
    ensures var cell := Write(b, data).mem[Wrap(b.tail + k, |b.mem|)];
            cell == if k < Count(b) then b.mem[Wrap(b.tail + k, |b.mem|)] else data[k - Count(b)]
  {
    var first := Min(|b.mem| - b.head, |data|);
    var at := Wrap(b.tail + k, |b.mem|);
    assert k >= Count(b) ==> at == Wrap(b.head + (k - Count(b)), |b.mem|);
  }

  /** A read takes from the front. */
  lemma ReadTakes(b: Ring, maxCount: int, available: int)
    requires Valid(b) && 0 <= maxCount && 0 <= available <= Count(b)
    ensures var (r, data) := Read(b, maxCount, available);
            var n := Min(available, maxCount);
            && Valid(r) && r.mem == b.mem && r.head == b.head
            && data == Bytes(b)[..n] && Bytes(r) == Bytes(b)[n..]
  {
    CountAndSpace(b);
    var (r, data) := Read(b, maxCount, available);
    var n := Min(available, maxCount);
    assert Count(r) == Count(b) - n;
    forall k | 0 <= k < n
      ensures data[k] == Bytes(b)[k]
    {
      var first := Min(|b.mem| - b.tail, n);
      assert Bytes(b)[k] == b.mem[Wrap(b.tail + k, |b.mem|)];
      if k < first {
        assert data[k] == b.mem[b.tail..b.tail + first][k];
      } else {
        assert data[k] == b.mem[..n - first][k - first];
      }
    }
    forall k | 0 <= k < Count(b) - n
      ensures Bytes(r)[k] == Bytes(b)[n..][k]
    {
      assert Wrap(r.tail + k, |b.mem|) == Wrap(b.tail + (n + k), |b.mem|);
    }
  }

  // ----- The length header -----------------------------------------------------------------------

  const HEADER: int := 4

  /** A size_t as it lies in memory, least significant byte first. */
  function Header(n: int): seq<byte>
    requires 0 <= n < 0x1_0000_0000
  {
    [(n % 0x100) as byte, (n / 0x100 % 0x100) as byte, (n / 0x100 / 0x100 % 0x100) as byte,
     (n / 0x100 / 0x100 / 0x100) as byte]
  }

  function Length(h: seq<byte>): (n: int)
    requires |h| == HEADER
    ensures 0 <= n < 0x1_0000_0000
  {
    h[0] as int + 0x100 * (h[1] as int + 0x100 * (h[2] as int + 0x100 * h[3] as int))
  }

  lemma HeaderRoundTrip(n: int)
    requires 0 <= n < 0x1_0000_0000
    ensures |Header(n)| == HEADER && Length(Header(n)) == n
  {
  }
}
