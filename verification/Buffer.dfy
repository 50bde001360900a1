/** Byte strings: searching them, and integers in network byte order (dc/net/endian.h). */
module Bytes {
  import opened Arithmetic
  import opened Options

  /** One byte, written as the character with that code. */
  type Byte = c: char | c as int < 256 witness '\0'

  // ----- searching

  predicate CrlfAt(s: seq<Byte>, i: int) {
    0 <= i && i + 1 < |s| && s[i] == '\r' && s[i + 1] == '\n'
  }

  /** Where the first CR LF starts, or nothing. */
  function FindCrlf(s: seq<Byte>): (r: Option<nat>)
    ensures r.Some? ==> CrlfAt(s, r.value) && forall j :: 0 <= j < r.value ==> !CrlfAt(s, j)
    ensures r.None? ==> forall j :: !CrlfAt(s, j)
  {
    FindCrlfFrom(s, 0)
  }

  function FindCrlfFrom(s: seq<Byte>, i: nat): (r: Option<nat>)
    requires i <= |s|
    ensures r.Some? ==> i <= r.value && CrlfAt(s, r.value) && forall j :: i <= j < r.value ==> !CrlfAt(s, j)
    ensures r.None? ==> forall j :: i <= j ==> !CrlfAt(s, j)
    decreases |s| - i
  {
    if CrlfAt(s, i) then Some(i) else if i == |s| then None else FindCrlfFrom(s, i + 1)
  }

  /** Index of the first `c` in `s`, or the length of `s`, as std::find gives it. */
  function Find(s: seq<Byte>, c: Byte): (k: nat)
    ensures k <= |s|
    ensures k < |s| ==> s[k] == c
    ensures forall j :: 0 <= j < k ==> s[j] != c
  {
    if s == [] || s[0] == c then 0 else Find(s[1..], c) + 1
  }

  // ----- integers in network byte order

  function Pow256(n: nat): (p: nat)
    ensures p >= 1
  {
    if n == 0 then 1 else 256 * Pow256(n - 1)
  }

  /** The `n` bytes of `u`, most significant first. */
  function Encode(u: nat, n: nat): (s: seq<Byte>)
    ensures |s| == n
  {
    if n == 0 then [] else Encode(u / 256, n - 1) + [(u % 256) as char]
  }

  function Decode(s: seq<Byte>): nat {
    if s == [] then 0 else Decode(s[..|s| - 1]) * 256 + s[|s| - 1] as int
  }

  /** Two's complement: the unsigned image of `x` in `n` bytes, and back. */
  predicate Fits(x: int, n: nat) {
    0 - Pow256(n) <= 2 * x < Pow256(n)
  }

  function ToUnsigned(x: int, n: nat): nat
    requires Fits(x, n)
  {
    if x < 0 then x + Pow256(n) else x
  }

  function ToSigned(u: nat, n: nat): int {
    if 2 * u >= Pow256(n) then u - Pow256(n) else u
  }

  function EncodeInt(x: int, n: nat): (s: seq<Byte>)
    requires Fits(x, n)
    ensures |s| == n
  {
    Encode(ToUnsigned(x, n), n)
  }

  function DecodeInt(s: seq<Byte>): int {
    ToSigned(Decode(s), |s|)
  }

  lemma {:induction false} DecodeEncode(u: nat, n: nat)
    requires u < Pow256(n)
    ensures Decode(Encode(u, n)) == u
  {
    if n > 0 {
      DecodeEncode(u / 256, n - 1);
      assert Encode(u, n)[..n - 1] == Encode(u / 256, n - 1);
    }
  }

  lemma {:induction false} EncodeDecode(s: seq<Byte>)
    ensures Decode(s) < Pow256(|s|) && Encode(Decode(s), |s|) == s
  {
    if s != [] {
      var front := s[..|s| - 1];
      EncodeDecode(front);
      Division(Decode(s), 256, Decode(front), s[|s| - 1] as int);
      assert s == front + [s[|s| - 1]];
    }
  }

  /** Byte `i` of `n` is the one of weight 256 to the power n - 1 - i: the first is the most significant. */
  lemma {:induction false} ByteAt(u: nat, n: nat, i: nat)
    requires i < n
    ensures Encode(u, n)[i] as int == (u / Pow256(n - 1 - i)) % 256
  {
    if i < n - 1 {
      ByteAt(u / 256, n - 1, i);
      DivideTwice(u, 256, Pow256(n - 2 - i));
    }
  }

  lemma DivideTwice(u: nat, a: nat, b: nat)
    requires a > 0 && b > 0
    ensures a * b > 0 && u / a / b == u / (a * b)
  {
    var q, r := u / a, u % a;
    var q', r' := q / b, q % b;
    assert u == q * a + r && q == q' * b + r';
    assert u == q' * (a * b) + (r' * a + r) by {
      assert q * a == q' * b * a + r' * a;
    }
    assert 0 <= r' * a + r < a * b by {
      Products(a, b, r');
    }
    Division(u, a * b, q', r' * a + r);
  }

  lemma Products(a: nat, b: nat, r: nat)
    requires a > 0 && r < b
    ensures 0 <= r * a <= a * b - a
  {
    assert a * b - a == (b - 1) * a;
  }

  /** Conversely, the first byte has the largest weight. */
  lemma {:induction false} FirstIsMostSignificant(s: seq<Byte>)
    requires s != []
    ensures Decode(s) == s[0] as int * Pow256(|s| - 1) + Decode(s[1..])
  {
    if |s| == 1 {
      assert s[1..] == [] && s[..0] == [];
    } else {
      var front := s[..|s| - 1];
      FirstIsMostSignificant(front);
      assert front[1..] == s[1..][..|s| - 2];
      assert s[0] as int * Pow256(|s| - 1) == s[0] as int * Pow256(|s| - 2) * 256;
    }
  }

  /** A signed integer survives the trip through its bytes, and bytes survive the trip through their integer. */
  lemma IntRoundTrip(x: int, n: nat)
    requires Fits(x, n)
    ensures DecodeInt(EncodeInt(x, n)) == x
  {
    DecodeEncode(ToUnsigned(x, n), n);
  }

  lemma BytesRoundTrip(s: seq<Byte>)
    ensures Fits(DecodeInt(s), |s|) && EncodeInt(DecodeInt(s), |s|) == s
  {
    EncodeDecode(s);
  }
}

/**
 The I/O buffer (dc/net/buffer.h, dc/net/buffer.cc): a byte vector of which the part between two
 indexes is readable. It refines a plain byte sequence, its Contents.
 */
module Buffers {
  import opened Bytes
  import opened Options

  const CHEAP_PREPEND: nat := 8
  const INITIAL_SIZE: nat := 1024
  const EXTRA: nat := 65536

  /** What a read from a file descriptor gives: an errno, or the bytes received. */
  datatype ReadResult = Error(errno: int) | Received(bytes: seq<Byte>)

  class Buffer {
    var buffers: seq<Byte>
    var reader: nat
    var writer: nat

    ghost predicate Valid()
      reads this
    {
      reader <= writer <= |buffers| && CHEAP_PREPEND <= |buffers|
    }

    ghost function Contents(): (s: seq<Byte>)
      reads this
      requires Valid()
      ensures |s| == Readable()
    {
      buffers[reader..writer]
    }

    function Readable(): nat
      reads this
      requires Valid()
    {
      writer - reader
    }

    function Writable(): nat
      reads this
      requires Valid()
    {
      |buffers| - writer
    }

    function Prependable(): nat
      reads this
      requires Valid()
    {
      reader
    }

    constructor (initialSize: nat)
      ensures Valid() && Contents() == []
      ensures Writable() == initialSize && Prependable() == CHEAP_PREPEND
    {
      buffers := seq(CHEAP_PREPEND + initialSize, _ => '\0');
      reader, writer := CHEAP_PREPEND, CHEAP_PREPEND;
    }

    // ----- taking bytes out

    method RetrieveAll()
      requires Valid()
      modifies `reader, `writer
      ensures Valid() && Contents() == [] && Prependable() == CHEAP_PREPEND
    {
      reader, writer := CHEAP_PREPEND, CHEAP_PREPEND;
    }

    method Retrieve(len: nat)
      requires Valid() && len <= Readable()
      modifies `reader, `writer
      ensures Valid() && Contents() == old(Contents())[len..]
      ensures Prependable() >= CHEAP_PREPEND || Prependable() == old(Prependable()) + len
    {
      if len < Readable() {
        reader := reader + len;
      } else {
        RetrieveAll();
      }
    }

    method RetrieveAsString(len: nat) returns (result: seq<Byte>)
      requires Valid() && len <= Readable()
      modifies `reader, `writer
      ensures Valid() && result + Contents() == old(Contents()) && |result| == len
    {
      result := buffers[reader..reader + len];
      assert old(Contents()) == result + old(Contents())[len..];
      Retrieve(len);
    }

    method Unwrite(len: nat)
      requires Valid() && len <= Readable()
      modifies `writer
      ensures Valid() && Contents() == old(Contents())[..old(Readable()) - len]
    {
      writer := writer - len;
      assert buffers[reader..writer] == old(buffers[reader..writer])[..old(Readable()) - len];
    }

    // ----- putting bytes in

    /**
     Called only when the writable part is too small. Moving the readable bytes to the front then
     always moves them down, so that copying them forward one by one overwrites none that is still
     to be copied, and frees enough room.
     */
    method MakeSpace(len: nat)
      requires Valid() && Writable() < len
      modifies this
      ensures Valid() && Contents() == old(Contents()) && Writable() >= len
      ensures if old(Writable() + Prependable()) < len + CHEAP_PREPEND then reader == old(reader) && Writable() == len
              else |buffers| == old(|buffers|) && reader == CHEAP_PREPEND < old(reader)
    {
      if Writable() + Prependable() < len + CHEAP_PREPEND {
        buffers := buffers + seq(writer + len - |buffers|, _ => '\0');
      } else {
        assert CHEAP_PREPEND < reader;
        var readable := Readable();
        MoveDown();
        reader := CHEAP_PREPEND;
        writer := reader + readable;
      }
    }

    /** std::copy of the readable bytes to the front, in place; the two ranges may overlap. */
    method MoveDown()
      requires Valid() && CHEAP_PREPEND <= reader
      modifies `buffers
      ensures |buffers| == old(|buffers|)
      ensures buffers[CHEAP_PREPEND..CHEAP_PREPEND + (writer - reader)] == old(Contents())
    {
      ghost var was := Contents();
      for i := 0 to writer - reader
        invariant |buffers| == old(|buffers|)
        invariant forall k :: CHEAP_PREPEND <= k < CHEAP_PREPEND + i ==> buffers[k] == was[k - CHEAP_PREPEND]
        invariant forall k :: reader + i <= k < writer ==> buffers[k] == was[k - reader]
      {
        buffers := buffers[CHEAP_PREPEND + i := buffers[reader + i]];
      }
      ghost var moved := buffers[CHEAP_PREPEND..CHEAP_PREPEND + (writer - reader)];
      assert forall k :: 0 <= k < |was| ==> moved[k] == buffers[CHEAP_PREPEND + k] == was[k];
      assert moved == was;
    }

    method EnsureWritableBytes(len: nat)
      requires Valid()
      modifies this
      ensures Valid() && Contents() == old(Contents()) && Writable() >= len
      ensures reader == old(reader) || reader == CHEAP_PREPEND < old(reader)
      ensures len + CHEAP_PREPEND <= old(Writable() + Prependable()) ==> |buffers| == old(|buffers|)
    {
      if Writable() < len {
        MakeSpace(len);
      }
    }

    method HasWritten(len: nat)
      requires Valid() && len <= Writable()
      modifies `writer
      ensures Valid() && writer == old(writer) + len && Contents() == old(Contents()) + buffers[old(writer)..writer]
    {
      writer := writer + len;
    }

    /** Appends; storage grows only if the free bytes before and behind the readable ones do not suffice. */
    method Append(data: seq<Byte>)
      requires Valid()
      modifies this
      ensures Valid() && Contents() == old(Contents()) + data
      ensures reader == old(reader) || reader == CHEAP_PREPEND < old(reader)
      ensures |data| + CHEAP_PREPEND <= old(Writable() + Prependable()) ==> |buffers| == old(|buffers|)
    {
      EnsureWritableBytes(|data|);
      ghost var before := Contents();
      buffers := buffers[..writer] + data + buffers[writer + |data|..];
      assert Contents() == before;
      HasWritten(|data|);
    }

    method Prepend(data: seq<Byte>)
      requires Valid() && |data| <= Prependable()
      modifies this
      ensures Valid() && Contents() == data + old(Contents())
      ensures |buffers| == old(|buffers|) && writer == old(writer)
    {
      reader := reader - |data|;
      buffers := buffers[..reader] + data + buffers[reader + |data|..];
    }

    method Swap(rhs: Buffer)
      requires Valid() && rhs.Valid()
      modifies this, rhs
      ensures Valid() && rhs.Valid()
      ensures Contents() == old(rhs.Contents()) && rhs.Contents() == old(Contents())
      ensures Writable() == old(rhs.Writable()) && Prependable() == old(rhs.Prependable())
    {
      buffers, rhs.buffers := rhs.buffers, buffers;
      reader, rhs.reader := rhs.reader, reader;
      writer, rhs.writer := rhs.writer, writer;
    }

    /** Moves the contents to a buffer of its own, with `reserve` writable bytes at least. */
    method Shrink(reserve: nat)
      requires Valid()
      modifies this
      ensures Valid() && Contents() == old(Contents())
      ensures Writable() >= reserve && Prependable() == CHEAP_PREPEND
    {
      var other := new Buffer(INITIAL_SIZE);
      other.EnsureWritableBytes(Readable() + reserve);
      ghost var room := other.Writable();
      other.Append(buffers[reader..writer]);
      assert other.Writable() >= reserve;
      Swap(other);
    }

    /** Bytes one read can deliver: the writable part, and a spare block unless that part is as large. */
    function ReadCapacity(): (n: nat)
      reads this
      requires Valid()
      ensures Writable() < EXTRA ==> n <= 2 * EXTRA - 1
    {
      Writable() + if Writable() < EXTRA then EXTRA else 0
    }

    /** The kernel fills the writable part first and then the spare block, which is appended. */
    method ReadFd(result: ReadResult) returns (n: int, savedErrno: int)
      requires Valid() && (result.Received? ==> |result.bytes| <= ReadCapacity())
      modifies this
      ensures Valid()
      ensures result.Error? ==> n == -1 && savedErrno == result.errno && Contents() == old(Contents())
      ensures result.Received? ==> n == |result.bytes| && Contents() == old(Contents()) + result.bytes
    {
      savedErrno := 0;
      match result
      case Error(errno) =>
        n, savedErrno := -1, errno;
      case Received(bytes) =>
        n := |bytes|;
        var writable := Writable();
        if n <= writable {
          buffers := buffers[..writer] + bytes + buffers[writer + n..];
          writer := writer + n;
        } else {
          buffers := buffers[..writer] + bytes[..writable];
          writer := |buffers|;
          assert Contents() == old(Contents()) + bytes[..writable];
          Append(bytes[writable..]);
          assert bytes == bytes[..writable] + bytes[writable..];
        }
    }

    // ----- integers

    method AppendInt(x: int, size: nat)
      requires Valid() && Fits(x, size)
      modifies this
      ensures Valid() && Contents() == old(Contents()) + EncodeInt(x, size)
    {
      Append(EncodeInt(x, size));
    }

    method PrependInt(x: int, size: nat)
      requires Valid() && Fits(x, size) && size <= Prependable()
      modifies this
      ensures Valid() && Contents() == EncodeInt(x, size) + old(Contents())
    {
      Prepend(EncodeInt(x, size));
    }

    function PeekInt(size: nat): int
      reads this
      requires Valid() && size <= Readable()
    {
      DecodeInt(buffers[reader..reader + size])
    }

    /** Reads back the integer at the front, whichever it is; one of two bytes is read as below. */
    method ReadInt(size: nat) returns (x: int)
      requires Valid() && size <= Readable() && size != 2
      modifies `reader, `writer
      ensures Valid() && Fits(x, size) && EncodeInt(x, size) + Contents() == old(Contents())
    {
      x := PeekInt(size);
      BytesRoundTrip(buffers[reader..reader + size]);
      ghost var front := buffers[reader..reader + size];
      Retrieve(size);
      assert front + Contents() == old(Contents());
    }

    /**
     The 16-bit peek copies four bytes, of which it uses the first two: it stays inside the vector
     exactly when four bytes are left in it, readable or not.
     */
    function PeekInt16(): (r: Option<int>)
      reads this
      requires Valid() && 2 <= Readable()
      ensures r.Some? <==> Readable() + Writable() >= 4
      ensures r.Some? ==> r.value == PeekInt(2)
    {
      if reader + 4 <= |buffers| then
        var be16 := buffers[reader..reader + 4];
        assert be16[..2] == buffers[reader..reader + 2];
        Some(DecodeInt(be16[..2]))
      else None
    }

    /** Reads back a 16-bit integer, if the peek stays inside the vector. */
    method ReadInt16() returns (r: Option<int>)
      requires Valid() && 2 <= Readable()
      modifies `reader, `writer
      ensures Valid() && (r.Some? <==> old(Readable() + Writable()) >= 4)
      ensures r.Some? ==> Fits(r.value, 2) && EncodeInt(r.value, 2) + Contents() == old(Contents())
      ensures r.None? ==> Contents() == old(Contents())
    {
      r := PeekInt16();
      if r.Some? {
        BytesRoundTrip(buffers[reader..reader + 2]);
        ghost var front := buffers[reader..reader + 2];
        Retrieve(2);
        assert front + Contents() == old(Contents());
      }
    }
  }

  /** A 16-bit integer alone in a buffer of two bytes satisfies the source's assertion, and its peek overruns. */
  method PeekInt16Overruns(x: int) returns (r: Option<int>)
    requires Fits(x, 2)
    ensures r == None
  {
    var b := new Buffer(2);
    b.Append(EncodeInt(x, 2));
    r := b.PeekInt16();
  }
}
