/**
 Integer formatting into fixed-size log buffers (dc/base/logStream.h, dc/base/logStream.cc).
 */
module LogStream {
  import opened Arithmetic

  // ----- numerals

  function DigitChar(d: nat): char
    requires d < 16
  {
    (if d < 10 then d + 48 else d + 55) as char
  }

  function DigitValue(c: char): (d: int)
    ensures -1 <= d < 16
    ensures d >= 0 ==> DigitChar(d) == c
  {
    var n := c as int;
    if 48 <= n <= 57 then n - 48 else if 65 <= n <= 70 then n - 55 else -1
  }

  function Numeral(v: nat, base: nat): (s: seq<char>)
    requires 2 <= base <= 16
    ensures |s| >= 1
  {
    if v < base then [DigitChar(v)] else Numeral(v / base, base) + [DigitChar(v % base)]
  }

  function Decimal(v: int): seq<char> {
    if v < 0 then "-" + Numeral(-v, 10) else Numeral(v, 10)
  }

  /** A non-empty string of digits that does not start with a zero, unless it is the zero itself. */
  predicate Canonical(s: seq<char>, base: nat) {
    && |s| >= 1
    && (forall i :: 0 <= i < |s| ==> 0 <= DigitValue(s[i]) < base)
    && (|s| > 1 ==> s[0] != '0')
  }

  function Value(s: seq<char>, base: nat): nat
    requires forall i :: 0 <= i < |s| ==> 0 <= DigitValue(s[i]) < base
  {
    if s == [] then 0
    else
      var front := s[..|s| - 1];
      assert forall i :: 0 <= i < |front| ==> front[i] == s[i];
      ProductIsNat(Value(front, base), base);
      Value(front, base) * base + DigitValue(s[|s| - 1])
  }

  predicate CanonicalDecimal(s: seq<char>) {
    Canonical(s, 10) || (|s| > 1 && s[0] == '-' && s[1] != '0' && Canonical(s[1..], 10))
  }

  function DecimalValue(s: seq<char>): int
    requires CanonicalDecimal(s)
  {
    if s[0] == '-' then 0 - Value(s[1..], 10) else Value(s, 10)
  }

  /** The digits are those of the source's table. */
  lemma DigitsOfTable(d: nat)
    requires d < 16
    ensures DigitChar(d) == "0123456789ABCDEF"[d]
  {
  }

  lemma DigitOf(d: nat)
    requires d < 16
    ensures DigitValue(DigitChar(d)) == d && (DigitChar(d) == '0' <==> d == 0) && DigitChar(d) != '-'
  {
  }

  lemma ValueSnoc(s: seq<char>, base: nat, d: nat)
    requires Canonical(s, base) && s[0] != '0' && d < base <= 16
    ensures Canonical(s + [DigitChar(d)], base) && Value(s + [DigitChar(d)], base) == Value(s, base) * base + d
  {
    var t := s + [DigitChar(d)];
    DigitOf(d);
    assert t[..|t| - 1] == s;
  }

  lemma QuotientIsSmaller(v: nat, base: nat)
    requires 2 <= base <= v
    ensures 0 < v / base < v && 0 <= v % base < base && v == v / base * base + v % base
  {
  }

  /** The numeral of a number of more than one digit, split before its last digit. */
  lemma NumeralSplit(v: nat, base: nat) returns (q: nat, d: nat)
    requires 2 <= base <= 16 && base <= v
    ensures 0 < q < v && d < base && v == q * base + d && Numeral(v, base) == Numeral(q, base) + [DigitChar(d)]
  {
    QuotientIsSmaller(v, base);
    q, d := v / base, v % base;
  }

  /** The numeral of a number is canonical and has that number as its value. */
  lemma {:induction false} NumeralIsCanonical(v: nat, base: nat)
    requires 2 <= base <= 16
    ensures Canonical(Numeral(v, base), base) && Value(Numeral(v, base), base) == v
    ensures v > 0 ==> Numeral(v, base)[0] != '0'
    decreases v
  {
    if v < base {
      DigitOf(v);
      assert [DigitChar(v)][..0] == [];
    } else {
      var q, d := NumeralSplit(v, base);
      NumeralIsCanonical(q, base);
      ValueSnoc(Numeral(q, base), base, d);
      assert Numeral(v, base)[0] == Numeral(q, base)[0];
    }
  }

  /** There is no other canonical numeral for that number. */
  lemma {:induction false} CanonicalIsNumeral(s: seq<char>, base: nat)
    requires 2 <= base <= 16 && Canonical(s, base)
    ensures Numeral(Value(s, base), base) == s
    ensures |s| > 1 || s[0] != '0' ==> Value(s, base) > 0
    decreases |s|
  {
    var d := DigitValue(s[|s| - 1]);
    var front := s[..|s| - 1];
    if |s| == 1 {
      assert Value(front, base) == 0;
    } else {
      CanonicalIsNumeral(front, base);
      var q := Value(front, base);
      AtLeastOneMultiple(q, base);
      Division(q * base + d, base, q, d);
      assert s == front + [s[|s| - 1]];
    }
  }

  /** Formatting a number in decimal, signed or not, is inverse to reading a canonical decimal numeral. */
  lemma DecimalRoundTrip(v: int)
    ensures CanonicalDecimal(Decimal(v)) && DecimalValue(Decimal(v)) == v
  {
    NumeralIsCanonical(if v < 0 then -v else v, 10);
    if v < 0 {
      assert Decimal(v)[1..] == Numeral(-v, 10);
    } else {
      assert 0 <= DigitValue(Decimal(v)[0]);
    }
  }

  lemma DecimalIsUnique(s: seq<char>)
    requires CanonicalDecimal(s)
    ensures Decimal(DecimalValue(s)) == s
  {
    if s[0] == '-' {
      CanonicalIsNumeral(s[1..], 10);
      assert s == "-" + s[1..];
    } else {
      CanonicalIsNumeral(s, 10);
    }
  }

  function Power(base: nat, k: nat): nat {
    if k == 0 then 1 else base * Power(base, k - 1)
  }

  lemma {:induction false} NumeralLength(v: nat, base: nat, k: nat)
    requires 2 <= base <= 16 && k >= 1 && v < Power(base, k)
    ensures |Numeral(v, base)| <= k
    decreases k
  {
    if v >= base {
      var p := Power(base, k - 1);
      QuotientIsSmaller(v, base);
      assert k > 1;
      FactorIsSmaller(v / base, p, base);
      NumeralLength(v / base, base, k - 1);
    }
  }

  /** Values of the integer types that are formatted, from the smallest signed to the largest unsigned. */
  predicate Is64Bit(v: int) {
    -0x8000_0000_0000_0000 <= v <= 0xFFFF_FFFF_FFFF_FFFF
  }

  lemma DecimalLength(v: int)
    requires Is64Bit(v)
    ensures |Decimal(v)| <= 20
  {
    assert Power(10, 5) == 100_000;
    assert Power(10, 10) == 100_000 * Power(10, 5);
    assert Power(10, 15) == 100_000 * Power(10, 10);
    assert Power(10, 19) == 10_000 * Power(10, 15);
    assert Power(10, 20) == 10 * Power(10, 19);
    if v < 0 {
      NumeralLength(-v, 10, 19);
    } else {
      NumeralLength(v, 10, 20);
    }
  }

  lemma HexLength(v: nat)
    requires Is64Bit(v)
    ensures |Numeral(v, 16)| <= 16
  {
    assert Power(16, 4) == 0x1_0000;
    assert Power(16, 8) == 0x1_0000 * Power(16, 4);
    assert Power(16, 12) == 0x1_0000 * Power(16, 8);
    assert Power(16, 16) == 0x1_0000 * Power(16, 12);
    NumeralLength(v, 16, 16);
  }

  // ----- in-place conversion

  function Reversed(s: seq<char>): (r: seq<char>)
    ensures |r| == |s|
  {
    if s == [] then [] else Reversed(s[1..]) + [s[0]]
  }

  lemma {:induction false} ReversedAt(s: seq<char>, k: nat)
    requires k < |s|
    ensures Reversed(s)[k] == s[|s| - 1 - k]
  {
    if k < |s| - 1 {
      ReversedAt(s[1..], k);
    }
  }

  lemma {:induction false} ReversedSnoc(s: seq<char>, c: char)
    ensures Reversed(s + [c]) == [c] + Reversed(s)
  {
    if s != [] {
      assert (s + [c])[1..] == s[1..] + [c];
      ReversedSnoc(s[1..], c);
    }
  }

  /** Nothing outside `buf[lo..hi]` differs from `before`. */
  ghost predicate SameOutside(buf: array<char>, before: seq<char>, lo: nat, hi: nat)
    reads buf
  {
    && |before| == buf.Length
    && forall j :: 0 <= j < buf.Length && !(lo <= j < hi) ==> buf[j] == before[j]
  }

  method Reverse(buf: array<char>, lo: nat, hi: nat)
    requires lo <= hi <= buf.Length
    modifies buf
    ensures buf[lo..hi] == Reversed(old(buf[lo..hi]))
    ensures SameOutside(buf, old(buf[..]), lo, hi)
  {
    var i, j := lo, hi;
    while i + 1 < j
      invariant lo <= i <= j <= hi && i - lo == hi - j
      invariant forall k :: lo <= k < hi && !(i <= k < j) ==> buf[k] == old(buf[hi - 1 - (k - lo)])
      invariant forall k :: i <= k < j ==> buf[k] == old(buf[k])
      invariant SameOutside(buf, old(buf[..]), lo, hi)
    {
      buf[i], buf[j - 1] := buf[j - 1], buf[i];
      i, j := i + 1, j - 1;
    }
    ghost var was := old(buf[lo..hi]);
    ghost var now := buf[lo..hi];
    forall k | 0 <= k < |now| ensures now[k] == Reversed(was)[k] {
      ReversedAt(was, k);
      assert now[k] == buf[lo + k] == old(buf[hi - 1 - k]) == was[|was| - 1 - k];
    }
    assert now == Reversed(was);
  }

  /** What the loops below have done: `buf[start..p]` holds the last digits of `v`, last one first; `rest` is left. */
  ghost predicate Taken(digits: seq<char>, v: nat, rest: nat, base: nat)
    requires 2 <= base <= 16
  {
    Numeral(v, base) == (if rest == 0 && digits != [] then [] else Numeral(rest, base)) + Reversed(digits)
  }

  lemma TakeDigit(digits: seq<char>, v: nat, rest: nat, base: nat)
    requires 2 <= base <= 16 && Taken(digits, v, rest, base) && (digits == [] || rest != 0)
    ensures Taken(digits + [DigitChar(rest % base)], v, rest / base, base)
    ensures |digits| < |Numeral(v, base)|
    ensures rest / base < rest || rest == 0
  {
    var d := DigitChar(rest % base);
    ReversedSnoc(digits, d);
    if rest < base {
      Division(rest, base, 0, rest);
      assert Numeral(v, base) == [] + Reversed(digits + [d]);
    } else {
      QuotientIsSmaller(rest, base);
      assert Numeral(v, base) == Numeral(rest / base, base) + Reversed(digits + [d]);
    }
  }

  lemma AllTaken(digits: seq<char>, v: nat, base: nat)
    requires 2 <= base <= 16 && Taken(digits, v, 0, base) && digits != []
    ensures Numeral(v, base) == Reversed(digits) && |digits| == |Numeral(v, base)|
  {
  }

  function Abs(i: int): nat {
    if i < 0 then -i else i
  }

  /** The source's table, read from its middle. */
  function SignedDigit(lsd: int): char
    requires -9 <= lsd <= 9
  {
    "9876543210123456789"[9 + lsd]
  }

  /** The remainder of a negative number is negative; the table gives its digit all the same. */
  lemma DecimalDigit(i: int)
    ensures var lsd := TruncMod(i, 10);
            && -9 <= lsd <= 9 && SignedDigit(lsd) == DigitChar(Abs(i) % 10)
            && Abs(TruncDiv(i, 10)) == Abs(i) / 10
  {
    var lsd := TruncMod(i, 10);
    if i >= 0 {
      Division(i, 10, TruncDiv(i, 10), lsd);
    } else {
      Division(-i, 10, -TruncDiv(i, 10), -lsd);
    }
    DigitTable(lsd);
  }

  lemma DigitTable(lsd: int)
    requires -9 <= lsd <= 9
    ensures SignedDigit(lsd) == DigitChar(Abs(lsd))
  {
  }

  /** The do-while loop of Convert: the digits of the magnitude, last one first. */
  method WriteDigits(buf: array<char>, start: nat, value: int) returns (p: nat)
    requires start + |Numeral(Abs(value), 10)| <= buf.Length
    modifies buf
    ensures p == start + |Numeral(Abs(value), 10)|
    ensures Reversed(buf[start..p]) == Numeral(Abs(value), 10)
    ensures SameOutside(buf, old(buf[..]), start, p)
  {
    var i := value;
    p := start;
    ghost var digits: seq<char> := [];
    var more := true;
    while more
      invariant start <= p <= buf.Length && digits == buf[start..p]
      invariant Taken(digits, Abs(value), Abs(i), 10)
      invariant more == (digits == [] || i != 0)
      invariant SameOutside(buf, old(buf[..]), start, p)
      decreases Abs(i), more
    {
      DecimalDigit(i);
      TakeDigit(digits, Abs(value), Abs(i), 10);
      var lsd := TruncMod(i, 10);
      buf[p] := SignedDigit(lsd);
      digits := digits + [SignedDigit(lsd)];
      i, p := TruncDiv(i, 10), p + 1;
      more := i != 0;
    }
    AllTaken(digits, Abs(value), 10);
  }

  /** The terminator and the reversal that end both conversions. */
  method Finish(buf: array<char>, start: nat, p: nat)
    requires start <= p < buf.Length
    modifies buf
    ensures buf[start..p] == Reversed(old(buf[start..p])) && buf[p] == '\0'
    ensures SameOutside(buf, old(buf[..]), start, p + 1)
  {
    buf[p] := '\0';
    assert buf[start..p] == old(buf[start..p]);
    Reverse(buf, start, p);
  }

  method WriteSigned(buf: array<char>, start: nat, value: int) returns (p: nat)
    requires start + |Decimal(value)| <= buf.Length
    modifies buf
    ensures p == start + |Decimal(value)| && Reversed(buf[start..p]) == Decimal(value)
    ensures SameOutside(buf, old(buf[..]), start, p)
  {
    p := WriteDigits(buf, start, value);
    if value < 0 {
      ghost var digits := buf[start..p];
      ReversedSnoc(digits, '-');
      buf[p] := '-';
      p := p + 1;
      assert buf[start..p] == digits + ['-'];
    }
  }

  method Convert(buf: array<char>, start: nat, value: int) returns (len: nat)
    requires Is64Bit(value) && start + 21 <= buf.Length
    modifies buf
    ensures len <= 20 && buf[start..start + len] == Decimal(value) && buf[start + len] == '\0'
    ensures SameOutside(buf, old(buf[..]), start, start + len + 1)
  {
    DecimalLength(value);
    ghost var image := Decimal(value);
    var p := WriteSigned(buf, start, value);
    assert |image| <= 20 && p == start + |image| && Reversed(buf[start..p]) == image;
    ghost var written := buf[..];
    Finish(buf, start, p);
    len := p - start;
    assert buf[start..start + len] == image;
    assert SameOutside(buf, written, start, start + len + 1);
  }

  /** The do-while loop of ConvertHex. */
  method WriteHexDigits(buf: array<char>, start: nat, value: nat) returns (p: nat)
    requires start + |Numeral(value, 16)| <= buf.Length
    modifies buf
    ensures p == start + |Numeral(value, 16)|
    ensures Reversed(buf[start..p]) == Numeral(value, 16)
    ensures SameOutside(buf, old(buf[..]), start, p)
  {
    hide Numeral;
    var i := value;
    p := start;
    ghost var digits: seq<char> := [];
    assert Taken(digits, value, i, 16) by { assert Numeral(value, 16) + Reversed([]) == Numeral(value, 16); }
    var more := true;
    while more
      invariant start <= p <= buf.Length && digits == buf[start..p]
      invariant Taken(digits, value, i, 16)
      invariant more == (digits == [] || i != 0)
      invariant SameOutside(buf, old(buf[..]), start, p)
      decreases i, more
    {
      TakeDigit(digits, value, i, 16);
      var lsd := i % 16;
      buf[p] := DigitChar(lsd);
      digits := digits + [DigitChar(lsd)];
      i, p := i / 16, p + 1;
      more := i != 0;
    }
    AllTaken(digits, value, 16);
  }

  method ConvertHex(buf: array<char>, start: nat, value: nat) returns (len: nat)
    requires Is64Bit(value) && start + 17 <= buf.Length
    modifies buf
    ensures len <= 16 && buf[start..start + len] == Numeral(value, 16) && buf[start + len] == '\0'
    ensures SameOutside(buf, old(buf[..]), start, start + len + 1)
  {
    HexLength(value);
    ghost var image := Numeral(value, 16);
    var p := WriteHexDigits(buf, start, value);
    hide Numeral;
    ghost var written := buf[..];
    Finish(buf, start, p);
    len := p - start;
    assert buf[start..start + len] == image;
    assert SameOutside(buf, written, start, start + len + 1);
  }

  // ----- fixed buffers

  /** The contents of a buffer of `size` bytes after an append: nothing is copied that does not leave a byte to spare. */
  function Appended(contents: seq<char>, size: nat, text: seq<char>): seq<char> {
    if size - |contents| > |text| then contents + text else contents
  }

  /** A buffer of fixed size with a write position; it never fills up to its last byte. */
  class FixedBuffer {
    const data: array<char>
    var cur: nat

    ghost predicate Valid()
      reads this
    {
      cur < data.Length
    }

    ghost function Contents(): seq<char>
      reads this, data
      requires Valid()
    {
      data[..cur]
    }

    constructor (size: nat)
      requires size > 0
      ensures Valid() && Contents() == [] && data.Length == size && fresh(data)
    {
      data := new char[size];
      cur := 0;
    }

    function Avail(): (n: nat)
      reads this
      requires Valid()
    {
      data.Length - cur
    }

    /** Copies the text in, or leaves the buffer alone if it would not fit with a byte to spare. */
    method Append(text: seq<char>)
      requires Valid()
      modifies this, data
      ensures Valid()
      ensures Contents() == Appended(old(Contents()), data.Length, text)
    {
      if Avail() > |text| {
        CopyIn(data, cur, text);
        assert data[..cur + |text|] == old(data[..cur]) + text;
        cur := cur + |text|;
      }
    }

    /** Takes in `len` bytes that were written behind the write position. */
    method Add(len: nat)
      requires Valid() && len < Avail()
      modifies `cur
      ensures Valid() && Contents() == old(Contents()) + old(data[cur..cur + len])
    {
      cur := cur + len;
    }

    method Reset()
      requires Valid()
      modifies `cur
      ensures Valid() && Contents() == []
    {
      cur := 0;
    }
  }

  /** memcpy */
  method CopyIn(data: array<char>, at: nat, text: seq<char>)
    requires at + |text| <= data.Length
    modifies data
    ensures data[at..at + |text|] == text
    ensures SameOutside(data, old(data[..]), at, at + |text|)
  {
    for i := 0 to |text|
      invariant data[at..at + i] == text[..i]
      invariant SameOutside(data, old(data[..]), at, at + i)
    {
      data[at + i] := text[i];
      assert data[at..at + i + 1] == data[at..at + i] + [text[i]];
    }
  }

  // ----- the stream

  const MAX_NUMERIC_SIZE: nat := 48
  const SMALL_BUFFER: nat := 4000

  datatype Item = Text(text: seq<char>) | Integer(value: int) | Pointer(address: nat)
  {
    predicate Valid() {
      (Integer? ==> Is64Bit(value)) && (Pointer? ==> Is64Bit(address))
    }

    function Image(): seq<char> {
      match this
      case Text(text) => text
      case Integer(value) => Decimal(value)
      case Pointer(address) => "0x" + Numeral(address, 16)
    }

    /** Room an item must find, or it is left out: its own size for text, a fixed reserve for numbers. */
    predicate Fits(room: nat) {
      if Text? then |text| < room else MAX_NUMERIC_SIZE <= room
    }
  }

  /** The contents after inserting `items` one by one into a buffer of `size` bytes that holds `contents`. */
  function Inserted(contents: seq<char>, size: nat, items: seq<Item>): (r: seq<char>)
    requires |contents| <= size
    requires forall i :: 0 <= i < |items| ==> items[i].Valid()
    ensures |contents| < size ==> |r| < size
    ensures |r| <= size
  {
    if items == [] then contents
    else
      var rest := Inserted(contents, size, items[..|items| - 1]);
      var item := items[|items| - 1];
      ImageLength(item);
      if item.Fits(size - |rest|) then rest + item.Image() else rest
  }

  lemma ImageLength(item: Item)
    requires item.Valid()
    ensures !item.Text? ==> |item.Image()| <= 20
  {
    match item
    case Text(_) =>
    case Integer(value) => DecimalLength(value);
    case Pointer(address) => HexLength(address);
  }

  class LogStream {
    const buffer: FixedBuffer

    ghost predicate Valid()
      reads this, buffer
    {
      buffer.Valid() && buffer.data.Length == SMALL_BUFFER
    }

    constructor ()
      ensures Valid() && fresh(buffer) && fresh(buffer.data) && buffer.Contents() == []
    {
      buffer := new FixedBuffer(SMALL_BUFFER);
    }

    method FormatInteger(value: int)
      requires Valid() && Is64Bit(value)
      modifies buffer, buffer.data
      ensures Valid()
      ensures buffer.Contents() == Inserted(old(buffer.Contents()), SMALL_BUFFER, [Integer(value)])
      ensures buffer.Contents() == old(buffer.Contents()) + if 4000 - |old(buffer.Contents())| >= 48 then Decimal(value) else []
    {
      InsertedOne(buffer.Contents(), Integer(value));
      if buffer.Avail() >= MAX_NUMERIC_SIZE {
        var len := Convert(buffer.data, buffer.cur, value);
        assert buffer.Contents() == old(buffer.Contents());
        buffer.Add(len);
      }
    }

    method FormatPointer(address: nat)
      requires Valid() && Is64Bit(address)
      modifies buffer, buffer.data
      ensures Valid()
      ensures buffer.Contents() == Inserted(old(buffer.Contents()), SMALL_BUFFER, [Pointer(address)])
      ensures buffer.Contents() == old(buffer.Contents()) + if 4000 - |old(buffer.Contents())| >= 48 then "0x" + Numeral(address, 16) else []
    {
      InsertedOne(buffer.Contents(), Pointer(address));
      if buffer.Avail() >= MAX_NUMERIC_SIZE {
        var at := buffer.cur;
        buffer.data[at] := '0';
        buffer.data[at + 1] := 'x';
        var len := ConvertHex(buffer.data, at + 2, address);
        assert buffer.Contents() == old(buffer.Contents());
        assert buffer.data[at..at + len + 2] == "0x" + buffer.data[at + 2..at + 2 + len];
        buffer.Add(len + 2);
      }
    }

    method Put(item: Item)
      requires Valid() && item.Valid()
      modifies buffer, buffer.data
      ensures Valid()
      ensures buffer.Contents() == Inserted(old(buffer.Contents()), SMALL_BUFFER, [item])
    {
      match item
      case Text(text) =>
        InsertedOne(buffer.Contents(), item);
        buffer.Append(text);
      case Integer(value) => FormatInteger(value);
      case Pointer(address) => FormatPointer(address);
    }

    /** Any sequence of insertions keeps the buffer in bounds and leaves in it what fitted, in order. */
    method PutAll(items: seq<Item>)
      requires Valid() && forall i :: 0 <= i < |items| ==> items[i].Valid()
      modifies buffer, buffer.data
      ensures Valid()
      ensures buffer.Contents() == Inserted(old(buffer.Contents()), SMALL_BUFFER, items)
    {
      for i := 0 to |items|
        invariant Valid()
        invariant buffer.Contents() == Inserted(old(buffer.Contents()), SMALL_BUFFER, items[..i])
      {
        InsertedOne(buffer.Contents(), items[i]);
        assert items[..i + 1][..i] == items[..i];
        Put(items[i]);
      }
      assert items[..|items|] == items;
    }
  }

  lemma InsertedOne(contents: seq<char>, item: Item)
    requires |contents| <= SMALL_BUFFER && item.Valid()
    ensures Inserted(contents, SMALL_BUFFER, [item]) ==
            if item.Fits(SMALL_BUFFER - |contents|) then contents + item.Image() else contents
  {
    assert Inserted(contents, SMALL_BUFFER, [item][..0]) == contents;
  }
}
