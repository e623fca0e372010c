/** The network byte buffer (mymuduo/net/Buffer.h, Buffer.cc): a gap buffer that behaves as a byte deque. */
module Buffer {
  import opened Common

  /** A C `char`, as a code below 256. */
  type Octet = c: char | c as int < 256 witness '\0'

  const CHEAP_PREPEND := 8
  const INITIAL_SIZE := 1024
  const EXTRA_SIZE := 65536

  // ---------- Searching ----------

  predicate CrlfAt(s: seq<Octet>, i: int) {
    0 <= i < |s| - 1 && s[i] == '\r' && s[i + 1] == '\n'
  }

  /** Position of the first CR LF. */
  function FirstCrlf(s: seq<Octet>): (r: Option<nat>)
    ensures r.Some? ==> CrlfAt(s, r.value) && forall k :: 0 <= k < r.value ==> !CrlfAt(s, k)
    ensures r.None? ==> forall k :: !CrlfAt(s, k)
  {
    if |s| < 2 then None
    else if CrlfAt(s, 0) then Some(0)
    else
      var r := FirstCrlf(s[1..]);
      assert forall k :: k > 0 ==> (CrlfAt(s, k) <==> CrlfAt(s[1..], k - 1));
      if r.Some? then Some(r.value + 1) else None
  }

  // ---------- Big-endian integers ----------

  function Pow256(w: nat): nat {
    if w == 0 then 1 else 256 * Pow256(w - 1)
  }

  function EncodeUnsigned(n: nat, w: nat): (s: seq<Octet>)
    ensures |s| == w
  {
    if w == 0 then [] else EncodeUnsigned(n / 256, w - 1) + [(n % 256) as char]
  }

  function DecodeUnsigned(s: seq<Octet>): nat {
    if s == [] then 0 else DecodeUnsigned(s[..|s| - 1]) * 256 + s[|s| - 1] as int
  }

  predicate FitsSigned(x: int, w: nat) {
    -(Pow256(w) as int) <= 2 * x < Pow256(w)
  }

  /** Two's complement in network byte order. */
  function EncodeInt(x: int, w: nat): (s: seq<Octet>)
    requires FitsSigned(x, w)
    ensures |s| == w
  {
    EncodeUnsigned(if x < 0 then x + Pow256(w) else x, w)
  }

  function DecodeInt(s: seq<Octet>): int {
    var n := DecodeUnsigned(s);
    if 2 * n >= Pow256(|s|) then n - Pow256(|s|) else n
  }

  lemma {:induction false} UnsignedRoundTrip(n: nat, w: nat)
    requires n < Pow256(w)
    ensures DecodeUnsigned(EncodeUnsigned(n, w)) == n
  {
    if w > 0 {
      UnsignedRoundTrip(n / 256, w - 1);
      var s := EncodeUnsigned(n, w);
      assert s[..|s| - 1] == EncodeUnsigned(n / 256, w - 1);
    }
  }

  lemma {:induction false} UnsignedRoundTripBack(s: seq<Octet>)
    ensures DecodeUnsigned(s) < Pow256(|s|)
    ensures EncodeUnsigned(DecodeUnsigned(s), |s|) == s
  {
    if s != [] {
      UnsignedRoundTripBack(s[..|s| - 1]);
    }
  }

  /** Every value of every width survives the wire, and every byte string is the encoding of exactly one value. */
  lemma IntRoundTrip(x: int, w: nat)
    requires FitsSigned(x, w)
    ensures DecodeInt(EncodeInt(x, w)) == x
  {
    UnsignedRoundTrip(if x < 0 then x + Pow256(w) else x, w);
  }

  lemma IntRoundTripBack(s: seq<Octet>)
    requires s != []
    ensures FitsSigned(DecodeInt(s), |s|) && EncodeInt(DecodeInt(s), |s|) == s
  {
    hide Pow256, EncodeUnsigned, DecodeUnsigned;
    UnsignedRoundTripBack(s);
  }

  /** What network byte order means: the first byte has the highest weight. */
  function BigEndian(s: seq<Octet>): nat {
    if s == [] then 0 else s[0] as int * Pow256(|s| - 1) + BigEndian(s[1..])
  }

  lemma {:induction false} DecodesBigEndian(s: seq<Octet>)
    ensures DecodeUnsigned(s) == BigEndian(s)
  {
    if |s| == 1 {
      assert s[..0] == [] && s[1..] == [];
    } else if |s| > 1 {
      var front, last := s[..|s| - 1], s[|s| - 1];
      DecodesBigEndian(front);
      BigEndianSnoc(front, last);
      assert s == front + [last];
    }
  }

  lemma {:induction false} BigEndianSnoc(s: seq<Octet>, c: Octet)
    ensures BigEndian(s + [c]) == 256 * BigEndian(s) + c as int
  {
    if s == [] {
      assert s + [c] == [c] && [c][1..] == [];
    } else {
      BigEndianSnoc(s[1..], c);
      assert (s + [c])[1..] == s[1..] + [c];
      assert s[0] as int * Pow256(|s|) == 256 * (s[0] as int * Pow256(|s| - 1));
    }
  }

  /** The bytes on the wire are the value, or its two's complement, in network byte order. */
  lemma NetworkByteOrder(x: int, w: nat)
    requires FitsSigned(x, w)
    ensures BigEndian(EncodeInt(x, w)) == if x < 0 then x + Pow256(w) else x
  {
    hide BigEndian;
    UnsignedRoundTrip(if x < 0 then x + Pow256(w) else x, w);
    DecodesBigEndian(EncodeInt(x, w));
  }

  /** The value read is the one of its width that is congruent to the bytes in network byte order. */
  lemma ReadsNetworkByteOrder(s: seq<Octet>)
    requires s != []
    ensures FitsSigned(DecodeInt(s), |s|)
    ensures DecodeInt(s) == BigEndian(s) || DecodeInt(s) == BigEndian(s) - Pow256(|s|)
  {
    hide BigEndian, Pow256, DecodeUnsigned;
    DecodesBigEndian(s);
    IntRoundTripBack(s);
  }

  datatype Field = Field(value: int, width: nat)

  predicate FieldsFit(fields: seq<Field>) {
    forall i :: 0 <= i < |fields| ==> FitsSigned(fields[i].value, fields[i].width)
  }

  /** What a series of typed appends leaves in the buffer. */
  function EncodeFields(fields: seq<Field>): seq<Octet>
    requires FieldsFit(fields)
  {
    if fields == [] then [] else EncodeInt(fields[0].value, fields[0].width) + EncodeFields(fields[1..])
  }

  /** What typed reads of the given widths return, and what they leave. */
  function DecodeFields(s: seq<Octet>, widths: seq<nat>): (seq<int>, seq<Octet>) {
    if widths == [] || |s| < widths[0] then ([], s)
    else
      var rest := DecodeFields(s[widths[0]..], widths[1..]);
      ([DecodeInt(s[..widths[0]])] + rest.0, rest.1)
  }

  function Widths(fields: seq<Field>): seq<nat> {
    seq(|fields|, i requires 0 <= i < |fields| => fields[i].width)
  }

  function Values(fields: seq<Field>): seq<int> {
    seq(|fields|, i requires 0 <= i < |fields| => fields[i].value)
  }

  /** Typed appends of any widths are read back in order, whatever follows them. */
  lemma {:induction false} FieldsRoundTrip(fields: seq<Field>, tail: seq<Octet>)
    requires FieldsFit(fields)
    ensures DecodeFields(EncodeFields(fields) + tail, Widths(fields)) == (Values(fields), tail)
  {
    hide EncodeInt, DecodeInt, DecodeFields, Pow256;
    if fields == [] {
      NoFields(tail);
      assert EncodeFields(fields) + tail == tail;
      assert Widths(fields) == [] && Values(fields) == [];
    } else {
      var first, rest := EncodeInt(fields[0].value, fields[0].width), fields[1..];
      IntRoundTrip(fields[0].value, fields[0].width);
      FieldsRoundTrip(rest, tail);
      assert EncodeFields(fields) + tail == first + (EncodeFields(rest) + tail);
      DecodeOne(first, EncodeFields(rest) + tail, Widths(rest));
      assert Widths(fields) == [fields[0].width] + Widths(rest);
      assert Values(fields) == [fields[0].value] + Values(rest);
    }
  }

  lemma NoFields(tail: seq<Octet>)
    ensures DecodeFields(tail, []) == ([], tail)
  {
  }

  lemma DecodeOne(first: seq<Octet>, more: seq<Octet>, widths: seq<nat>)
    ensures var rest := DecodeFields(more, widths);
            DecodeFields(first + more, [|first|] + widths) == ([DecodeInt(first)] + rest.0, rest.1)
  {
    hide DecodeInt;
    assert (first + more)[..|first|] == first && (first + more)[|first|..] == more;
    assert ([|first|] + widths)[1..] == widths;
  }

  // ---------- The buffer ----------

  class Buffer {
    var buffer: seq<Octet>
    var readerIndex: nat
    var writerIndex: nat
    ghost var initial: nat   // size at construction or at the last shrink
    ghost var peak: nat      // most bytes ever held, or made room for, since then

    /** Besides the index order: the vector never grows past twice the peak, give or take the prepend area. */
    ghost predicate Valid()
      reads this
    {
      && readerIndex <= writerIndex <= |buffer| && CHEAP_PREPEND <= |buffer|
      && writerIndex - readerIndex <= peak
      && |buffer| <= Max(initial, 2 * peak + CHEAP_PREPEND - 1)
    }

    /** The deque this buffer stands for. */
    function Readable(): seq<Octet>
      requires readerIndex <= writerIndex <= |buffer|
      reads this
    {
      buffer[readerIndex..writerIndex]
    }

    constructor (initialSize: nat)
      ensures Valid() && Readable() == [] && |buffer| == initial == CHEAP_PREPEND + initialSize && peak == 0
      ensures readerIndex == CHEAP_PREPEND
    {
      buffer := seq(CHEAP_PREPEND + initialSize, _ => '\0');
      readerIndex, writerIndex := CHEAP_PREPEND, CHEAP_PREPEND;
      initial, peak := CHEAP_PREPEND + initialSize, 0;
    }

    function ReadableBytes(): int reads this { writerIndex - readerIndex }
    function WritableBytes(): int reads this { |buffer| - writerIndex }
    function PrependableBytes(): nat reads this { readerIndex }

    /** The cheap prepend area is never eaten: only prepending itself uses it up. */
    predicate KeepsPrepend(before: nat)
      reads this
    {
      readerIndex == before || readerIndex == CHEAP_PREPEND < before
    }

    /** `findCRLF`: `std::search` over the readable bytes. */
    method FindCrlf() returns (r: Option<nat>)
      requires Valid()
      ensures r == FirstCrlf(Readable())
    {
      var s := Readable();
      var i := 0;
      while i + 1 < |s|
        invariant 0 <= i
        invariant forall k :: 0 <= k < i ==> !CrlfAt(s, k)
      {
        if s[i] == '\r' && s[i + 1] == '\n' {
          assert CrlfAt(s, i);
          return Some(i);
        }
        i := i + 1;
      }
      assert forall k :: !CrlfAt(s, k);
      return None;
    }

    method Retrieve(len: nat)
      requires Valid() && len <= |Readable()|
      modifies this`readerIndex, this`writerIndex
      ensures Valid() && Readable() == old(Readable())[len..]
      ensures readerIndex == if len < old(ReadableBytes()) then old(readerIndex) + len else CHEAP_PREPEND
    {
      if len < ReadableBytes() {
        readerIndex := readerIndex + len;
      } else {
        RetrieveAll();
      }
    }

    method RetrieveAll()
      requires Valid()
      modifies this`readerIndex, this`writerIndex
      ensures Valid() && Readable() == [] && readerIndex == CHEAP_PREPEND
    {
      readerIndex, writerIndex := CHEAP_PREPEND, CHEAP_PREPEND;
    }
  
    /** Gives back the last `len` bytes written. */
    method Unwrite(len: nat)
      requires Valid() && len <= |Readable()|
      modifies this`writerIndex
      ensures Valid() && Readable() == old(Readable())[..|old(Readable())| - len]
    {
      writerIndex := writerIndex - len;
    }

    /** The free bytes before and after the contents are too few, the prepend area set aside. */
    predicate MustGrow(len: nat)
      reads this
    {
      WritableBytes() < len && WritableBytes() + PrependableBytes() < len + CHEAP_PREPEND
    }

    /** Room for `len` more bytes, the contents unchanged; the vector grows only when compaction cannot make it. */
    method EnsureWritableBytes(len: nat)
      requires Valid()
      modifies this
      ensures Valid() && Readable() == old(Readable()) && WritableBytes() >= len
      ensures KeepsPrepend(old(readerIndex))
      ensures initial == old(initial) && peak == Max(old(peak), |Readable()| + len)
      ensures |buffer| == if old(MustGrow(len)) then old(writerIndex) + len else old(|buffer|)
    {
      peak := Max(peak, ReadableBytes() + len);
      if WritableBytes() < len {
        MakeSpace(len);
      }
      assert WritableBytes() >= len;
    }

    method MakeSpace(len: nat)
      requires Valid() && WritableBytes() < len && ReadableBytes() + len <= peak
      modifies this`buffer, this`readerIndex, this`writerIndex
      ensures Valid() && Readable() == old(Readable()) && WritableBytes() >= len
      ensures KeepsPrepend(old(readerIndex))
      ensures |buffer| == if old(MustGrow(len)) then old(writerIndex) + len else old(|buffer|)
    {
      if WritableBytes() + PrependableBytes() < len + CHEAP_PREPEND {
        buffer := buffer + seq(writerIndex + len - |buffer|, _ => '\0');
      } else {
        assert CHEAP_PREPEND < readerIndex;
        var readable := ReadableBytes();
        MoveToFront(readable);
        readerIndex := CHEAP_PREPEND;
        writerIndex := readerIndex + readable;
      }
    }

    /** `std::copy` onto an overlapping range that starts earlier: every byte is read before it is overwritten. */
    method MoveToFront(readable: nat)
      requires CHEAP_PREPEND < readerIndex && readerIndex + readable == writerIndex <= |buffer|
      modifies this`buffer
      ensures |buffer| == old(|buffer|)
      ensures buffer[CHEAP_PREPEND..CHEAP_PREPEND + readable] == old(buffer[readerIndex..writerIndex])
    {
      for k := 0 to readable
        invariant |buffer| == old(|buffer|)
        invariant buffer[readerIndex + k..writerIndex] == old(buffer[readerIndex + k..writerIndex])
        invariant buffer[CHEAP_PREPEND..CHEAP_PREPEND + k] == old(buffer[readerIndex..readerIndex + k])
      {
        ghost var before := buffer;
        var byte := buffer[readerIndex + k];
        assert byte == buffer[readerIndex + k..writerIndex][0] == old(buffer[readerIndex + k..writerIndex])[0];
        buffer := buffer[CHEAP_PREPEND + k := byte];
        assert buffer[readerIndex + k + 1..writerIndex] == before[readerIndex + k..writerIndex][1..];
        assert buffer[CHEAP_PREPEND..CHEAP_PREPEND + k + 1] == before[CHEAP_PREPEND..CHEAP_PREPEND + k] + [byte];
        assert old(buffer[readerIndex..readerIndex + k + 1]) == old(buffer[readerIndex..readerIndex + k]) + [byte];
      }
    }

    method Append(data: seq<Octet>)
      requires Valid()
      modifies this
      ensures Valid() && Readable() == old(Readable()) + data
      ensures KeepsPrepend(old(readerIndex))
      ensures initial == old(initial) && peak == Max(old(peak), |Readable()|)
    {
      EnsureWritableBytes(|data|);
      HasWritten(data);
    }

    /** Bytes placed at `beginWrite()` and then accounted for with `hasWritten`. */
    method HasWritten(data: seq<Octet>)
      requires Valid() && |data| <= WritableBytes()
      modifies this
      ensures Valid() && Readable() == old(Readable()) + data && |buffer| == old(|buffer|)
      ensures readerIndex == old(readerIndex)
      ensures initial == old(initial) && peak == Max(old(peak), |Readable()|)
    {
      buffer := buffer[..writerIndex] + data + buffer[writerIndex + |data|..];
      writerIndex := writerIndex + |data|;
      peak := Max(peak, writerIndex - readerIndex);
    }

    method Prepend(data: seq<Octet>)
      requires Valid() && |data| <= PrependableBytes()
      modifies this
      ensures Valid() && Readable() == data + old(Readable()) && |buffer| == old(|buffer|)
      ensures readerIndex == old(readerIndex) - |data|
      ensures initial == old(initial) && peak == Max(old(peak), |Readable()|)
    {
      ghost var before := Readable();
      readerIndex := readerIndex - |data|;
      var rest := buffer[readerIndex + |data|..];
      assert rest[..writerIndex - readerIndex - |data|] == before;
      buffer := buffer[..readerIndex] + data + rest;
      assert buffer[readerIndex..] == data + rest;
      assert Readable() == buffer[readerIndex..][..writerIndex - readerIndex];
      peak := Max(peak, writerIndex - readerIndex);
    }

    /** A fresh vector just large enough; the space bound starts again from its size. */
    method Shrink(reserve: nat)
      requires Valid()
      modifies this
      ensures Valid() && Readable() == old(Readable())
      ensures |buffer| == CHEAP_PREPEND + Max(INITIAL_SIZE, |Readable()| + reserve) && readerIndex == CHEAP_PREPEND
    {
      var other := new Buffer(INITIAL_SIZE);
      other.EnsureWritableBytes(ReadableBytes() + reserve);
      assert |other.buffer| == CHEAP_PREPEND + Max(INITIAL_SIZE, |Readable()| + reserve);
      other.HasWritten(Readable());
      buffer, readerIndex, writerIndex := other.buffer, other.readerIndex, other.writerIndex;
      initial, peak := |other.buffer|, other.peak;
    }

    /** `readFd`: `incoming` is what readv delivered, or nothing on an error. */
    method ReadFd(incoming: Option<seq<Octet>>)
      requires Valid()
      requires incoming.Some? ==>
                 |incoming.value| <= WritableBytes() + (if WritableBytes() < EXTRA_SIZE then EXTRA_SIZE else 0)
      modifies this
      ensures Valid()
      ensures Readable() == old(Readable()) + (if incoming.Some? then incoming.value else [])
      ensures KeepsPrepend(old(readerIndex))
      ensures initial == old(initial) && peak == Max(old(peak), |Readable()|)
    {
      var writable := WritableBytes();
      if incoming.Some? {
        var n := |incoming.value|;
        if n <= writable {
          HasWritten(incoming.value);
        } else {
          HasWritten(incoming.value[..writable]);
          Append(incoming.value[writable..]);
        }
      }
    }

    method AppendInt(x: int, w: nat)
      requires Valid() && FitsSigned(x, w)
      modifies this
      ensures Valid() && Readable() == old(Readable()) + EncodeInt(x, w)
    {
      Append(EncodeInt(x, w));
    }

    method PeekInt(w: nat) returns (x: int)
      requires Valid() && w <= |Readable()|
      ensures x == DecodeInt(Readable()[..w])
    {
      x := DecodeInt(Readable()[..w]);
    }

    method ReadInt(w: nat) returns (x: int)
      requires Valid() && w <= |Readable()|
      modifies this`readerIndex, this`writerIndex
      ensures Valid() && x == DecodeInt(old(Readable())[..w]) && Readable() == old(Readable())[w..]
    {
      x := PeekInt(w);
      Retrieve(w);
    }
  }
}
