/** Fixed-size log buffers and integer formatting (mymuduo/base/LogStream.h, LogStream.cc). */
module LogStream {
  import opened CInt

  // ---------- What the formatted text should be ----------

  datatype Radix = Decimal | Hexadecimal {
    function Value(): nat { if Decimal? then 10 else 16 }
    function Quotient(n: nat): nat { if Decimal? then n / 10 else n / 16 }
    function Rest(n: nat): (r: nat) ensures r < 16 { if Decimal? then n % 10 else n % 16 }
    function Times(n: int): int { if Decimal? then 10 * n else 16 * n }
  }

  const HEX_DIGITS := "0123456789ABCDEF"

  function DigitChar(d: nat): char
    requires d < 16
  {
    HEX_DIGITS[d]
  }

  /** Positional notation, most significant digit first. */
  function Digits(n: nat, radix: Radix): (s: string)
    ensures |s| > 0
  {
    if n < radix.Value() then [DigitChar(n)]
    else Digits(radix.Quotient(n), radix) + [DigitChar(radix.Rest(n))]
  }

  function Abs(x: int): nat {
    if x < 0 then -x else x
  }

  function Render(value: int): (s: string)
    ensures |s| > 0
  {
    if value < 0 then "-" + Digits(-value, Decimal) else Digits(value, Decimal)
  }

  // ---------- Reading the text back ----------

  function DigitValue(c: char): int {
    if '0' <= c <= '9' then c as int - '0' as int
    else if 'A' <= c <= 'F' then c as int - 'A' as int + 10
    else -1
  }

  predicate IsDigit(c: char, radix: Radix) {
    0 <= DigitValue(c) < radix.Value()
  }

  function ParseDigits(s: string, radix: Radix): int {
    if s == "" then 0 else radix.Times(ParseDigits(s[..|s| - 1], radix)) + DigitValue(s[|s| - 1])
  }

  function ParseInt(s: string): int {
    if s != "" && s[0] == '-' then -ParseDigits(s[1..], Decimal) else ParseDigits(s, Decimal)
  }

  /** Non-empty, only digits, and no leading zero unless the text is "0" itself. */
  predicate CanonicalDigits(s: string, radix: Radix) {
    s != "" && (forall k :: 0 <= k < |s| ==> IsDigit(s[k], radix)) && (s[0] == '0' ==> |s| == 1)
  }

  predicate CanonicalInt(s: string) {
    CanonicalDigits(s, Decimal) || (s != "" && s[0] == '-' && CanonicalDigits(s[1..], Decimal) && s[1] != '0')
  }

  // ---------- Round trips ----------

  lemma DigitCharValue(d: nat)
    requires d < 16
    ensures DigitValue(DigitChar(d)) == d && (DigitChar(d) == '0' <==> d == 0) && DigitChar(d) != '-'
  {
  }

  lemma {:induction false} DigitsCanonical(n: nat, radix: Radix)
    ensures ParseDigits(Digits(n, radix), radix) == n
    ensures CanonicalDigits(Digits(n, radix), radix)
    ensures Digits(n, radix)[0] == '0' <==> n == 0
  {
    DigitCharValue(radix.Rest(n));
    var s := Digits(n, radix);
    if n < radix.Value() {
      DigitCharValue(n);
      assert s[..0] == "";
    } else {
      DigitsCanonical(radix.Quotient(n), radix);
      assert s[..|s| - 1] == Digits(radix.Quotient(n), radix);
    }
  }

  lemma {:induction false} CanonicalIsDigits(s: string, radix: Radix)
    requires CanonicalDigits(s, radix)
    ensures ParseDigits(s, radix) >= 0 && Digits(ParseDigits(s, radix), radix) == s
    ensures s[0] != '0' ==> ParseDigits(s, radix) > 0
  {
    hide Digits, ParseDigits, Radix.Times, Radix.Quotient, Radix.Rest, DigitChar, DigitValue;
    var last, front := s[|s| - 1], s[..|s| - 1];
    assert s == front + [last];
    DigitOfChar(last, radix);
    ParseSnoc(front, last, radix);
    if front == "" {
      DigitsSnoc(0, DigitValue(last), radix);
    } else {
      CanonicalFront(s, radix);
      CanonicalIsDigits(front, radix);
      DigitsSnoc(ParseDigits(front, radix), DigitValue(last), radix);
    }
  }

  lemma CanonicalFront(s: string, radix: Radix)
    requires CanonicalDigits(s, radix) && |s| > 1
    ensures CanonicalDigits(s[..|s| - 1], radix) && s[0] != '0' && s[..|s| - 1][0] == s[0]
  {
  }

  lemma ParseSnoc(front: string, last: char, radix: Radix)
    ensures ParseDigits(front + [last], radix) == radix.Times(ParseDigits(front, radix)) + DigitValue(last)
    ensures ParseDigits("", radix) == 0
  {
    assert (front + [last])[..|front|] == front;
  }

  /** Appending a digit to a positive number's text, or writing a single digit. */
  lemma DigitsSnoc(n: nat, d: nat, radix: Radix)
    requires d < radix.Value()
    ensures radix.Times(n) + d >= 0 && (n > 0 || d > 0 ==> radix.Times(n) + d > 0)
    ensures Digits(radix.Times(n) + d, radix) == (if n == 0 then [DigitChar(d)] else Digits(n, radix) + [DigitChar(d)])
  {
    hide DigitChar;
    PushDigit(n, d, radix);
  }

  lemma DigitOfChar(c: char, radix: Radix)
    requires IsDigit(c, radix)
    ensures DigitChar(DigitValue(c)) == c && (DigitValue(c) == 0 <==> c == '0')
  {
  }

  lemma PushDigit(n: nat, d: nat, radix: Radix)
    requires d < radix.Value()
    ensures radix.Quotient(radix.Times(n) + d) == n && radix.Rest(radix.Times(n) + d) == d
    ensures radix.Times(n) + d >= radix.Value() <==> n > 0
    ensures n == 0 ==> radix.Times(n) + d == d
  {
  }

  /** Reading the characters gives the value back, and the text is canonical: no leading zeros, no "-0". */
  lemma RenderRoundTrip(value: int)
    ensures ParseInt(Render(value)) == value
    ensures CanonicalInt(Render(value))
  {
    DigitsCanonical(Abs(value), Decimal);
    if value < 0 {
      assert Render(value)[1..] == Digits(-value, Decimal);
    } else {
      assert IsDigit(Render(value)[0], Decimal);
    }
  }

  /** Conversely, a canonical text is what its value renders to: `Render` is a bijection onto canonical texts. */
  lemma ParseRoundTrip(s: string)
    requires CanonicalInt(s)
    ensures Render(ParseInt(s)) == s
  {
    if s[0] == '-' {
      assert !IsDigit(s[0], Decimal);
      CanonicalIsDigits(s[1..], Decimal);
      assert s == "-" + s[1..];
    } else {
      CanonicalIsDigits(s, Decimal);
    }
  }

  function Power(radix: Radix, k: nat): nat {
    if k == 0 then 1 else radix.Times(Power(radix, k - 1))
  }

  lemma {:induction false} DigitsLength(n: nat, radix: Radix, k: nat)
    requires k > 0 && n < Power(radix, k)
    ensures |Digits(n, radix)| <= k
  {
    if n >= radix.Value() {
      DigitsLength(radix.Quotient(n), radix, k - 1);
    }
  }

  lemma Powers()
    ensures Power(Decimal, 19) == 10_000_000_000_000_000_000
    ensures Power(Decimal, 20) == 100_000_000_000_000_000_000
    ensures Power(Hexadecimal, 16) == 0x1_0000_0000_0000_0000
  {
    assert Power(Decimal, 4) == 10_000;
    assert Power(Decimal, 8) == 100_000_000;
    assert Power(Decimal, 12) == 1_000_000_000_000;
    assert Power(Decimal, 16) == 10_000_000_000_000_000;
    assert Power(Hexadecimal, 4) == 0x1_0000;
    assert Power(Hexadecimal, 8) == 0x1_0000_0000;
    assert Power(Hexadecimal, 12) == 0x1_0000_0000_0000;
  }

  /** Any value of any C++ integer type of at most 64 bits needs at most 20 characters, 16 in hexadecimal. */
  lemma RenderLength(value: int)
    requires -0x8000_0000_0000_0000 <= value < 0x1_0000_0000_0000_0000
    ensures |Render(value)| <= 20
    ensures value >= 0 ==> |Digits(value, Hexadecimal)| <= 16
  {
    Powers();
    if value < 0 {
      DigitsLength(-value, Decimal, 19);
    } else {
      DigitsLength(value, Decimal, 20);
      DigitsLength(value, Hexadecimal, 16);
    }
  }

  // ---------- The conversion loops ----------

  function Reversed(s: string): (r: string)
    ensures |r| == |s|
    ensures forall k :: 0 <= k < |s| ==> r[k] == s[|s| - 1 - k]
  {
    if s == "" then "" else Reversed(s[1..]) + [s[0]]
  }

  lemma ReversedAppend(s: string, c: char)
    ensures Reversed(s + [c]) == [c] + Reversed(s)
  {
    var t := s + [c];
    assert forall k :: 0 <= k < |t| ==> Reversed(t)[k] == t[|t| - 1 - k];
  }

  /** `std::reverse` on buf[lo..hi]. */
  method ReverseRange(buf: array<char>, lo: nat, hi: nat)
    requires lo <= hi <= buf.Length
    modifies buf
    ensures buf[..lo] == old(buf[..lo])
    ensures buf[lo..hi] == Reversed(old(buf[lo..hi]))
    ensures buf[hi..] == old(buf[hi..])
  {
    ghost var before := buf[..];
    var i, j := lo, hi;
    while i < j
      invariant lo <= i <= j + 1 && j <= hi && i + j == lo + hi
      invariant forall k :: 0 <= k < lo || hi <= k < buf.Length ==> buf[k] == before[k]
      invariant forall k :: i <= k < j ==> buf[k] == before[k]
      invariant forall k :: lo <= k < i || j <= k < hi ==> buf[k] == before[lo + hi - 1 - k]
    {
      j := j - 1;
      buf[i], buf[j] := buf[j], buf[i];
      i := i + 1;
    }
    MirrorIsReversed(before, buf[..], lo, hi);
  }

  lemma MirrorIsReversed(before: string, after: string, lo: nat, hi: nat)
    requires lo <= hi <= |before| == |after|
    requires forall k :: 0 <= k < lo || hi <= k < |after| ==> after[k] == before[k]
    requires forall k :: lo <= k < hi ==> after[k] == before[lo + hi - 1 - k]
    ensures after[..lo] == before[..lo] && after[hi..] == before[hi..]
    ensures after[lo..hi] == Reversed(before[lo..hi])
  {
    var mid := before[lo..hi];
    assert forall k :: 0 <= k < hi - lo ==> after[lo..hi][k] == mid[|mid| - 1 - k];
  }

  /** Digits of both signs, so that a truncated remainder indexes it directly. */
  const DIGITS := "9876543210123456789"
  const ZERO := 9

  /** The next character: `zero[i % 10]`, or `digitsHex[i % 16]` for unsigned values. */
  function NextDigit(i: int, radix: Radix): (c: char)
    requires radix.Hexadecimal? ==> i >= 0
    ensures c == DigitChar(radix.Rest(Abs(i)))
  {
    if radix.Decimal? then
      assert Mod(i, 10) == if i < 0 then -(Abs(i) % 10) else Abs(i) % 10;
      DIGITS[ZERO + Mod(i, 10)]
    else
      HEX_DIGITS[i % 16]
  }

  /** `i /= 10` or `i /= 16`, truncating: the magnitude loses its last digit and the sign is kept. */
  function NextValue(i: int, radix: Radix): (r: int)
    requires radix.Hexadecimal? ==> i >= 0
    ensures Abs(r) == radix.Quotient(Abs(i)) && (i >= 0 ==> r >= 0)
  {
    if radix.Decimal? then Div(i, 10) else i / 16
  }

  /** The digits of `n` that remain to be written, `more` saying whether the loop goes on. */
  ghost function Pending(more: bool, n: nat, radix: Radix): string {
    if more then Digits(n, radix) else ""
  }

  /** The state of the digit loop: `low` holds the digits already in the buffer, least significant first. */
  ghost predicate Digested(all: string, low: string, more: bool, n: nat, radix: Radix) {
    Pending(more, n, radix) + Reversed(low) == all
  }

  lemma DigestStep(all: string, low: string, n: nat, radix: Radix)
    requires Digested(all, low, true, n, radix)
    ensures |low| < |all|
    ensures Digested(all, low + [DigitChar(radix.Rest(n))], radix.Quotient(n) != 0, radix.Quotient(n), radix)
  {
    hide Reversed, DigitChar, Radix.Quotient, Radix.Rest;
    var digit := DigitChar(radix.Rest(n));
    ReversedAppend(low, digit);
    DigitsUnfold(n, radix);
    assert |Digits(n, radix) + Reversed(low)| == |all|;
    var more := Pending(radix.Quotient(n) != 0, radix.Quotient(n), radix);
    assert (more + [digit]) + Reversed(low) == more + ([digit] + Reversed(low));
  }

  lemma DigitsUnfold(n: nat, radix: Radix)
    ensures Digits(n, radix) ==
            Pending(radix.Quotient(n) != 0, radix.Quotient(n), radix) + [DigitChar(radix.Rest(n))]
  {
  }

  /** The digit loop of `convert` and `convertHex`, least significant digit first. */
  method PutDigits(buf: array<char>, start: nat, value: int, radix: Radix) returns (p: nat)
    requires start + |Digits(Abs(value), radix)| <= buf.Length
    requires radix.Hexadecimal? ==> value >= 0
    modifies buf
    ensures p == start + |Digits(Abs(value), radix)|
    ensures Reversed(buf[start..p]) == Digits(Abs(value), radix)
    ensures buf[..start] == old(buf[..start])
    ensures forall k :: p <= k < buf.Length ==> buf[k] == old(buf[k])
  {
    hide Digits, Reversed, DigitChar, NextDigit, NextValue;
    ghost var all := Digits(Abs(value), radix);
    var i := value;
    p := start;
    ghost var low := "";
    assert low == buf[start..p];
    var more := true;
    while more
      invariant start <= p <= start + |all|
      invariant low == buf[start..p]
      invariant Digested(all, low, more, Abs(i), radix)
      invariant radix.Hexadecimal? ==> i >= 0
      invariant buf[..start] == old(buf[..start])
      invariant forall k :: p <= k < buf.Length ==> buf[k] == old(buf[k])
      decreases more, Abs(i)
    {
      DigestStep(all, low, Abs(i), radix);
      var digit := NextDigit(i, radix);
      i := NextValue(i, radix);
      buf[p] := digit;
      low := low + [digit];
      p := p + 1;
      more := i != 0;
    }
  }

  /** The end of both conversions: terminate, then reverse. */
  method Finish(buf: array<char>, start: nat, p: nat) returns (len: nat)
    requires start <= p < buf.Length
    modifies buf
    ensures len == p - start
    ensures buf[start..p] == Reversed(old(buf[start..p])) && buf[p] == '\0'
    ensures buf[..start] == old(buf[..start])
    ensures forall k :: p < k < buf.Length ==> buf[k] == old(buf[k])
  {
    hide Reversed;
    buf[p] := '\0';
    assert buf[start..p] == old(buf[start..p]) && buf[p..][0] == '\0';
    ghost var tail := buf[p..];
    ReverseRange(buf, start, p);
    assert forall k :: p <= k < buf.Length ==> buf[k] == buf[p..][k - p] == tail[k - p];
    len := p - start;
  }

  lemma RenderedLength(value: int)
    ensures |Render(value)| == |Digits(Abs(value), Decimal)| + (if value < 0 then 1 else 0)
  {
    hide Digits;
  }

  /** The sign, after the digits because the text is still backwards. */
  method PutSign(buf: array<char>, start: nat, p: nat, value: int) returns (end: nat)
    requires start <= p && (if value < 0 then p < buf.Length else p <= buf.Length)
    requires Reversed(buf[start..p]) == Digits(Abs(value), Decimal)
    modifies buf
    ensures start <= end <= buf.Length && end - start == |Render(value)|
    ensures Reversed(buf[start..end]) == Render(value)
    ensures buf[..start] == old(buf[..start])
    ensures forall k :: end <= k < buf.Length ==> buf[k] == old(buf[k])
  {
    hide Digits, Reversed;
    end := p;
    ghost var low := buf[start..p];
    if value < 0 {
      ReversedAppend(low, '-');
      buf[end] := '-';
      end := end + 1;
      assert buf[start..end] == low + ['-'];
    }
    assert |Reversed(buf[start..end])| == |buf[start..end]|;
  }

  /** `convert`: writes the text of `value` and a terminator at `start`, leaving the rest of the buffer alone. */
  method Convert(buf: array<char>, start: nat, value: int) returns (len: nat)
    requires start + |Render(value)| < buf.Length
    modifies buf
    ensures len == |Render(value)|
    ensures buf[start..start + len] == Render(value) && buf[start + len] == '\0'
    ensures buf[..start] == old(buf[..start])
    ensures forall k :: start + len < k < buf.Length ==> buf[k] == old(buf[k])
  {
    hide Digits, Reversed, Render, Abs;
    RenderedLength(value);
    var p := PutDigits(buf, start, value, Decimal);
    p := PutSign(buf, start, p, value);
    len := Finish(buf, start, p);
  }

  /** `convertHex`, for unsigned values. */
  method ConvertHex(buf: array<char>, start: nat, value: nat) returns (len: nat)
    requires start + |Digits(value, Hexadecimal)| < buf.Length
    modifies buf
    ensures len == |Digits(value, Hexadecimal)|
    ensures buf[start..start + len] == Digits(value, Hexadecimal) && buf[start + len] == '\0'
    ensures buf[..start] == old(buf[..start])
    ensures forall k :: start + len < k < buf.Length ==> buf[k] == old(buf[k])
  {
    hide Digits, Reversed;
    var p := PutDigits(buf, start, value, Hexadecimal);
    len := Finish(buf, start, p);
  }

  // ---------- The stream ----------

  const SMALL_BUFFER := 4000
  const LARGE_BUFFER := 4000 * 1000
  const MAX_NUMERIC_SIZE := 48

  class FixedBuffer {
    const data: array<char>
    var cur: nat

    ghost predicate Valid()
      reads this
    {
      cur <= data.Length
    }

    ghost function Contents(): string
      requires Valid()
      reads this, data
    {
      data[..cur]
    }

    constructor (size: nat)
      ensures Valid() && fresh(data) && data.Length == size && Contents() == ""
    {
      data := new char[size];
      cur := 0;
    }

    function Avail(): int
      reads this
    {
      data.Length - cur
    }

    /** All of `logline` or, when it does not fit with one byte to spare, nothing. */
    method Append(logline: string)
      requires Valid()
      modifies this`cur, data
      ensures Valid()
      ensures Contents() == old(Contents()) + (if old(Avail()) > |logline| then logline else "")
    {
      if Avail() > |logline| {
        ghost var before := data[..cur];
        forall k | 0 <= k < |logline| {
          data[cur + k] := logline[k];
        }
        assert data[..cur] == before;
        cur := cur + |logline|;
      }
    }

    method Reset()
      requires Valid()
      modifies this`cur
      ensures Valid() && Contents() == ""
    {
      cur := 0;
    }

    /** `formatInteger`: 48 spare bytes always hold the text and its terminator; with fewer nothing is written. */
    method FormatInteger(value: int)
      requires Valid()
      requires -0x8000_0000_0000_0000 <= value < 0x1_0000_0000_0000_0000
      modifies this`cur, data
      ensures Valid()
      ensures Contents() == old(Contents()) + (if old(Avail()) >= MAX_NUMERIC_SIZE then Render(value) else "")
    {
      hide Render;
      if Avail() >= MAX_NUMERIC_SIZE {
        RenderLength(value);
        var len := Convert(data, cur, value);
        assert data[..cur + len] == data[..cur] + data[cur..cur + len];
        cur := cur + len;
      }
    }

    /** `operator<<(const void*)`: "0x" and the address in hexadecimal. */
    method FormatPointer(address: nat)
      requires Valid()
      requires address < 0x1_0000_0000_0000_0000
      modifies this`cur, data
      ensures Valid()
      ensures Contents() == old(Contents()) +
                            (if old(Avail()) >= MAX_NUMERIC_SIZE then "0x" + Digits(address, Hexadecimal) else "")
    {
      hide Digits;
      if Avail() >= MAX_NUMERIC_SIZE {
        RenderLength(address);
        ghost var before := data[..cur];
        var start := cur + 2;
        data[cur], data[cur + 1] := '0', 'x';
        assert data[..start] == before + "0x";
        var len := ConvertHex(data, start, address);
        assert data[..start + len] == data[..start] + data[start..start + len];
        cur := start + len;
      }
    }
  }
}
