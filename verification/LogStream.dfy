/** Reactors/base/LogStream.h and LogStream.cc: the fixed-size buffer a log line is
    built in, and the integer formatting that writes straight into it. */
module LogStream {
  import opened Calendar

  const LARGE_BUFFER := 4000 * 1000
  const MAX_NUMERIC_SIZE := 32

  // ---------- What the text of an integer is ----------

  function Reversed<T>(s: seq<T>): seq<T> {
    if s == [] then [] else Reversed(s[1..]) + [s[0]]
  }

  const DIGITS := "9876543210123456789"
  const DIGITS_HEX := "0123456789ABCDEF"

  /** zero[lsd]: the digit of a remainder of either sign. */
  function DigitOf(lsd: int): char
    requires -9 <= lsd <= 9
  {
    DIGITS[9 + lsd]
  }

  function Abs(i: int): nat {
    if i < 0 then -i else i
  }

  /** The characters the loop of `convert` writes, least significant first; `i` is never negated. */
  function DigitsFrom(i: int): seq<char>
    decreases Abs(i)
  {
    LastDigitRange(i);
    [DigitOf(CMod(i, 10))] + if CDiv(i, 10) == 0 then [] else DigitsFrom(CDiv(i, 10))
  }

  function Sign(value: int): seq<char> {
    if value < 0 then "-" else ""
  }

  function Decimal(value: int): string {
    Reversed(DigitsFrom(value) + Sign(value))
  }

  function HexFrom(i: nat): seq<char>
    decreases i
  {
    [DIGITS_HEX[i % 16]] + if i / 16 == 0 then [] else HexFrom(i / 16)
  }

  function Hex(value: nat): string {
    Reversed(HexFrom(value))
  }

  // ---------- Reading the text back: the independent meaning of a numeral ----------

  predicate IsDigit(c: char) {
    '0' <= c <= '9'
  }

  function DigitValue(c: char): nat
    requires IsDigit(c)
  {
    (c - '0') as nat
  }

  function ParseNat(s: string): nat
    requires forall i :: 0 <= i < |s| ==> IsDigit(s[i])
  {
    if s == [] then 0
    else 10 * ParseNat(s[..|s| - 1]) + DigitValue(s[|s| - 1])
  }

  /** An optional minus sign and digits without a leading zero; zero itself is "0". */
  predicate IsNatNumeral(s: string) {
    && |s| > 0
    && (forall i :: 0 <= i < |s| ==> IsDigit(s[i]))
    && (|s| > 1 ==> s[0] != '0')
  }

  predicate IsNumeral(s: string) {
    IsNatNumeral(s) || (|s| > 1 && s[0] == '-' && IsNatNumeral(s[1..]) && s[1..] != "0")
  }

  function Parse(s: string): int
    requires IsNumeral(s)
  {
    if s[0] == '-' then 0 - ParseNat(s[1..]) else ParseNat(s)
  }

  predicate IsHexDigit(c: char) {
    '0' <= c <= '9' || 'A' <= c <= 'F'
  }

  function HexValue(c: char): nat
    requires IsHexDigit(c)
  {
    if c <= '9' then (c - '0') as nat else 10 + (c - 'A') as nat
  }

  function ParseHex(s: string): nat
    requires forall i :: 0 <= i < |s| ==> IsHexDigit(s[i])
  {
    if s == [] then 0 else 16 * ParseHex(s[..|s| - 1]) + HexValue(s[|s| - 1])
  }

  // ---------- Lemmas ----------

  lemma LastDigitRange(i: int)
    ensures -9 <= CMod(i, 10) <= 9
    ensures Abs(CDiv(i, 10)) == Abs(i) / 10
    ensures CDiv(i, 10) != 0 ==> Abs(CDiv(i, 10)) < Abs(i)
    ensures Abs(CMod(i, 10)) == Abs(i) % 10
  {
    if i < 0 {
      assert -i == 10 * ((-i) / 10) + (-i) % 10;
    }
  }

  lemma {:induction false} ReversedProps<T>(s: seq<T>)
    ensures |Reversed(s)| == |s|
    ensures forall k :: 0 <= k < |s| ==> Reversed(s)[k] == s[|s| - 1 - k]
  {
    if s != [] { ReversedProps(s[1..]); }
  }

  lemma ReversedCons<T>(x: T, s: seq<T>)
    ensures Reversed([x] + s) == Reversed(s) + [x]
  {
    assert ([x] + s)[1..] == s;
  }

  lemma {:induction false} ReversedAppend<T>(s: seq<T>, x: T)
    ensures Reversed(s + [x]) == [x] + Reversed(s)
  {
    if s == [] {
      assert [x][1..] == [];
    } else {
      assert (s + [x])[1..] == s[1..] + [x];
      ReversedAppend(s[1..], x);
    }
  }

  lemma TruncationIsOdd(n: int)
    requires n >= 0
    ensures CDiv(n, 10) >= 0
    ensures CDiv(-n, 10) == -CDiv(n, 10) && CMod(-n, 10) == -CMod(n, 10)
  {
  }

  lemma DigitOfIsEven(d: int)
    requires -9 <= d <= 9
    ensures DigitOf(-d) == DigitOf(d)
  {
  }

  /** A value and its negation have the same digits: why the loop need not negate. */
  lemma {:induction false} DigitsIgnoreSign(i: int)
    ensures DigitsFrom(i) == DigitsFrom(Abs(i))
    decreases Abs(i)
  {
    hide CDiv, CMod, DigitOf;
    if i < 0 {
      var n := -i;
      LastDigitRange(i);
      LastDigitRange(n);
      TruncationIsOdd(n);
      DigitOfIsEven(CMod(n, 10));
      if CDiv(i, 10) != 0 {
        DigitsIgnoreSign(CDiv(i, 10));
      }
    }
  }

  /** One turn of the loop, seen on the text: the last digit goes at the end. */
  lemma DecimalStep(n: nat)
    ensures Decimal(n) == (if n < 10 then "" else Decimal(n / 10)) + ['0' + (n % 10) as char]
  {
    assert CDiv(n, 10) == n / 10 && CMod(n, 10) == n % 10;
    var c := DigitOf(n % 10);
    assert c == '0' + (n % 10) as char;
    assert DigitsFrom(n) + Sign(n) == DigitsFrom(n);
    if n >= 10 {
      var rest := DigitsFrom(n / 10);
      assert rest + Sign(n / 10) == rest;
      ReversedCons(c, rest);
    } else {
      assert DigitsFrom(n) == [c] + [];
      ReversedCons(c, []);
    }
  }

  lemma {:induction false} NatText(n: nat)
    ensures IsNatNumeral(Decimal(n)) && ParseNat(Decimal(n)) == n
    ensures n > 0 ==> Decimal(n)[0] != '0'
    decreases n
  {
    hide Decimal;
    DecimalStep(n);
    var s := Decimal(n);
    var digit := '0' + (n % 10) as char;
    if n < 10 {
      assert s == [digit] && s[..|s| - 1] == "";
    } else {
      NatText(n / 10);
      assert s == Decimal(n / 10) + [digit] && s[..|s| - 1] == Decimal(n / 10);
    }
  }

  lemma DecimalNegative(value: int)
    requires value < 0
    ensures Decimal(value) == "-" + Decimal(-value)
  {
    DigitsIgnoreSign(value);
    ReversedAppend(DigitsFrom(value), '-');
    assert DigitsFrom(-value) + Sign(-value) == DigitsFrom(-value);
  }

  /** The text `convert` writes is a numeral, and reading it gives back the value, the most
      negative one included. */
  lemma ConvertThenParse(value: int)
    ensures IsNumeral(Decimal(value)) && Parse(Decimal(value)) == value
  {
    hide Decimal;
    NatText(Abs(value));
    if value < 0 {
      DecimalNegative(value);
      assert Decimal(value)[1..] == Decimal(-value);
    }
  }

  lemma TenSplit(n: nat, q: nat, r: nat)
    requires n == 10 * q + r && r < 10
    ensures n / 10 == q && n % 10 == r
  {
  }

  lemma {:induction false} NatNumeralIsDecimal(s: string)
    requires IsNatNumeral(s)
    ensures s == Decimal(ParseNat(s))
    ensures s[0] != '0' ==> ParseNat(s) > 0
    decreases |s|
  {
    hide Decimal, ParseNat;
    var n := ParseNat(s);
    var front, c := s[..|s| - 1], s[|s| - 1];
    ParseUnfolds(s);
    assert s == front + [c] && c == '0' + DigitValue(c) as char;
    TenSplit(n, ParseNat(front), DigitValue(c));
    DecimalStep(n);
    if |s| > 1 {
      assert front[0] == s[0];
      NatNumeralIsDecimal(front);
      assert n >= 10;
    } else {
      assert front == "" && ParseNat(front) == 0;
    }
  }

  lemma ParseUnfolds(s: string)
    requires IsNatNumeral(s)
    ensures ParseNat(s) == 10 * ParseNat(s[..|s| - 1]) + DigitValue(s[|s| - 1])
    ensures ParseNat("") == 0
  {
  }

  /** Every numeral is what `convert` writes for its value. */
  lemma ParseThenConvert(s: string)
    requires IsNumeral(s)
    ensures Decimal(Parse(s)) == s
  {
    hide Decimal;
    if s[0] == '-' {
      NatNumeralIsDecimal(s[1..]);
      var n: int := ParseNat(s[1..]);
      DecimalStep(0);
      assert n > 0;
      DecimalNegative(-n);
      assert s == "-" + s[1..];
    } else {
      NatNumeralIsDecimal(s);
    }
  }

  function Power10(k: nat): nat {
    if k == 0 then 1 else 10 * Power10(k - 1)
  }

  lemma {:induction false} DigitCount(i: int, k: nat)
    requires k >= 1 && Abs(i) < Power10(k)
    ensures 1 <= |DigitsFrom(i)| <= k
    decreases k
  {
    LastDigitRange(i);
    if CDiv(i, 10) != 0 {
      assert k > 1;
      DigitCount(CDiv(i, 10), k - 1);
    }
  }

  lemma Power10Values()
    ensures Power10(19) == 10_000_000_000_000_000_000
    ensures Power10(20) == 100_000_000_000_000_000_000
  {
    assert Power10(4) == 10_000;
    assert Power10(8) == 100_000_000;
    assert Power10(12) == 1_000_000_000_000;
    assert Power10(16) == 10_000_000_000_000_000;
  }

  /** The text of any 64-bit integer, signed or unsigned, is at most 20 characters: 21 with the NUL. */
  lemma SixtyFourBitTextFits(value: int)
    requires -0x8000_0000_0000_0000 <= value < 0x1_0000_0000_0000_0000
    ensures 1 <= |Decimal(value)| <= 20
  {
    Power10Values();
    DigitCount(value, if value < 0 then 19 else 20);
    ReversedProps(DigitsFrom(value) + Sign(value));
  }

  lemma {:induction false} HexText(n: nat)
    ensures |Hex(n)| > 0 && forall i :: 0 <= i < |Hex(n)| ==> IsHexDigit(Hex(n)[i])
    ensures ParseHex(Hex(n)) == n
    ensures n > 0 ==> Hex(n)[0] != '0'
    decreases n
  {
    var c := DIGITS_HEX[n % 16];
    assert IsHexDigit(c) && HexValue(c) == n % 16;
    var s := Hex(n);
    if n < 16 {
      assert n / 16 == 0;
      ReversedCons(c, []);
      assert HexFrom(n) == [c] + [];
      assert s == [c] && s[..|s| - 1] == "";
    } else {
      HexText(n / 16);
      ReversedCons(c, HexFrom(n / 16));
      assert s == Hex(n / 16) + [c] && s[..|s| - 1] == Hex(n / 16);
    }
  }

  function Power16(k: nat): nat {
    if k == 0 then 1 else 16 * Power16(k - 1)
  }

  lemma {:induction false} HexDigitCount(n: nat, k: nat)
    requires k >= 1 && n < Power16(k)
    ensures 1 <= |HexFrom(n)| <= k
    decreases k
  {
    if n / 16 != 0 {
      HexDigitCount(n / 16, k - 1);
    }
  }

  /** The text of any 64-bit pointer is at most 16 hexadecimal digits. */
  lemma PointerTextFits(value: nat)
    requires value < 0x1_0000_0000_0000_0000
    ensures 1 <= |Hex(value)| <= 16
  {
    assert Power16(4) == 0x1_0000;
    assert Power16(8) == 0x1_0000_0000;
    assert Power16(12) == 0x1_0000_0000_0000;
    assert Power16(16) == 0x1_0000_0000_0000_0000;
    HexDigitCount(value, 16);
    ReversedProps(HexFrom(value));
  }

  // ---------- The conversion loops, writing through a pointer ----------

  /** std::reverse on a[lo..hi]. */
  method ReverseRange(a: array<char>, lo: nat, hi: nat)
    requires lo <= hi <= a.Length
    modifies a
    ensures a[lo..hi] == Reversed(old(a[lo..hi]))
    ensures forall k :: 0 <= k < a.Length && !(lo <= k < hi) ==> a[k] == old(a[k])
  {
    ghost var was := a[..];
    var i, j := lo, hi;
    while i + 1 < j
      invariant lo <= i <= j <= hi && i - lo == hi - j
      invariant forall k :: lo <= k < i ==> a[k] == was[lo + hi - 1 - k]
      invariant forall k :: j <= k < hi ==> a[k] == was[lo + hi - 1 - k]
      invariant forall k :: 0 <= k < a.Length && (k < lo || i <= k < j || hi <= k) ==> a[k] == was[k]
    {
      j := j - 1;
      a[i], a[j] := a[j], a[i];
      i := i + 1;
    }
    ReversedSlice(was, a[..], lo, hi);
  }

  lemma ReversedSlice(was: seq<char>, now: seq<char>, lo: nat, hi: nat)
    requires lo <= hi <= |was| == |now|
    requires forall k :: lo <= k < hi ==> now[k] == was[lo + hi - 1 - k]
    ensures now[lo..hi] == Reversed(was[lo..hi])
  {
    hide Reversed;
    ReversedProps(was[lo..hi]);
  }

  /** What one turn of the loop writes, and what is then left to write. */
  lemma DigitsStep(all: seq<char>, out: seq<char>, i: int)
    requires all == out + DigitsFrom(i)
    ensures -9 <= CMod(i, 10) <= 9 && |out| < |all|
    ensures CDiv(i, 10) != 0 ==> Abs(CDiv(i, 10)) < Abs(i)
    ensures all == out + [DigitOf(CMod(i, 10))] + if CDiv(i, 10) != 0 then DigitsFrom(CDiv(i, 10)) else []
  {
    hide CDiv, CMod, DigitOf;
    LastDigitRange(i);
  }

  lemma HexStep(all: seq<char>, out: seq<char>, i: nat)
    requires all == out + HexFrom(i)
    ensures |out| < |all|
    ensures all == out + [DIGITS_HEX[i % 16]] + if i / 16 != 0 then HexFrom(i / 16) else []
  {
  }

  /** The do/while loop of `convert`: the digits of `value` from `start` on. */
  method WriteDigits(a: array<char>, start: nat, value: int) returns (p: nat)
    requires start + |DigitsFrom(value)| <= a.Length
    modifies a
    ensures p == start + |DigitsFrom(value)| && a[start..p] == DigitsFrom(value)
    ensures forall k :: 0 <= k < a.Length && !(start <= k < p) ==> a[k] == old(a[k])
  {
    hide *;
    p := start;
    var i, more := value, true;
    ghost var all, out: seq<char> := DigitsFrom(value), [];
    while more
      invariant start <= p && |out| == p - start
      invariant all == out + if more then DigitsFrom(i) else []
      invariant forall k :: start <= k < p <= a.Length ==> a[k] == out[k - start]
      invariant forall k :: 0 <= k < a.Length && !(start <= k < p) ==> a[k] == old(a[k])
      decreases more, Abs(i)
    {
      DigitsStep(all, out, i);
      var lsd := CMod(i, 10);
      i := CDiv(i, 10);
      a[p] := DigitOf(lsd);
      out := out + [DigitOf(lsd)];
      p := p + 1;
      more := i != 0;
    }
    assert a[start..p] == out;
  }

  /** convert(buf + start, value): the text, then a NUL, and nothing beyond. */
  method Convert(a: array<char>, start: nat, value: int) returns (len: nat)
    requires start + |Decimal(value)| < a.Length
    modifies a
    ensures len == |Decimal(value)|
    ensures a[start..start + len] == Decimal(value) && a[start + len] == '\0'
    ensures forall k :: 0 <= k < a.Length && !(start <= k <= start + len) ==> a[k] == old(a[k])
  {
    hide DigitsFrom, Reversed;
    ReversedProps(DigitsFrom(value) + Sign(value));
    var p := WriteDigits(a, start, value);
    if value < 0 {
      a[p] := '-';
      p := p + 1;
    }
    assert a[start..p] == DigitsFrom(value) + Sign(value);
    a[p] := '\0';
    ReverseRange(a, start, p);
    len := p - start;
  }

  /** convertHex(buf + start, value). */
  method ConvertHex(a: array<char>, start: nat, value: nat) returns (len: nat)
    requires start + |Hex(value)| < a.Length
    modifies a
    ensures len == |Hex(value)|
    ensures a[start..start + len] == Hex(value) && a[start + len] == '\0'
    ensures forall k :: 0 <= k < a.Length && !(start <= k <= start + len) ==> a[k] == old(a[k])
  {
    hide HexFrom, Reversed;
    ReversedProps(HexFrom(value));
    var p, i, more := start, value, true;
    ghost var all, out: seq<char> := HexFrom(value), [];
    while more
      invariant start <= p && |out| == p - start
      invariant all == out + if more then HexFrom(i) else []
      invariant forall k :: start <= k < p <= a.Length ==> a[k] == out[k - start]
      invariant forall k :: 0 <= k < a.Length && !(start <= k < p) ==> a[k] == old(a[k])
      decreases more, i
    {
      HexStep(all, out, i);
      var lsd := i % 16;
      i := i / 16;
      a[p] := DIGITS_HEX[lsd];
      out := out + [DIGITS_HEX[lsd]];
      p := p + 1;
      more := i != 0;
    }
    assert a[start..p] == HexFrom(value);
    a[p] := '\0';
    assert a[start..p] == HexFrom(value);
    ReverseRange(a, start, p);
    len := p - start;
  }

  method ConvertPointer(a: array<char>, start: nat, value: nat) returns (len: nat)
    requires start + 2 + |Hex(value)| < a.Length
    modifies a
    ensures len == 2 + |Hex(value)| && a[start..start + len] == "0x" + Hex(value)
    ensures forall k :: 0 <= k < a.Length && !(start <= k <= start + len) ==> a[k] == old(a[k])
  {
    hide Hex;
    a[start] := '0';
    a[start + 1] := 'x';
    len := ConvertHex(a, start + 2, value);
    len := len + 2;
    assert a[start..start + 2] == "0x";
    assert a[start..start + len] == a[start..start + 2] + a[start + 2..start + len];
  }

  // ---------- FixedBuffer ----------

  /** What appending `line` leaves in a buffer of `size` bytes: all of it or nothing. */
  function Appended(contents: string, line: string, size: nat): string {
    if size - |contents| > |line| then contents + line else contents
  }

  class FixedBuffer {
    const data: array<char>
    var cur: nat

    ghost predicate Valid()
      reads this
    {
      cur < data.Length
    }

    ghost function Contents(): string
      requires Valid()
      reads this, data
    {
      data[..cur]
    }

    constructor (size: nat)
      requires size > 0
      ensures Valid() && fresh(data) && data.Length == size && Contents() == ""
    {
      data := new char[size](_ => '\0');
      cur := 0;
    }

    function Avail(): (r: nat)
      requires Valid()
      reads this
      ensures r + cur == data.Length && r > 0
    {
      data.Length - cur
    }

    method Append(buf: string)
      requires Valid()
      modifies this`cur, data
      ensures Valid()
      ensures Contents() == Appended(old(Contents()), buf, data.Length)
    {
      if Avail() > |buf| {
        forall i | 0 <= i < |buf| { data[cur + i] := buf[i]; }
        cur := cur + |buf|;
      }
    }

    method Reset()
      requires Valid()
      modifies this`cur
      ensures Valid() && Contents() == ""
    {
      cur := 0;
    }

    /** LogStream::formatInteger: the whole text if 32 bytes are free, otherwise nothing. */
    method FormatInteger(v: int)
      requires Valid() && -0x8000_0000_0000_0000 <= v < 0x1_0000_0000_0000_0000
      modifies this`cur, data
      ensures Valid()
      ensures Contents() == old(Contents()) + if data.Length - |old(Contents())| >= MAX_NUMERIC_SIZE then Decimal(v) else ""
    {
      hide Decimal;
      if Avail() >= MAX_NUMERIC_SIZE {
        SixtyFourBitTextFits(v);
        var len := Convert(data, cur, v);
        cur := cur + len;
        assert Contents() == old(Contents()) + Decimal(v);
      }
    }

    /** LogStream::operator<<(const void*). */
    method FormatPointer(v: nat)
      requires Valid() && v < 0x1_0000_0000_0000_0000
      modifies this`cur, data
      ensures Valid()
      ensures Contents() == old(Contents()) + if data.Length - |old(Contents())| >= MAX_NUMERIC_SIZE then "0x" + Hex(v) else ""
    {
      hide Hex;
      if Avail() >= MAX_NUMERIC_SIZE {
        PointerTextFits(v);
        var len := ConvertPointer(data, cur, v);
        cur := cur + len;
        assert Contents() == old(Contents()) + ("0x" + Hex(v));
      }
    }
  }
}
