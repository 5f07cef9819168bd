/** Shared vocabulary of the model: failure-carrying results, Java's 32-bit
    integer operators, and the handful of java.lang.String / Integer
    operations the controller code relies on (hex and decimal formatting,
    Integer.parseInt, String.split, String.strip). */
module Common {

  datatype Option<+T> = None | Some(value: T)

  datatype Result<+T, +E> = Ok(value: T) | Err(error: E)

  // ---------------------------------------------------------------------
  // Java int arithmetic
  // ---------------------------------------------------------------------

  const TWO_32: int := 0x1_0000_0000
  const TWO_31: int := 0x8000_0000

  /** A value that fits in a Java `int`. */
  predicate IsInt32(x: int) {
    -TWO_31 <= x < TWO_31
  }

  /** A value that fits in one byte on the wire. */
  predicate IsByte(x: int) {
    0 <= x < 256
  }

  /** Java's `x >> 8` on an int: an arithmetic shift, i.e. division rounded
      towards minus infinity (Dafny's `/` by a positive divisor). */
  function Shr8(x: int): int {
    x / 256
  }

  /** Java's `x / m` for m > 0: the quotient is rounded towards zero. */
  function JavaDiv(x: int, m: int): int
    requires m > 0
  {
    if x >= 0 then x / m else -((-x) / m)
  }

  /** Java's `x % m` for m > 0: the remainder takes the sign of x, and with
      the truncated quotient it gives x back, `(x / m) * m + x % m == x`. */
  function JavaRem(x: int, m: int): (r: int)
    requires m > 0
    ensures x >= 0 ==> 0 <= r < m
    ensures x < 0 ==> -m < r <= 0
    ensures m * JavaDiv(x, m) + r == x
  {
    if x >= 0 then x % m else -((-x) % m)
  }

  /** Splitting an int into its `>> 8` and `% 256` bytes loses nothing for
      a non-negative value: the receiver's `hi * 256 + lo` gives it back. */
  lemma HiLoRoundTrip(x: int)
    requires x >= 0
    ensures Shr8(x) * 256 + JavaRem(x, 256) == x
  {
  }

  function Pow2(k: nat): nat
  {
    if k == 0 then 1 else 2 * Pow2(k - 1)
  }

  /** Bitwise exclusive or of two naturals, bit by bit from the low end. */
  function XorNat(a: nat, b: nat): nat
    decreases a + b
  {
    if a == 0 then b
    else if b == 0 then a
    else 2 * XorNat(a / 2, b / 2) + (if a % 2 == b % 2 then 0 else 1)
  }

  lemma {:induction false} XorNatBound(a: nat, b: nat, k: nat)
    requires a < Pow2(k) && b < Pow2(k)
    ensures XorNat(a, b) < Pow2(k)
    decreases a + b
  {
    if a != 0 && b != 0 {
      XorNatBound(a / 2, b / 2, k - 1);
    }
  }

  /** Reading 32 bits as a two's-complement Java int. */
  function Signed32(u: int): int {
    if u < TWO_31 then u else u - TWO_32
  }

  /** Java's `a ^ b` on two ints (two's complement, 32 bits). */
  function Xor(a: int, b: int): int {
    Signed32(XorNat(a % TWO_32, b % TWO_32))
  }

  lemma {:induction false} Pow2Add(m: nat, n: nat)
    ensures Pow2(m + n) == Pow2(m) * Pow2(n)
  {
    if m > 0 {
      Pow2Add(m - 1, n);
    }
  }

  /** Whatever its operands, `^` yields a Java int. */
  lemma XorRange(a: int, b: int)
    ensures IsInt32(Xor(a, b))
  {
    Pow2Byte();
    Pow2Add(8, 8);
    Pow2Add(16, 16);
    XorNatBound(a % TWO_32, b % TWO_32, 32);
  }

  /** Exclusive or with 0 is the identity on Java ints. */
  lemma XorZero(x: int)
    requires IsInt32(x)
    ensures Xor(x, 0) == x
  {
  }

  lemma Pow2Byte()
    ensures Pow2(8) == 256
  {
    assert Pow2(4) == 16;
    Pow2Add(4, 4);
  }

  /** Two bytes xor to a byte. */
  lemma XorOfBytes(a: int, b: int)
    requires IsByte(a) && IsByte(b)
    ensures IsByte(Xor(a, b))
  {
    assert a % TWO_32 == a && b % TWO_32 == b;
    Pow2Byte();
    XorNatBound(a, b, 8);
    assert XorNat(a, b) < 256;
  }

  // ---------------------------------------------------------------------
  // Formatting numbers as text
  // ---------------------------------------------------------------------

  function HexChar(d: int): char
    requires 0 <= d < 16
  {
    "0123456789abcdef"[d]
  }

  function DecChar(d: int): char
    requires 0 <= d < 10
  {
    "0123456789"[d]
  }

  /** Lower-case hexadecimal digits of n, without leading zeros ("0" for 0). */
  function HexDigits(n: nat): (s: string)
    ensures |s| >= 1
    decreases n
  {
    if n < 16 then [HexChar(n)] else HexDigits(n / 16) + [HexChar(n % 16)]
  }

  /** Decimal digits of n, without leading zeros ("0" for 0). */
  function DecDigits(n: nat): (s: string)
    ensures |s| >= 1
    decreases n
  {
    if n < 10 then [DecChar(n)] else DecDigits(n / 10) + [DecChar(n % 10)]
  }

  /** s with '0' put in front until it is width long. */
  function PadZero(s: string, width: int): (r: string)
    ensures |r| == if |s| < width then width else |s|
    decreases width - |s|
  {
    if |s| < width then PadZero("0" + s, width) else s
  }

  predicate IsHexChar(c: char) {
    '0' <= c <= '9' || 'a' <= c <= 'f'
  }

  /** Integer.toHexString: lower-case hex digits only, one digit exactly
      below 16, and a leading '0' only for zero. */
  lemma {:induction false} HexDigitsForm(n: nat)
    ensures forall i :: 0 <= i < |HexDigits(n)| ==> IsHexChar(HexDigits(n)[i])
    ensures |HexDigits(n)| == 1 <==> n < 16
    ensures HexDigits(n)[0] == '0' <==> n == 0
    decreases n
  {
    if n >= 16 {
      HexDigitsForm(n / 16);
      var prefix := HexDigits(n / 16);
      assert HexDigits(n) == prefix + [HexChar(n % 16)];
    }
  }

  /** Decimal digits only, one digit exactly below 10, and a leading '0'
      only for zero. */
  lemma {:induction false} DecDigitsForm(n: nat)
    ensures forall i :: 0 <= i < |DecDigits(n)| ==> '0' <= DecDigits(n)[i] <= '9'
    ensures |DecDigits(n)| == 1 <==> n < 10
    ensures DecDigits(n)[0] == '0' <==> n == 0
    decreases n
  {
    if n >= 10 {
      DecDigitsForm(n / 10);
      var prefix := DecDigits(n / 10);
      assert DecDigits(n) == prefix + [DecChar(n % 10)];
    }
  }

  /** Zero padding keeps s as the suffix and puts only '0' in front of it. */
  lemma {:induction false} PadZeroForm(s: string, width: int)
    ensures var r := PadZero(s, width);
      && |s| <= |r| && r[|r| - |s|..] == s
      && forall i :: 0 <= i < |r| - |s| ==> r[i] == '0'
    decreases width - |s|
  {
    if |s| < width {
      PadZeroForm("0" + s, width);
      var r := PadZero(s, width);
      assert r == PadZero("0" + s, width);
      assert r[|r| - |s| - 1..] == "0" + s;
      assert r[|r| - |s|..] == ("0" + s)[1..];
    }
  }

  /** `String.format("%0<width>x", v)` for a Java int: a negative value is
      printed as its unsigned 32-bit pattern. */
  function HexFormat(v: int, width: nat): string {
    PadZero(HexDigits(if v < 0 then (v % TWO_32) else v), width)
  }

  function UpperChar(c: char): char {
    if 'a' <= c <= 'z' then (c as int - 32) as char else c
  }

  function LowerChar(c: char): char {
    if 'A' <= c <= 'Z' then (c as int + 32) as char else c
  }

  function Upper(s: string): (r: string)
    ensures |r| == |s|
    ensures forall i :: 0 <= i < |s| ==> r[i] == UpperChar(s[i])
  {
    seq(|s|, i requires 0 <= i < |s| => UpperChar(s[i]))
  }

  /** toUpperCase on ASCII: no lower-case letter is left, a lower-case
      letter becomes its capital, anything else is kept, and a second
      pass changes nothing. */
  lemma UpperForm(s: string)
    ensures forall i :: 0 <= i < |s| ==> !('a' <= Upper(s)[i] <= 'z')
    ensures forall i :: 0 <= i < |s| && 'a' <= s[i] <= 'z' ==> Upper(s)[i] as int == s[i] as int - 32
    ensures forall i :: 0 <= i < |s| && !('a' <= s[i] <= 'z') ==> Upper(s)[i] == s[i]
    ensures Upper(Upper(s)) == Upper(s)
  {
  }

  /** `String.valueOf(v)` for a Java int. */
  function DecString(v: int): string {
    if v >= 0 then DecDigits(v) else "-" + DecDigits(-v)
  }

  /** `String.format("%0<width>d", v)`: zeros go between the sign and the digits. */
  function DecFormat(v: int, width: nat): string {
    if v >= 0 then PadZero(DecDigits(v), width)
    else "-" + PadZero(DecDigits(-v), width - 1)
  }

  /** A byte printed with "%02x" is exactly its two hex digits. */
  lemma HexFormatByte(b: int)
    requires IsByte(b)
    ensures HexFormat(b, 2) == [HexChar(b / 16), HexChar(b % 16)]
  {
    if b < 16 {
      assert HexDigits(b) == [HexChar(b)];
      assert PadZero([HexChar(b)], 2) == PadZero("0" + [HexChar(b)], 2);
    } else {
      assert HexDigits(b / 16) == [HexChar(b / 16)];
    }
  }

  lemma {:induction false} HexCharInjective(a: int, b: int)
    requires 0 <= a < 16 && 0 <= b < 16 && HexChar(a) == HexChar(b)
    ensures a == b
  {
  }

  /** Two distinct bytes never print to the same "%02x" text. */
  lemma HexFormatByteInjective(a: int, b: int)
    requires IsByte(a) && IsByte(b) && HexFormat(a, 2) == HexFormat(b, 2)
    ensures a == b
  {
    HexFormatByte(a);
    HexFormatByte(b);
    assert HexChar(a / 16) == HexChar(b / 16);
    assert HexChar(a % 16) == HexChar(b % 16);
    HexCharInjective(a / 16, b / 16);
    HexCharInjective(a % 16, b % 16);
  }

  // ---------------------------------------------------------------------
  // Strings
  // ---------------------------------------------------------------------

  predicate StartsWith(s: string, prefix: string) {
    |prefix| <= |s| && s[..|prefix|] == prefix
  }

  /** `String.equalsIgnoreCase`, restricted to ASCII letters. */
  predicate EqualsIgnoreCase(a: string, b: string) {
    |a| == |b| && forall i :: 0 <= i < |a| ==> UpperChar(a[i]) == UpperChar(b[i])
  }

  /** `Character.isWhitespace`. */
  predicate IsJavaWhitespace(c: char) {
    c == ' ' || c == '\t' || c == '\n' || c == '\U{B}' || c == '\U{C}' || c == '\r'
    || ('\U{1C}' <= c <= '\U{1F}')
    || c == '\U{1680}' || ('\U{2000}' <= c <= '\U{2006}') || ('\U{2008}' <= c <= '\U{200A}')
    || c == '\U{2028}' || c == '\U{2029}' || c == '\U{205F}' || c == '\U{3000}'
  }

  function StripLeading(s: string): string {
    if s != [] && IsJavaWhitespace(s[0]) then StripLeading(s[1..]) else s
  }

  function StripTrailing(s: string): string {
    if s != [] && IsJavaWhitespace(s[|s| - 1]) then StripTrailing(s[..|s| - 1]) else s
  }

  /** `String.strip()`. */
  function Strip(s: string): string {
    StripTrailing(StripLeading(s))
  }

  /** Pieces of s between occurrences of d, keeping empty pieces. */
  function SplitAll(s: string, d: char): (r: seq<string>)
    ensures |r| >= 1
  {
    if d !in s then [s]
    else
      var k := IndexOf(s, d);
      [s[..k]] + SplitAll(s[k + 1..], d)
  }

  /** The pieces put back together with d between neighbours. */
  function Join(parts: seq<string>, d: char): string
    requires |parts| >= 1
  {
    if |parts| == 1 then parts[0] else parts[0] + [d] + Join(parts[1..], d)
  }

  /** No piece holds the delimiter. */
  lemma {:induction false} SplitAllPieces(s: string, d: char)
    ensures forall i :: 0 <= i < |SplitAll(s, d)| ==> d !in SplitAll(s, d)[i]
    decreases |s|
  {
    if d in s {
      var k := IndexOf(s, d);
      SplitAllPieces(s[k + 1..], d);
      var rest := SplitAll(s[k + 1..], d);
      var parts := SplitAll(s, d);
      assert parts == [s[..k]] + rest;
      forall i | 0 < i < |parts|
        ensures d !in parts[i]
      {
        assert parts[i] == rest[i - 1];
      }
    }
  }

  /** Joining the pieces with the delimiter gives back the text. */
  lemma {:induction false} SplitAllJoin(s: string, d: char)
    ensures Join(SplitAll(s, d), d) == s
    decreases |s|
  {
    if d in s {
      var k := IndexOf(s, d);
      SplitAllJoin(s[k + 1..], d);
      var rest := SplitAll(s[k + 1..], d);
      JoinCons(s[..k], rest, d);
      assert s == s[..k] + [d] + s[k + 1..];
    }
  }

  lemma JoinCons(first: string, rest: seq<string>, d: char)
    requires |rest| >= 1
    ensures Join([first] + rest, d) == first + [d] + Join(rest, d)
  {
    assert ([first] + rest)[1..] == rest;
  }

  function IndexOf(s: string, d: char): (k: nat)
    requires d in s
    ensures k < |s| && s[k] == d && d !in s[..k]
  {
    if s[0] == d then 0 else 1 + IndexOf(s[1..], d)
  }

  function DropTrailingEmpty(parts: seq<string>): seq<string> {
    if parts != [] && parts[|parts| - 1] == "" then DropTrailingEmpty(parts[..|parts| - 1])
    else parts
  }

  /** `s.split(d)` for a one-character literal delimiter: the pieces between
      delimiters, with trailing empty pieces removed; a string without the
      delimiter splits into itself. */
  function JavaSplit(s: string, d: char): seq<string> {
    if d !in s then [s] else DropTrailingEmpty(SplitAll(s, d))
  }

  // ---------------------------------------------------------------------
  // Integer.parseInt
  // ---------------------------------------------------------------------

  /** Value of one digit in the given radix (ASCII letters either case), or -1. */
  function DigitValue(c: char, radix: int): int {
    var v :=
      if '0' <= c <= '9' then c as int - '0' as int
      else if 'a' <= c <= 'z' then c as int - 'a' as int + 10
      else if 'A' <= c <= 'Z' then c as int - 'A' as int + 10
      else -1;
    if 0 <= v < radix then v else -1
  }

  predicate AllDigits(s: string, radix: int) {
    forall i :: 0 <= i < |s| ==> DigitValue(s[i], radix) >= 0
  }

  function DigitsValue(s: string, radix: int): (n: nat)
    requires 2 <= radix && AllDigits(s, radix)
  {
    if s == [] then 0
    else DigitsValue(s[..|s| - 1], radix) * radix + DigitValue(s[|s| - 1], radix)
  }

  /** At least one digit, after an optional '+' or '-'. */
  predicate SignedDigits(s: string, radix: int) {
    && s != []
    && var body := if s[0] == '-' || s[0] == '+' then s[1..] else s;
    && body != [] && AllDigits(body, radix)
  }

  /** `Integer.parseInt(s, radix)`: an optional sign, at least one digit,
      and a value within the int range; anything else is a
      NumberFormatException (None). */
  function ParseInt(s: string, radix: int): (r: Option<int>)
    requires 2 <= radix <= 36
    ensures r.Some? ==> IsInt32(r.value)
  {
    if s == [] then None
    else
      var neg := s[0] == '-';
      var body := if s[0] == '-' || s[0] == '+' then s[1..] else s;
      if body == [] || !AllDigits(body, radix) then None
      else
        var n := DigitsValue(body, radix);
        var v := if neg then 0 - n as int else n as int;
        if IsInt32(v) then Some(v) else None
  }

  /** Integer.parseInt accepts only an optionally signed digit string; the
      value's sign follows the text's, and an unsigned digit string within
      range is read as its value. */
  lemma ParseIntForm(s: string, radix: int)
    requires 2 <= radix <= 36
    ensures var r := ParseInt(s, radix);
      && (r.Some? ==> SignedDigits(s, radix))
      && (r.Some? && s[0] == '-' ==> r.value <= 0)
      && (r.Some? && s[0] != '-' ==> r.value >= 0)
      && (s != [] && AllDigits(s, radix) && DigitsValue(s, radix) < TWO_31 ==> r == Some(DigitsValue(s, radix) as int))
  {
    if s != [] && AllDigits(s, radix) {
      assert DigitValue(s[0], radix) >= 0;
    }
  }

  /** The decimal text of any int parses back to it. */
  lemma {:induction false} DecDigitsParse(n: nat)
    ensures AllDigits(DecDigits(n), 10) && DigitsValue(DecDigits(n), 10) == n
    decreases n
  {
    var s := DecDigits(n);
    var last := DecChar(n % 10);
    assert DigitValue(last, 10) == n % 10;
    if n >= 10 {
      DecDigitsParse(n / 10);
      var prefix := DecDigits(n / 10);
      assert s == prefix + [last];
      assert s[..|s| - 1] == prefix;
      assert forall i :: 0 <= i < |s| ==> s[i] == if i < |prefix| then prefix[i] else last;
    }
  }

  lemma ParseIntOfDecString(v: int)
    requires IsInt32(v)
    ensures ParseInt(DecString(v), 10) == Some(v)
  {
    if v >= 0 {
      DecDigitsParse(v);
      ParseIntForm(DecDigits(v), 10);
    } else {
      DecDigitsParse(-v);
      ParseNegative(DecDigits(-v));
      assert DecString(v) == "-" + DecDigits(-v);
    }
  }

  lemma ParseNegative(body: string)
    requires body != [] && AllDigits(body, 10) && DigitsValue(body, 10) <= TWO_31
    ensures ParseInt("-" + body, 10) == Some(0 - DigitsValue(body, 10) as int)
  {
    assert ("-" + body)[1..] == body;
  }
}
