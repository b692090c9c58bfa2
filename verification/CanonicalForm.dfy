/**
 What the canonical bytes are, by the standards and not by the writer: the UTF-8 table of
 RFC 3629, the string, number and structure rules of sections 3.2.2 and 3.2.3 of RFC 8785.
 */
module CanonicalForm {
  import opened Basics
  import opened Json
  import opened Ordering
  import opened Sequences
  import opened Canonical

  // ----- characters -----

  predicate Continues(b: Byte) {
    0x80 <= b < 0xC0
  }

  /** The payload bits of a byte. */
  function Bits(b: Byte, marker: int): int {
    b as int - marker
  }

  /** The UTF-8 table of section 3 of RFC 3629: `r` is the sequence for code point `n`. */
  predicate IsUtf8(r: seq<Byte>, n: int) {
    || (|r| == 1 && 0 <= n < 0x80 && r[0] == n)
    || (|r| == 2 && 0x80 <= n < 0x800 && 0xC0 <= r[0] < 0xE0 && Continues(r[1])
        && n == Bits(r[0], 0xC0) * 64 + Bits(r[1], 0x80))
    || (|r| == 3 && 0x800 <= n < 0x10000 && 0xE0 <= r[0] < 0xF0 && Continues(r[1]) && Continues(r[2])
        && n == Bits(r[0], 0xE0) * 4096 + Bits(r[1], 0x80) * 64 + Bits(r[2], 0x80))
    || (|r| == 4 && 0x10000 <= n < 0x110000 && 0xF0 <= r[0] < 0xF8 && Continues(r[1]) && Continues(r[2])
        && Continues(r[3])
        && n == Bits(r[0], 0xF0) * 262144 + Bits(r[1], 0x80) * 4096 + Bits(r[2], 0x80) * 64 + Bits(r[3], 0x80))
  }

  /** The bytes of an ASCII text. */
  function Ascii(s: string): (r: seq<Byte>)
    requires forall i :: 0 <= i < |s| ==> s[i] as int < 128
    ensures |r| == |s| && forall i :: 0 <= i < |s| ==> r[i] == s[i] as int
  {
    seq(|s|, i requires 0 <= i < |s| => s[i] as int)
  }

  /** A lower-case hexadecimal digit and its value. */
  predicate IsHexDigit(b: Byte, v: int) {
    (0 <= v < 10 && b == '0' as int + v) || (10 <= v < 16 && b == 'a' as int + (v - 10))
  }

  /** The letter of a two-character escape, for the characters that have one. */
  function ShortForm(c: char): Option<char> {
    if c == '\"' then Some('\"')
    else if c == '\\' then Some('\\')
    else if c as int == 0x08 then Some('b')
    else if c == '\t' then Some('t')
    else if c == '\n' then Some('n')
    else if c as int == 0x0C then Some('f')
    else if c == '\r' then Some('r')
    else None
  }

  /** Section 3.2.2.2 of RFC 8785: how character `c` stands in a string. */
  predicate IsWritten(r: seq<Byte>, c: char) {
    var n := c as int;
    if ShortForm(c).Some? then |r| == 2 && r[0] == '\\' as int && r[1] == ShortForm(c).value as int
    else if n < 0x20 then
      |r| == 6 && r[..4] == Ascii("\\u00") && IsHexDigit(r[4], n / 16) && IsHexDigit(r[5], n % 16)
    else IsUtf8(r, n)
  }

  lemma TwoBytes(n: int)
    requires 0x80 <= n < 0x800
    ensures 0xC0 <= 0xC0 + n / 0x40 < 0xE0 && n == n / 0x40 * 64 + n % 0x40
  {
  }

  lemma ThreeBytes(n: int)
    requires 0x800 <= n < 0x10000
    ensures 0xE0 <= 0xE0 + n / 0x40 / 0x40 < 0xF0 && n == n / 0x40 / 0x40 * 4096 + n / 0x40 % 0x40 * 64 + n % 0x40
  {
  }

  lemma FourBytes(n: int)
    requires 0x10000 <= n < 0x110000
    ensures 0xF0 <= 0xF0 + n / 0x40 / 0x40 / 0x40 < 0xF8
    ensures n == n / 0x40 / 0x40 / 0x40 * 262144 + n / 0x40 / 0x40 % 0x40 * 4096 + n / 0x40 % 0x40 * 64 + n % 0x40
  {
  }

  lemma Utf8IsStandard(c: char)
    ensures IsUtf8(Utf8(c), c as int)
  {
    var n := c as int;
    if 0x80 <= n < 0x800 { TwoBytes(n); }
    else if 0x800 <= n < 0x10000 { ThreeBytes(n); }
    else if 0x10000 <= n { FourBytes(n); }
  }

  lemma EscapeIsStandard(c: char)
    ensures IsWritten(EscapeChar(c), c)
  {
    if c as int >= 0x20 { Utf8IsStandard(c); }
    assert "\\u00" == ['\\', 'u', '0', '0'];
  }

  /** Base-64 digits are determined by the number. */
  lemma Base64(x: int, y: int, n: int)
    requires 0 <= x && 0 <= y < 64 && n == x * 64 + y
    ensures x == n / 64 && y == n % 64
  {
  }

  lemma DigitsOf(r: seq<Byte>, n: int)
    requires IsUtf8(r, n)
    ensures |r| == if n < 0x80 then 1 else if n < 0x800 then 2 else if n < 0x10000 then 3 else 4
    ensures |r| == 1 ==> r[0] == n
    ensures |r| == 2 ==> Bits(r[0], 0xC0) == n / 64 && Bits(r[1], 0x80) == n % 64
    ensures |r| == 3 ==>
        Bits(r[0], 0xE0) == n / 64 / 64 && Bits(r[1], 0x80) == n / 64 % 64 && Bits(r[2], 0x80) == n % 64
    ensures |r| == 4 ==>
      && Bits(r[0], 0xF0) == n / 64 / 64 / 64 && Bits(r[1], 0x80) == n / 64 / 64 % 64
      && Bits(r[2], 0x80) == n / 64 % 64 && Bits(r[3], 0x80) == n % 64
  {
    if |r| == 2 {
      Base64(Bits(r[0], 0xC0), Bits(r[1], 0x80), n);
    } else if |r| == 3 {
      var m := Bits(r[0], 0xE0) * 64 + Bits(r[1], 0x80);
      Base64(m, Bits(r[2], 0x80), n);
      Base64(Bits(r[0], 0xE0), Bits(r[1], 0x80), m);
    } else if |r| == 4 {
      var l := Bits(r[0], 0xF0) * 64 + Bits(r[1], 0x80);
      var m := l * 64 + Bits(r[2], 0x80);
      Base64(m, Bits(r[3], 0x80), n);
      Base64(l, Bits(r[2], 0x80), m);
      Base64(Bits(r[0], 0xF0), Bits(r[1], 0x80), l);
    }
  }

  lemma Utf8IsUnique(r: seq<Byte>, q: seq<Byte>, n: int)
    requires IsUtf8(r, n) && IsUtf8(q, n)
    ensures r == q
  {
    DigitsOf(r, n);
    DigitsOf(q, n);
  }

  /** The table leaves no choice: it fixes the bytes of every character. */
  lemma WrittenIsUnique(r: seq<Byte>, q: seq<Byte>, c: char)
    requires IsWritten(r, c) && IsWritten(q, c)
    ensures r == q
  {
    var n := c as int;
    if ShortForm(c).None? && n < 0x20 {
      assert r == r[..4] + [r[4], r[5]] && q == q[..4] + [q[4], q[5]];
    } else if ShortForm(c).None? {
      Utf8IsUnique(r, q, n);
    }
  }

  // ----- strings -----

  function Flatten(pieces: seq<seq<Byte>>): seq<Byte> {
    if pieces == [] then [] else pieces[0] + Flatten(pieces[1..])
  }

  /** The bytes of each character. */
  function Pieces(s: string): seq<seq<Byte>> {
    seq(|s|, i requires 0 <= i < |s| => EscapeChar(s[i]))
  }

  lemma {:induction false} EscapeAllFlattens(s: string)
    ensures EscapeAll(s) == Flatten(Pieces(s))
  {
    if s != [] {
      EscapeAllFlattens(s[1..]);
      assert Pieces(s)[0] == EscapeChar(s[0]) && Pieces(s)[1..] == Pieces(s[1..]);
    }
  }

  /** A string is written between quotation marks, character by character as the standard has
      it: nothing else is escaped, and no character is left out or added. */
  lemma StringIsStandard(s: string)
    ensures |Pieces(s)| == |s| && forall i :: 0 <= i < |s| ==> IsWritten(Pieces(s)[i], s[i])
    ensures Quoted(s) == Ascii("\"") + (Flatten(Pieces(s)) + Ascii("\""))
  {
    forall i | 0 <= i < |s| ensures IsWritten(Pieces(s)[i], s[i]) { EscapeIsStandard(s[i]); }
    EscapeAllFlattens(s);
    assert Ascii("\"") == [34];
  }

  // ----- numbers -----

  /** Digits without a leading zero, unless the number is zero. */
  lemma {:induction false} NoLeadingZero(n: nat)
    ensures Digits(n)[0] == '0' as int <==> n == 0
  {
    if n >= 10 { NoLeadingZero(n / 10); }
  }

  /** An integer is written as its decimal digits, the sign in front of a negative one only. */
  lemma DecimalIsStandard(i: int)
    ensures var r := Decimal(i);
      && r != [] && (r[0] == '-' as int <==> i < 0)
      && (var ds := if i < 0 then r[1..] else r;
          && ds != [] && (forall k :: 0 <= k < |ds| ==> '0' as int <= ds[k] <= '9' as int)
          && (ds[0] == '0' as int <==> i == 0) && DigitsValue(ds) == if i < 0 then -i else i)
  {
    var n := if i < 0 then -i else i;
    NoLeadingZero(n);
    DigitsRoundTrip(n);
    if i < 0 { assert Decimal(i)[1..] == Digits(-i); }
  }

  // ----- structure -----

  /** The parts with a comma between each two. */
  function Commas(parts: seq<seq<Byte>>): seq<Byte> {
    if parts == [] then [] else if |parts| == 1 then parts[0] else parts[0] + Ascii(",") + Commas(parts[1..])
  }

  ghost function Encodings(items: seq<Value>): seq<seq<Byte>>
    requires forall i :: 0 <= i < |items| ==> IntegerOnly(items[i])
  {
    seq(|items|, i requires 0 <= i < |items| => Encode(items[i]))
  }

  ghost function MemberTexts(v: Value, keys: seq<string>): seq<seq<Byte>>
    requires v.Obj? && IntegerOnly(v) && forall i :: 0 <= i < |keys| ==> keys[i] in v.fields
  {
    seq(|keys|, i requires 0 <= i < |keys| => Quoted(keys[i]) + Ascii(":") + Encode(v.fields[keys[i]]))
  }

  /** Each further part behind its comma. */
  function Behind(parts: seq<seq<Byte>>): seq<Byte> {
    if parts == [] then [] else Ascii(",") + parts[0] + Behind(parts[1..])
  }

  lemma {:induction false} CommasAreBehind(parts: seq<seq<Byte>>)
    requires parts != []
    ensures Commas(parts) == parts[0] + Behind(parts[1..])
  {
    if |parts| > 1 {
      CommasAreBehind(parts[1..]);
      var a, b, c := parts[0], parts[1..][0], Behind(parts[1..][1..]);
      Bracket(a, Ascii(","), b, c);
      Assoc(a + Ascii(","), b, c);
    }
  }

  lemma {:induction false} ItemsBehind(items: seq<Value>)
    requires forall i :: 0 <= i < |items| ==> IntegerOnly(items[i])
    ensures Items(items, true) == Behind(Encodings(items))
  {
    if items != [] {
      ItemsBehind(items[1..]);
      assert Encodings(items)[1..] == Encodings(items[1..]);
      Assoc(Ascii(","), Encode(items[0]), Items(items[1..], true));
      assert Ascii(",") == [44];
    }
  }

  lemma {:induction false} MembersBehind(v: Value, keys: seq<string>)
    requires v.Obj? && IntegerOnly(v) && forall i :: 0 <= i < |keys| ==> keys[i] in v.fields
    ensures Members(v, keys, true) == Behind(MemberTexts(v, keys))
    decreases |keys|
  {
    if keys != [] {
      MembersBehind(v, keys[1..]);
      assert MemberTexts(v, keys)[1..] == MemberTexts(v, keys[1..]);
      var q, e, r := Quoted(keys[0]), Encode(v.fields[keys[0]]), Members(v, keys[1..], true);
      MemberChain(q, e, r);
      Assoc(Ascii(","), q + Ascii(":") + e, r);
      assert Ascii(",") == [44];
    }
  }

  lemma MemberChain(q: seq<Byte>, e: seq<Byte>, r: seq<Byte>)
    ensures q + ([58] + (e + r)) == (q + Ascii(":") + e) + r
  {
    assert Ascii(":") == [58];
    Chain(q, [58], e, r);
  }

  /** Scalars: the three literals, decimal integers, quoted strings. */
  lemma ScalarsAreStandard()
    ensures Encode(Null) == Ascii("null")
    ensures Encode(Bool(true)) == Ascii("true") && Encode(Bool(false)) == Ascii("false")
    ensures forall i: Integer :: Encode(Int(i)) == Decimal(i)
    ensures forall s: string :: Encode(Str(s)) == Quoted(s)
  {
  }

  /** An array is its elements in order, separated by commas and nothing else. */
  lemma ArrayIsStandard(items: seq<Value>)
    requires IntegerOnly(Arr(items))
    ensures Encode(Arr(items)) == Ascii("[") + Commas(Encodings(items)) + Ascii("]")
  {
    assert Ascii("[") == [91] && Ascii("]") == [93];
    if items != [] {
      ItemsBehind(items[1..]);
      CommasAreBehind(Encodings(items));
      assert Encodings(items)[1..] == Encodings(items[1..]);
      assert [] + (Encode(items[0]) + Items(items[1..], true)) == Encode(items[0]) + Items(items[1..], true);
    }
  }

  /** An object is its members in the order of their keys, `"key":value`, separated by commas. */
  lemma ObjectIsStandard(v: Value)
    requires v.Obj? && IntegerOnly(v)
    ensures Encode(v) == Ascii("{") + Commas(MemberTexts(v, SortedKeys(v.fields.Keys))) + Ascii("}")
  {
    var keys := SortedKeys(v.fields.Keys);
    assert Ascii("{") == [123] && Ascii("}") == [125];
    if keys != [] {
      MembersBehind(v, keys[1..]);
      CommasAreBehind(MemberTexts(v, keys));
      assert MemberTexts(v, keys)[1..] == MemberTexts(v, keys[1..]);
      var q, e, r := Quoted(keys[0]), Encode(v.fields[keys[0]]), Members(v, keys[1..], true);
      MemberChain(q, e, r);
      assert [] + (q + ([58] + (e + r))) == q + ([58] + (e + r));
    }
  }

  // ----- key order -----

  /** Characters as section 3.2.3 of RFC 8785 orders them: beyond U+FFFF they stand where the
      surrogates do, between U+D7FF and U+E000. */
  predicate CharBefore(c: char, d: char) {
    if (c as int > 0xFFFF) == (d as int > 0xFFFF) then c < d
    else if c as int > 0xFFFF then d as int >= 0xE000
    else (c as int) < 0xD800
  }

  lemma CharUnits(c: char, d: char, x: seq<int>, y: seq<int>)
    requires c != d
    ensures LexLess(Utf16Char(c) + x, Utf16Char(d) + y) <==> CharBefore(c, d)
  {
    var p, q := Utf16Char(c), Utf16Char(d);
    assert (p + x)[0] == p[0] && (q + y)[0] == q[0];
    if |p| == 2 && |q| == 2 {
      assert (p + x)[1..] == [p[1]] + x && (q + y)[1..] == [q[1]] + y;
      PairOrder(c as int - 0x10000, d as int - 0x10000);
    }
  }

  lemma PairOrder(m: int, n: int)
    requires 0 <= m && 0 <= n && m != n
    ensures m < n <==> m / 0x400 < n / 0x400 || (m / 0x400 == n / 0x400 && m % 0x400 < n % 0x400)
  {
    assert m == m / 0x400 * 0x400 + m % 0x400 && n == n / 0x400 * 0x400 + n % 0x400;
  }

  lemma {:induction false} SamePrefix(p: seq<int>, x: seq<int>, y: seq<int>)
    ensures LexLess(p + x, p + y) == LexLess(x, y)
  {
    if p == [] {
      assert p + x == x && p + y == y;
    } else {
      assert (p + x)[1..] == p[1..] + x && (p + y)[1..] == p[1..] + y;
      SamePrefix(p[1..], x, y);
    }
  }

  lemma {:induction false} UnitsAppend(a: string, b: string)
    ensures Utf16(a + b) == Utf16(a) + Utf16(b)
  {
    if a == [] {
      assert a + b == b;
    } else {
      assert (a + b)[1..] == a[1..] + b;
      UnitsAppend(a[1..], b);
      Assoc(Utf16Char(a[0]), Utf16(a[1..]), Utf16(b));
    }
  }

  /** Keys are ordered by the first character in which they differ. */
  lemma FirstDifferenceDecides(p: string, c: char, x: string, d: char, y: string)
    requires c != d
    ensures Utf16Less(p + ([c] + x), p + ([d] + y)) <==> CharBefore(c, d)
  {
    UnitsAppend(p, [c] + x);
    UnitsAppend(p, [d] + y);
    SamePrefix(Utf16(p), Utf16([c] + x), Utf16([d] + y));
    assert ([c] + x)[1..] == x && ([d] + y)[1..] == y;
    CharUnits(c, d, Utf16(x), Utf16(y));
  }

  /** A key comes before every longer key that begins with it. */
  lemma PrefixComesFirst(p: string, x: string)
    requires x != ""
    ensures Utf16Less(p, p + x)
  {
    UnitsAppend(p, x);
    assert Utf16(p) + [] == Utf16(p);
    SamePrefix(Utf16(p), [], Utf16(x));
    assert Utf16(x) != [];
  }
}
