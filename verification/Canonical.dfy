/**
 Canonical JSON for ACI digests (`src/aci/canonical.rs`): the integer-only subset of
 RFC 8785.  `Encode` is the byte string a value stands for; the writers append it to a
 shared output buffer, collecting object keys in whatever order the map yields them.
 */
module Canonical {
  import opened Basics
  import opened Json
  import opened Ordering
  import opened Sequences

  // ----- UTF-16 key order (section 3.2.3 of RFC 8785) -----

  /** The UTF-16 code units of one character. */
  function Utf16Char(c: char): (r: seq<int>)
    ensures |r| == (if c as int < 0x10000 then 1 else 2)
  {
    if c as int < 0x10000 then [c as int]
    else [0xD800 + (c as int - 0x10000) / 0x400, 0xDC00 + (c as int - 0x10000) % 0x400]
  }

  function Utf16(s: string): seq<int> {
    if s == [] then [] else Utf16Char(s[0]) + Utf16(s[1..])
  }

  predicate Utf16Less(a: string, b: string) {
    LexLess(Utf16(a), Utf16(b))
  }

  /** The first code unit tells a surrogate pair from a lone unit, so encoding is injective. */
  lemma Utf16CharPrefixFree(c: char, d: char, s: seq<int>, t: seq<int>)
    requires Utf16Char(c) + s == Utf16Char(d) + t
    ensures c == d && s == t
  {
    var x, y := Utf16Char(c) + s, Utf16Char(d) + t;
    assert x[0] == Utf16Char(c)[0] && y[0] == Utf16Char(d)[0];
    assert (c as int < 0x10000) == (d as int < 0x10000);
    if c as int >= 0x10000 {
      assert x[1] == Utf16Char(c)[1] && y[1] == Utf16Char(d)[1];
    }
    assert s == x[|Utf16Char(c)|..] && t == y[|Utf16Char(d)|..];
  }

  lemma {:induction false} Utf16Injective(a: string, b: string)
    requires Utf16(a) == Utf16(b)
    ensures a == b
  {
    if a != [] && b != [] {
      Utf16CharPrefixFree(a[0], b[0], Utf16(a[1..]), Utf16(b[1..]));
      Utf16Injective(a[1..], b[1..]);
      assert a == [a[0]] + a[1..] && b == [b[0]] + b[1..];
    }
  }

  /** The UTF-16 comparison is a strict total order on all Unicode strings. */
  lemma Utf16LessIsStrictOrder()
    ensures StrictOrder(Utf16Less)
  {
    forall x ensures !Utf16Less(x, x) {
      LexIrreflexive(Utf16(x));
    }
    forall x, y ensures Utf16Less(x, y) || x == y || Utf16Less(y, x) {
      LexTotal(Utf16(x), Utf16(y));
      if Utf16(x) == Utf16(y) { Utf16Injective(x, y); }
    }
    forall x, y, z | Utf16Less(x, y) && Utf16Less(y, z) ensures Utf16Less(x, z) {
      LexTransitive(Utf16(x), Utf16(y), Utf16(z));
    }
  }

  lemma LexAdvance(a: seq<int>, b: seq<int>, i: nat)
    requires i < |a| && i < |b| && a[i] == b[i] && a[..i] == b[..i]
    ensures LexLess(a[i..], b[i..]) == LexLess(a[i + 1..], b[i + 1..])
    ensures a[..i + 1] == b[..i + 1]
  {
    assert a[i..][1..] == a[i + 1..] && b[i..][1..] == b[i + 1..];
    assert a[..i + 1] == a[..i] + [a[i]] && b[..i + 1] == b[..i] + [b[i]];
  }

  datatype Comparison = Less | Equal | Greater

  /** `utf16_compare`: walk both code-unit iterators until they differ or one ends. */
  method Utf16Compare(a: string, b: string) returns (r: Comparison)
    ensures r == Less <==> Utf16Less(a, b)
    ensures r == Equal <==> a == b
    ensures r == Greater <==> Utf16Less(b, a)
  {
    var ua, ub, i := Utf16(a), Utf16(b), 0;
    while true
      invariant i <= |ua| && i <= |ub|
      invariant ua[..i] == ub[..i]
      invariant Utf16Less(a, b) == LexLess(ua[i..], ub[i..])
      invariant Utf16Less(b, a) == LexLess(ub[i..], ua[i..])
      decreases |ua| - i
    {
      if i == |ua| && i == |ub| {
        assert ua == ua[..i] == ub;
        Utf16Injective(a, b);
        return Equal;
      } else if i == |ua| {
        return Less;
      } else if i == |ub| {
        return Greater;
      } else if ua[i] < ub[i] {
        return Less;
      } else if ua[i] > ub[i] {
        return Greater;
      }
      LexAdvance(ua, ub, i);
      LexAdvance(ub, ua, i);
      i := i + 1;
    }
  }

  /** The keys of an object in the order they are written. */
  ghost function SortedKeys(keys: set<string>): (r: seq<string>)
    ensures SameElements(r, keys)
  {
    Utf16LessIsStrictOrder();
    Arrange(Utf16Less, keys)
  }

  // ----- byte forms -----

  /** Decimal rendering of a natural number. */
  function Digits(n: nat): (r: seq<Byte>)
    ensures r != [] && forall i :: 0 <= i < |r| ==> 48 <= r[i] <= 57
  {
    if n < 10 then [48 + n] else Digits(n / 10) + [48 + n % 10]
  }

  function Decimal(i: int): seq<Byte> {
    if i < 0 then [45] + Digits(-i) else Digits(i)
  }

  function Hex(n: int): Byte
    requires 0 <= n < 16
  {
    if n < 10 then 48 + n else 87 + n
  }

  function Utf8(c: char): seq<Byte> {
    var n := c as int;
    if n < 0x80 then [n]
    else if n < 0x800 then [0xC0 + n / 0x40, 0x80 + n % 0x40]
    else if n < 0x10000 then [0xE0 + n / 0x40 / 0x40, 0x80 + n / 0x40 % 0x40, 0x80 + n % 0x40]
    else [0xF0 + n / 0x40 / 0x40 / 0x40, 0x80 + n / 0x40 / 0x40 % 0x40, 0x80 + n / 0x40 % 0x40, 0x80 + n % 0x40]
  }

  /** One character of a string literal (section 3.2.2.2 of RFC 8785). */
  function EscapeChar(c: char): (r: seq<Byte>) {
    var n := c as int;
    if n == 0x22 then [92, 34]
    else if n == 0x5C then [92, 92]
    else if n == 0x08 then [92, 98]
    else if n == 0x09 then [92, 116]
    else if n == 0x0A then [92, 110]
    else if n == 0x0C then [92, 102]
    else if n == 0x0D then [92, 114]
    else if n < 0x20 then [92, 117, 48, 48, Hex(n / 16), Hex(n % 16)]
    else Utf8(c)
  }

  function EscapeAll(s: string): seq<Byte> {
    if s == [] then [] else EscapeChar(s[0]) + EscapeAll(s[1..])
  }

  function Quoted(s: string): seq<Byte> {
    [34] + (EscapeAll(s) + [34])
  }

  /** No float anywhere in the tree: exactly the values that have a canonical form. */
  predicate IntegerOnly(v: Value) {
    match v
    case Float(_) => false
    case Arr(items) => forall i :: 0 <= i < |items| ==> IntegerOnly(items[i])
    case Obj(fields) => forall k :: k in fields ==> IntegerOnly(fields[k])
    case _ => true
  }

  /** The canonical bytes of a value. */
  ghost function Encode(v: Value): seq<Byte>
    requires IntegerOnly(v)
    decreases v
  {
    match v
    case Null => [110, 117, 108, 108]
    case Bool(b) => if b then [116, 114, 117, 101] else [102, 97, 108, 115, 101]
    case Int(i) => Decimal(i)
    case Str(s) => Quoted(s)
    case Arr(items) => [91] + Items(items, false) + [93]
    case Obj(fields) => [123] + Members(v, SortedKeys(fields.Keys), false) + [125]
  }

  function Sep(sep: bool): seq<Byte> {
    if sep then [44] else []
  }

  /** Array elements, the first preceded by a comma when `sep`. */
  ghost function Items(items: seq<Value>, sep: bool): seq<Byte>
    requires forall i :: 0 <= i < |items| ==> IntegerOnly(items[i])
    decreases items
  {
    if items == [] then []
    else Sep(sep) + (Encode(items[0]) + Items(items[1..], true))
  }

  /** The members of object `v` named by `keys`, in that order. */
  ghost function Members(v: Value, keys: seq<string>, sep: bool): seq<Byte>
    requires v.Obj? && IntegerOnly(v)
    requires forall i :: 0 <= i < |keys| ==> keys[i] in v.fields
    decreases v, |keys|
  {
    if keys == [] then []
    else Sep(sep) + (Quoted(keys[0]) + ([58] + (Encode(v.fields[keys[0]]) + Members(v, keys[1..], true))))
  }

  // ----- the bytes determine the value -----

  /** What may follow a value inside a document: nothing, or `,` `]` `}`. */
  predicate Delimited(s: seq<Byte>) {
    s == [] || s[0] == 44 || s[0] == 93 || s[0] == 125
  }

  /** The number a digit string stands for. */
  function DigitsValue(ds: seq<Byte>): int {
    if ds == [] then 0 else DigitsValue(ds[..|ds| - 1]) * 10 + ds[|ds| - 1] as int - 48
  }

  lemma {:induction false} DigitsRoundTrip(n: nat)
    ensures DigitsValue(Digits(n)) == n
  {
    if n >= 10 {
      DigitsRoundTrip(n / 10);
      assert Digits(n)[..|Digits(n)| - 1] == Digits(n / 10);
    }
  }

  /** A run of digits ends where the first non-digit stands. */
  lemma DigitRunEnds(p: seq<Byte>, q: seq<Byte>, s: seq<Byte>, t: seq<Byte>)
    requires p + s == q + t && Delimited(s)
    requires forall i :: 0 <= i < |q| ==> 48 <= q[i] <= 57
    ensures |q| <= |p|
  {
    assert |p| < |p + s| ==> (p + s)[|p|] == s[0];
  }

  lemma DigitsDecodable(m: nat, n: nat, s: seq<Byte>, t: seq<Byte>)
    requires Digits(m) + s == Digits(n) + t && Delimited(s) && Delimited(t)
    ensures m == n && s == t
  {
    DigitRunEnds(Digits(m), Digits(n), s, t);
    DigitRunEnds(Digits(n), Digits(m), t, s);
    Cut(Digits(m), Digits(n), s, t);
    DigitsRoundTrip(m);
    DigitsRoundTrip(n);
  }

  lemma DecimalSign(m: int, s: seq<Byte>)
    ensures Decimal(m) + s != [] && ((Decimal(m) + s)[0] == 45 <==> m < 0)
    ensures m < 0 ==> Decimal(m) + s == [45] + (Digits(-m) + s)
  {
    assert (Decimal(m) + s)[0] == Decimal(m)[0];
  }

  lemma DecimalDecodable(m: int, n: int, s: seq<Byte>, t: seq<Byte>)
    requires Decimal(m) + s == Decimal(n) + t && Delimited(s) && Delimited(t)
    ensures m == n && s == t
  {
    DecimalSign(m, s);
    DecimalSign(n, t);
    if m < 0 {
      Cut([45], [45], Digits(-m) + s, Digits(-n) + t);
      DigitsDecodable(-m, -n, s, t);
    } else {
      DigitsDecodable(m, n, s, t);
    }
  }

  /** How many bytes the first character of an escaped string takes. */
  function EscapeLength(x: seq<Byte>): nat
    requires x != []
  {
    if x[0] == 92 then (if |x| > 1 && x[1] == 117 then 6 else 2)
    else if x[0] < 0x80 then 1 else if x[0] < 0xE0 then 2 else if x[0] < 0xF0 then 3 else 4
  }

  function UnHex(b: int): int {
    if b < 58 then b - 48 else b - 87
  }

  /** The character an escape or UTF-8 sequence stands for. */
  function EscapeValue(x: seq<Byte>): int {
    if |x| == 1 then x[0]
    else if |x| == 6 then UnHex(x[4]) * 16 + UnHex(x[5])
    else if |x| == 2 && x[0] == 92 then
      (if x[1] == 98 then 8 else if x[1] == 116 then 9 else if x[1] == 110 then 10
       else if x[1] == 102 then 12 else if x[1] == 114 then 13 else x[1])
    else if |x| == 2 then (x[0] as int - 0xC0) * 0x40 + x[1] as int - 0x80
    else if |x| == 3 then ((x[0] as int - 0xE0) * 0x40 + x[1] as int - 0x80) * 0x40 + x[2] as int - 0x80
    else if |x| == 4 then
      (((x[0] as int - 0xF0) * 0x40 + x[1] as int - 0x80) * 0x40 + x[2] as int - 0x80) * 0x40 + x[3] as int - 0x80
    else 0
  }

  lemma Utf8Arithmetic(n: nat)
    ensures n / 0x40 * 0x40 + n % 0x40 == n
    ensures (n / 0x40 / 0x40 * 0x40 + n / 0x40 % 0x40) * 0x40 + n % 0x40 == n
    ensures ((n / 0x40 / 0x40 / 0x40 * 0x40 + n / 0x40 / 0x40 % 0x40) * 0x40 + n / 0x40 % 0x40) * 0x40 + n % 0x40 == n
  {
  }

  lemma Utf8RoundTrip(c: char)
    requires c as int >= 0x80
    ensures EscapeValue(Utf8(c)) == c as int
  {
    Utf8Arithmetic(c as int);
  }

  lemma EscapeRoundTrip(c: char)
    ensures EscapeValue(EscapeChar(c)) == c as int
  {
    if c as int >= 0x80 { Utf8RoundTrip(c); }
  }

  lemma EscapeLengthCorrect(c: char, s: seq<Byte>)
    ensures EscapeChar(c) != [] && EscapeLength(EscapeChar(c) + s) == |EscapeChar(c)|
  {
    var e := EscapeChar(c);
    assert (e + s)[0] == e[0] && (|e| > 1 ==> (e + s)[1] == e[1]);
  }

  /** Escapes and UTF-8 sequences together form a prefix code. */
  lemma EscapeCharPrefixFree(c: char, d: char, s: seq<Byte>, t: seq<Byte>)
    requires EscapeChar(c) + s == EscapeChar(d) + t
    ensures c == d && s == t
  {
    EscapeLengthCorrect(c, s);
    EscapeLengthCorrect(d, t);
    Cut(EscapeChar(c), EscapeChar(d), s, t);
    EscapeRoundTrip(c);
    EscapeRoundTrip(d);
  }

  lemma EscapeStep(a: string, s: seq<Byte>)
    requires a != []
    ensures EscapeAll(a) + s == EscapeChar(a[0]) + (EscapeAll(a[1..]) + s)
    ensures EscapeAll(a) + s != [] && (EscapeAll(a) + s)[0] != 34
  {
    Assoc(EscapeChar(a[0]), EscapeAll(a[1..]), s);
    EscapeStart(a[0], EscapeAll(a[1..]) + s);
  }

  lemma EscapeStart(c: char, s: seq<Byte>)
    ensures EscapeChar(c) + s != [] && (EscapeChar(c) + s)[0] != 34
  {
    EscapeLengthCorrect(c, s);
    assert (EscapeChar(c) + s)[0] == EscapeChar(c)[0];
  }

  lemma {:induction false} StringDecodable(a: string, b: string, s: seq<Byte>, t: seq<Byte>)
    requires EscapeAll(a) + ([34] + s) == EscapeAll(b) + ([34] + t)
    ensures a == b && s == t
  {
    if a != [] { EscapeStep(a, [34] + s); }
    if b != [] { EscapeStep(b, [34] + t); }
    if a != [] && b != [] {
      EscapeCharPrefixFree(a[0], b[0], EscapeAll(a[1..]) + ([34] + s), EscapeAll(b[1..]) + ([34] + t));
      StringDecodable(a[1..], b[1..], s, t);
      assert a == [a[0]] + a[1..] && b == [b[0]] + b[1..];
    } else {
      assert EscapeAll([]) + ([34] + s) == [34] + s && EscapeAll([]) + ([34] + t) == [34] + t;
      Cut([34], [34], s, t);
    }
  }

  lemma QuotedDecodable(a: string, b: string, s: seq<Byte>, t: seq<Byte>)
    requires Quoted(a) + s == Quoted(b) + t
    ensures a == b && s == t
  {
    Assoc([34], EscapeAll(a) + [34], s);
    Assoc(EscapeAll(a), [34], s);
    Assoc([34], EscapeAll(b) + [34], t);
    Assoc(EscapeAll(b), [34], t);
    Cut([34], [34], EscapeAll(a) + ([34] + s), EscapeAll(b) + ([34] + t));
    StringDecodable(a, b, s, t);
  }

  /** What the first byte of an encoding says about the kind of value. */
  function KindOfByte(b: Byte): int {
    if b == 110 then 0 else if b == 116 then 1 else if b == 102 then 2
    else if b == 45 || 48 <= b <= 57 then 3
    else if b == 34 then 4 else if b == 91 then 5 else if b == 123 then 6 else 7
  }

  function KindOf(v: Value): int {
    match v
    case Null => 0
    case Bool(b) => (if b then 1 else 2)
    case Int(_) => 3
    case Str(_) => 4
    case Arr(_) => 5
    case Obj(_) => 6
    case Float(_) => 8
  }

  lemma FirstByte(v: Value, s: seq<Byte>)
    requires IntegerOnly(v)
    ensures Encode(v) + s != [] && KindOfByte((Encode(v) + s)[0]) == KindOf(v)
  {
    assert Encode(v) != [] && KindOfByte(Encode(v)[0]) == KindOf(v);
    assert (Encode(v) + s)[0] == Encode(v)[0];
  }

  /** Unique decodability: bytes followed by end of input, `,` `]` or `}` determine
      the value and where it ends. */
  lemma {:induction false} Decodable(v: Value, w: Value, s: seq<Byte>, t: seq<Byte>)
    requires IntegerOnly(v) && IntegerOnly(w) && Delimited(s) && Delimited(t)
    requires Encode(v) + s == Encode(w) + t
    ensures v == w && s == t
    decreases v, 1
  {
    FirstByte(v, s);
    FirstByte(w, t);
    match v {
      case Null => Cut(Encode(v), Encode(w), s, t);
      case Bool(_) => Cut(Encode(v), Encode(w), s, t);
      case Int(i) => DecimalDecodable(i, w.i, s, t);
      case Str(a) => QuotedDecodable(a, w.s, s, t);
      case Arr(_) => ArrayDecodable(v, w, s, t);
      case Obj(_) => ObjectDecodable(v, w, s, t);
    }
  }

  lemma {:induction false} ArrayDecodable(v: Value, w: Value, s: seq<Byte>, t: seq<Byte>)
    requires v.Arr? && w.Arr? && IntegerOnly(v) && IntegerOnly(w)
    requires Encode(v) + s == Encode(w) + t
    ensures v == w && s == t
    decreases v, 0
  {
    ArrayShape(v, s);
    ArrayShape(w, t);
    Cut([91], [91], Items(v.items, false) + ([93] + s), Items(w.items, false) + ([93] + t));
    ItemsDecodable(v.items, w.items, false, s, t);
  }

  lemma ArrayShape(v: Value, s: seq<Byte>)
    requires v.Arr? && IntegerOnly(v)
    ensures Encode(v) + s == [91] + (Items(v.items, false) + ([93] + s))
  {
  }

  lemma ObjectShape(v: Value, s: seq<Byte>)
    requires v.Obj? && IntegerOnly(v)
    ensures Encode(v) + s == [123] + (Members(v, SortedKeys(v.fields.Keys), false) + ([125] + s))
  {
  }

  lemma {:induction false} ObjectDecodable(v: Value, w: Value, s: seq<Byte>, t: seq<Byte>)
    requires v.Obj? && w.Obj? && IntegerOnly(v) && IntegerOnly(w)
    requires Encode(v) + s == Encode(w) + t
    ensures v == w && s == t
    decreases v, 0
  {
    var ks, ls := SortedKeys(v.fields.Keys), SortedKeys(w.fields.Keys);
    ObjectShape(v, s);
    ObjectShape(w, t);
    Cut([123], [123], Members(v, ks, false) + ([125] + s), Members(w, ls, false) + ([125] + t));
    MembersDecodable(v, w, ks, ls, false, s, t);
    assert forall k :: k in v.fields.Keys <==> k in w.fields.Keys;
    assert v.fields == w.fields;
  }

  lemma SepFirst(sep: bool, r: seq<Byte>)
    requires r != []
    ensures Sep(sep) + r != [] && (Sep(sep) + r)[0] == if sep then 44 else r[0]
  {
  }

  lemma ItemsStep(xs: seq<Value>, sep: bool, s: seq<Byte>)
    requires forall i :: 0 <= i < |xs| ==> IntegerOnly(xs[i])
    requires xs != []
    ensures Items(xs, sep) + s == Sep(sep) + (Encode(xs[0]) + (Items(xs[1..], true) + s))
    ensures Items(xs, sep) + s != [] && (Items(xs, sep) + s)[0] != 93
    ensures sep ==> (Items(xs, sep) + s)[0] == 44
  {
    var e, r := Encode(xs[0]), Items(xs[1..], true);
    Assoc(Sep(sep), e + r, s);
    Assoc(e, r, s);
    FirstByte(xs[0], r + s);
    SepFirst(sep, e + (r + s));
  }

  /** What follows an array element is a comma or the closing bracket. */
  lemma ItemsDelimited(xs: seq<Value>, s: seq<Byte>)
    requires forall i :: 0 <= i < |xs| ==> IntegerOnly(xs[i])
    ensures Delimited(Items(xs, true) + ([93] + s))
  {
    if xs != [] { ItemsStep(xs, true, [93] + s); }
  }

  lemma {:induction false} ItemsDecodable(xs: seq<Value>, ys: seq<Value>, sep: bool, s: seq<Byte>, t: seq<Byte>)
    requires forall i :: 0 <= i < |xs| ==> IntegerOnly(xs[i])
    requires forall i :: 0 <= i < |ys| ==> IntegerOnly(ys[i])
    requires Items(xs, sep) + ([93] + s) == Items(ys, sep) + ([93] + t)
    ensures xs == ys && s == t
    decreases xs, 0
  {
    if xs != [] { ItemsStep(xs, sep, [93] + s); }
    if ys != [] { ItemsStep(ys, sep, [93] + t); }
    if xs == [] {
      assert Items(xs, sep) + ([93] + s) == [93] + s;
      Cut([93], [93], s, t);
    } else {
      assert Items([], sep) + ([93] + t) == [93] + t;
      var s', t' := Items(xs[1..], true) + ([93] + s), Items(ys[1..], true) + ([93] + t);
      ItemsDelimited(xs[1..], s);
      ItemsDelimited(ys[1..], t);
      Cut(Sep(sep), Sep(sep), Encode(xs[0]) + s', Encode(ys[0]) + t');
      Decodable(xs[0], ys[0], s', t');
      ItemsDecodable(xs[1..], ys[1..], true, s, t);
      assert xs == [xs[0]] + xs[1..] && ys == [ys[0]] + ys[1..];
    }
  }

  lemma MembersStep(v: Value, ks: seq<string>, sep: bool, s: seq<Byte>)
    requires v.Obj? && IntegerOnly(v)
    requires forall i :: 0 <= i < |ks| ==> ks[i] in v.fields
    requires ks != []
    ensures Members(v, ks, sep) + s
            == Sep(sep) + (Quoted(ks[0]) + ([58] + (Encode(v.fields[ks[0]]) + (Members(v, ks[1..], true) + s))))
    ensures Members(v, ks, sep) + s != [] && (Members(v, ks, sep) + s)[0] == if sep then 44 else 34
  {
    var q, e, r := Quoted(ks[0]), Encode(v.fields[ks[0]]), Members(v, ks[1..], true);
    Assoc(Sep(sep), q + ([58] + (e + r)), s);
    Assoc(q, [58] + (e + r), s);
    Assoc([58], e + r, s);
    Assoc(e, r, s);
    assert (q + ([58] + (e + (r + s))))[0] == q[0];
    SepFirst(sep, q + ([58] + (e + (r + s))));
  }

  /** What follows an object member is a comma or the closing brace. */
  lemma MembersDelimited(v: Value, ks: seq<string>, s: seq<Byte>)
    requires v.Obj? && IntegerOnly(v)
    requires forall i :: 0 <= i < |ks| ==> ks[i] in v.fields
    ensures Delimited(Members(v, ks, true) + ([125] + s))
  {
    if ks != [] { MembersStep(v, ks, true, [125] + s); }
  }

  lemma {:induction false} MembersDecodable(
    v: Value, w: Value, ks: seq<string>, ls: seq<string>, sep: bool, s: seq<Byte>, t: seq<Byte>)
    requires v.Obj? && w.Obj? && IntegerOnly(v) && IntegerOnly(w)
    requires forall i :: 0 <= i < |ks| ==> ks[i] in v.fields
    requires forall i :: 0 <= i < |ls| ==> ls[i] in w.fields
    requires Members(v, ks, sep) + ([125] + s) == Members(w, ls, sep) + ([125] + t)
    ensures ks == ls && s == t
    ensures forall k :: k in ks ==> v.fields[k] == w.fields[k]
    decreases v, 0, |ks|, 1
  {
    if ks != [] { MembersStep(v, ks, sep, [125] + s); }
    if ls != [] { MembersStep(w, ls, sep, [125] + t); }
    if ks == [] {
      assert Members(v, ks, sep) + ([125] + s) == [125] + s;
      Cut([125], [125], s, t);
    } else {
      assert Members(w, [], sep) + ([125] + t) == [125] + t;
      MemberDecodable(v, w, ks, ls, sep, s, t);
      MembersDecodable(v, w, ks[1..], ls[1..], true, s, t);
      assert ks == [ks[0]] + ks[1..] && ls == [ls[0]] + ls[1..];
    }
  }

  /** The first member of two equal renderings. */
  lemma {:induction false} MemberDecodable(
    v: Value, w: Value, ks: seq<string>, ls: seq<string>, sep: bool, s: seq<Byte>, t: seq<Byte>)
    requires v.Obj? && w.Obj? && IntegerOnly(v) && IntegerOnly(w)
    requires ks != [] && forall i :: 0 <= i < |ks| ==> ks[i] in v.fields
    requires ls != [] && forall i :: 0 <= i < |ls| ==> ls[i] in w.fields
    requires Members(v, ks, sep) + ([125] + s) == Members(w, ls, sep) + ([125] + t)
    ensures ks[0] == ls[0] && v.fields[ks[0]] == w.fields[ls[0]]
    ensures Members(v, ks[1..], true) + ([125] + s) == Members(w, ls[1..], true) + ([125] + t)
    decreases v, 0, |ks|, 0
  {
    MembersStep(v, ks, sep, [125] + s);
    MembersStep(w, ls, sep, [125] + t);
    var s', t' := Members(v, ks[1..], true) + ([125] + s), Members(w, ls[1..], true) + ([125] + t);
    MembersDelimited(v, ks[1..], s);
    MembersDelimited(w, ls[1..], t);
    var a, b := Encode(v.fields[ks[0]]) + s', Encode(w.fields[ls[0]]) + t';
    Cut(Sep(sep), Sep(sep), Quoted(ks[0]) + ([58] + a), Quoted(ls[0]) + ([58] + b));
    QuotedDecodable(ks[0], ls[0], [58] + a, [58] + b);
    Cut([58], [58], a, b);
    Decodable(v.fields[ks[0]], w.fields[ls[0]], s', t');
  }

  /** Canonical bytes identify the value: the two directions behind every digest. */
  lemma EncodeInjective(v: Value, w: Value)
    requires IntegerOnly(v) && IntegerOnly(w)
    ensures Encode(v) == Encode(w) <==> v == w
  {
    if Encode(v) == Encode(w) {
      assert Encode(v) + [] == Encode(v) && Encode(w) + [] == Encode(w);
      Decodable(v, w, [], []);
    }
  }

  // ----- the writers -----

  /** The `Vec<u8>` every writer appends to. */
  class Output {
    var bytes: seq<Byte>

    constructor ()
      ensures bytes == []
    {
      bytes := [];
    }

    method Push(b: seq<Byte>)
      modifies this
      ensures bytes == old(bytes) + b
    {
      bytes := bytes + b;
    }
  }

  method WriteString(out: Output, s: string)
    modifies out
    ensures out.bytes == old(out.bytes) + Quoted(s)
  {
    out.Push([34]);
    ghost var start := out.bytes;
    for i := 0 to |s|
      invariant out.bytes + EscapeAll(s[i..]) == start + EscapeAll(s)
    {
      ghost var before := out.bytes;
      out.Push(EscapeChar(s[i]));
      Assoc(before, EscapeChar(s[i]), EscapeAll(s[i + 1..]));
      assert s[i..][1..] == s[i + 1..];
    }
    assert out.bytes == start + EscapeAll(s) by { assert s[|s|..] == []; }
    out.Push([34]);
    Chain(old(out.bytes), [34], EscapeAll(s), [34]);
  }

  /** `map.keys().collect()`: the keys in whatever order the map iterates them. */
  method CollectKeys(fields: map<string, Value>) returns (keys: seq<string>)
    ensures SameElements(keys, fields.Keys)
    ensures forall i, j :: 0 <= i < j < |keys| ==> keys[i] != keys[j]
  {
    keys := [];
    var rest := fields.Keys;
    while rest != {}
      invariant rest <= fields.Keys
      invariant SameElements(keys, fields.Keys - rest)
      invariant forall i, j :: 0 <= i < j < |keys| ==> keys[i] != keys[j]
    {
      var k :| k in rest;
      keys := keys + [k];
      rest := rest - {k};
    }
  }

  method InsertKey(k: string, keys: seq<string>) returns (r: seq<string>)
    requires Sorted(Utf16Less, keys) && k !in keys
    ensures Sorted(Utf16Less, r)
    ensures forall x :: x in r <==> x == k || x in keys
  {
    Utf16LessIsStrictOrder();
    var i := 0;
    while i < |keys|
      invariant i <= |keys|
      invariant forall j :: 0 <= j < i ==> Utf16Less(keys[j], k)
    {
      var c := Utf16Compare(keys[i], k);
      if c != Less {
        assert keys[i] in keys;
        break;
      }
      i := i + 1;
    }
    r := keys[..i] + [k] + keys[i..];
    SortedSplice(Utf16Less, k, keys, i);
  }

  /** `keys.sort_by(utf16_compare)`. */
  method SortKeys(keys: seq<string>) returns (r: seq<string>)
    requires forall i, j :: 0 <= i < j < |keys| ==> keys[i] != keys[j]
    ensures Sorted(Utf16Less, r)
    ensures forall x :: x in r <==> x in keys
  {
    r := [];
    for i := 0 to |keys|
      invariant Sorted(Utf16Less, r)
      invariant forall x :: x in r <==> x in keys[..i]
    {
      r := InsertKey(keys[i], r);
    }
    assert keys[..|keys|] == keys;
  }

  method WriteNumber(out: Output, v: Value) returns (ok: bool)
    requires v.Int? || v.Float?
    modifies out
    ensures ok <==> v.Int?
    ensures out.bytes == old(out.bytes) + if v.Int? then Decimal(v.i) else []
  {
    if v.Int? {
      out.Push(Decimal(v.i));
    }
    return v.Int?;
  }

  /** `write_value`: the bytes appended are `Encode(v)`; a float anywhere is refused. */
  method WriteValue(out: Output, v: Value) returns (ok: bool)
    modifies out
    ensures ok <==> IntegerOnly(v)
    ensures ok ==> out.bytes == old(out.bytes) + Encode(v)
    decreases v, 1
  {
    match v {
      case Null => out.Push([110, 117, 108, 108]); ok := true;
      case Bool(b) => out.Push(if b then [116, 114, 117, 101] else [102, 97, 108, 115, 101]); ok := true;
      case Int(_) => ok := WriteNumber(out, v);
      case Float(_) => ok := WriteNumber(out, v);
      case Str(s) => WriteString(out, s); ok := true;
      case Arr(_) => ok := WriteArray(out, v);
      case Obj(_) => ok := WriteObject(out, v);
    }
  }

  method WriteArray(out: Output, v: Value) returns (ok: bool)
    requires v.Arr?
    modifies out
    ensures ok <==> IntegerOnly(v)
    ensures ok ==> out.bytes == old(out.bytes) + Encode(v)
    decreases v, 0
  {
    var items := v.items;
    out.Push([91]);
    ghost var start := out.bytes;
    for i := 0 to |items|
      invariant forall j :: 0 <= j < i ==> IntegerOnly(items[j])
      invariant IntegerOnly(v) ==> out.bytes + Items(items[i..], i > 0) == start + Items(items, false)
    {
      ghost var before := out.bytes;
      if i > 0 { out.Push([44]); }
      assert out.bytes == before + Sep(i > 0);
      var written := WriteValue(out, items[i]);
      if !written { return false; }
      if IntegerOnly(v) {
        assert items[i..][1..] == items[i + 1..];
        ItemsStep(items[i..], i > 0, []);
        Chain(before, Sep(i > 0), Encode(items[i]), Items(items[i + 1..], true));
      }
    }
    assert Items(items[|items|..], |items| > 0) == [];
    out.Push([93]);
    if IntegerOnly(v) { Bracket(old(out.bytes), [91], Items(items, false), [93]); }
    return true;
  }

  /** The keys as collected from the map, then sorted: always the same sequence. */
  method KeysInOrder(fields: map<string, Value>) returns (keys: seq<string>)
    ensures keys == SortedKeys(fields.Keys)
  {
    var collected := CollectKeys(fields);
    keys := SortKeys(collected);
    Utf16LessIsStrictOrder();
    ArrangeUnique(Utf16Less, keys, fields.Keys);
  }

  method WriteMember(out: Output, v: Value, key: string, sep: bool) returns (ok: bool)
    requires v.Obj? && key in v.fields
    modifies out
    ensures ok <==> IntegerOnly(v.fields[key])
    ensures ok ==> out.bytes == old(out.bytes) + Sep(sep) + Quoted(key) + [58] + Encode(v.fields[key])
    decreases v, 0, 0
  {
    if sep { out.Push([44]); }
    assert out.bytes == old(out.bytes) + Sep(sep);
    WriteString(out, key);
    out.Push([58]);
    ok := WriteValue(out, v.fields[key]);
  }

  /** `bytes` holds `start` and the first `i` members; the rest is still to come. */
  ghost predicate MembersTo(v: Value, keys: seq<string>, i: nat, start: seq<Byte>, bytes: seq<Byte>)
    requires v.Obj? && i <= |keys|
    requires forall j :: 0 <= j < |keys| ==> keys[j] in v.fields
  {
    IntegerOnly(v) ==> bytes + Members(v, keys[i..], i > 0) == start + Members(v, keys, false)
  }

  lemma MemberWritten(v: Value, keys: seq<string>, i: nat, start: seq<Byte>, before: seq<Byte>, after: seq<Byte>)
    requires v.Obj? && i < |keys|
    requires forall j :: 0 <= j < |keys| ==> keys[j] in v.fields
    requires IntegerOnly(v.fields[keys[i]])
    requires after == before + Sep(i > 0) + Quoted(keys[i]) + [58] + Encode(v.fields[keys[i]])
    requires MembersTo(v, keys, i, start, before)
    ensures MembersTo(v, keys, i + 1, start, after)
  {
    if !IntegerOnly(v) { return; }
    var q, e, m := Quoted(keys[i]), Encode(v.fields[keys[i]]), Members(v, keys[i + 1..], true);
    assert keys[i..][1..] == keys[i + 1..];
    Chain(before + Sep(i > 0) + q, [58], e, m);
    Chain(before, Sep(i > 0), q, [58] + (e + m));
  }

  /** `write_object`: keys sorted by UTF-16 code units, whatever order they came in. */
  method WriteObject(out: Output, v: Value) returns (ok: bool)
    requires v.Obj?
    modifies out
    ensures ok <==> IntegerOnly(v)
    ensures ok ==> out.bytes == old(out.bytes) + Encode(v)
    decreases v, 0
  {
    var keys := KeysInOrder(v.fields);
    out.Push([123]);
    ok := WriteMembers(out, v, keys);
    if !ok { return; }
    out.Push([125]);
    Bracket(old(out.bytes), [123], Members(v, keys, false), [125]);
  }

  lemma MembersDone(v: Value, keys: seq<string>, start: seq<Byte>, bytes: seq<Byte>)
    requires v.Obj? && SameElements(keys, v.fields.Keys) && MembersTo(v, keys, |keys|, start, bytes)
    requires forall j :: 0 <= j < |keys| ==> IntegerOnly(v.fields[keys[j]])
    ensures IntegerOnly(v) && bytes == start + Members(v, keys, false)
  {
    forall k | k in v.fields ensures IntegerOnly(v.fields[k]) {
      assert k in keys;
    }
    assert keys[|keys|..] == [];
    assert bytes + [] == bytes;
  }

  lemma MembersBegin(v: Value, keys: seq<string>, start: seq<Byte>)
    requires v.Obj? && SameElements(keys, v.fields.Keys)
    ensures MembersTo(v, keys, 0, start, start)
  {
    assert keys[0..] == keys;
  }

  lemma MemberRefused(v: Value, key: string)
    requires v.Obj? && key in v.fields && !IntegerOnly(v.fields[key])
    ensures !IntegerOnly(v)
  {
  }

  method WriteMembers(out: Output, v: Value, keys: seq<string>) returns (ok: bool)
    requires v.Obj? && SameElements(keys, v.fields.Keys)
    modifies out
    ensures ok <==> IntegerOnly(v)
    ensures ok ==> out.bytes == old(out.bytes) + Members(v, keys, false)
    decreases v, 0, 1
  {
    MembersBegin(v, keys, out.bytes);
    for i := 0 to |keys|
      invariant forall j :: 0 <= j < i ==> IntegerOnly(v.fields[keys[j]])
      invariant MembersTo(v, keys, i, old(out.bytes), out.bytes)
    {
      ghost var before := out.bytes;
      var written := WriteMember(out, v, keys[i], i > 0);
      if !written {
        MemberRefused(v, keys[i]);
        return false;
      }
      MemberWritten(v, keys, i, old(out.bytes), before, out.bytes);
    }
    MembersDone(v, keys, old(out.bytes), out.bytes);
    return true;
  }

  datatype CanonicalError = FloatNotAllowed

  /** `canonicalize`: succeeds exactly on integer-only values. */
  method Canonicalize(v: Value) returns (r: Result<seq<Byte>, CanonicalError>)
    ensures r.Ok? <==> IntegerOnly(v)
    ensures r.Ok? ==> r.value == Encode(v)
  {
    var out := new Output();
    var ok := WriteValue(out, v);
    r := if ok then Ok(out.bytes) else Err(FloatNotAllowed);
  }
}
