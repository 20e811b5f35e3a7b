/** The text a VNPay request is signed over: keys in code-unit order, keys and values
    percent-encoded, spaces of values written as plus signs.  It is shown to depend on the
    dictionary alone and to determine it. */
module Vnpay {
  import opened Common
  import opened Sorting

  /** UTF-16 code units and octets. */
  type Unit = u: int | 0 <= u < 0x10000
  type Text = seq<Unit>
  type Octet = u: int | 0 <= u < 0x100

  // ---------- UTF-8 ----------

  predicate High(u: Unit) { 0xD800 <= u <= 0xDBFF }

  predicate Low(u: Unit) { 0xDC00 <= u <= 0xDFFF }

  type Point = p: int | 0 <= p < 0x110000

  /** The code point at the head of a text and how many units it takes; none for a lone
      surrogate. */
  function First(s: Text): (r: Option<(Point, nat)>)
    requires s != []
    ensures r.Some? ==> 1 <= r.value.1 <= |s|
  {
    if Low(s[0]) then None
    else if High(s[0]) then
      if |s| >= 2 && Low(s[1]) then
        var high: int, low: int := s[0], s[1];
        Some((0x10000 + (high - 0xD800) * 0x400 + (low - 0xDC00), 2))
      else None
    else Some((s[0], 1))
  }

  function Octets(p: Point): seq<Octet> {
    if p < 0x80 then [p]
    else if p < 0x800 then [0xC0 + p / 0x40, 0x80 + p % 0x40]
    else if p < 0x10000 then [0xE0 + p / 0x1000, 0x80 + p / 0x40 % 0x40, 0x80 + p % 0x40]
    else [0xF0 + p / 0x40000, 0x80 + p / 0x1000 % 0x40, 0x80 + p / 0x40 % 0x40, 0x80 + p % 0x40]
  }

  function Utf8(s: Text): Option<seq<Octet>>
    decreases |s|
  {
    if s == [] then Some([])
    else
      match First(s)
      case None => None
      case Some((p, n)) => match Utf8(s[n..]) case None => None case Some(rest) => Some(Octets(p) + rest)
  }

  function Units(p: Point): Text {
    if p < 0x10000 then [p] else [0xD800 + (p - 0x10000) / 0x400, 0xDC00 + (p - 0x10000) % 0x400]
  }

  /** How long an encoded code point is, by its first octet. */
  function Width(b: Octet): nat { if b < 0x80 then 1 else if b < 0xE0 then 2 else if b < 0xF0 then 3 else 4 }

  /** The inverse, taking well-formed input for granted. */
  function PointAt(b: seq<Octet>): int
    requires b != [] && |b| >= Width(b[0])
  {
    var w, b0: int := Width(b[0]), b[0];
    if w == 1 then b0
    else
      var b1: int := b[1];
      if w == 2 then (b0 - 0xC0) * 0x40 + (b1 - 0x80)
      else
        var b2: int := b[2];
        if w == 3 then (b0 - 0xE0) * 0x1000 + (b1 - 0x80) * 0x40 + (b2 - 0x80)
        else
          var b3: int := b[3];
          (b0 - 0xF0) * 0x40000 + (b1 - 0x80) * 0x1000 + (b2 - 0x80) * 0x40 + (b3 - 0x80)
  }

  function FromUtf8(b: seq<Octet>): Text
    decreases |b|
  {
    if b == [] || |b| < Width(b[0]) || !(0 <= PointAt(b) < 0x110000) then []
    else Units(PointAt(b)) + FromUtf8(b[Width(b[0])..])
  }

  lemma OctetsDecode(p: Point, rest: seq<Octet>)
    ensures var b := Octets(p) + rest;
            |b| >= Width(b[0]) && PointAt(b) == p && b[Width(b[0])..] == rest
  {
    var o := Octets(p);
    var b := o + rest;
    assert Width(o[0]) == |o| && b[..|o|] == o && b[|o|..] == rest;
    PointOfOctets(p);
    assert PointAt(b) == PointAt(o);
  }

  lemma PointOfOctets(p: Point)
    ensures Width(Octets(p)[0]) == |Octets(p)| && PointAt(Octets(p)) == p
  {
    if 0x800 <= p < 0x10000 { ThreeOctets(p); }
    if 0x10000 <= p { FourOctets(p); }
  }

  lemma ThreeOctets(p: Point)
    requires 0x800 <= p < 0x10000
    ensures Width(Octets(p)[0]) == |Octets(p)| && PointAt(Octets(p)) == p
  {
    assert p / 0x1000 * 0x1000 + p / 0x40 % 0x40 * 0x40 + p % 0x40 == p;
  }

  lemma FourOctets(p: Point)
    requires 0x10000 <= p
    ensures Width(Octets(p)[0]) == |Octets(p)| && PointAt(Octets(p)) == p
  {
    assert p / 0x40000 * 0x40000 + p / 0x1000 % 0x40 * 0x1000 + p / 0x40 % 0x40 * 0x40 + p % 0x40 == p;
  }

  lemma FirstUnits(s: Text)
    requires s != [] && First(s).Some?
    ensures s == Units(First(s).value.0) + s[First(s).value.1..]
  {
  }

  lemma {:induction false} Utf8RoundTrip(s: Text)
    requires Utf8(s).Some?
    ensures FromUtf8(Utf8(s).value) == s
    decreases |s|
  {
    if s != [] {
      var (p, n) := First(s).value;
      var rest := Utf8(s[n..]).value;
      Utf8RoundTrip(s[n..]);
      OctetsDecode(p, rest);
      FirstUnits(s);
    }
  }

  /** No surrogate stands alone: each unit from D800 to DBFF is followed by one from DC00 to DFFF,
      and each of those follows one of the former. */
  ghost predicate Paired(s: Text) {
    && (forall i :: 0 <= i < |s| && 0xD800 <= s[i] < 0xDC00 ==> i + 1 < |s| && 0xDC00 <= s[i + 1] < 0xE000)
    && (forall i :: 0 <= i < |s| && 0xDC00 <= s[i] < 0xE000 ==> i > 0 && 0xD800 <= s[i - 1] < 0xDC00)
  }

  /** The same in terms of the two kinds of surrogate. */
  ghost predicate Coupled(s: Text) {
    && (forall i :: 0 <= i < |s| && High(s[i]) ==> i + 1 < |s| && Low(s[i + 1]))
    && (forall i :: 0 <= i < |s| && Low(s[i]) ==> i > 0 && High(s[i - 1]))
  }

  lemma CoupledIsPaired(s: Text)
    ensures Coupled(s) <==> Paired(s)
  {
    forall i | 0 <= i < |s|
      ensures High(s[i]) <==> 0xD800 <= s[i] < 0xDC00
      ensures Low(s[i]) <==> 0xDC00 <= s[i] < 0xE000
    {
    }
  }

  lemma CoupledRest(s: Text)
    requires s != []
    ensures Coupled(s) <==> First(s).Some? && Coupled(s[First(s).value.1..])
  {
    if First(s).Some? {
      var n := First(s).value.1;
      var rest := s[n..];
      assert forall i :: 0 <= i < |rest| ==> rest[i] == s[i + n];
      assert forall i :: n <= i < |s| ==> s[i] == rest[i - n];
      if Coupled(rest) {
        forall i | 0 <= i < |s| && High(s[i]) ensures i + 1 < |s| && Low(s[i + 1]) {
          if i >= n { assert High(rest[i - n]); }
        }
        forall i | 0 <= i < |s| && Low(s[i]) ensures i > 0 && High(s[i - 1]) {
          if i >= n { assert Low(rest[i - n]); }
        }
      }
      if Coupled(s) {
        forall i | 0 <= i < |rest| && High(rest[i]) ensures i + 1 < |rest| && Low(rest[i + 1]) {
          assert High(s[i + n]);
        }
        forall i | 0 <= i < |rest| && Low(rest[i]) ensures i > 0 && High(rest[i - 1]) { assert Low(s[i + n]); }
      }
    }
  }

  lemma {:induction false} EncodableIffCoupled(s: Text)
    ensures Utf8(s).Some? <==> Coupled(s)
    decreases |s|
  {
    if s != [] {
      CoupledRest(s);
      if First(s).Some? { EncodableIffCoupled(s[First(s).value.1..]); }
    }
  }

  /** Which texts can be encoded: exactly those without a lone surrogate. */
  lemma EncodableIffPaired(s: Text)
    ensures Utf8(s).Some? <==> Paired(s)
  {
    EncodableIffCoupled(s);
    CoupledIsPaired(s);
  }

  // ---------- percent-encoding ----------

  /** Letters, digits and - _ . ! ~ * ' ( ) stand for themselves. */
  predicate Kept(b: Octet) {
    || 0x41 <= b <= 0x5A || 0x61 <= b <= 0x7A || 0x30 <= b <= 0x39
    || b in {0x2D, 0x5F, 0x2E, 0x21, 0x7E, 0x2A, 0x27, 0x28, 0x29}
  }

  const PERCENT: Unit := 0x25
  const PLUS: Unit := 0x2B
  const EQUALS: Unit := 0x3D
  const AMP: Unit := 0x26
  const SPACE: Octet := 0x20

  function Hex(d: int): Unit
    requires 0 <= d < 16
  {
    if d < 10 then 0x30 + d else 0x41 + d - 10
  }

  function UnHex(u: Unit): int { if u < 0x41 then u - 0x30 else u - 0x41 + 10 }

  function Escape(b: Octet): Text { if Kept(b) then [b] else [PERCENT, Hex(b / 16), Hex(b % 16)] }

  function EscapeAll(bytes: seq<Octet>): Text { if bytes == [] then [] else Escape(bytes[0]) + EscapeAll(bytes[1..]) }

  const HEX_DIGITS := "0123456789ABCDEF"

  lemma HexIs(d: nat)
    requires d < 16
    ensures Hex(d) == HEX_DIGITS[d] as int
  {
  }

  /** How an octet is written: letters, digits and the nine marks of RFC 3986 that the language
      leaves alone stand for themselves, and any other is a percent sign and two upper-case
      hexadecimal digits. */
  lemma EscapeIs(b: Octet)
    ensures var c := b as char;
            Escape(b) ==
              if 'A' <= c <= 'Z' || 'a' <= c <= 'z' || '0' <= c <= '9'
                 || c in {'-', '_', '.', '!', '~', '*', '\'', '(', ')'} then [b]
              else ['%' as int, HEX_DIGITS[b / 16] as int, HEX_DIGITS[b % 16] as int]
  {
    HexIs(b / 16);
    HexIs(b % 16);
  }

  /** `encodeURIComponent`; none where it throws. */
  function EncodeUri(s: Text): Option<Text> { match Utf8(s) case None => None case Some(b) => Some(EscapeAll(b)) }

  /** The textual replacement of every "%20" by a plus sign. */
  function PlusForSpace(t: Text): Text {
    if t == [] then []
    else if |t| >= 3 && t[0] == PERCENT && t[1] == 0x32 && t[2] == 0x30 then [PLUS] + PlusForSpace(t[3..])
    else [t[0]] + PlusForSpace(t[1..])
  }

  /** Escaping with plus signs for spaces, octet by octet. */
  function FormAll(bytes: seq<Octet>): Text {
    if bytes == [] then [] else (if bytes[0] == SPACE then [PLUS] else Escape(bytes[0])) + FormAll(bytes[1..])
  }

  /** Neither digit of an escape can start another: the replacement passes over it. */
  lemma SkipPlain(u: Unit, t: Text)
    requires u != PERCENT
    ensures PlusForSpace([u] + t) == [u] + PlusForSpace(t)
  {
    assert ([u] + t)[1..] == t;
  }

  /** Nor can anything but "%20" be taken for an encoded space. */
  lemma SkipThree(h: Unit, l: Unit, t: Text)
    requires h != PERCENT && l != PERCENT && (h != 0x32 || l != 0x30)
    ensures PlusForSpace([PERCENT, h, l] + t) == [PERCENT, h, l] + PlusForSpace(t)
  {
    assert ([PERCENT, h, l] + t)[1..] == [h] + ([l] + t);
    SkipPlain(h, [l] + t);
    SkipPlain(l, t);
  }

  lemma SkipEscape(b: Octet, t: Text)
    requires !Kept(b)
    ensures PlusForSpace(Escape(b) + t) == (if b == SPACE then [PLUS] else Escape(b)) + PlusForSpace(t)
  {
    if b == SPACE {
      assert (Escape(b) + t)[3..] == t;
    } else {
      SkipThree(Hex(b / 16), Hex(b % 16), t);
    }
  }

  /** The textual replacement touches encoded spaces only. */
  lemma {:induction false} ReplacementIsSpaces(bytes: seq<Octet>)
    ensures PlusForSpace(EscapeAll(bytes)) == FormAll(bytes)
  {
    if bytes != [] {
      ReplacementIsSpaces(bytes[1..]);
      if Kept(bytes[0]) {
        SkipPlain(bytes[0], EscapeAll(bytes[1..]));
      } else {
        SkipEscape(bytes[0], EscapeAll(bytes[1..]));
      }
    }
  }

  predicate HexUnit(u: Unit) { 0x30 <= u <= 0x39 || 0x41 <= u <= 0x46 }

  /** Reads escapes and plus signs back. */
  function UnForm(t: Text): seq<Octet> {
    if t == [] then []
    else if t[0] == PLUS then [SPACE] + UnForm(t[1..])
    else if t[0] == PERCENT && |t| >= 3 && HexUnit(t[1]) && HexUnit(t[2]) then
      [UnHex(t[1]) * 16 + UnHex(t[2])] + UnForm(t[3..])
    else [t[0] % 0x100] + UnForm(t[1..])
  }

  lemma UnEscape(b: Octet, t: Text)
    ensures UnForm(Escape(b) + t) == [b] + UnForm(t)
  {
    if Kept(b) {
      assert Escape(b) + t == [b] + t && ([b] + t)[1..] == t;
    } else {
      var text := Escape(b) + t;
      assert text[3..] == t && text[0] == PERCENT && text[1] == Hex(b / 16) && text[2] == Hex(b % 16);
      assert UnHex(Hex(b / 16)) * 16 + UnHex(Hex(b % 16)) == b;
    }
  }

  lemma UnPlus(t: Text)
    ensures UnForm([PLUS] + t) == [SPACE] + UnForm(t)
  {
    assert ([PLUS] + t)[1..] == t;
  }

  lemma {:induction false} FormRoundTrip(bytes: seq<Octet>)
    ensures UnForm(FormAll(bytes)) == bytes && UnForm(EscapeAll(bytes)) == bytes
  {
    if bytes != [] {
      FormRoundTrip(bytes[1..]);
      UnEscape(bytes[0], FormAll(bytes[1..]));
      UnEscape(bytes[0], EscapeAll(bytes[1..]));
      if bytes[0] == SPACE {
        UnPlus(FormAll(bytes[1..]));
      }
    }
  }

  predicate NoSeparators(t: Text) { EQUALS !in t && AMP !in t }

  lemma {:induction false} FormHasNoSeparators(bytes: seq<Octet>)
    ensures NoSeparators(FormAll(bytes)) && NoSeparators(EscapeAll(bytes))
  {
    if bytes != [] { FormHasNoSeparators(bytes[1..]); }
  }

  // ---------- the signed text ----------

  type Dict = map<Text, Text>

  predicate Encodable(d: Dict) { forall k :: k in d ==> Utf8(k).Some? && Utf8(d[k]).Some? }

  /** One `key=value`. */
  function Part(k: Text, v: Text): Text
    requires Utf8(k).Some? && Utf8(v).Some?
  {
    EncodeUri(k).value + [EQUALS] + PlusForSpace(EncodeUri(v).value)
  }

  predicate EncodableFor(keys: seq<Text>, d: Dict) {
    forall k :: k in keys ==> k in d && Utf8(k).Some? && Utf8(d[k]).Some?
  }

  lemma AllEncodable(keys: seq<Text>, d: Dict)
    requires forall k :: k in keys <==> k in d
    ensures EncodableFor(keys, d) <==> Encodable(d)
  {
  }

  function Parts(keys: seq<Text>, d: Dict): seq<Text>
    requires EncodableFor(keys, d)
  {
    if keys == [] then [] else [Part(keys[0], d[keys[0]])] + Parts(keys[1..], d)
  }

  lemma {:induction false} PartsSnoc(keys: seq<Text>, k: Text, d: Dict)
    requires EncodableFor(keys + [k], d)
    ensures Parts(keys + [k], d) == Parts(keys, d) + [Part(k, d[k])]
  {
    if keys == [] {
      assert keys + [k] == [k];
    } else {
      PartsSnoc(keys[1..], k, d);
      assert (keys + [k])[1..] == keys[1..] + [k];
    }
  }

  function Join(parts: seq<Text>): Text {
    if parts == [] then [] else if |parts| == 1 then parts[0] else parts[0] + [AMP] + Join(parts[1..])
  }

  /** Code-unit order, the default order of sorted strings. */
  predicate UnitLe(a: Text, b: Text) {
    a == [] || (b != [] && (a[0] < b[0] || (a[0] == b[0] && UnitLe(a[1..], b[1..]))))
  }

  /** The texts agree before `k`, and there `a` ends or has the smaller unit. */
  predicate LessAt(a: Text, b: Text, k: nat) {
    k <= |a| && k <= |b| && a[..k] == b[..k] && (k == |a| || (k < |b| && a[k] < b[k]))
  }

  /** The order compares the first units in which two texts differ, and a text comes before its
      extensions. */
  lemma {:induction false} UnitLeIff(a: Text, b: Text)
    ensures UnitLe(a, b) <==> exists k: nat :: LessAt(a, b, k)
  {
    if a == [] || (b != [] && a[0] < b[0]) {
      assert LessAt(a, b, 0);
    } else if b != [] && a[0] == b[0] {
      UnitLeIff(a[1..], b[1..]);
      if k: nat :| LessAt(a[1..], b[1..], k) {
        assert a[..k + 1] == [a[0]] + a[1..][..k] && b[..k + 1] == [b[0]] + b[1..][..k];
        assert LessAt(a, b, k + 1);
      }
      if k: nat :| LessAt(a, b, k) {
        assert a[1..][..k - 1] == a[..k][1..] && b[1..][..k - 1] == b[..k][1..];
        assert LessAt(a[1..], b[1..], k - 1);
      }
    } else if k: nat :| LessAt(a, b, k) {
      assert k > 0 ==> a[..k][0] == b[..k][0];
    }
  }

  const LE: Order<Text> := (a: Text, b: Text) => UnitLe(a, b)

  lemma {:induction false} UnitLeTotal(a: Text, b: Text)
    ensures UnitLe(a, b) || UnitLe(b, a)
    ensures UnitLe(a, b) && UnitLe(b, a) ==> a == b
  {
    if a != [] && b != [] {
      UnitLeTotal(a[1..], b[1..]);
      if a[0] == b[0] && a[1..] == b[1..] { assert a == [a[0]] + a[1..] && b == [b[0]] + b[1..]; }
    }
  }

  lemma {:induction false} UnitLeTransitive(a: Text, b: Text, c: Text)
    requires UnitLe(a, b) && UnitLe(b, c)
    ensures UnitLe(a, c)
  {
    if a != [] && a[0] == b[0] == c[0] { UnitLeTransitive(a[1..], b[1..], c[1..]); }
  }

  lemma LeIsTotal(keys: seq<Text>)
    ensures Total(LE) && NoTies(keys, LE)
  {
    forall a: Text, b: Text ensures (LE(a, b) || LE(b, a)) && (LE(a, b) && LE(b, a) ==> a == b) { UnitLeTotal(a, b); }
    forall a: Text, b: Text, c: Text | LE(a, b) && LE(b, c) ensures LE(a, c) { UnitLeTransitive(a, b, c); }
  }

  /** `keys` lists the keys of a dictionary, each once, in any order. */
  ghost predicate Lists(keys: seq<Text>, d: Dict) {
    (forall k :: k in keys <==> k in d) && forall i, j :: 0 <= i < j < |keys| ==> keys[i] != keys[j]
  }

  /** The text, for keys enumerated in the given order. */
  function SignText(keys: seq<Text>, d: Dict): Text
    requires Encodable(d) && forall k :: k in keys ==> k in d
  {
    SortMembers(keys, LE);
    Join(Parts(Sorted(keys, LE), d))
  }

  lemma {:induction false} ListsSameElements(a: seq<Text>, b: seq<Text>, d: Dict)
    requires Lists(a, d) && Lists(b, d)
    ensures multiset(a) == multiset(b)
  {
    forall k ensures multiset(a)[k] == multiset(b)[k] {
      CountOnce(a, k);
      CountOnce(b, k);
    }
  }

  lemma {:induction false} CountOnce(a: seq<Text>, k: Text)
    requires forall i, j :: 0 <= i < j < |a| ==> a[i] != a[j]
    ensures multiset(a)[k] == if k in a then 1 else 0
  {
    if a != [] {
      CountOnce(a[1..], k);
      assert a == [a[0]] + a[1..];
    }
  }

  /** The signed text depends on the dictionary only, not on the order of its keys. */
  lemma SignTextIgnoresOrder(a: seq<Text>, b: seq<Text>, d: Dict)
    requires Lists(a, d) && Lists(b, d) && Encodable(d)
    ensures SignText(a, d) == SignText(b, d)
  {
    ListsSameElements(a, b, d);
    LeIsTotal(a);
    SortIgnoresOrder(a, b, LE);
  }

  // ---------- the decoder ----------

  function IndexOf(t: Text, sep: Unit): nat { if t == [] || t[0] == sep then 0 else 1 + IndexOf(t[1..], sep) }

  lemma {:induction false} IndexOfBounds(t: Text, sep: Unit)
    ensures IndexOf(t, sep) <= |t| && (sep !in t ==> IndexOf(t, sep) == |t|)
  {
    if t != [] { IndexOfBounds(t[1..], sep); }
  }

  lemma {:induction false} IndexOfSplit(a: Text, sep: Unit, x: Text)
    requires sep !in a
    ensures IndexOf(a + [sep] + x, sep) == |a|
  {
    if a != [] {
      IndexOfSplit(a[1..], sep, x);
      assert (a + [sep] + x)[1..] == a[1..] + [sep] + x;
    }
  }

  function Before(t: Text, sep: Unit): Text {
    IndexOfBounds(t, sep);
    t[..IndexOf(t, sep)]
  }

  function After(t: Text, sep: Unit): Text {
    IndexOfBounds(t, sep);
    if IndexOf(t, sep) < |t| then t[IndexOf(t, sep) + 1..] else []
  }

  lemma SplitAt(a: Text, sep: Unit, x: Text)
    requires sep !in a
    ensures Before(a + [sep] + x, sep) == a && After(a + [sep] + x, sep) == x
    ensures Before(a, sep) == a && After(a, sep) == []
  {
    IndexOfSplit(a, sep, x);
    IndexOfBounds(a, sep);
  }

  function DecodeText(t: Text): Text { FromUtf8(UnForm(t)) }

  /** Splits at the separators and decodes keys and values. */
  function Decode(t: Text): Dict
    decreases |t|
  {
    if t == [] then map[]
    else
      IndexOfBounds(t, AMP);
      var part := Before(t, AMP);
      Decode(After(t, AMP))[DecodeText(Before(part, EQUALS)) := DecodeText(After(part, EQUALS))]
  }

  lemma PartDecodes(k: Text, v: Text)
    requires Utf8(k).Some? && Utf8(v).Some?
    ensures AMP !in Part(k, v) && Part(k, v) != []
    ensures DecodeText(Before(Part(k, v), EQUALS)) == k && DecodeText(After(Part(k, v), EQUALS)) == v
  {
    var kb, vb := Utf8(k).value, Utf8(v).value;
    ReplacementIsSpaces(vb);
    FormHasNoSeparators(kb);
    FormHasNoSeparators(vb);
    SplitAt(EscapeAll(kb), EQUALS, FormAll(vb));
    FormRoundTrip(kb);
    FormRoundTrip(vb);
    Utf8RoundTrip(k);
    Utf8RoundTrip(v);
  }

  function Restrict(d: Dict, keys: seq<Text>): Dict { map k | k in keys && k in d :: d[k] }

  /** Decoding peels off the first part. */
  lemma OnePart(k: Text, v: Text, parts: seq<Text>)
    requires Utf8(k).Some? && Utf8(v).Some?
    ensures Decode(Join([Part(k, v)] + parts)) == Decode(Join(parts))[k := v]
  {
    var part, tail := Part(k, v), Join(parts);
    PartDecodes(k, v);
    SplitAt(part, AMP, tail);
    if parts == [] {
      assert Join([part] + parts) == part;
    } else {
      assert ([part] + parts)[1..] == parts;
      assert Join([part] + parts) == part + [AMP] + tail;
    }
  }

  lemma NoParts(d: Dict)
    ensures Decode(Join(Parts([], d))) == Restrict(d, [])
  {
  }

  lemma {:induction false} PartsDecode(keys: seq<Text>, d: Dict)
    requires Encodable(d) && (forall k :: k in keys ==> k in d)
    ensures Decode(Join(Parts(keys, d))) == Restrict(d, keys)
    decreases |keys|
  {
    hide Decode, Join, Part, Utf8;
    if keys == [] {
      NoParts(d);
    } else {
      var k, rest := keys[0], keys[1..];
      PartsDecode(rest, d);
      OnePart(k, d[k], Parts(rest, d));
      assert Restrict(d, keys) == Restrict(d, rest)[k := d[k]];
    }
  }

  lemma SortedTwo(a: Text, b: Text)
    requires UnitLe(a, b)
    ensures Sorted([a] + [b], LE) == [a] + [b]
  {
    var keys := [a] + [b];
    assert keys[0] == a && keys[1..] == [b] && [b][1..] == [] && LE(a, b);
    assert Sorted([b], LE) == Insert(b, [], LE) == [b];
    assert Sorted(keys, LE) == Insert(a, [b], LE);
  }

  lemma JoinedTwo(a: Text, b: Text, d: Dict)
    requires a in d && b in d && Encodable(d)
    ensures Join(Parts([a] + [b], d)) == Part(a, d[a]) + [AMP] + Part(b, d[b])
  {
    var keys := [a] + [b];
    assert keys[0] == a && keys[1..] == [b] && [b][1..] == [];
    assert Parts([b], d) == [Part(b, d[b])];
    assert Parts(keys, d) == [Part(a, d[a])] + [Part(b, d[b])];
    assert ([Part(a, d[a])] + [Part(b, d[b])])[1..] == [Part(b, d[b])];
  }

  /** What the text looks like for two keys: the smaller one first, in whatever order they came,
      each as `key=value`, joined by an ampersand. */
  lemma SignTextOfTwo(a: Text, b: Text, d: Dict)
    requires d.Keys == {a, b} && a != b && UnitLe(a, b) && Encodable(d)
    ensures forall k :: k in [b] + [a] || k in [a] + [b] ==> k in d
    ensures SignText([b] + [a], d) == SignText([a] + [b], d)
            == EncodeUri(a).value + ['=' as int] + PlusForSpace(EncodeUri(d[a]).value) + ['&' as int]
               + (EncodeUri(b).value + ['=' as int] + PlusForSpace(EncodeUri(d[b]).value))
  {
    SortedTwo(a, b);
    JoinedTwo(a, b, d);
    assert forall k :: k in d <==> k in d.Keys;
    SignTextIgnoresOrder([b] + [a], [a] + [b], d);
  }

  /** The signed text determines the dictionary: decoding it gives every key and value back. */
  lemma DecodeRecovers(keys: seq<Text>, d: Dict)
    requires Encodable(d) && Lists(keys, d)
    ensures Decode(SignText(keys, d)) == d
  {
    SortMembers(keys, LE);
    PartsDecode(Sorted(keys, LE), d);
  }

  /** Equal texts are signed for equal dictionaries. */
  lemma SignTextInjective(a: seq<Text>, d: Dict, b: seq<Text>, e: Dict)
    requires Encodable(d) && Lists(a, d) && Encodable(e) && Lists(b, e) && SignText(a, d) == SignText(b, e)
    ensures d == e
  {
    DecodeRecovers(a, d);
    DecodeRecovers(b, e);
  }

  // ---------- the adapter ----------

  function FromString(s: string): Text { seq(|s|, i requires 0 <= i < |s| => (s[i] as int) % 0x10000) }

  const SECURE_HASH: Text := FromString("vnp_SecureHash")
  const SECURE_HASH_TYPE: Text := FromString("vnp_SecureHashType")

  /** A query value: one string, none, or a list; nothing at all reads as the empty text. */
  datatype QueryValue = One(value: Option<Text>) | Many(values: seq<Text>)

  function TextOf(v: QueryValue): Text {
    match v
    case One(value) => if value.Some? then value.value else []
    case Many(values) => if values == [] then [] else values[0]
  }

  function StringDict(q: map<Text, QueryValue>): Dict { map k | k in q :: TextOf(q[k]) }

  /** The parameters the signature is made over. */
  function Filtered(d: Dict): Dict { map k | k in d && k != SECURE_HASH && k != SECURE_HASH_TYPE :: d[k] }

  /** What a parameter reads as: its text, the first text of a list, and nothing for no value. */
  lemma StringDictIs(q: map<Text, QueryValue>, k: Text)
    ensures StringDict(q).Keys == q.Keys
    ensures k in q ==>
              && (forall t :: q[k] == One(Some(t)) ==> StringDict(q)[k] == t)
              && (forall t, rest :: q[k] == Many([t] + rest) ==> StringDict(q)[k] == t)
              && (q[k] == One(None) || q[k] == Many([]) ==> StringDict(q)[k] == [])
  {
  }

  /** Everything but the two parameters of those names is signed. */
  lemma FilteredAre(d: Dict, k: Text)
    ensures k in Filtered(d) <==> k in d && k != FromString("vnp_SecureHash") && k != FromString("vnp_SecureHashType")
    ensures k in Filtered(d) ==> Filtered(d)[k] == d[k]
  {
  }

  function LowerUnit(u: Unit): Unit { if 0x41 <= u <= 0x5A then u + 0x20 else u }

  function Lower(t: Text): Text { seq(|t|, i requires 0 <= i < |t| => LowerUnit(t[i])) }

  lemma LowerIs(t: Text, i: nat)
    requires i < |t|
    ensures |Lower(t)| == |t|
    ensures Lower(t)[i] == if 'A' as int <= t[i] <= 'Z' as int then t[i] - 'A' as int + 'a' as int else t[i]
  {
  }

  function SecureOf(d: Dict): Text { if SECURE_HASH in d then d[SECURE_HASH] else [] }

  datatype Error = UriMalformed | InvalidSignature

  class VnpayAdapter {
    /** The keyed hash as hexadecimal text. */
    const sign: Text -> Text

    constructor (sign: Text -> Text)
      ensures this.sign == sign
    {
      this.sign := sign;
    }

    method ToStringDict(keys: seq<Text>, q: map<Text, QueryValue>) returns (out: Dict)
      requires forall k :: k in keys <==> k in q
      ensures out == StringDict(q)
    {
      out := map[];
      for i := 0 to |keys|
        invariant out == map k | k in keys[..i] :: TextOf(q[k])
      {
        assert keys[..i + 1] == keys[..i] + [keys[i]];
        out := out[keys[i] := TextOf(q[keys[i]])];
      }
      assert keys[..|keys|] == keys;
    }

    /** Sort, encode, join; it throws exactly when some key or value cannot be encoded. */
    method SortAndEncode(keys: seq<Text>, d: Dict) returns (r: Option<Text>)
      requires Lists(keys, d)
      ensures r.Some? <==> Encodable(d)
      ensures r.Some? ==> r.value == SignText(keys, d)
    {
      SortMembers(keys, LE);
      var sorted := Sorted(keys, LE);
      AllEncodable(sorted, d);
      var parts := EncodeParts(sorted, d);
      r := if parts.Some? then Some(Join(parts.value)) else None;
    }

    method EncodeParts(sorted: seq<Text>, d: Dict) returns (r: Option<seq<Text>>)
      requires forall k :: k in sorted ==> k in d
      ensures r.Some? <==> EncodableFor(sorted, d)
      ensures r.Some? ==> r.value == Parts(sorted, d)
    {
      var parts: seq<Text> := [];
      for i := 0 to |sorted|
        invariant EncodableFor(sorted[..i], d) && parts == Parts(sorted[..i], d)
      {
        var part := EncodePart(sorted[i], d[sorted[i]]);
        if part.None? {
          assert sorted[i] in sorted;
          return None;
        }
        assert sorted[..i + 1] == sorted[..i] + [sorted[i]];
        PartsSnoc(sorted[..i], sorted[i], d);
        parts := parts + [part.value];
      }
      assert sorted[..|sorted|] == sorted;
      r := Some(parts);
    }

    /** One `key=value`, or nothing where encoding throws. */
    method EncodePart(k: Text, v: Text) returns (r: Option<Text>)
      ensures r.Some? <==> Utf8(k).Some? && Utf8(v).Some?
      ensures r.Some? ==> r.value == Part(k, v)
    {
      var ek, ev := EncodeUri(k), EncodeUri(v);
      if ek.None? || ev.None? { return None; }
      r := Some(ek.value + [EQUALS] + PlusForSpace(ev.value));
    }

    method Filter(keys: seq<Text>, d: Dict) returns (kept: seq<Text>, filtered: Dict)
      requires Lists(keys, d)
      ensures filtered == Filtered(d) && Lists(kept, filtered)
    {
      hide FromString;
      kept, filtered := [], map[];
      for i := 0 to |keys|
        invariant filtered == map k | k in keys[..i] && k != SECURE_HASH && k != SECURE_HASH_TYPE :: d[k]
        invariant Lists(kept, filtered)
      {
        assert keys[..i + 1] == keys[..i] + [keys[i]];
        if keys[i] != SECURE_HASH && keys[i] != SECURE_HASH_TYPE {
          assert keys[i] !in keys[..i] && keys[i] !in filtered && keys[i] !in kept;
          filtered := filtered[keys[i] := d[keys[i]]];
          kept := kept + [keys[i]];
        }
      }
      assert keys[..|keys|] == keys;
    }

    /** Accepted exactly when the hash sent along is the signature of the other parameters. */
    method VerifyIpn(keys: seq<Text>, q: map<Text, QueryValue>) returns (r: Result<Dict, Error>)
      requires Lists(keys, StringDict(q))
      ensures var d := StringDict(q);
              && (r == Err(UriMalformed) <==> !Encodable(Filtered(d)))
              && (r.Ok? ==> r.value == d)
              && (Encodable(Filtered(d)) ==> (r.Ok? <==> Accepts(sign, d)))
    {
      var params := ToStringDict(keys, q);
      var secure := if SECURE_HASH in params then params[SECURE_HASH] else [];
      var kept, filtered := Filter(keys, params);
      var data := SortAndEncode(kept, filtered);
      if data.None? { return Err(UriMalformed); }
      AnyListing(kept, filtered);
      if Lower(sign(data.value)) != Lower(secure) { return Err(InvalidSignature); }
      r := Ok(params);
    }
  }

  /** Some enumeration of the keys; all give the same text. */
  ghost predicate Signs(d: Dict, t: Text) {
    Encodable(d) && exists keys :: Lists(keys, d) && SignText(keys, d) == t
  }

  ghost predicate Accepts(sign: Text -> Text, d: Dict) {
    exists t :: Signs(Filtered(d), t) && Lower(sign(t)) == Lower(SecureOf(d))
  }

  /** The hash may come in either case. */
  lemma EitherCaseAccepted(sign: Text -> Text, d: Dict, secure: Text)
    requires SECURE_HASH in d && Lower(secure) == Lower(d[SECURE_HASH])
    ensures Accepts(sign, d[SECURE_HASH := secure]) <==> Accepts(sign, d)
  {
    assert Filtered(d[SECURE_HASH := secure]) == Filtered(d);
  }

  lemma AnyListing(keys: seq<Text>, d: Dict)
    requires Lists(keys, d) && Encodable(d)
    ensures forall t :: Signs(d, t) <==> t == SignText(keys, d)
  {
    forall t | Signs(d, t) ensures t == SignText(keys, d) {
      var other :| Lists(other, d) && SignText(other, d) == t;
      SignTextIgnoresOrder(keys, other, d);
    }
  }

  /** The notification rebuilds the signed text: one that carries the signature made for the
      dictionary `d` is accepted exactly when its other parameters are `d`.  (The signature is
      taken to tell different texts apart.) */
  lemma AcceptedIffSigned(sign: Text -> Text, d: Dict, keys: seq<Text>, ipn: Dict)
    requires forall a, b :: Lower(sign(a)) == Lower(sign(b)) ==> a == b
    requires Encodable(d) && Lists(keys, d)
    requires Lower(SecureOf(ipn)) == Lower(sign(SignText(keys, d)))
    ensures Accepts(sign, ipn) <==> Filtered(ipn) == d
  {
    AnyListing(keys, d);
    if Accepts(sign, ipn) {
      var t :| Signs(Filtered(ipn), t) && Lower(sign(t)) == Lower(SecureOf(ipn));
      var other :| Lists(other, Filtered(ipn)) && SignText(other, Filtered(ipn)) == t;
      SignTextInjective(other, Filtered(ipn), keys, d);
    }
    if Filtered(ipn) == d { assert Signs(Filtered(ipn), SignText(keys, d)); }
  }
}
