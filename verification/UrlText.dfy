/** Byte strings as the URL parser sees them: searching, splitting, percent-encoding, decimal
    numbers. Byte `b` is written as the character with code `b`. */
module UrlText {
  import opened Prelude

  type Byte = c: char | c as int < 256 witness 'a'

  type Text = seq<Byte>

  // ---------- searching and splitting ----------

  /** Position of the first `c`, or the length: Rust `find`. */
  function IndexOf(s: Text, c: Byte): (i: nat)
    ensures i <= |s|
    ensures forall j :: 0 <= j < i ==> s[j] != c
    ensures i < |s| ==> s[i] == c
  {
    if s == [] || s[0] == c then 0 else 1 + IndexOf(s[1..], c)
  }

  /** Rust `split_once`: what stands before and after the first `c`. */
  function SplitOnce(s: Text, c: Byte): (r: Option<(Text, Text)>)
    ensures r.Some? <==> c in s
    ensures r.Some? ==> s == r.value.0 + [c] + r.value.1 && c !in r.value.0
  {
    var i := IndexOf(s, c);
    if i < |s| then Some((s[..i], s[i + 1..])) else None
  }

  /** The first occurrence is the only split: text without the separator can be recovered. */
  lemma IndexOfConcat(a: Text, c: Byte, b: Text)
    requires c !in a
    ensures IndexOf(a + [c] + b, c) == |a|
    ensures SplitOnce(a + [c] + b, c) == Some((a, b))
  {
    var s := a + [c] + b;
    var i := IndexOf(s, c);
    assert s[|a|] == c;
    assert forall j :: 0 <= j < |a| ==> s[j] == a[j];
    assert s[..i] == a && s[i + 1..] == b;
  }

  /** Rust `split`: the pieces between separators, at least one. */
  function Split(s: Text, c: Byte): (r: seq<Text>)
    ensures |r| >= 1
    decreases |s|
  {
    var i := IndexOf(s, c);
    if i == |s| then [s] else [s[..i]] + Split(s[i + 1..], c)
  }

  function Join(parts: seq<Text>, c: Byte): Text
    requires parts != []
  {
    if |parts| == 1 then parts[0] else parts[0] + [c] + Join(parts[1..], c)
  }

  lemma {:induction false} SplitJoin(parts: seq<Text>, c: Byte)
    requires parts != [] && forall p :: p in parts ==> c !in p
    ensures Split(Join(parts, c), c) == parts
  {
    assert parts[0] in parts;
    if |parts| == 1 {
      assert Split(parts[0], c) == [parts[0]];
    } else {
      var rest := Join(parts[1..], c);
      IndexOfConcat(parts[0], c, rest);
      SplitJoin(parts[1..], c);
      var s := Join(parts, c);
      assert s[..|parts[0]|] == parts[0] && s[|parts[0]| + 1..] == rest;
    }
  }

  lemma {:induction false} JoinSplit(s: Text, c: Byte)
    ensures Join(Split(s, c), c) == s
    ensures forall p :: p in Split(s, c) ==> c !in p
    decreases |s|
  {
    var i := IndexOf(s, c);
    if i < |s| {
      JoinSplit(s[i + 1..], c);
      assert s == s[..i] + [c] + s[i + 1..];
      assert Split(s, c)[1..] == Split(s[i + 1..], c);
    } else {
      assert Split(s, c) == [s];
    }
  }

  /** Appending a separator and a piece appends that piece to the split. */
  lemma {:induction false} SplitAppend(s: Text, c: Byte, t: Text)
    requires c !in t
    ensures Split(s + [c] + t, c) == Split(s, c) + [t]
    decreases |s|
  {
    var i := IndexOf(s, c);
    var whole := s + [c] + t;
    if i == |s| {
      IndexOfConcat(s, c, t);
      assert whole[..i] == s && whole[i + 1..] == t;
    } else {
      var rest := s[i + 1..] + [c] + t;
      assert whole == s[..i] + [c] + rest;
      IndexOfConcat(s[..i], c, rest);
      assert whole[i + 1..] == rest;
      SplitAppend(s[i + 1..], c, t);
    }
  }

  // ---------- percent-encoding ----------

  function HexChar(d: nat): (c: Byte)
    requires d < 16
    ensures IsHexDigit(c) && !IsLower(c) && HexValue(c) == d
  {
    if d < 10 then (d + '0' as int) as char else (d - 10 + 'A' as int) as char
  }

  function HexValue(c: char): (v: nat)
    requires IsHexDigit(c)
    ensures v < 16
  {
    if IsDigit(c) then c as int - '0' as int
    else if 'a' <= c <= 'f' then c as int - 'a' as int + 10
    else c as int - 'A' as int + 10
  }

  function Percent(b: Byte): (r: Text)
    ensures |r| == 3 && r[0] == '%' && IsHexDigit(r[1]) && IsHexDigit(r[2])
    ensures !IsLower(r[1]) && !IsLower(r[2])
    ensures HexValue(r[1]) * 16 + HexValue(r[2]) == b as int
  {
    ['%', HexChar(b as int / 16), HexChar(b as int % 16)]
  }

  function EncodeByte(b: Byte, encoded: Byte -> bool): Text {
    if encoded(b) then Percent(b) else [b]
  }

  function PercentEncode(s: Text, encoded: Byte -> bool): Text {
    if s == [] then [] else EncodeByte(s[0], encoded) + PercentEncode(s[1..], encoded)
  }

  /** Percent-decoding as a receiver does it: `%` and two hexadecimal digits are one byte. */
  function PercentDecode(s: Text): Text {
    if s == [] then []
    else if s[0] == '%' && |s| >= 3 && IsHexDigit(s[1]) && IsHexDigit(s[2]) then
      [(HexValue(s[1]) * 16 + HexValue(s[2])) as char] + PercentDecode(s[3..])
    else [s[0]] + PercentDecode(s[1..])
  }

  /** What every encode set of the parser leaves alone. */
  predicate SparesEscapes(encoded: Byte -> bool) {
    && !encoded('%') && !encoded('/')
    && forall c: Byte :: IsHexDigit(c) ==> !encoded(c)
  }

  /** Encoding leaves nothing to encode, and adds only `%` and hexadecimal digits. */
  lemma {:induction false} EncodedIsClean(s: Text, encoded: Byte -> bool)
    requires SparesEscapes(encoded)
    ensures forall c :: c in PercentEncode(s, encoded) ==> !encoded(c)
    ensures forall c :: c in PercentEncode(s, encoded) ==> c in s || c == '%' || (IsHexDigit(c) && !IsLower(c))
  {
    if s != [] {
      EncodedIsClean(s[1..], encoded);
      var head := EncodeByte(s[0], encoded);
      assert forall c :: c in head ==> !encoded(c) && (c == s[0] || c == '%' || (IsHexDigit(c) && !IsLower(c)));
    }
  }

  lemma {:induction false} EncodeCleanIsIdentity(s: Text, encoded: Byte -> bool)
    requires forall c :: c in s ==> !encoded(c)
    ensures PercentEncode(s, encoded) == s
  {
    if s != [] {
      assert s[0] in s;
      EncodeCleanIsIdentity(s[1..], encoded);
      assert s == [s[0]] + s[1..];
    }
  }

  /** Encoding twice is encoding once. */
  lemma EncodeIdempotent(s: Text, encoded: Byte -> bool)
    requires SparesEscapes(encoded)
    ensures PercentEncode(PercentEncode(s, encoded), encoded) == PercentEncode(s, encoded)
  {
    EncodedIsClean(s, encoded);
    EncodeCleanIsIdentity(PercentEncode(s, encoded), encoded);
  }

  lemma {:induction false} EncodeConcat(a: Text, b: Text, encoded: Byte -> bool)
    ensures PercentEncode(a + b, encoded) == PercentEncode(a, encoded) + PercentEncode(b, encoded)
  {
    if a == [] {
      assert a + b == b;
    } else {
      assert (a + b)[1..] == a[1..] + b;
      EncodeConcat(a[1..], b, encoded);
    }
  }

  /** Encoding does not change what the text decodes to. */
  lemma {:induction false} DecodeOfEncode(s: Text, encoded: Byte -> bool)
    requires SparesEscapes(encoded)
    ensures PercentDecode(PercentEncode(s, encoded)) == PercentDecode(s)
    decreases |s|
  {
    if s != [] {
      var rest := PercentEncode(s[1..], encoded);
      if encoded(s[0]) {
        DecodeOfEncode(s[1..], encoded);
        var out := Percent(s[0]) + rest;
        assert out[3..] == rest;
      } else if s[0] == '%' && |s| >= 3 && IsHexDigit(s[1]) && IsHexDigit(s[2]) {
        DecodeOfEncode(s[3..], encoded);
        assert rest == [s[1]] + PercentEncode(s[2..], encoded);
        assert PercentEncode(s[2..], encoded) == [s[2]] + PercentEncode(s[3..], encoded);
        var out := [s[0]] + rest;
        assert out[1] == s[1] && out[2] == s[2] && out[3..] == PercentEncode(s[3..], encoded);
      } else {
        DecodeOfEncode(s[1..], encoded);
        var out := [s[0]] + rest;
        assert out[1..] == rest;
        if s[0] == '%' { EncodeKeepsNonEscape(s, encoded); }
      }
    }
  }

  /** A `%` that starts no escape starts none after encoding either. */
  lemma EncodeKeepsNonEscape(s: Text, encoded: Byte -> bool)
    requires SparesEscapes(encoded) && s != [] && s[0] == '%'
    requires !(|s| >= 3 && IsHexDigit(s[1]) && IsHexDigit(s[2]))
    ensures var out := PercentEncode(s, encoded);
            out != [] && out[0] == '%' && !(|out| >= 3 && IsHexDigit(out[1]) && IsHexDigit(out[2]))
  {
    var rest := PercentEncode(s[1..], encoded);
    if |s| >= 2 {
      assert rest == EncodeByte(s[1], encoded) + PercentEncode(s[2..], encoded);
      if |s| >= 3 {
        assert PercentEncode(s[2..], encoded) == EncodeByte(s[2], encoded) + PercentEncode(s[3..], encoded);
      }
    }
  }

  function EncodeAll(parts: seq<Text>, encoded: Byte -> bool): seq<Text> {
    if parts == [] then [] else [PercentEncode(parts[0], encoded)] + EncodeAll(parts[1..], encoded)
  }

  lemma SplitCons(head: Text, c: Byte, rest: Text)
    requires c !in head
    ensures Split(head + [c] + rest, c) == [head] + Split(rest, c)
  {
    IndexOfConcat(head, c, rest);
    var s := head + [c] + rest;
    assert s[..|head|] == head && s[|head| + 1..] == rest;
  }

  lemma SplitNone(s: Text, c: Byte)
    requires c !in s
    ensures Split(s, c) == [s]
  {
  }

  /** Segments of an encoded path are the encoded segments. */
  lemma {:induction false} SplitOfEncode(s: Text, encoded: Byte -> bool)
    requires SparesEscapes(encoded)
    ensures Split(PercentEncode(s, encoded), '/') == EncodeAll(Split(s, '/'), encoded)
    decreases |s|
  {
    var i := IndexOf(s, '/');
    EncodedIsClean(s[..i], encoded);
    if i == |s| {
      assert s[..i] == s;
      SplitNone(s, '/');
      SplitNone(PercentEncode(s, encoded), '/');
    } else {
      var head, rest := PercentEncode(s[..i], encoded), PercentEncode(s[i + 1..], encoded);
      assert s == s[..i] + ['/'] + s[i + 1..];
      EncodeConcat(s[..i] + ['/'], s[i + 1..], encoded);
      EncodeConcat(s[..i], ['/'], encoded);
      assert PercentEncode(['/'], encoded) == ['/'];
      SplitCons(s[..i], '/', s[i + 1..]);
      SplitCons(head, '/', rest);
      SplitOfEncode(s[i + 1..], encoded);
    }
  }

  lemma {:induction false} EncodeAllAt(parts: seq<Text>, encoded: Byte -> bool, i: nat)
    requires i < |parts|
    ensures |EncodeAll(parts, encoded)| == |parts|
    ensures EncodeAll(parts, encoded)[i] == PercentEncode(parts[i], encoded)
  {
    if |parts| > 1 { EncodeAllAt(parts[1..], encoded, if i == 0 then 0 else i - 1); }
  }

  // ---------- decimal numbers ----------

  predicate AllDigits(s: Text) {
    forall c :: c in s ==> IsDigit(c)
  }

  function DecimalValue(s: Text): nat
    requires AllDigits(s)
  {
    if s == [] then 0 else
      assert s[|s| - 1] in s;
      10 * DecimalValue(s[..|s| - 1]) + (s[|s| - 1] as int - '0' as int)
  }

  function Digit(d: nat): (c: Byte)
    requires d < 10
    ensures IsDigit(c) && c as int - '0' as int == d
  {
    (d + '0' as int) as char
  }

  function PrintNat(n: nat): (s: Text)
    ensures s != [] && AllDigits(s)
    ensures DecimalValue(s) == n
    ensures |s| > 1 ==> s[0] != '0'
  {
    if n < 10 then
      var s := [Digit(n)];
      assert s[..|s| - 1] == [];
      s
    else
      var head := PrintNat(n / 10);
      var s := head + [Digit(n % 10)];
      assert s[..|s| - 1] == head;
      assert |head| == 1 ==> DecimalValue(head[..0]) == 0;
      s
  }

  /** Digits without a leading zero are what their value prints as. */
  lemma {:induction false} PrintNatOfValue(s: Text)
    requires s != [] && AllDigits(s) && (|s| > 1 ==> s[0] != '0')
    ensures PrintNat(DecimalValue(s)) == s
  {
    var n := |s| - 1;
    assert s == s[..n] + [s[n]];
    assert s[n] in s;
    if n == 0 {
      assert s[..n] == [];
    } else {
      PrintNatOfValue(s[..n]);
      PositiveValue(s[..n]);
    }
  }

  lemma {:induction false} PositiveValue(s: Text)
    requires s != [] && AllDigits(s) && s[0] != '0'
    ensures DecimalValue(s) >= 1
  {
    assert s[0] in s && s[|s| - 1] in s;
    if |s| == 1 { assert s[..0] == []; } else { PositiveValue(s[..|s| - 1]); }
  }
}
