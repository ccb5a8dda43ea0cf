/** Query pairs: form encoding reads back, and appending a pair adds exactly that pair. */
module UrlQuery {
  import opened Prelude
  import opened UrlText
  import opened Url
  import opened UrlRoundTrip

  /** Decoding undoes encoding, for every byte string. */
  lemma {:induction false} FormRoundTrip(s: Text)
    ensures FormDecodeBytes(FormEncode(s)) == s
  {
    if s != [] {
      FormRoundTrip(s[1..]);
      var head, rest := FormEncodeByte(s[0]), FormEncode(s[1..]);
      var out := head + rest;
      if |head| == 3 {
        assert out[0] == '%' && out[1] == head[1] && out[2] == head[2] && out[3..] == rest;
      } else {
        assert out[0] == head[0] && out[1..] == rest;
      }
      assert s == [s[0]] + s[1..];
    }
  }

  lemma {:induction false} LossyOfValid(s: Text)
    requires ValidUtf8(s)
    ensures Utf8Lossy(s) == s
    decreases |s|
  {
    if s != [] {
      LossyOfValid(s[Utf8Char(s)..]);
    }
  }

  /** Text as a Rust string holds it survives encoding and decoding. */
  lemma FormTextRoundTrip(s: Text)
    requires ValidUtf8(s)
    ensures FormDecode(FormEncode(s)) == s
  {
    FormRoundTrip(s);
    LossyOfValid(s);
  }

  predicate FormOutput(c: Byte) {
    FormPlain(c) || c in {'+', '%'}
  }

  lemma {:induction false} FormEncodeText(s: Text)
    ensures forall c :: c in FormEncode(s) ==> FormOutput(c)
  {
    if s != [] {
      FormEncodeText(s[1..]);
    }
  }

  lemma FormEncodeLacks(s: Text, c: Byte)
    requires !FormOutput(c)
    ensures c !in FormEncode(s)
  {
    FormEncodeText(s);
  }

  lemma PairSplits(name: Text, value: Text)
    ensures SplitOnce(EncodedPair(name, value), '=') == Some((FormEncode(name), FormEncode(value)))
  {
    FormEncodeLacks(name, '=');
    IndexOfConcat(FormEncode(name), '=', FormEncode(value));
  }

  lemma PairIsOnePiece(name: Text, value: Text)
    ensures EncodedPair(name, value) != [] && '&' !in EncodedPair(name, value)
  {
    FormEncodeLacks(name, '&');
    FormEncodeLacks(value, '&');
  }

  lemma PairReads(name: Text, value: Text)
    requires ValidUtf8(name) && ValidUtf8(value)
    ensures DecodePair(EncodedPair(name, value)) == (name, value)
  {
    PairSplits(name, value);
    FormTextRoundTrip(name);
    FormTextRoundTrip(value);
  }

  lemma {:induction false} DecodePairsAppend(pairs: seq<Text>, last: Text)
    ensures DecodePairs(pairs + [last]) == DecodePairs(pairs) + DecodePairs([last])
  {
    if pairs == [] {
      assert pairs + [last] == [last];
    } else {
      assert (pairs + [last])[1..] == pairs[1..] + [last];
      DecodePairsAppend(pairs[1..], last);
    }
  }

  /** The query append law: the pairs read afterwards are the old pairs and then the new one. */
  lemma AppendLaw(u: ParsedUrl, name: Text, value: Text)
    requires ValidUtf8(name) && ValidUtf8(value)
    ensures QueryPairs(AppendQueryPair(u, name, value)) == QueryPairs(u) + [(name, value)]
  {
    PairReads(name, value);
    PairIsOnePiece(name, value);
    var query, pair := QueryText(u), EncodedPair(name, value);
    assert DecodePairs([pair]) == [(name, value)];
    if query == [] {
      SplitNone(query, '&');
      SplitNone(pair, '&');
      assert DecodePairs([query]) == [];
      assert QueryText(AppendQueryPair(u, name, value)) == pair;
    } else {
      SplitAppend(query, '&', pair);
      DecodePairsAppend(Split(query, '&'), pair);
      assert QueryText(AppendQueryPair(u, name, value)) == query + ['&'] + pair;
    }
  }

  lemma PairIsClean(name: Text, value: Text, special: bool)
    ensures CleanText(EncodedPair(name, value), QuerySet(special))
  {
    FormEncodeText(name);
    FormEncodeText(value);
    forall c | c in EncodedPair(name, value)
      ensures !Forbidden(c) && !QuerySet(special)(c)
    {
      assert FormOutput(c) || c == '=';
      OutputIsClean(c, special);
    }
  }

  lemma OutputIsClean(c: Byte, special: bool)
    requires FormOutput(c) || c == '='
    ensures !Forbidden(c) && !QuerySet(special)(c)
  {
  }

  lemma AppendIsNormal(v6: Ipv6Codec, u: ParsedUrl, name: Text, value: Text)
    requires Normal(v6, u)
    ensures Normal(v6, AppendQueryPair(u, name, value))
  {
    var special := Special(u.scheme);
    PairIsClean(name, value, special);
    var query := AppendQueryPair(u, name, value).query.value;
    forall c | c in query
      ensures !Forbidden(c) && !QuerySet(special)(c)
    {
      assert c in QueryText(u) || c in EncodedPair(name, value) || c == '&';
    }
  }

  /** The extended URL is still normal, so it prints and parses back too. */
  lemma AppendRoundTrip(v6: Ipv6Codec, input: Text, name: Text, value: Text)
    requires Lawful(v6) && Parse(v6, input).Ok?
    ensures var extended := AppendQueryPair(Parse(v6, input).value, name, value);
            Parse(v6, Display(extended)) == Ok(extended)
  {
    var u := Parse(v6, input).value;
    ParseIsNormal(v6, input);
    AppendIsNormal(v6, u, name, value);
    NormalRoundTrip(v6, AppendQueryPair(u, name, value));
  }

  // ---------- what any query reads as ----------

  /** A plus is a space, an escape in either case is its byte, and everything else, a stray percent sign
      included, stands for itself. */
  lemma FormByteReads(c: Byte, rest: Text)
    ensures c == '+' ==> FormDecodeBytes([c] + rest) == [' '] + FormDecodeBytes(rest)
    ensures c != '+' && c != '%' ==> FormDecodeBytes([c] + rest) == [c] + FormDecodeBytes(rest)
    ensures c == '%' && !(|rest| >= 2 && IsHexDigit(rest[0]) && IsHexDigit(rest[1])) ==>
              FormDecodeBytes([c] + rest) == [c] + FormDecodeBytes(rest)
    ensures c == '%' && |rest| >= 2 && IsHexDigit(rest[0]) && IsHexDigit(rest[1]) ==>
              FormDecodeBytes([c] + rest) == [(HexValue(rest[0]) * 16 + HexValue(rest[1])) as char] + FormDecodeBytes(rest[2..])
  {
    var s := [c] + rest;
    assert s[0] == c && s[1..] == rest;
    if |rest| >= 2 {
      assert s[1] == rest[0] && s[2] == rest[1] && s[3..] == rest[2..];
    }
  }

  lemma ReplacementIsValid(s: Text)
    requires ValidUtf8(s)
    ensures ValidUtf8(REPLACEMENT + s)
  {
    assert (REPLACEMENT + s)[3..] == s;
    assert Utf8Char(REPLACEMENT + s) == 3;
  }

  /** The length of a leading character depends on that character alone. */
  lemma CharStays(s: Text, n: nat, t: Text)
    requires n == Utf8Char(s) > 0
    ensures Utf8Char(s[..n] + t) == n
  {
  }

  /** Reading bytes as text always gives UTF-8, so decoding a second time changes nothing. */
  lemma {:induction false} LossyIsValid(s: Text)
    ensures ValidUtf8(Utf8Lossy(s)) && Utf8Lossy(Utf8Lossy(s)) == Utf8Lossy(s)
    decreases |s|
  {
    if s != [] {
      var n := Utf8Char(s);
      if n > 0 {
        LossyIsValid(s[n..]);
        CharStays(s, n, Utf8Lossy(s[n..]));
        assert (s[..n] + Utf8Lossy(s[n..]))[n..] == Utf8Lossy(s[n..]);
      } else {
        LossyIsValid(s[Utf8Broken(s)..]);
        ReplacementIsValid(Utf8Lossy(s[Utf8Broken(s)..]));
      }
    }
    LossyOfValid(Utf8Lossy(s));
  }

  /** What one piece between ampersands contributes: the decoded halves around its first equals sign, or
      all of it with an empty value when there is none; an empty piece contributes nothing. */
  ghost predicate PieceReads(piece: Text, pairs: seq<(Text, Text)>) {
    && (piece == [] ==> pairs == [])
    && (piece != [] && '=' !in piece ==> pairs == [(FormDecode(piece), [])])
    && (forall name: Text, value: Text :: '=' !in name && piece == name + ['='] + value ==>
          pairs == [(FormDecode(name), FormDecode(value))])
  }

  lemma PieceIsRead(piece: Text)
    ensures PieceReads(piece, DecodePairs([piece]))
  {
    var one: seq<Text> := [piece];
    assert one[1..] == [];
    forall name: Text, value: Text | '=' !in name && piece == name + ['='] + value
      ensures DecodePairs([piece]) == [(FormDecode(name), FormDecode(value))]
    {
      IndexOfConcat(name, '=', value);
    }
  }

  function Flatten(parts: seq<seq<(Text, Text)>>): seq<(Text, Text)> {
    if parts == [] then [] else parts[0] + Flatten(parts[1..])
  }

  /** The pairs of any query: the contributions of its pieces, in order. */
  lemma {:induction false} PairsOfPieces(pieces: seq<Text>) returns (parts: seq<seq<(Text, Text)>>)
    ensures |parts| == |pieces| && forall i :: 0 <= i < |parts| ==> PieceReads(pieces[i], parts[i])
    ensures DecodePairs(pieces) == Flatten(parts)
  {
    if pieces == [] {
      parts := [];
    } else {
      var rest := PairsOfPieces(pieces[1..]);
      PieceIsRead(pieces[0]);
      var one: seq<Text> := [pieces[0]];
      assert one[1..] == [];
      parts := [DecodePairs(one)] + rest;
      assert parts[1..] == rest;
    }
  }

  /** For every URL and every list of pieces its query joins with ampersands. */
  lemma QueryReads(u: ParsedUrl, pieces: seq<Text>) returns (parts: seq<seq<(Text, Text)>>)
    requires pieces != [] && (forall p :: p in pieces ==> '&' !in p) && u.query == Some(Join(pieces, '&'))
    ensures |parts| == |pieces| && forall i :: 0 <= i < |parts| ==> PieceReads(pieces[i], parts[i])
    ensures QueryPairs(u) == Flatten(parts)
  {
    SplitJoin(pieces, '&');
    parts := PairsOfPieces(pieces);
  }

  lemma NoQueryNoPairs(u: ParsedUrl)
    requires u.query.None?
    ensures QueryPairs(u) == []
  {
    assert Split([], '&') == [[]];
    assert DecodePairs([[]]) == DecodePairs([[]][1..]);
  }
}
