/** The loops of the URL module, over growing buffers, and the one operation that updates a parsed
    URL in place. Each is proved against the function the other proofs are about. */
module UrlBuffers {
  import opened Prelude
  import opened UrlText
  import opened Url
  import opened UrlQuery

  lemma EncodeSnoc(raw: Text, at: nat, encoded: Byte -> bool)
    requires at < |raw|
    ensures PercentEncode(raw[..at + 1], encoded) == PercentEncode(raw[..at], encoded) + EncodeByte(raw[at], encoded)
  {
    assert raw[..at + 1] == raw[..at] + [raw[at]];
    EncodeConcat(raw[..at], [raw[at]], encoded);
    assert PercentEncode([raw[at]], encoded) == EncodeByte(raw[at], encoded);
  }

  method EncodePercent(raw: Text, encoded: Byte -> bool) returns (out: Text)
    ensures out == PercentEncode(raw, encoded)
  {
    out := [];
    for at := 0 to |raw|
      invariant out == PercentEncode(raw[..at], encoded)
    {
      EncodeSnoc(raw, at, encoded);
      if encoded(raw[at]) {
        out := out + Percent(raw[at]);
      } else {
        out := out + [raw[at]];
      }
    }
    assert raw[..|raw|] == raw;
  }

  lemma {:induction false} FormEncodeConcat(a: Text, b: Text)
    ensures FormEncode(a + b) == FormEncode(a) + FormEncode(b)
  {
    if a == [] {
      assert a + b == b;
    } else {
      assert (a + b)[1..] == a[1..] + b;
      FormEncodeConcat(a[1..], b);
    }
  }

  lemma FormEncodeSnoc(raw: Text, at: nat)
    requires at < |raw|
    ensures FormEncode(raw[..at + 1]) == FormEncode(raw[..at]) + FormEncodeByte(raw[at])
  {
    assert raw[..at + 1] == raw[..at] + [raw[at]];
    FormEncodeConcat(raw[..at], [raw[at]]);
    assert FormEncode([raw[at]]) == FormEncodeByte(raw[at]);
  }

  method FormEncodeInto(buffer: Text, raw: Text) returns (out: Text)
    ensures out == buffer + FormEncode(raw)
  {
    out := buffer;
    for at := 0 to |raw|
      invariant out == buffer + FormEncode(raw[..at])
    {
      FormEncodeSnoc(raw, at);
      var b := raw[at];
      if b == ' ' {
        out := out + ['+'];
      } else if b == '*' || b == '-' || b == '.' || b == '_' || IsAlphanumeric(b) {
        out := out + [b];
      } else {
        out := out + Percent(b);
      }
    }
    assert raw[..|raw|] == raw;
  }

  /** One turn of the decoding loop: how far it moves, and the byte it yields. */
  function DecodeAt(raw: Text, at: nat): (nat, Byte)
    requires at < |raw|
  {
    if raw[at] == '+' then (1, ' ')
    else if raw[at] == '%' && at + 2 < |raw| && IsHexDigit(raw[at + 1]) && IsHexDigit(raw[at + 2]) then
      (3, (HexValue(raw[at + 1]) * 16 + HexValue(raw[at + 2])) as char)
    else (1, raw[at])
  }

  lemma DecodeTurn(raw: Text, at: nat, out: Text)
    requires at < |raw|
    ensures var (n, b) := DecodeAt(raw, at);
            at + n <= |raw| && out + FormDecodeBytes(raw[at..]) == (out + [b]) + FormDecodeBytes(raw[at + n..])
  {
    var (n, b) := DecodeAt(raw, at);
    var rest := raw[at..];
    assert rest[n..] == raw[at + n..];
    assert FormDecodeBytes(rest) == [b] + FormDecodeBytes(raw[at + n..]);
  }

  method DecodeForm(raw: Text) returns (text: Text)
    ensures text == FormDecode(raw)
  {
    var out: Text := [];
    var at := 0;
    while at < |raw|
      invariant 0 <= at <= |raw|
      invariant out + FormDecodeBytes(raw[at..]) == FormDecodeBytes(raw)
    {
      DecodeTurn(raw, at, out);
      if raw[at] == '+' {
        out := out + [' '];
      } else if raw[at] == '%' && at + 2 < |raw| && IsHexDigit(raw[at + 1]) && IsHexDigit(raw[at + 2]) {
        out := out + [(HexValue(raw[at + 1]) * 16 + HexValue(raw[at + 2])) as char];
        at := at + 2;
      } else {
        out := out + [raw[at]];
      }
      at := at + 1;
    }
    assert out + [] == out;
    text := Utf8Lossy(out);
  }

  lemma Assemble(start: Text, name: Text, value: Text)
    ensures start + name + ['='] + value == start + (name + ['='] + value)
  {
  }

  /** A parsed URL whose query can be extended in place. */
  class UrlObject {
    var scheme: Text
    var host: Text
    var ip: Option<Ip>
    var port: Option<nat>
    var path: Text
    var query: Option<Text>
    var fragment: Option<Text>

    function Value(): ParsedUrl
      reads this
    {
      ParsedUrl(scheme, host, ip, port, path, query, fragment)
    }

    constructor (u: ParsedUrl)
      ensures Value() == u
    {
      scheme, host, ip, port := u.scheme, u.host, u.ip, u.port;
      path, query, fragment := u.path, u.query, u.fragment;
    }

    method Append(name: Text, value: Text)
      modifies this`query
      ensures Value() == AppendQueryPair(old(Value()), name, value)
      ensures ValidUtf8(name) && ValidUtf8(value) ==>
                QueryPairs(Value()) == QueryPairs(old(Value())) + [(name, value)]
    {
      ghost var before := Value();
      var start := if query.Some? then query.value else [];
      if start != [] {
        start := start + ['&'];
      }
      var named := FormEncodeInto(start, name);
      var text := FormEncodeInto(named + ['='], value);
      Assemble(start, FormEncode(name), FormEncode(value));
      query := Some(text);
      if ValidUtf8(name) && ValidUtf8(value) {
        AppendLaw(before, name, value);
      }
    }
  }
}
