/** Printing and parsing are inverse on parsed URLs; dot segments never get through; appended query
    pairs read back. */
module UrlRoundTrip {
  import opened Prelude
  import opened UrlText
  import opened Url
  import opened UrlHost

  // ---------- the normal form ----------

  ghost predicate CleanText(s: Text, encoded: Byte -> bool) {
    forall c :: c in s ==> !Forbidden(c) && !encoded(c)
  }

  ghost predicate CleanOption(s: Option<Text>, encoded: Byte -> bool) {
    s.Some? ==> CleanText(s.value, encoded)
  }

  ghost predicate NoCapitals(s: Text) {
    forall c :: c in s ==> !IsUpper(c)
  }

  ghost predicate NormalScheme(scheme: Text) {
    ValidScheme(scheme) && NoCapitals(scheme) && scheme != "file" && scheme != "ftp"
  }

  /** The host as it is kept: a bracketed literal, or labels; under a special scheme in small letters,
      and with a numeric last label only as the dotted quad of its address. */
  ghost predicate NormalHost(v6: Ipv6Codec, host: Text, ip: Option<Ip>, special: bool) {
    if ip.Some? && ip.value.V6? then host == ['['] + v6.write(ip.value.address) + [']']
    else
      && DomainText(host)
      && (special ==> NoCapitals(host))
      && if special && IsIpv4Number(Last(Split(StripDot(host), '.')))
         then ip.Some? && ValidIpv4(ip.value) && host == Ipv4Text(ip.value)
         else ip.None?
  }

  ghost predicate NormalPort(scheme: Text, port: Option<nat>) {
    port.Some? ==> port.value <= 65535 && port != DefaultPort(scheme)
  }

  ghost predicate NormalPath(path: Text, special: bool) {
    && CleanText(path, InPathSet)
    && !HasDotSegment(path)
    && (path != [] ==> path[0] == '/')
    && (special ==> path != [])
  }

  /** The URLs that parsing yields, described without the parser's steps. */
  ghost predicate Normal(v6: Ipv6Codec, u: ParsedUrl) {
    var special := Special(u.scheme);
    && NormalScheme(u.scheme)
    && NormalHost(v6, u.host, u.ip, special)
    && NormalPort(u.scheme, u.port)
    && NormalPath(u.path, special)
    && CleanOption(u.query, QuerySet(special))
    && CleanOption(u.fragment, InFragmentSet)
  }

  lemma SetsSpareEscapes(special: bool)
    ensures SparesEscapes(InPathSet) && SparesEscapes(InFragmentSet) && SparesEscapes(QuerySet(special))
  {
  }

  // ---------- scheme and host ----------

  lemma SmallIsLowered(s: Text)
    ensures NoCapitals(s) <==> LowerText(s) == s
  {
    if NoCapitals(s) {
      forall i | 0 <= i < |s|
        ensures LowerText(s)[i] == s[i]
      {
        assert s[i] in s;
      }
    } else {
      var c :| c in s && IsUpper(c);
      var i :| 0 <= i < |s| && s[i] == c;
      assert LowerText(s)[i] != s[i];
    }
  }

  /** A scheme is normal exactly when reading it gives it back. */
  lemma SchemeReads(scheme: Text)
    ensures NormalScheme(scheme) <==> ParseScheme(scheme) == Ok(scheme)
  {
    SmallIsLowered(scheme);
  }

  /** A named host is normal exactly when reading it gives it back with its address. */
  lemma HostReads(v6: Ipv6Codec, host: Text, ip: Option<Ip>, special: bool)
    requires !(ip.Some? && ip.value.V6?)
    ensures NormalHost(v6, host, ip, special) <==> DomainText(host) && ParseDomain(host, special) == Ok((host, ip))
  {
    SmallIsLowered(host);
    if ip.Some? {
      Ipv4Spelling(host, ip.value);
    }
  }

  // ---------- dot segments ----------

  lemma LowerConcat(a: Text, b: Text)
    ensures LowerText(a + b) == LowerText(a) + LowerText(b)
  {
  }

  /** Length of a dot at the start of `s`, plain or percent-encoded; 0 when there is none. */
  function DotLength(s: Text): (n: nat)
    ensures n <= |s|
  {
    if s != [] && s[0] == '.' then 1
    else if |s| >= 3 && s[0] == '%' && s[1] == '2' && s[2] in {'e', 'E'} then 3
    else 0
  }

  predicate OneDot(s: Text) {
    DotLength(s) > 0 && |s| == DotLength(s)
  }

  predicate OneOrTwoDots(s: Text) {
    OneDot(s) || (DotLength(s) > 0 && OneDot(s[DotLength(s)..]))
  }

  lemma PlainDot(s: Text)
    ensures LowerText(s) == "." <==> s == "."
  {
    if LowerText(s) == "." { assert LowerText(s)[0] == '.'; }
  }

  lemma EncodedDot(s: Text)
    ensures LowerText(s) == "%2e" <==> |s| == 3 && s[0] == '%' && s[1] == '2' && s[2] in {'e', 'E'}
  {
    if |s| == 3 {
      assert LowerText(s) == [LowerChar(s[0]), LowerChar(s[1]), LowerChar(s[2])];
      assert LowerText(s) == "%2e" <==> LowerChar(s[0]) == '%' && LowerChar(s[1]) == '2' && LowerChar(s[2]) == 'e';
    }
  }

  lemma OneDotSpelled(s: Text)
    ensures OneDot(s) <==> LowerText(s) == "." || LowerText(s) == "%2e"
  {
    PlainDot(s);
    EncodedDot(s);
  }

  /** Two dots are one of the listed spellings. */
  lemma TwoDotsAreListed(s: Text)
    requires DotLength(s) > 0 && OneDot(s[DotLength(s)..])
    ensures IsDotSegment(s)
  {
    var n := DotLength(s);
    OneDotSpelled(s[..n]);
    OneDotSpelled(s[n..]);
    assert s == s[..n] + s[n..];
    LowerConcat(s[..n], s[n..]);
    assert "." + "." == ".." && "." + "%2e" == ".%2e" && "%2e" + "." == "%2e." && "%2e" + "%2e" == "%2e%2e";
  }

  /** A listed spelling of two dots is two dots. */
  lemma ListedIsTwoDots(s: Text, n: nat)
    requires n <= |s| && LowerText(s[..n]) in {".", "%2e"} && LowerText(s[n..]) in {".", "%2e"}
    ensures DotLength(s) == n && OneDot(s[n..])
  {
    OneDotSpelled(s[..n]);
    OneDotSpelled(s[n..]);
  }

  lemma SplitLowered(s: Text, a: Text, b: Text)
    requires LowerText(s) == a + b
    ensures |a| <= |s| && LowerText(s[..|a|]) == a && LowerText(s[|a|..]) == b
  {
    var n := |a|;
    assert s == s[..n] + s[n..];
    LowerConcat(s[..n], s[n..]);
    assert (a + b)[..n] == a && (a + b)[n..] == b;
  }

  lemma ListedPair(s: Text, a: Text, b: Text)
    requires LowerText(s) == a + b && a in {".", "%2e"} && b in {".", "%2e"}
    ensures OneOrTwoDots(s)
  {
    SplitLowered(s, a, b);
    ListedIsTwoDots(s, |a|);
  }

  lemma DotSegmentShape(s: Text)
    ensures IsDotSegment(s) <==> OneOrTwoDots(s)
  {
    OneDotSpelled(s);
    if DotLength(s) > 0 && OneDot(s[DotLength(s)..]) {
      TwoDotsAreListed(s);
    }
    if LowerText(s) == ".." { ListedPair(s, ".", "."); }
    else if LowerText(s) == ".%2e" { ListedPair(s, ".", "%2e"); }
    else if LowerText(s) == "%2e." { ListedPair(s, "%2e", "."); }
    else if LowerText(s) == "%2e%2e" { ListedPair(s, "%2e", "%2e"); }
  }

  lemma DecodeDot(s: Text)
    ensures DotLength(s) > 0 ==> PercentDecode(s) == ['.'] + PercentDecode(s[DotLength(s)..])
    ensures DotLength(s) == 0 ==> PercentDecode(s) == [] || PercentDecode(s)[0] != '.'
    ensures PercentDecode(s) == [] <==> s == []
  {
    if s != [] && s[0] == '%' && |s| >= 3 && IsHexDigit(s[1]) && IsHexDigit(s[2]) {
      assert HexValue(s[1]) * 16 + HexValue(s[2]) == 46 <==> s[1] == '2' && s[2] in {'e', 'E'};
    }
  }

  /** The six listed spellings are exactly the segments that decode to `.` or `..`. */
  lemma DotSegmentExact(s: Text)
    ensures IsDotSegment(s) <==> PercentDecode(s) == "." || PercentDecode(s) == ".."
  {
    DotSegmentShape(s);
    DecodeDot(s);
    var n := DotLength(s);
    if n > 0 {
      var rest := s[n..];
      DecodeDot(rest);
      var d := PercentDecode(rest);
      assert PercentDecode(s) == ['.'] + d && d == PercentDecode(s)[1..];
      assert PercentDecode(s) == "." <==> d == [];
      assert PercentDecode(s) == ".." <==> d == ['.'];
      var m := DotLength(rest);
      if m > 0 {
        DecodeDot(rest[m..]);
        assert d == ['.'] + PercentDecode(rest[m..]);
        assert d == ['.'] <==> rest[m..] == [];
      }
    }
  }

  lemma EncodeKeepsDotSegments(path: Text)
    ensures HasDotSegment(PercentEncode(path, InPathSet)) <==> HasDotSegment(path)
  {
    SetsSpareEscapes(true);
    SplitOfEncode(path, InPathSet);
    var parts, out := Split(path, '/'), Split(PercentEncode(path, InPathSet), '/');
    EncodeAllAt(parts, InPathSet, 0);
    forall i | 0 <= i < |parts|
      ensures IsDotSegment(out[i]) <==> IsDotSegment(parts[i])
    {
      EncodeAllAt(parts, InPathSet, i);
      DecodeOfEncode(parts[i], InPathSet);
      DotSegmentExact(parts[i]);
      DotSegmentExact(out[i]);
    }
  }

  /** No segment of an accepted path, before or after encoding, decodes to a dot segment. */
  lemma NoDotSegments(raw: Text, special: bool)
    requires ParsePath(raw, special).Ok?
    ensures forall seg :: seg in Split(raw, '/') + Split(ParsePath(raw, special).value, '/') ==>
              PercentDecode(seg) != "." && PercentDecode(seg) != ".."
  {
    EncodeKeepsDotSegments(raw);
    var path := ParsePath(raw, special).value;
    if special && raw == [] { RootHasNoDots(); }
    forall seg | seg in Split(raw, '/') + Split(path, '/')
      ensures PercentDecode(seg) != "." && PercentDecode(seg) != ".."
    {
      DotSegmentExact(seg);
    }
  }

  lemma RootHasNoDots()
    ensures !HasDotSegment(['/'])
  {
    assert Split(['/'], '/') == [[], []] by {
      assert ['/'] == [] + ['/'] + [];
      SplitCons([], '/', []);
    }
    DotSegmentExact([]);
  }

  // ---------- what parsing yields ----------

  lemma EncodedClean(s: Text, encoded: Byte -> bool)
    requires SparesEscapes(encoded) && forall c :: c in s ==> !Forbidden(c)
    ensures CleanText(PercentEncode(s, encoded), encoded)
  {
    EncodedIsClean(s, encoded);
  }

  lemma SchemeNormal(raw: Text)
    requires ParseScheme(raw).Ok?
    ensures NormalScheme(ParseScheme(raw).value)
  {
    var scheme := LowerText(raw);
    LowerTwice(raw);
    SmallIsLowered(scheme);
    forall c | c in scheme
      ensures SchemeByte(c)
    {
      var i :| 0 <= i < |scheme| && scheme[i] == c;
      assert raw[i] in raw;
    }
    assert raw[0] in raw;
  }

  lemma CutParts(rest: Text)
    ensures var p := Cut(rest);
            && (forall c :: c in p.authority ==> c in rest) && '/' !in p.authority
            && (forall c :: c in p.path ==> c in rest) && (p.path != [] ==> p.path[0] == '/')
            && (p.query.Some? ==> forall c :: c in p.query.value ==> c in rest)
            && (p.fragment.Some? ==> forall c :: c in p.fragment.value ==> c in rest)
  {
  }

  lemma PathNormal(raw: Text, special: bool)
    requires ParsePath(raw, special).Ok?
    requires forall c :: c in raw ==> !Forbidden(c)
    requires raw != [] ==> raw[0] == '/'
    ensures NormalPath(ParsePath(raw, special).value, special)
  {
    SetsSpareEscapes(special);
    EncodedClean(raw, InPathSet);
    EncodeKeepsDotSegments(raw);
    if special && raw == [] { RootHasNoDots(); }
  }

  lemma LiteralNormal(v6: Ipv6Codec, rest: Text, special: bool)
    requires ParseLiteral(v6, rest).Ok?
    ensures var a := ParseLiteral(v6, rest).value;
            NormalHost(v6, a.host, a.ip, special) && (a.port.Some? ==> a.port.value <= 65535)
  {
  }

  lemma NamedNormal(v6: Ipv6Codec, authority: Text, special: bool)
    requires ParseNamed(authority, special).Ok?
    ensures var a := ParseNamed(authority, special).value;
            NormalHost(v6, a.host, a.ip, special) && (a.port.Some? ==> a.port.value <= 65535)
  {
    var (raw, port) := SplitTail(authority, ':');
    ParseDomainTwice(raw, special);
    var a := ParseNamed(authority, special).value;
    HostReads(v6, a.host, a.ip, special);
  }

  lemma AuthorityNormal(v6: Ipv6Codec, authority: Text, special: bool)
    requires ParseAuthority(v6, authority, special).Ok?
    ensures var a := ParseAuthority(v6, authority, special).value;
            NormalHost(v6, a.host, a.ip, special) && (a.port.Some? ==> a.port.value <= 65535)
  {
    if authority != [] && authority[0] == '[' {
      LiteralNormal(v6, authority[1..], special);
    } else {
      NamedNormal(v6, authority, special);
    }
  }

  /** Parsing yields normal URLs only. */
  lemma ParseIsNormal(v6: Ipv6Codec, input: Text)
    requires Parse(v6, input).Ok?
    ensures Normal(v6, Parse(v6, input).value)
  {
    var (rawScheme, rest) := SplitOnce(input, ':').value;
    var scheme := ParseScheme(rawScheme).value;
    var special := Special(scheme);
    SchemeNormal(rawScheme);
    assert forall c :: c in rest[2..] ==> c in input;
    CutParts(rest[2..]);
    var p := Cut(rest[2..]);
    AuthorityNormal(v6, p.authority, special);
    PathNormal(p.path, special);
    SetsSpareEscapes(special);
    if p.query.Some? { EncodedClean(p.query.value, QuerySet(special)); }
    if p.fragment.Some? { EncodedClean(p.fragment.value, InFragmentSet); }
  }

  // ---------- printing and parsing again ----------

  predicate HostLike(c: Byte) {
    HostByte(c) || c in {'[', ']', ':'}
  }

  /** Host and port hold none of the characters that end an authority. */
  lemma AuthorityText(v6: Ipv6Codec, u: ParsedUrl)
    requires Lawful(v6) && Normal(v6, u)
    ensures forall c :: c in u.host + DisplayPort(u.port) ==> HostLike(c)
  {
  }

  lemma SplitTailOptional(s: Text, c: Byte, t: Option<Text>)
    requires c !in s
    ensures SplitTail(s + DisplayOptional(c, t), c) == (s, t)
  {
    if t.Some? {
      assert s + DisplayOptional(c, t) == s + [c] + t.value;
      IndexOfConcat(s, c, t.value);
    } else {
      assert s + DisplayOptional(c, t) == s;
    }
  }

  lemma SlashStartsPath(authority: Text, path: Text)
    requires '/' !in authority && (path != [] ==> path[0] == '/')
    ensures IndexOf(authority + path, '/') == |authority|
    ensures (authority + path)[..|authority|] == authority && (authority + path)[|authority|..] == path
  {
    var front := authority + path;
    assert forall i :: 0 <= i < |authority| ==> front[i] == authority[i];
    assert path != [] ==> front[|authority|] == '/';
  }

  /** Cutting undoes the assembly of authority, path, query and fragment. */
  lemma CutDisplay(authority: Text, path: Text, query: Option<Text>, fragment: Option<Text>)
    requires '/' !in authority && '?' !in authority && '#' !in authority
    requires '?' !in path && '#' !in path && (path != [] ==> path[0] == '/')
    requires query.Some? ==> '#' !in query.value
    ensures Cut(authority + path + DisplayOptional('?', query) + DisplayOptional('#', fragment))
            == Pieces(authority, path, query, fragment)
  {
    var front := authority + path;
    SplitTailOptional(front + DisplayOptional('?', query), '#', fragment);
    SplitTailOptional(front, '?', query);
    SlashStartsPath(authority, path);
  }

  lemma PortReads(n: nat)
    requires n <= 65535
    ensures ParsePort(PrintNat(n)) == Ok(n)
  {
  }

  lemma NamedReads(host: Text, ip: Option<Ip>, port: Option<nat>, special: bool)
    requires ':' !in host && ParseDomain(host, special) == Ok((host, ip))
    requires port.Some? ==> port.value <= 65535
    ensures ParseNamed(host + DisplayPort(port), special) == Ok(Authority(host, ip, port))
  {
    var digits := if port.Some? then Some(PrintNat(port.value)) else None;
    assert DisplayPort(port) == DisplayOptional(':', digits);
    SplitTailOptional(host, ':', digits);
    if port.Some? { PortReads(port.value); }
  }

  lemma PortText(port: Option<nat>)
    ensures forall c :: c in DisplayPort(port) ==> IsDigit(c) || c == ':'
  {
  }

  lemma NamedText(host: Text, port: Option<nat>)
    requires forall c :: c in host ==> HostByte(c)
    ensures var authority := host + DisplayPort(port);
            '@' !in authority && (authority != [] ==> authority[0] != '[')
  {
    PortText(port);
    var authority := host + DisplayPort(port);
    forall c | c in authority
      ensures c != '@' && c != '['
    {
      assert c in host || c in DisplayPort(port);
    }
    assert authority != [] ==> authority[0] in authority;
  }

  lemma NamedDispatch(v6: Ipv6Codec, authority: Text, special: bool)
    requires '@' !in authority && (authority != [] ==> authority[0] != '[')
    ensures ParseAuthority(v6, authority, special) == ParseNamed(authority, special)
  {
  }

  lemma DomainAuthorityReads(v6: Ipv6Codec, host: Text, ip: Option<Ip>, port: Option<nat>, special: bool)
    requires DomainText(host) && ParseDomain(host, special) == Ok((host, ip))
    requires port.Some? ==> port.value <= 65535
    ensures ParseAuthority(v6, host + DisplayPort(port), special) == Ok(Authority(host, ip, port))
  {
    NamedText(host, port);
    NamedDispatch(v6, host + DisplayPort(port), special);
    NamedReads(host, ip, port, special);
  }

  lemma LiteralReads(v6: Ipv6Codec, address: Ipv6, port: Option<nat>)
    requires Lawful(v6) && (port.Some? ==> port.value <= 65535)
    ensures ParseLiteral(v6, v6.write(address) + [']'] + DisplayPort(port))
            == Ok(Authority(['['] + v6.write(address) + [']'], Some(V6(address)), port))
  {
    var literal, tail := v6.write(address), DisplayPort(port);
    assert ']' !in literal;
    IndexOfConcat(literal, ']', tail);
    if port.Some? {
      assert tail[1..] == PrintNat(port.value);
      PortReads(port.value);
    }
  }

  lemma LiteralDispatch(v6: Ipv6Codec, rest: Text, special: bool)
    requires '@' !in rest
    ensures ParseAuthority(v6, ['['] + rest, special) == ParseLiteral(v6, rest)
  {
    assert (['['] + rest)[1..] == rest;
  }

  lemma LiteralText(literal: Text, port: Option<nat>)
    requires forall c :: c in literal ==> IsHexDigit(c) || c == ':'
    ensures '@' !in literal + [']'] + DisplayPort(port)
  {
    PortText(port);
    forall c | c in literal + [']'] + DisplayPort(port)
      ensures c != '@'
    {
      assert c in literal || c == ']' || c in DisplayPort(port);
    }
  }

  lemma Bracketed(literal: Text, tail: Text)
    ensures ['['] + literal + [']'] + tail == ['['] + (literal + [']'] + tail)
  {
  }

  lemma LiteralAuthorityReads(v6: Ipv6Codec, address: Ipv6, port: Option<nat>, special: bool)
    requires Lawful(v6) && (port.Some? ==> port.value <= 65535)
    ensures var host := ['['] + v6.write(address) + [']'];
            ParseAuthority(v6, host + DisplayPort(port), special) == Ok(Authority(host, Some(V6(address)), port))
  {
    var rest := v6.write(address) + [']'] + DisplayPort(port);
    LiteralText(v6.write(address), port);
    LiteralDispatch(v6, rest, special);
    LiteralReads(v6, address, port);
    Bracketed(v6.write(address), DisplayPort(port));
  }

  lemma AuthorityReads(v6: Ipv6Codec, u: ParsedUrl)
    requires Lawful(v6) && Normal(v6, u)
    ensures ParseAuthority(v6, u.host + DisplayPort(u.port), Special(u.scheme)) == Ok(Authority(u.host, u.ip, u.port))
  {
    if u.ip.Some? && u.ip.value.V6? {
      LiteralAuthorityReads(v6, u.ip.value.address, u.port, Special(u.scheme));
    } else {
      HostReads(v6, u.host, u.ip, Special(u.scheme));
      DomainAuthorityReads(v6, u.host, u.ip, u.port, Special(u.scheme));
    }
  }

  lemma PathReads(path: Text, special: bool)
    requires NormalPath(path, special)
    ensures ParsePath(path, special) == Ok(path)
  {
    EncodeCleanIsIdentity(path, InPathSet);
  }

  lemma OptionReads(s: Option<Text>, encoded: Byte -> bool)
    requires CleanOption(s, encoded)
    ensures MapEncode(s, encoded) == s
  {
    if s.Some? { EncodeCleanIsIdentity(s.value, encoded); }
  }

  lemma RestReads(v6: Ipv6Codec, u: ParsedUrl)
    requires Lawful(v6) && Normal(v6, u)
    ensures ParseRest(v6, u.scheme, Pieces(u.host + DisplayPort(u.port), u.path, u.query, u.fragment)) == Ok(u)
  {
    var special := Special(u.scheme);
    AuthorityReads(v6, u);
    PathReads(u.path, special);
    OptionReads(u.query, QuerySet(special));
    OptionReads(u.fragment, InFragmentSet);
  }

  lemma DisplayAllowed(v6: Ipv6Codec, u: ParsedUrl)
    requires Lawful(v6) && Normal(v6, u)
    ensures forall c :: c in Display(u) ==> !Forbidden(c)
  {
    AuthorityText(v6, u);
    assert forall c :: c in u.host + DisplayPort(u.port) ==> !Forbidden(c);
    assert forall c :: c in u.scheme ==> SchemeByte(c);
  }

  lemma DisplaySplits(scheme: Text, rest: Text)
    requires ValidScheme(scheme)
    ensures var tail := ['/', '/'] + rest;
            && SplitOnce(scheme + [':', '/', '/'] + rest, ':') == Some((scheme, tail))
            && "//" <= tail && tail[2..] == rest
  {
    var tail := ['/', '/'] + rest;
    assert scheme + [':', '/', '/'] + rest == scheme + [':'] + tail;
    IndexOfConcat(scheme, ':', tail);
  }

  lemma DisplayCuts(v6: Ipv6Codec, u: ParsedUrl)
    requires Lawful(v6) && Normal(v6, u)
    ensures var authority := u.host + DisplayPort(u.port);
            Cut(authority + u.path + DisplayOptional('?', u.query) + DisplayOptional('#', u.fragment))
            == Pieces(authority, u.path, u.query, u.fragment)
  {
    AuthorityText(v6, u);
    CutDisplay(u.host + DisplayPort(u.port), u.path, u.query, u.fragment);
  }

  lemma ReadsBack(v6: Ipv6Codec, scheme: Text, rest: Text, u: ParsedUrl)
    requires NormalScheme(scheme) && (forall c :: c in scheme + [':', '/', '/'] + rest ==> !Forbidden(c))
    requires ParseRest(v6, scheme, Cut(rest)) == Ok(u)
    ensures Parse(v6, scheme + [':', '/', '/'] + rest) == Ok(u)
  {
    SchemeReads(scheme);
    DisplaySplits(scheme, rest);
  }

  /** Every normal URL is read back from its printed form. */
  lemma NormalRoundTrip(v6: Ipv6Codec, u: ParsedUrl)
    requires Lawful(v6) && Normal(v6, u)
    ensures Parse(v6, Display(u)) == Ok(u)
  {
    DisplayAllowed(v6, u);
    DisplayCuts(v6, u);
    RestReads(v6, u);
    var rest := u.host + DisplayPort(u.port) + u.path + DisplayOptional('?', u.query) + DisplayOptional('#', u.fragment);
    assert Display(u) == u.scheme + [':', '/', '/'] + rest;
    ReadsBack(v6, u.scheme, rest, u);
  }

  /** The round trip: whatever string is accepted, printing its URL and parsing again gives the
      same URL. */
  lemma RoundTrip(v6: Ipv6Codec, input: Text)
    requires Lawful(v6) && Parse(v6, input).Ok?
    ensures Parse(v6, Display(Parse(v6, input).value)) == Parse(v6, input)
  {
    ParseIsNormal(v6, input);
    NormalRoundTrip(v6, Parse(v6, input).value);
  }

  /** The normal URLs are exactly what parsing yields. */
  lemma NormalIffParsed(v6: Ipv6Codec, u: ParsedUrl)
    requires Lawful(v6)
    ensures Normal(v6, u) <==> exists input :: Parse(v6, input) == Ok(u)
  {
    if Normal(v6, u) {
      NormalRoundTrip(v6, u);
    }
    forall input | Parse(v6, input) == Ok(u)
      ensures Normal(v6, u)
    {
      ParseIsNormal(v6, input);
    }
  }

  /** Printing is injective on parsed URLs. */
  lemma DisplayInjective(v6: Ipv6Codec, x: Text, y: Text)
    requires Lawful(v6) && Parse(v6, x).Ok? && Parse(v6, y).Ok?
    requires Display(Parse(v6, x).value) == Display(Parse(v6, y).value)
    ensures Parse(v6, x) == Parse(v6, y)
  {
    RoundTrip(v6, x);
    RoundTrip(v6, y);
  }
}
