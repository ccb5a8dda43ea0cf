/** What every text parses to, said of its raw parts: which texts are accepted, which error the others
    give, and that the value holds the same scheme, host, port, path, query and fragment. */
module UrlMeaning {
  import opened Prelude
  import opened UrlText
  import opened Url
  import opened UrlHost
  import opened UrlRoundTrip

  // ---------- raw parts ----------

  datatype RawHost = Named(text: Text) | Literal(text: Text)

  datatype Raw = Raw(
    scheme: Text, host: RawHost, port: Option<Text>, path: Text, query: Option<Text>, fragment: Option<Text>)

  function SpellHost(host: RawHost): Text {
    match host
    case Named(text) => text
    case Literal(text) => ['['] + (text + [']'])
  }

  function SpellAuthority(r: Raw): Text {
    SpellHost(r.host) + DisplayOptional(':', r.port)
  }

  function SpellRest(r: Raw): Text {
    SpellAuthority(r) + r.path + DisplayOptional('?', r.query) + DisplayOptional('#', r.fragment)
  }

  /** The text with these parts. */
  function Spell(r: Raw): Text {
    r.scheme + [':', '/', '/'] + SpellRest(r)
  }

  ghost predicate Lacks(s: Text, marks: set<Byte>) {
    forall c :: c in s ==> c !in marks
  }

  /** The parts end where the first separator after them stands. */
  ghost predicate WellCut(r: Raw) {
    && Lacks(r.scheme, {':'})
    && Lacks(r.host.text, {'/', '?', '#'}) && (r.port.Some? ==> Lacks(r.port.value, {'/', '?', '#'}))
    && (r.host.Named? ==> Lacks(r.host.text, {':'}) && (r.host.text != [] ==> r.host.text[0] != '['))
    && (r.host.Literal? ==> Lacks(r.host.text, {']'}))
    && Lacks(r.path, {'?', '#'}) && (r.path != [] ==> r.path[0] == '/')
    && (r.query.Some? ==> Lacks(r.query.value, {'#'}))
  }

  // ---------- acceptance ----------

  ghost predicate HostAllowed(v6: Ipv6Codec, host: RawHost, special: bool) {
    match host
    case Literal(text) => v6.read(text).Some?
    case Named(text) =>
      && DomainText(text)
      && (special && IsIpv4Number(Last(Split(StripDot(LowerText(text)), '.'))) ==>
            exists ip: Ip :: ValidIpv4(ip) && LowerText(text) == Ipv4Text(ip))
  }

  predicate PortAllowed(port: Option<Text>) {
    port.Some? ==> port.value != [] && AllDigits(port.value) && DecimalValue(port.value) <= 65535
  }

  ghost predicate PathAllowed(path: Text) {
    forall seg :: seg in Split(path, '/') ==> PercentDecode(seg) != "." && PercentDecode(seg) != ".."
  }

  /** The first thing wrong with the parts, in the order they are looked at. */
  ghost function Fault(v6: Ipv6Codec, r: Raw): Option<UrlError> {
    var scheme := LowerText(r.scheme);
    if exists c :: c in Spell(r) && Forbidden(c) then Some(ForbiddenCharacter)
    else if !ValidScheme(r.scheme) then Some(InvalidScheme)
    else if scheme == "file" || scheme == "ftp" then Some(UnsupportedScheme)
    else if '@' in SpellAuthority(r) then Some(UserInfo)
    else if !HostAllowed(v6, r.host, Special(scheme)) then Some(InvalidHost)
    else if !PortAllowed(r.port) then Some(InvalidPort)
    else if !PathAllowed(r.path) then Some(DotSegment)
    else None
  }

  // ---------- meaning ----------

  /** The same bytes: what `set` holds is escaped, everything else stands as it was, and decoding gives
      what decoding the raw text gives. */
  ghost predicate SameText(raw: Text, out: Text, encoded: Byte -> bool) {
    && out == PercentEncode(raw, encoded)
    && PercentDecode(out) == PercentDecode(raw)
    && (forall c :: c in out ==> !encoded(c))
  }

  ghost predicate SameOption(raw: Option<Text>, out: Option<Text>, encoded: Byte -> bool) {
    raw.Some? == out.Some? && (raw.Some? ==> SameText(raw.value, out.value, encoded))
  }

  ghost predicate SameHost(v6: Ipv6Codec, raw: RawHost, special: bool, host: Text, ip: Option<Ip>) {
    match raw
    case Literal(text) =>
      ip.Some? && ip.value.V6? && v6.read(text) == Some(ip.value.address) && host == ['['] + v6.write(ip.value.address) + [']']
    case Named(text) =>
      && host == (if special then LowerText(text) else text)
      && (if special && IsIpv4Number(Last(Split(StripDot(host), '.')))
          then ip.Some? && ValidIpv4(ip.value) && host == Ipv4Text(ip.value)
          else ip.None?)
  }

  /** What is escaped where, besides everything outside ASCII: what would end the part or open markup. A
      query lets a backquote and a brace stand, a fragment all separators. */
  lemma EscapeSets(c: Byte)
    ensures c as int >= 128 ==> InPathSet(c) && InFragmentSet(c) && InQuerySet(c) && InSpecialQuerySet(c)
    ensures c as int < 128 ==>
              && (InPathSet(c) <==> c in "\"#<>?`{}") && (InFragmentSet(c) <==> c in "\"<>`")
              && (InQuerySet(c) <==> c in "\"#<>") && (InSpecialQuerySet(c) <==> c in "\"#'<>")
  {
  }

  /** The scheme's own port, and no port, are the same. */
  ghost predicate SamePort(scheme: Text, raw: Option<Text>, port: Option<nat>)
    requires PortAllowed(raw)
  {
    port == if raw.None?
               || (scheme in {"http", "ws"} && DecimalValue(raw.value) == 80)
               || (scheme in {"https", "wss"} && DecimalValue(raw.value) == 443)
            then None else Some(DecimalValue(raw.value))
  }

  ghost predicate Means(v6: Ipv6Codec, r: Raw, u: ParsedUrl) {
    var special := u.scheme in {"http", "ws", "https", "wss"};
    && u.scheme == LowerText(r.scheme)
    && SameHost(v6, r.host, special, u.host, u.ip)
    && PortAllowed(r.port) && SamePort(u.scheme, r.port, u.port)
    && (if special && r.path == [] then u.path == "/" else SameText(r.path, u.path, InPathSet))
    && SameOption(r.query, u.query, QuerySet(special))
    && SameOption(r.fragment, u.fragment, InFragmentSet)
  }

  // ---------- reading the parts ----------

  lemma EncodesSame(raw: Text, encoded: Byte -> bool)
    requires SparesEscapes(encoded)
    ensures SameText(raw, PercentEncode(raw, encoded), encoded)
  {
    DecodeOfEncode(raw, encoded);
    EncodedIsClean(raw, encoded);
  }

  lemma OptionSame(raw: Option<Text>, encoded: Byte -> bool)
    requires SparesEscapes(encoded)
    ensures SameOption(raw, MapEncode(raw, encoded), encoded)
  {
    if raw.Some? { EncodesSame(raw.value, encoded); }
  }

  lemma PathRead(raw: Text, special: bool)
    ensures ParsePath(raw, special).Ok? <==> PathAllowed(raw)
    ensures !PathAllowed(raw) ==> ParsePath(raw, special) == Err(DotSegment)
    ensures PathAllowed(raw) ==>
              if special && raw == [] then ParsePath(raw, special) == Ok("/")
              else ParsePath(raw, special).Ok? && SameText(raw, ParsePath(raw, special).value, InPathSet)
  {
    forall seg | seg in Split(raw, '/')
      ensures IsDotSegment(seg) <==> PercentDecode(seg) == "." || PercentDecode(seg) == ".."
    {
      DotSegmentExact(seg);
    }
    SetsSpareEscapes(special);
    EncodesSame(raw, InPathSet);
  }

  lemma DomainRead(v6: Ipv6Codec, text: Text, special: bool)
    ensures ParseDomain(text, special).Ok? <==> HostAllowed(v6, Named(text), special)
    ensures !HostAllowed(v6, Named(text), special) ==> ParseDomain(text, special) == Err(InvalidHost)
    ensures HostAllowed(v6, Named(text), special) ==>
              ParseDomain(text, special).Ok? &&
              SameHost(v6, Named(text), special, ParseDomain(text, special).value.0, ParseDomain(text, special).value.1)
  {
    var host := LowerText(text);
    forall ip: Ip
      ensures ParseIpv4(host) == Some(ip) <==> ValidIpv4(ip) && host == Ipv4Text(ip)
    {
      Ipv4Spelling(host, ip);
    }
  }

  lemma NamedRead(v6: Ipv6Codec, text: Text, port: Option<Text>, special: bool)
    requires ':' !in text
    ensures var result := ParseNamed(text + DisplayOptional(':', port), special);
            if !HostAllowed(v6, Named(text), special) then result == Err(InvalidHost)
            else if !PortAllowed(port) then result == Err(InvalidPort)
            else && result.Ok? && SameHost(v6, Named(text), special, result.value.host, result.value.ip)
                 && result.value.port == (if port.Some? then Some(DecimalValue(port.value)) else None)
  {
    SplitTailOptional(text, ':', port);
    DomainRead(v6, text, special);
  }

  lemma LiteralRead(v6: Ipv6Codec, text: Text, port: Option<Text>, special: bool)
    requires ']' !in text
    ensures var result := ParseLiteral(v6, text + [']'] + DisplayOptional(':', port));
            if !HostAllowed(v6, Literal(text), special) then result == Err(InvalidHost)
            else if !PortAllowed(port) then result == Err(InvalidPort)
            else && result.Ok? && SameHost(v6, Literal(text), special, result.value.host, result.value.ip)
                 && result.value.port == (if port.Some? then Some(DecimalValue(port.value)) else None)
  {
    var tail := DisplayOptional(':', port);
    IndexOfConcat(text, ']', tail);
    if port.Some? {
      assert tail[1..] == port.value;
    }
  }

  lemma AuthorityRead(v6: Ipv6Codec, r: Raw, special: bool)
    requires WellCut(r) && '@' !in SpellAuthority(r)
    ensures var result := ParseAuthority(v6, SpellAuthority(r), special);
            if !HostAllowed(v6, r.host, special) then result == Err(InvalidHost)
            else if !PortAllowed(r.port) then result == Err(InvalidPort)
            else && result.Ok? && SameHost(v6, r.host, special, result.value.host, result.value.ip)
                 && result.value.port == (if r.port.Some? then Some(DecimalValue(r.port.value)) else None)
  {
    var text := r.host.text;
    if r.host.Named? {
      NamedRead(v6, text, r.port, special);
      assert SpellAuthority(r) != [] ==> SpellAuthority(r)[0] != '[';
    } else {
      LiteralRead(v6, text, r.port, special);
      var rest := text + [']'] + DisplayOptional(':', r.port);
      assert SpellAuthority(r) == ['['] + rest;
      assert SpellAuthority(r)[1..] == rest;
    }
  }

  lemma AuthorityLacks(r: Raw)
    requires WellCut(r)
    ensures Lacks(SpellAuthority(r), {'/', '?', '#'})
  {
  }

  lemma RestCuts(r: Raw)
    requires WellCut(r)
    ensures Cut(SpellRest(r)) == Pieces(SpellAuthority(r), r.path, r.query, r.fragment)
  {
    AuthorityLacks(r);
    CutDisplay(SpellAuthority(r), r.path, r.query, r.fragment);
  }

  lemma SpecialIs(scheme: Text)
    ensures Special(scheme) <==> scheme in {"http", "ws", "https", "wss"}
  {
  }

  lemma RestRead(v6: Ipv6Codec, r: Raw, scheme: Text)
    requires WellCut(r) && scheme == LowerText(r.scheme) && '@' !in SpellAuthority(r)
    ensures var special := Special(scheme);
            var result := ParseRest(v6, scheme, Pieces(SpellAuthority(r), r.path, r.query, r.fragment));
            if !HostAllowed(v6, r.host, special) then result == Err(InvalidHost)
            else if !PortAllowed(r.port) then result == Err(InvalidPort)
            else if !PathAllowed(r.path) then result == Err(DotSegment)
            else result.Ok? && Means(v6, r, result.value)
  {
    var special := Special(scheme);
    SpecialIs(scheme);
    AuthorityRead(v6, r, special);
    PathRead(r.path, special);
    SetsSpareEscapes(special);
    OptionSame(r.query, QuerySet(special));
    OptionSame(r.fragment, InFragmentSet);
  }

  lemma SpellSplits(scheme: Text, rest: Text)
    requires ':' !in scheme
    ensures var tail := ['/', '/'] + rest;
            && SplitOnce(scheme + [':', '/', '/'] + rest, ':') == Some((scheme, tail))
            && "//" <= tail && tail[2..] == rest
  {
    var tail := ['/', '/'] + rest;
    assert scheme + [':', '/', '/'] + rest == scheme + [':'] + tail;
    IndexOfConcat(scheme, ':', tail);
  }

  lemma HeadRead(v6: Ipv6Codec, scheme: Text, rest: Text)
    requires ':' !in scheme
    ensures var input := scheme + [':', '/', '/'] + rest;
            Parse(v6, input) ==
              if exists c :: c in input && Forbidden(c) then Err(ForbiddenCharacter)
              else if !ValidScheme(scheme) then Err(InvalidScheme)
              else if LowerText(scheme) == "file" || LowerText(scheme) == "ftp" then Err(UnsupportedScheme)
              else ParseRest(v6, LowerText(scheme), Cut(rest))
  {
    SpellSplits(scheme, rest);
  }

  lemma UserInfoRead(v6: Ipv6Codec, r: Raw, scheme: Text)
    requires '@' in SpellAuthority(r)
    ensures ParseRest(v6, scheme, Pieces(SpellAuthority(r), r.path, r.query, r.fragment)) == Err(UserInfo)
  {
  }

  /** The result is this error, or a value that means the parts. */
  ghost predicate Gives(v6: Ipv6Codec, r: Raw, fault: Option<UrlError>, result: Result<ParsedUrl, UrlError>) {
    match fault
    case Some(e) => result == Err(e)
    case None => result.Ok? && Means(v6, r, result.value)
  }

  /** The parts decide everything: the result is the first fault, or a value that means the parts. */
  lemma ParseExact(v6: Ipv6Codec, r: Raw)
    requires WellCut(r)
    ensures Gives(v6, r, Fault(v6, r), Parse(v6, Spell(r)))
  {
    HeadRead(v6, r.scheme, SpellRest(r));
    RestCuts(r);
    if '@' in SpellAuthority(r) {
      UserInfoRead(v6, r, LowerText(r.scheme));
    } else {
      RestRead(v6, r, LowerText(r.scheme));
    }
  }

  // ---------- every accepted text has such parts ----------

  lemma TailJoins(s: Text, c: Byte)
    ensures var (head, tail) := SplitTail(s, c);
            s == head + DisplayOptional(c, tail) && c !in head && forall b :: b in head ==> b in s
  {
  }

  lemma CutJoins(rest: Text)
    ensures var p := Cut(rest);
            && rest == p.authority + p.path + DisplayOptional('?', p.query) + DisplayOptional('#', p.fragment)
            && Lacks(p.authority, {'/', '?', '#'})
            && Lacks(p.path, {'?', '#'}) && (p.path != [] ==> p.path[0] == '/')
            && (p.query.Some? ==> Lacks(p.query.value, {'#'}))
  {
    TailJoins(rest, '#');
    var (before, fragment) := SplitTail(rest, '#');
    TailJoins(before, '?');
    var (front, query) := SplitTail(before, '?');
    var slash := IndexOf(front, '/');
    assert front == front[..slash] + front[slash..];
    if query.Some? {
      assert forall b :: b in query.value ==> b in before;
    }
  }

  ghost predicate AuthorityOf(authority: Text, host: RawHost, port: Option<Text>) {
    && authority == SpellHost(host) + DisplayOptional(':', port)
    && (host.Named? ==> Lacks(host.text, {':'}) && (host.text != [] ==> host.text[0] != '['))
    && (host.Literal? ==> Lacks(host.text, {']'}))
    && Lacks(host.text, {'/', '?', '#'}) && (port.Some? ==> Lacks(port.value, {'/', '?', '#'}))
  }

  lemma NamedJoins(authority: Text) returns (host: RawHost, port: Option<Text>)
    requires Lacks(authority, {'/', '?', '#'}) && (authority != [] ==> authority[0] != '[')
    ensures AuthorityOf(authority, host, port)
  {
    TailJoins(authority, ':');
    var (text, tail) := SplitTail(authority, ':');
    host, port := Named(text), tail;
    if tail.Some? {
      assert forall c :: c in tail.value ==> c in authority;
    }
    if text != [] {
      assert text[0] == authority[0];
    }
  }

  lemma LiteralJoins(v6: Ipv6Codec, rest: Text) returns (host: RawHost, port: Option<Text>)
    requires ParseLiteral(v6, rest).Ok? && Lacks(rest, {'/', '?', '#'})
    ensures AuthorityOf(['['] + rest, host, port)
  {
    var (text, tail) := SplitOnce(rest, ']').value;
    host, port := Literal(text), if tail == [] then None else Some(tail[1..]);
    assert rest == text + [']'] + tail;
    assert forall c :: c in text ==> c in rest;
    assert forall c :: c in tail ==> c in rest;
    assert tail == DisplayOptional(':', port);
    BracketJoins(text, tail);
  }

  lemma BracketJoins(text: Text, tail: Text)
    ensures ['['] + (text + [']'] + tail) == ['['] + (text + [']']) + tail
  {
  }

  lemma AuthorityJoins(v6: Ipv6Codec, authority: Text, special: bool) returns (host: RawHost, port: Option<Text>)
    requires ParseAuthority(v6, authority, special).Ok? && Lacks(authority, {'/', '?', '#'})
    ensures AuthorityOf(authority, host, port)
  {
    if authority != [] && authority[0] == '[' {
      var rest := authority[1..];
      assert authority == ['['] + rest;
      assert forall c :: c in rest ==> c in authority;
      host, port := LiteralJoins(v6, rest);
    } else {
      host, port := NamedJoins(authority);
    }
  }

  /** What an accepted text starts with. */
  lemma AcceptedHead(v6: Ipv6Codec, input: Text) returns (scheme: Text, rest: Text)
    requires Parse(v6, input).Ok?
    ensures ':' !in scheme && input == scheme + [':', '/', '/'] + rest
    ensures ParseAuthority(v6, Cut(rest).authority, Special(LowerText(scheme))).Ok?
  {
    var (head, tail) := SplitOnce(input, ':').value;
    scheme, rest := head, tail[2..];
    SlashesJoin(head, tail);
    HeadRead(v6, scheme, rest);
  }

  lemma SlashesJoin(scheme: Text, tail: Text)
    requires "//" <= tail
    ensures scheme + [':'] + tail == scheme + [':', '/', '/'] + tail[2..]
  {
    assert tail == ['/', '/'] + tail[2..];
  }

  lemma PartsOf(scheme: Text, rest: Text, host: RawHost, port: Option<Text>)
    requires ':' !in scheme && AuthorityOf(Cut(rest).authority, host, port)
    ensures var p := Cut(rest);
            var r := Raw(scheme, host, port, p.path, p.query, p.fragment);
            WellCut(r) && Spell(r) == scheme + [':', '/', '/'] + rest
  {
    CutJoins(rest);
  }

  /** Whatever text is accepted is spelled from well-cut parts. */
  lemma AcceptedHasParts(v6: Ipv6Codec, input: Text) returns (r: Raw)
    requires Parse(v6, input).Ok?
    ensures WellCut(r) && Spell(r) == input
  {
    var scheme, rest := AcceptedHead(v6, input);
    CutJoins(rest);
    var p := Cut(rest);
    var host, port := AuthorityJoins(v6, p.authority, Special(LowerText(scheme)));
    PartsOf(scheme, rest, host, port);
    r := Raw(scheme, host, port, p.path, p.query, p.fragment);
  }

  /** Acceptance, exactly: a text is accepted if and only if it is spelled from well-cut parts without a
      fault, and then its value means these parts. */
  lemma AcceptedIff(v6: Ipv6Codec, input: Text)
    ensures Parse(v6, input).Ok? <==> exists r :: WellCut(r) && Spell(r) == input && Fault(v6, r).None?
    ensures Parse(v6, input).Ok? ==>
              exists r :: WellCut(r) && Spell(r) == input && Fault(v6, r).None? && Means(v6, r, Parse(v6, input).value)
  {
    if Parse(v6, input).Ok? {
      var r := AcceptedHasParts(v6, input);
      ParseExact(v6, r);
    }
    forall r | WellCut(r) && Spell(r) == input && Fault(v6, r).None?
      ensures Parse(v6, input).Ok?
    {
      ParseExact(v6, r);
    }
  }

  /** A scheme that is not followed by `//` is an error of its own. */
  lemma NoAuthority(v6: Ipv6Codec, scheme: Text, rest: Text)
    requires ValidScheme(scheme) && LowerText(scheme) != "file" && LowerText(scheme) != "ftp"
    requires !("//" <= rest) && forall c :: c in scheme + [':'] + rest ==> !Forbidden(c)
    ensures Parse(v6, scheme + [':'] + rest) == Err(MissingAuthority)
  {
    IndexOfConcat(scheme, ':', rest);
  }

  // ---------- the printed form ----------

  /** The parts a parsed URL is printed as: its own, the port in decimal digits without leading zeros. */
  ghost predicate PrintsAs(v6: Ipv6Codec, u: ParsedUrl, r: Raw) {
    && r.scheme == u.scheme && NoCapitals(r.scheme)
    && r.host == (if u.ip.Some? && u.ip.value.V6? then Literal(v6.write(u.ip.value.address)) else Named(u.host))
    && r.port.Some? == u.port.Some?
    && (r.port.Some? ==>
          && r.port.value != [] && AllDigits(r.port.value) && DecimalValue(r.port.value) == u.port.value
          && (|r.port.value| > 1 ==> r.port.value[0] != '0'))
    && r.path == u.path && r.query == u.query && r.fragment == u.fragment
  }

  lemma HostPrints(v6: Ipv6Codec, u: ParsedUrl, host: RawHost)
    requires Lawful(v6) && Normal(v6, u)
    requires host == if u.ip.Some? && u.ip.value.V6? then Literal(v6.write(u.ip.value.address)) else Named(u.host)
    ensures SpellHost(host) == u.host
    ensures Lacks(host.text, {'/', '?', '#', '[', ']'}) && (host.Named? ==> Lacks(host.text, {':'}))
  {
  }

  /** A parsed URL prints as exactly these parts, and they are well cut: what is printed is what it holds. */
  lemma PrintedParts(v6: Ipv6Codec, u: ParsedUrl) returns (r: Raw)
    requires Lawful(v6) && Normal(v6, u)
    ensures PrintsAs(v6, u, r) && WellCut(r) && Display(u) == Spell(r)
  {
    var host := if u.ip.Some? && u.ip.value.V6? then Literal(v6.write(u.ip.value.address)) else Named(u.host);
    var port := if u.port.Some? then Some(PrintNat(u.port.value)) else None;
    HostPrints(v6, u, host);
    r := Raw(u.scheme, host, port, u.path, u.query, u.fragment);
    assert DisplayPort(u.port) == DisplayOptional(':', port);
    assert Lacks(u.scheme, {':'});
  }
}
