/** The access layer's URL parser and printer: a deliberate subset of the WHATWG URL Standard. */
module Url {
  import opened Prelude
  import opened UrlText

  datatype UrlError =
    | ForbiddenCharacter | InvalidScheme | UnsupportedScheme | MissingAuthority
    | UserInfo | InvalidHost | InvalidPort | DotSegment

  /** An IPv6 address as its 128-bit number. */
  type Ipv6 = n: nat | n < 0x1_0000_0000_0000_0000_0000_0000_0000_0000

  datatype Ip = V4(a: nat, b: nat, c: nat, d: nat) | V6(address: Ipv6)

  /** Reading and writing IPv6 text, without the brackets. */
  datatype Ipv6Codec = Ipv6Codec(read: Text -> Option<Ipv6>, write: Ipv6 -> Text)

  /** Written text consists of hexadecimal digits and colons and reads back. */
  ghost predicate Lawful(v6: Ipv6Codec) {
    forall a: Ipv6 ::
      && v6.read(v6.write(a)) == Some(a)
      && forall c :: c in v6.write(a) ==> IsHexDigit(c) || c == ':'
  }

  datatype ParsedUrl = ParsedUrl(
    scheme: Text, host: Text, ip: Option<Ip>, port: Option<nat>,
    path: Text, query: Option<Text>, fragment: Option<Text>)

  // ---------- parsing ----------

  predicate Forbidden(c: Byte) {
    c <= ' ' || c as int == 0x7f || c == '\\'
  }

  predicate SchemeByte(c: Byte) {
    IsAlphanumeric(c) || c in {'+', '-', '.'}
  }

  function LowerText(s: Text): (r: Text)
    ensures |r| == |s|
    ensures forall i :: 0 <= i < |s| ==> r[i] == LowerChar(s[i])
  {
    seq(|s|, i requires 0 <= i < |s| => LowerChar(s[i]) as Byte)
  }

  predicate ValidScheme(s: Text) {
    s != [] && IsAlpha(s[0]) && forall c :: c in s ==> SchemeByte(c)
  }

  function ParseScheme(raw: Text): Result<Text, UrlError> {
    if !ValidScheme(raw) then Err(InvalidScheme)
    else
      var scheme := LowerText(raw);
      if scheme == "file" || scheme == "ftp" then Err(UnsupportedScheme) else Ok(scheme)
  }

  function DefaultPort(scheme: Text): Option<nat> {
    if scheme == "http" || scheme == "ws" then Some(80)
    else if scheme == "https" || scheme == "wss" then Some(443)
    else None
  }

  predicate Special(scheme: Text) { DefaultPort(scheme).Some? }

  function SplitTail(s: Text, c: Byte): (Text, Option<Text>) {
    match SplitOnce(s, c)
    case None => (s, None)
    case Some((head, tail)) => (head, Some(tail))
  }

  function ParsePort(raw: Text): Result<nat, UrlError> {
    if raw == [] || !AllDigits(raw) || DecimalValue(raw) > 65535 then Err(InvalidPort)
    else Ok(DecimalValue(raw))
  }

  predicate HostByte(c: Byte) {
    IsAlphanumeric(c) || c in {'.', '-', '_'}
  }

  function StripDot(s: Text): Text {
    if s != [] && s[|s| - 1] == '.' then s[..|s| - 1] else s
  }

  function Last<T>(s: seq<T>): T
    requires s != []
  {
    s[|s| - 1]
  }

  predicate IsIpv4Number(s: Text) {
    if "0x" <= s then forall c :: c in s[2..] ==> IsHexDigit(c) else AllDigits(s)
  }

  /** One decimal octet as the standard library reads it: no leading zero, at most 255. */
  function ParseOctet(s: Text): Option<nat> {
    if s != [] && AllDigits(s) && |s| <= 3 && (|s| > 1 ==> s[0] != '0') && DecimalValue(s) <= 255
    then Some(DecimalValue(s)) else None
  }

  function ParseIpv4(s: Text): Option<Ip> {
    var parts := Split(s, '.');
    if |parts| != 4 then None
    else
      match (ParseOctet(parts[0]), ParseOctet(parts[1]), ParseOctet(parts[2]), ParseOctet(parts[3]))
      case (Some(a), Some(b), Some(c), Some(d)) => Some(V4(a, b, c, d))
      case _ => None
  }

  predicate DomainText(raw: Text) {
    && (forall c :: c in raw ==> HostByte(c))
    && (forall p :: p in Split(StripDot(raw), '.') ==> p != [])
  }

  function ParseDomain(raw: Text, special: bool): Result<(Text, Option<Ip>), UrlError> {
    if !DomainText(raw) then Err(InvalidHost)
    else if !special then Ok((raw, None))
    else
      var host := LowerText(raw);
      if IsIpv4Number(Last(Split(StripDot(host), '.'))) then
        match ParseIpv4(host)
        case Some(ip) => Ok((host, Some(ip)))
        case None => Err(InvalidHost)
      else Ok((host, None))
  }

  datatype Authority = Authority(host: Text, ip: Option<Ip>, port: Option<nat>)

  /** After the opening bracket. */
  function ParseLiteral(v6: Ipv6Codec, rest: Text): Result<Authority, UrlError> {
    match SplitOnce(rest, ']')
    case None => Err(InvalidHost)
    case Some((literal, tail)) =>
      match v6.read(literal)
      case None => Err(InvalidHost)
      case Some(address) =>
        var host := ['['] + v6.write(address) + [']'];
        if tail == [] then Ok(Authority(host, Some(V6(address)), None))
        else if tail[0] != ':' then Err(InvalidHost)
        else
          match ParsePort(tail[1..])
          case Err(e) => Err(e)
          case Ok(port) => Ok(Authority(host, Some(V6(address)), Some(port)))
  }

  /** A host name or IPv4 address and its port. */
  function ParseNamed(authority: Text, special: bool): Result<Authority, UrlError> {
    var (raw, port) := SplitTail(authority, ':');
    match ParseDomain(raw, special)
    case Err(e) => Err(e)
    case Ok((host, ip)) =>
      if port.None? then Ok(Authority(host, ip, None))
      else
        match ParsePort(port.value)
        case Err(e) => Err(e)
        case Ok(n) => Ok(Authority(host, ip, Some(n)))
  }

  function ParseAuthority(v6: Ipv6Codec, authority: Text, special: bool): Result<Authority, UrlError> {
    if '@' in authority then Err(UserInfo)
    else if authority != [] && authority[0] == '[' then ParseLiteral(v6, authority[1..])
    else ParseNamed(authority, special)
  }

  const DOT_SEGMENTS: set<Text> := {".", "..", "%2e", ".%2e", "%2e.", "%2e%2e"}

  predicate IsDotSegment(segment: Text) {
    LowerText(segment) in DOT_SEGMENTS
  }

  predicate InFragmentSet(c: Byte) {
    c as int >= 128 || c in {'"', '<', '>', '`'}
  }

  predicate InPathSet(c: Byte) {
    InFragmentSet(c) || c in {'#', '?', '{', '}'}
  }

  predicate InQuerySet(c: Byte) {
    c as int >= 128 || c in {'"', '#', '<', '>'}
  }

  predicate InSpecialQuerySet(c: Byte) {
    InQuerySet(c) || c == '\''
  }

  function QuerySet(special: bool): Byte -> bool {
    if special then InSpecialQuerySet else InQuerySet
  }

  predicate HasDotSegment(path: Text) {
    exists seg :: seg in Split(path, '/') && IsDotSegment(seg)
  }

  function ParsePath(raw: Text, special: bool): Result<Text, UrlError> {
    if HasDotSegment(raw) then Err(DotSegment)
    else if special && raw == [] then Ok(['/'])
    else Ok(PercentEncode(raw, InPathSet))
  }

  function MapEncode(s: Option<Text>, encoded: Byte -> bool): Option<Text> {
    match s
    case None => None
    case Some(t) => Some(PercentEncode(t, encoded))
  }

  /** What stands between `//` and the end. */
  datatype Pieces = Pieces(authority: Text, path: Text, query: Option<Text>, fragment: Option<Text>)

  function Cut(rest: Text): Pieces {
    var (beforeFragment, fragment) := SplitTail(rest, '#');
    var (beforeQuery, query) := SplitTail(beforeFragment, '?');
    var slash := IndexOf(beforeQuery, '/');
    Pieces(beforeQuery[..slash], beforeQuery[slash..], query, fragment)
  }

  function Parse(v6: Ipv6Codec, input: Text): Result<ParsedUrl, UrlError> {
    if exists c :: c in input && Forbidden(c) then Err(ForbiddenCharacter)
    else
      match SplitOnce(input, ':')
      case None => Err(InvalidScheme)
      case Some((rawScheme, rest)) =>
        match ParseScheme(rawScheme)
        case Err(e) => Err(e)
        case Ok(scheme) =>
          if !("//" <= rest) then Err(MissingAuthority)
          else ParseRest(v6, scheme, Cut(rest[2..]))
  }

  function ParseRest(v6: Ipv6Codec, scheme: Text, pieces: Pieces): Result<ParsedUrl, UrlError> {
    var special := Special(scheme);
    match ParseAuthority(v6, pieces.authority, special)
    case Err(e) => Err(e)
    case Ok(authority) =>
      match ParsePath(pieces.path, special)
      case Err(e) => Err(e)
      case Ok(path) =>
        var port := if authority.port == DefaultPort(scheme) then None else authority.port;
        Ok(ParsedUrl(scheme, authority.host, authority.ip, port, path,
                     MapEncode(pieces.query, QuerySet(special)),
                     MapEncode(pieces.fragment, InFragmentSet)))
  }

  // ---------- printing ----------

  function DisplayPort(port: Option<nat>): Text {
    if port.Some? then [':'] + PrintNat(port.value) else []
  }

  function DisplayOptional(mark: Byte, s: Option<Text>): Text {
    if s.Some? then [mark] + s.value else []
  }

  function Display(u: ParsedUrl): Text {
    u.scheme + [':', '/', '/'] + (u.host + DisplayPort(u.port) + u.path
      + DisplayOptional('?', u.query) + DisplayOptional('#', u.fragment))
  }

  // ---------- query pairs ----------

  predicate FormPlain(c: Byte) {
    IsAlphanumeric(c) || c in {'*', '-', '.', '_'}
  }

  function FormEncodeByte(c: Byte): Text {
    if c == ' ' then ['+'] else if FormPlain(c) then [c] else Percent(c)
  }

  function FormEncode(s: Text): Text {
    if s == [] then [] else FormEncodeByte(s[0]) + FormEncode(s[1..])
  }

  /** Bytes of a form-encoded text, before they are read as UTF-8. */
  function FormDecodeBytes(s: Text): Text {
    if s == [] then []
    else if s[0] == '+' then [' '] + FormDecodeBytes(s[1..])
    else if s[0] == '%' && |s| >= 3 && IsHexDigit(s[1]) && IsHexDigit(s[2]) then
      [(HexValue(s[1]) * 16 + HexValue(s[2])) as char] + FormDecodeBytes(s[3..])
    else [s[0]] + FormDecodeBytes(s[1..])
  }

  predicate Continuation(s: Text, i: nat) {
    i < |s| && 0x80 <= s[i] as int <= 0xBF
  }

  /** Length of the UTF-8 character at the start of `s`, or 0 when there is none. */
  function Utf8Char(s: Text): (n: nat)
    ensures n <= |s|
  {
    if s == [] then 0 else
      var b := s[0] as int;
      if b < 0x80 then 1
      else if 0xC2 <= b <= 0xDF && Continuation(s, 1) then 2
      else if 0xE0 <= b <= 0xEF && Continuation(s, 1) && Continuation(s, 2)
              && (b == 0xE0 ==> s[1] as int >= 0xA0) && (b == 0xED ==> s[1] as int <= 0x9F) then 3
      else if 0xF0 <= b <= 0xF4 && Continuation(s, 1) && Continuation(s, 2) && Continuation(s, 3)
              && (b == 0xF0 ==> s[1] as int >= 0x90) && (b == 0xF4 ==> s[1] as int <= 0x8F) then 4
      else 0
  }

  predicate ValidUtf8(s: Text)
    decreases |s|
  {
    s == [] || (Utf8Char(s) > 0 && ValidUtf8(s[Utf8Char(s)..]))
  }

  const REPLACEMENT: Text := [0xEF as char, 0xBF as char, 0xBD as char]

  /** Bytes replaced by one U+FFFD: the longest prefix that could still have become a character. */
  function Utf8Broken(s: Text): (n: nat)
    requires s != []
    ensures 1 <= n <= |s|
  {
    var b := s[0] as int;
    if 0xE0 <= b <= 0xF4 && Continuation(s, 1)
       && (b == 0xE0 ==> s[1] as int >= 0xA0) && (b == 0xED ==> s[1] as int <= 0x9F)
       && (b == 0xF0 ==> s[1] as int >= 0x90) && (b == 0xF4 ==> s[1] as int <= 0x8F)
    then if b >= 0xF0 && Continuation(s, 2) then 3 else 2
    else 1
  }

  /** Rust `String::from_utf8_lossy`. */
  function Utf8Lossy(s: Text): Text
    decreases |s|
  {
    if s == [] then []
    else
      var n := Utf8Char(s);
      if n > 0 then s[..n] + Utf8Lossy(s[n..])
      else REPLACEMENT + Utf8Lossy(s[Utf8Broken(s)..])
  }

  function FormDecode(s: Text): Text {
    Utf8Lossy(FormDecodeBytes(s))
  }

  function DecodePair(pair: Text): (Text, Text) {
    match SplitOnce(pair, '=')
    case None => (FormDecode(pair), FormDecode([]))
    case Some((name, value)) => (FormDecode(name), FormDecode(value))
  }

  function DecodePairs(pairs: seq<Text>): seq<(Text, Text)> {
    if pairs == [] then []
    else (if pairs[0] == [] then [] else [DecodePair(pairs[0])]) + DecodePairs(pairs[1..])
  }

  function QueryText(u: ParsedUrl): Text {
    if u.query.Some? then u.query.value else []
  }

  function QueryPairs(u: ParsedUrl): seq<(Text, Text)> {
    DecodePairs(Split(QueryText(u), '&'))
  }

  function EncodedPair(name: Text, value: Text): Text {
    FormEncode(name) + ['='] + FormEncode(value)
  }

  function AppendQueryPair(u: ParsedUrl, name: Text, value: Text): ParsedUrl {
    var query := QueryText(u);
    u.(query := Some((if query == [] then [] else query + ['&']) + EncodedPair(name, value)))
  }
}
