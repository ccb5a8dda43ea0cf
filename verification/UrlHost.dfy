/** Hosts: every IPv4 address has one accepted spelling, and parsing a parsed host changes nothing. */
module UrlHost {
  import opened Prelude
  import opened UrlText
  import opened Url

  predicate ValidIpv4(ip: Ip) {
    ip.V4? && ip.a <= 255 && ip.b <= 255 && ip.c <= 255 && ip.d <= 255
  }

  /** The canonical dotted quad. */
  function Ipv4Text(ip: Ip): Text
    requires ip.V4?
  {
    Join([PrintNat(ip.a), PrintNat(ip.b), PrintNat(ip.c), PrintNat(ip.d)], '.')
  }

  /** An octet is accepted in exactly one spelling. */
  lemma OctetSpelling(s: Text, n: nat)
    ensures ParseOctet(s) == Some(n) <==> n <= 255 && s == PrintNat(n)
  {
    if ParseOctet(s) == Some(n) {
      PrintNatOfValue(s);
    }
    if n <= 255 {
      assert |PrintNat(n)| <= 3 by {
        assert n >= 10 ==> PrintNat(n) == PrintNat(n / 10) + [Digit(n % 10)];
        assert n / 10 >= 10 ==> PrintNat(n / 10) == PrintNat(n / 10 / 10) + [Digit(n / 10 % 10)];
      }
    }
  }

  lemma Ipv4ReadIsCanonical(s: Text, ip: Ip)
    requires ParseIpv4(s) == Some(ip)
    ensures ValidIpv4(ip) && s == Ipv4Text(ip)
  {
    var parts := Split(s, '.');
    OctetSpelling(parts[0], ip.a);
    OctetSpelling(parts[1], ip.b);
    OctetSpelling(parts[2], ip.c);
    OctetSpelling(parts[3], ip.d);
    JoinSplit(s, '.');
    assert parts == [PrintNat(ip.a), PrintNat(ip.b), PrintNat(ip.c), PrintNat(ip.d)];
  }

  lemma Ipv4CanonicalIsRead(ip: Ip)
    requires ValidIpv4(ip)
    ensures ParseIpv4(Ipv4Text(ip)) == Some(ip)
  {
    var quad := [PrintNat(ip.a), PrintNat(ip.b), PrintNat(ip.c), PrintNat(ip.d)];
    SplitJoin(quad, '.');
    OctetSpelling(quad[0], ip.a);
    OctetSpelling(quad[1], ip.b);
    OctetSpelling(quad[2], ip.c);
    OctetSpelling(quad[3], ip.d);
  }

  /** A text is read as an IPv4 address exactly when it is that address's canonical dotted quad. */
  lemma Ipv4Spelling(s: Text, ip: Ip)
    ensures ParseIpv4(s) == Some(ip) <==> ValidIpv4(ip) && s == Ipv4Text(ip)
  {
    if ParseIpv4(s) == Some(ip) { Ipv4ReadIsCanonical(s, ip); }
    if ValidIpv4(ip) { Ipv4CanonicalIsRead(ip); }
  }

  /** A special-scheme host whose last label is numeric is accepted only as the canonical dotted
      quad of the address it reports; every other accepted host reports none. */
  lemma NumericHostIsCanonical(raw: Text)
    ensures var r := ParseDomain(raw, true);
            r.Ok? ==>
              if IsIpv4Number(Last(Split(StripDot(r.value.0), '.')))
              then r.value.1.Some? && ValidIpv4(r.value.1.value) && r.value.0 == Ipv4Text(r.value.1.value)
              else r.value.1.None?
  {
    var r := ParseDomain(raw, true);
    if r.Ok? && r.value.1.Some? {
      Ipv4Spelling(r.value.0, r.value.1.value);
    }
  }

  /** Each IPv4 address has one accepted spelling. */
  lemma OneSpellingPerAddress(x: Text, y: Text)
    requires ParseDomain(x, true).Ok? && ParseDomain(y, true).Ok?
    requires ParseDomain(x, true).value.1.Some?
    requires ParseDomain(x, true).value.1 == ParseDomain(y, true).value.1
    ensures x == y
  {
    NumericHostIsCanonical(x);
    NumericHostIsCanonical(y);
    var host := ParseDomain(x, true).value.0;
    CanonicalHasNoCase(x, host);
    CanonicalHasNoCase(y, host);
  }

  /** A dotted quad has no letter, so it is not the lowered form of anything else. */
  lemma CanonicalHasNoCase(raw: Text, host: Text)
    requires host == LowerText(raw)
    requires exists ip: Ip :: ip.V4? && host == Ipv4Text(ip)
    ensures raw == host
  {
    var ip: Ip :| ip.V4? && host == Ipv4Text(ip);
    DottedDigits(ip);
    forall i | 0 <= i < |raw|
      ensures raw[i] == host[i]
    {
      assert host[i] in host;
    }
  }

  lemma DottedDigits(ip: Ip)
    requires ip.V4?
    ensures forall c :: c in Ipv4Text(ip) ==> IsDigit(c) || c == '.'
  {
    var a, b, c, d := PrintNat(ip.a), PrintNat(ip.b), PrintNat(ip.c), PrintNat(ip.d);
    assert Join([d], '.') == d;
    assert [c, d][1..] == [d] && Join([c, d], '.') == c + ['.'] + d;
    assert [b, c, d][1..] == [c, d] && Join([b, c, d], '.') == b + ['.'] + Join([c, d], '.');
    assert [a, b, c, d][1..] == [b, c, d];
  }

  // ---------- parsing a parsed host ----------

  lemma LowerTwice(s: Text)
    ensures LowerText(LowerText(s)) == LowerText(s)
  {
    assert forall i :: 0 <= i < |s| ==> LowerText(LowerText(s))[i] == LowerText(s)[i];
  }

  lemma {:induction false} LowerSplit(s: Text)
    ensures |Split(LowerText(s), '.')| == |Split(s, '.')|
    ensures forall i :: 0 <= i < |Split(s, '.')| ==> |Split(LowerText(s), '.')[i]| == |Split(s, '.')[i]|
    decreases |s|
  {
    var t := LowerText(s);
    var i, j := IndexOf(s, '.'), IndexOf(t, '.');
    assert forall k :: 0 <= k < |s| ==> (t[k] == '.' <==> s[k] == '.');
    assert i == j;
    if i < |s| {
      assert t[i + 1..] == LowerText(s[i + 1..]);
      LowerSplit(s[i + 1..]);
    }
  }

  lemma LowerDomainText(raw: Text)
    requires DomainText(raw)
    ensures DomainText(LowerText(raw))
  {
    var host := LowerText(raw);
    forall c | c in host
      ensures HostByte(c)
    {
      var i :| 0 <= i < |host| && host[i] == c;
      assert raw[i] in raw;
    }
    assert StripDot(host) == LowerText(StripDot(raw));
    LowerSplit(StripDot(raw));
    var parts, lowered := Split(StripDot(raw), '.'), Split(StripDot(host), '.');
    forall p | p in lowered
      ensures p != []
    {
      var i :| 0 <= i < |lowered| && lowered[i] == p;
      assert parts[i] in parts;
    }
  }

  lemma ParseDomainTwice(raw: Text, special: bool)
    requires ParseDomain(raw, special).Ok?
    ensures var (host, ip) := ParseDomain(raw, special).value;
            ParseDomain(host, special) == Ok((host, ip)) && DomainText(host)
  {
    if special {
      LowerDomainText(raw);
      LowerTwice(raw);
    }
  }

  /** The law asked of the IPv6 codec can be met. */
  lemma LawfulExists() returns (v6: Ipv6Codec)
    ensures Lawful(v6)
  {
    v6 := Ipv6Codec(
      s => if AllDigits(s) && DecimalValue(s) < 0x1_0000_0000_0000_0000_0000_0000_0000_0000 then Some(DecimalValue(s)) else None,
      a => PrintNat(a));
    forall a: Ipv6 ensures v6.read(v6.write(a)) == Some(a) {
      assert DecimalValue(PrintNat(a)) == a;
    }
  }
}
