/**
 * The mailbox specification string that `PostieIMAP::connect` hands to the
 * transport: `{host:port/service=protocol<flags>}` followed by `INBOX` for
 * Google-hosted mail. The flags are the session's SSL, TLS and certificate
 * settings, appended in a fixed order.
 */
module Endpoint {
  import opened Wrappers
  import opened Text

  /** The three option switches of a session, as stored in `_ssl`, `_tls_on` and `_self_cert`. */
  datatype Flags = Flags(ssl: bool, tls: bool, selfCert: bool)

  function SslFlag(ssl: bool): string { if ssl then "/ssl" else "" }

  function TlsFlag(tls: bool): string { if tls then "/tls" else "/notls" }

  function CertFlag(selfCert: bool): string { if selfCert then "/novalidate-cert" else "" }

  /** The flag part of the option string, in the order connect appends it: from `/tls` to `/ssl/notls/novalidate-cert`. */
  function FlagText(f: Flags): (t: string)
    ensures 4 <= |t| <= 26
  {
    SslFlag(f.ssl) + TlsFlag(f.tls) + CertFlag(f.selfCert)
  }

  /** Reads a flag part back: an optional `/ssl`, then `/tls` or `/notls`, then an optional `/novalidate-cert`. */
  function ParseFlags(s: string): Option<Flags> {
    if "/ssl" <= s then ParseTls(true, s[4..]) else ParseTls(false, s)
  }

  function ParseTls(ssl: bool, s: string): Option<Flags> {
    if "/tls" <= s then ParseCert(ssl, true, s[4..])
    else if "/notls" <= s then ParseCert(ssl, false, s[6..])
    else None
  }

  function ParseCert(ssl: bool, tls: bool, s: string): Option<Flags> {
    if s == "" then Some(Flags(ssl, tls, false))
    else if s == "/novalidate-cert" then Some(Flags(ssl, tls, true))
    else None
  }

  lemma ParseTlsText(ssl: bool, tls: bool, selfCert: bool)
    ensures ParseTls(ssl, TlsFlag(tls) + CertFlag(selfCert)) == Some(Flags(ssl, tls, selfCert))
  {
    var rest := TlsFlag(tls) + CertFlag(selfCert);
    if tls {
      assert "/tls" <= rest && rest[4..] == CertFlag(selfCert);
    } else {
      assert !("/tls" <= rest) by { assert rest[1] == 'n'; }
      assert "/notls" <= rest && rest[6..] == CertFlag(selfCert);
    }
  }

  /** The flag part names every switch unambiguously: parsing it gives the switches back. */
  lemma ParseFlagText(f: Flags)
    ensures ParseFlags(FlagText(f)) == Some(f)
  {
    var rest := TlsFlag(f.tls) + CertFlag(f.selfCert);
    var t := FlagText(f);
    assert t == SslFlag(f.ssl) + rest;
    assert !("/ssl" <= rest) by {
      assert rest[1] == TlsFlag(f.tls)[1];
    }
    if f.ssl {
      assert "/ssl" <= t && t[4..] == rest;
    }
    ParseTlsText(f.ssl, f.tls, f.selfCert);
  }

  lemma TlsTextOfParse(ssl: bool, s: string, f: Flags)
    requires ParseTls(ssl, s) == Some(f)
    ensures f.ssl == ssl && s == TlsFlag(f.tls) + CertFlag(f.selfCert)
  {
    if "/tls" <= s {
      assert s == "/tls" + s[4..];
    } else {
      assert s == "/notls" + s[6..];
    }
  }

  /** Every string the parser accepts is the flag text of what it returns. */
  lemma FlagTextOfParse(s: string, f: Flags)
    requires ParseFlags(s) == Some(f)
    ensures s == FlagText(f)
  {
    if "/ssl" <= s {
      TlsTextOfParse(true, s[4..], f);
      assert s == "/ssl" + s[4..];
    } else {
      TlsTextOfParse(false, s, f);
    }
  }

  /** Different switches give different flag texts. */
  lemma FlagTextInjective(f: Flags, g: Flags)
    requires FlagText(f) == FlagText(g)
    ensures f == g
  {
    ParseFlagText(f);
    ParseFlagText(g);
  }

  /** The value of `$option` once connect has appended every flag. */
  function OptionString(protocol: string, f: Flags): (opt: string)
    ensures "/service=" + protocol <= opt
  {
    "/service=" + protocol + FlagText(f)
  }

  /** The host-name test `preg_match("/google|gmail/i", $server)`. */
  function IsGmailHost(server: string): (r: bool)
    ensures r <==> exists i :: MatchesAt(server, "google", i) || MatchesAt(server, "gmail", i)
  {
    ContainsIgnoringCase(server, "google") || ContainsIgnoringCase(server, "gmail")
  }

  /** The mailbox written after the closing brace: `INBOX` for Google hosts, nothing otherwise. */
  function Mailbox(server: string): (m: string)
    ensures m == "INBOX" <==> IsGmailHost(server)
    ensures m == "" <==> !IsGmailHost(server)
  {
    if IsGmailHost(server) then "INBOX" else ""
  }

  /** The value connect stores in `_server_string`. */
  function ServerString(server: string, port: nat, protocol: string, f: Flags): (s: string)
    ensures |s| > 0 && s[|s| - 1] == (if IsGmailHost(server) then 'X' else '}')
  {
    "{" + server + ":" + Decimal(port) + OptionString(protocol, f) + "}" + Mailbox(server)
  }

  /** `INBOX` follows the closing brace exactly for Google hosts; otherwise the string ends at the brace. */
  lemma ServerStringMailbox(server: string, port: nat, protocol: string, f: Flags)
    ensures IsGmailHost(server) <==> "}INBOX" == Suffix(ServerString(server, port, protocol, f), 6)
    ensures !IsGmailHost(server) <==> "}" == Suffix(ServerString(server, port, protocol, f), 1)
  {
    var s := ServerString(server, port, protocol, f);
    var last := s[|s| - 1];
    assert Suffix(s, 1) == [last];
    if IsGmailHost(server) {
      var p := "{" + server + ":" + Decimal(port) + "/service=" + protocol;
      ServerStringSplit(server, port, protocol, f);
      assert "}" + Mailbox(server) == "}INBOX";
      SuffixOfConcat(p + FlagText(f), "}INBOX");
    } else if |s| >= 6 {
      assert Suffix(s, 6)[5] == last;
    }
  }

  /** The last characters of a concatenation are those of its second part. */
  lemma SuffixOfConcat(x: string, y: string)
    ensures Suffix(x + y, |y|) == y
  {
  }

  /** The last `n` characters of `s` (all of it when it is shorter). */
  function Suffix(s: string, n: nat): (t: string)
    ensures |t| == if n <= |s| then n else |s|
  {
    if n <= |s| then s[|s| - n..] else s
  }

  /** The server string begins with the host, the port and the service name, in that order. */
  lemma ServerStringPrefix(server: string, port: nat, protocol: string, f: Flags)
    ensures "{" + server + ":" + Decimal(port) + "/service=" + protocol <= ServerString(server, port, protocol, f)
  {
    ServerStringSplit(server, port, protocol, f);
    PrefixOfConcat("{" + server + ":" + Decimal(port) + "/service=" + protocol, FlagText(f), "}" + Mailbox(server));
  }

  /** The first part of a concatenation is a prefix of it. */
  lemma PrefixOfConcat(p: string, a: string, m: string)
    ensures p <= p + a + m
  {
  }

  /** For one host, port and protocol, the server string determines the SSL, TLS and certificate switches. */
  lemma ServerStringDeterminesFlags(server: string, port: nat, protocol: string, f: Flags, g: Flags)
    requires ServerString(server, port, protocol, f) == ServerString(server, port, protocol, g)
    ensures f == g
  {
    var p := "{" + server + ":" + Decimal(port) + "/service=" + protocol;
    var m := "}" + Mailbox(server);
    ServerStringSplit(server, port, protocol, f);
    ServerStringSplit(server, port, protocol, g);
    CancelAffixes(p, FlagText(f), FlagText(g), m);
    FlagTextInjective(f, g);
  }

  /** For one host, protocol and set of switches, the server string determines the port. */
  lemma ServerStringDeterminesPort(server: string, port: nat, other: nat, protocol: string, f: Flags)
    requires ServerString(server, port, protocol, f) == ServerString(server, other, protocol, f)
    ensures port == other
  {
    var p := "{" + server + ":";
    var m := OptionString(protocol, f) + "}" + Mailbox(server);
    ServerStringSplitPort(server, port, protocol, f);
    ServerStringSplitPort(server, other, protocol, f);
    CancelAffixes(p, Decimal(port), Decimal(other), m);
    DecimalInjective(port, other);
  }

  /** The option string as connect assembles it, one flag after another. */
  lemma OptionStringParts(protocol: string, f: Flags)
    ensures OptionString(protocol, f) == "/service=" + protocol + SslFlag(f.ssl) + TlsFlag(f.tls) + CertFlag(f.selfCert)
  {
  }

  /** The server string as connect assembles it: the address with the option string, then the brace and the mailbox. */
  lemma ServerStringParts(server: string, port: nat, protocol: string, f: Flags)
    ensures ServerString(server, port, protocol, f)
         == ("{" + server + ":" + Decimal(port) + OptionString(protocol, f)) + "}" + Mailbox(server)
  {
  }

  /** The server string as the part before the port, the port, and the rest. */
  lemma ServerStringSplitPort(server: string, port: nat, protocol: string, f: Flags)
    ensures ServerString(server, port, protocol, f)
         == ("{" + server + ":") + Decimal(port) + (OptionString(protocol, f) + "}" + Mailbox(server))
  {
  }

  /** The server string as the address up to the service name, the flags, and the closing part. */
  lemma ServerStringSplit(server: string, port: nat, protocol: string, f: Flags)
    ensures ServerString(server, port, protocol, f)
         == ("{" + server + ":" + Decimal(port) + "/service=" + protocol) + FlagText(f) + ("}" + Mailbox(server))
  {
  }

  /** Equal strings with the same prefix and suffix have equal middles. */
  lemma CancelAffixes(p: string, a: string, b: string, m: string)
    requires p + a + m == p + b + m
    ensures a == b
  {
    var s := p + a + m;
    assert |a| == |b|;
    assert a == s[|p|..|p| + |a|];
    assert b == (p + b + m)[|p|..|p| + |b|];
  }

  /** Host names from the Google examples select `INBOX`; an ordinary host does not. */
  lemma GmailHostExamples()
    ensures IsGmailHost("imap.gmail.com")
    ensures IsGmailHost("mail.google.com")
    ensures IsGmailHost("IMAP.GMail.COM")
    ensures !IsGmailHost("mail.example.com")
  {
    assert MatchesAt("imap.gmail.com", "gmail", 5);
    assert MatchesAt("mail.google.com", "google", 5);
    assert MatchesAt("IMAP.GMail.COM", "gmail", 5);
    var h := "mail.example.com";
    forall i | 0 <= i <= |h| - 5
      ensures !MatchesAt(h, "gmail", i) && !MatchesAt(h, "google", i)
    {
      assert Lower(h[i..i + 5])[0] == h[i];
      if i + 6 <= |h| { assert Lower(h[i..i + 6])[0] == h[i]; }
      assert h[i] == 'g' ==> false;
    }
  }
}
