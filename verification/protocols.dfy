/**
 * The protocol variants `PostieIMAP::Factory` chooses between, and the
 * constructor defaults each variant's class supplies.
 */
module Protocols {
  import opened Wrappers
  import opened Text

  /** `PostieIMAP`, `PostieIMAPSSL` and `PostiePOP3SSL`. */
  datatype Variant = Imap | ImapSsl | Pop3Ssl

  /** The constructor arguments a variant passes: protocol, SSL switch, self-signed certificate switch. */
  datatype Settings = Settings(protocol: string, ssl: bool, selfCert: bool)

  /** The identifier `Factory` accepts for a variant. */
  function Identifier(v: Variant): string {
    match v
    case Imap => "imap"
    case ImapSsl => "imap-ssl"
    case Pop3Ssl => "pop3-ssl"
  }

  /** The constructor defaults of each variant's class. */
  function Defaults(v: Variant): (s: Settings)
    ensures s.selfCert
    ensures s.ssl <==> v != Imap
    ensures s.protocol == (if v == Pop3Ssl then "pop3" else "imap")
  {
    match v
    case Imap => Settings("imap", false, true)
    case ImapSsl => Settings("imap", true, true)
    case Pop3Ssl => Settings("pop3", true, true)
  }

  /** The `switch` of `Factory` over the lower-cased identifier; `None` where the source dies. */
  function FactoryVariant(id: string): (r: Option<Variant>)
    ensures r.Some? ==> Lower(id) == Identifier(r.value)
    ensures r.None? ==> Lower(id) != "imap" && Lower(id) != "imap-ssl" && Lower(id) != "pop3-ssl"
  {
    var key := Lower(id);
    if key == "imap" then Some(Imap)
    else if key == "imap-ssl" then Some(ImapSsl)
    else if key == "pop3-ssl" then Some(Pop3Ssl)
    else None
  }

  /** `Factory` picks a variant exactly when the lower-cased identifier is that variant's name. */
  lemma FactoryVariantIff(id: string, v: Variant)
    ensures FactoryVariant(id) == Some(v) <==> Lower(id) == Identifier(v)
  {
  }

  /** `Factory` rejects exactly the identifiers that lower-case to none of the three names. */
  lemma FactoryRejects(id: string)
    ensures FactoryVariant(id).None? <==> Lower(id) !in {Identifier(Imap), Identifier(ImapSsl), Identifier(Pop3Ssl)}
  {
  }

  /** Each variant's own name selects it. */
  lemma {:induction false} FactoryIdentifier(v: Variant)
    ensures FactoryVariant(Identifier(v)) == Some(v)
  {
    var id := Identifier(v);
    assert Lower(id) == id by {
      assert forall i :: 0 <= i < |id| ==> !IsUpper(id[i]);
    }
  }

  /** Case does not matter to `Factory`. */
  lemma FactoryIgnoresCase(id: string)
    ensures FactoryVariant(Lower(id)) == FactoryVariant(id)
  {
    LowerIdempotent(id);
  }

  /** An upper-case identifier selects the same variant as its lower-case spelling. */
  lemma FactoryUpperCaseExample()
    ensures FactoryVariant("IMAP-SSL") == Some(ImapSsl)
    ensures FactoryVariant("Pop3-SSL") == Some(Pop3Ssl)
    ensures FactoryVariant("pop3") == None
  {
    assert Lower("IMAP-SSL") == "imap-ssl";
    assert Lower("Pop3-SSL") == "pop3-ssl";
    assert Lower("pop3") == "pop3";
  }
}
