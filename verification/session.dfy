/**
 * The `PostieIMAP` object: its configuration fields, its connection state,
 * and the operations that change them. `imap_open` is the parameter
 * `imapOpen` of connect; the queries on an open stream (`imap_status`,
 * `imap_num_msg`, `imap_headerinfo`, `imap_fetchheader`, `imap_body`) go
 * through a `Transport`, which records each call. `IsDebugMode()` is the
 * `debug` parameter.
 */
module Session {
  import opened Wrappers
  import opened Text
  import opened Endpoint
  import opened Retrieval
  import opened Protocols

  /** The `_connection` field: never assigned (null), `false`, or an open stream. */
  datatype Connection = Unassigned | NoStream | Stream(id: nat)

  /** The value `imap_open` leaves in `_connection`. */
  function Opened(result: Option<nat>): Connection {
    match result
    case Some(id) => Stream(id)
    case None => NoStream
  }

  /** A query the session sends to the mail library. */
  datatype Query =
    | StatusQuery
    | NumMsgQuery
    | HeaderInfoQuery(index: int)
    | FetchHeaderQuery(index: int)
    | BodyQuery(index: int)

  /**
   * The mail library's queries on a stream. Each answer is a fixed function
   * of the arguments; `log` records the queries made, in order.
   */
  class Transport {
    const status: (Connection, Option<string>) -> Option<MailboxStatus>
    const numMsg: Connection -> nat
    const headerInfo: (Connection, int) -> Option<HeaderInfo>
    const fetchHeader: (Connection, int) -> string
    const body: (Connection, int) -> string
    ghost var log: seq<Query>

    constructor(status: (Connection, Option<string>) -> Option<MailboxStatus>,
                numMsg: Connection -> nat,
                headerInfo: (Connection, int) -> Option<HeaderInfo>,
                fetchHeader: (Connection, int) -> string,
                body: (Connection, int) -> string)
      ensures this.status == status && this.numMsg == numMsg && this.headerInfo == headerInfo
      ensures this.fetchHeader == fetchHeader && this.body == body
      ensures log == []
    {
      this.status := status;
      this.numMsg := numMsg;
      this.headerInfo := headerInfo;
      this.fetchHeader := fetchHeader;
      this.body := body;
      log := [];
    }

    /** `imap_status`: the mailbox counters, or nothing when the query fails. */
    method ImapStatus(c: Connection, mailbox: Option<string>) returns (r: Option<MailboxStatus>)
      modifies this`log
      ensures r == status(c, mailbox)
      ensures log == old(log) + [StatusQuery]
    {
      r := status(c, mailbox);
      log := log + [StatusQuery];
    }

    /** `imap_num_msg`: the number of messages in the mailbox. */
    method ImapNumMsg(c: Connection) returns (n: nat)
      modifies this`log
      ensures n == numMsg(c)
      ensures log == old(log) + [NumMsgQuery]
    {
      n := numMsg(c);
      log := log + [NumMsgQuery];
    }

    /** `imap_headerinfo`: the header object of a message, or nothing when the query fails. */
    method ImapHeaderInfo(c: Connection, index: int) returns (r: Option<HeaderInfo>)
      modifies this`log
      ensures r == headerInfo(c, index)
      ensures log == old(log) + [HeaderInfoQuery(index)]
    {
      r := headerInfo(c, index);
      log := log + [HeaderInfoQuery(index)];
    }

    /** `imap_fetchheader`: the raw header of a message. */
    method ImapFetchHeader(c: Connection, index: int) returns (r: string)
      modifies this`log
      ensures r == fetchHeader(c, index)
      ensures log == old(log) + [FetchHeaderQuery(index)]
    {
      r := fetchHeader(c, index);
      log := log + [FetchHeaderQuery(index)];
    }

    /** `imap_body`: the raw body of a message. */
    method ImapBody(c: Connection, index: int) returns (r: string)
      modifies this`log
      ensures r == body(c, index)
      ensures log == old(log) + [BodyQuery(index)]
    {
      r := body(c, index);
      log := log + [BodyQuery(index)];
    }
  }

  class PostieImap {
    var connected: bool            // _connected
    var protocol: string           // _protocol
    var ssl: bool                  // _ssl
    var selfCert: bool             // _self_cert
    var tlsOn: bool                // _tls_on
    var connection: Connection     // _connection
    var serverString: Option<string>  // _server_string, unset until connect
    /** The property `self_cert` (no underscore) that `RealCert` creates; nothing reads it. */
    var strayCert: Option<bool>

    /** The switches connect turns into flags. */
    function CurrentFlags(): Flags
      reads this
    {
      Flags(ssl, tlsOn, selfCert)
    }

    /** The configuration a freshly constructed object holds. */
    ghost predicate Initial(p: string, sslOn: bool, cert: bool)
      reads this
    {
      && !connected && !tlsOn
      && protocol == Lower(p) && ssl == sslOn && selfCert == cert
      && connection == Unassigned && serverString == None && strayCert == None
    }

    /** `PostieIMAP($protocol = "imap", $ssl_on = false, $self_cert = true)`. */
    constructor(p: string := "imap", sslOn: bool := false, cert: bool := true)
      ensures Initial(p, sslOn, cert)
    {
      connected := false;
      tlsOn := false;
      protocol := Lower(p);
      ssl := sslOn;
      selfCert := cert;
      connection := Unassigned;
      serverString := None;
      strayCert := None;
    }

    /** `PostieIMAPSSL($protocol = "imap", $ssl_on = true, $self_cert = true)`. */
    constructor ImapSsl(p: string := "imap", sslOn: bool := true, cert: bool := true)
      ensures Initial(p, sslOn, cert)
    {
      connected := false;
      tlsOn := false;
      protocol := Lower(p);
      ssl := sslOn;
      selfCert := cert;
      connection := Unassigned;
      serverString := None;
      strayCert := None;
    }

    /** `PostiePOP3SSL($protocol = "pop3", $ssl_on = true, $self_cert = true)`. */
    constructor Pop3Ssl(p: string := "pop3", sslOn: bool := true, cert: bool := true)
      ensures Initial(p, sslOn, cert)
    {
      connected := false;
      tlsOn := false;
      protocol := Lower(p);
      ssl := sslOn;
      selfCert := cert;
      connection := Unassigned;
      serverString := None;
      strayCert := None;
    }

    /** Turns TLS on; nothing else changes. */
    method TlsOn()
      modifies this`tlsOn
      ensures tlsOn
    {
      tlsOn := true;
    }

    /**
     * Meant to require a valid certificate, but writes the property
     * `self_cert` instead of `_self_cert`: the switch connect reads is
     * unchanged.
     */
    method RealCert()
      modifies this`strayCert
      ensures strayCert == Some(false)
      ensures CurrentFlags() == old(CurrentFlags())
    {
      strayCert := Some(false);
    }

    /** What `RealCert` is documented to do: connect stops accepting self-signed certificates. */
    method RequireValidCert()
      modifies this`selfCert
      ensures !selfCert
      ensures CurrentFlags() == old(CurrentFlags()).(selfCert := false)
    {
      selfCert := false;
    }

    method IsConnected() returns (b: bool)
      ensures b == connected
    {
      b := connected;
    }

    /**
     * The first half of connect: builds the option string flag by flag and
     * the server string around it, from the current configuration.
     */
    method BuildServerString(server: string, port: nat) returns (s: string)
      ensures s == ServerString(server, port, protocol, CurrentFlags())
    {
      var option := "/service=" + protocol;
      if ssl {
        option := option + "/ssl";
      }
      assert option == "/service=" + protocol + SslFlag(ssl);
      if tlsOn {
        option := option + "/tls";
      } else {
        option := option + "/notls";
      }
      assert option == "/service=" + protocol + SslFlag(ssl) + TlsFlag(tlsOn);
      if selfCert {
        option := option + "/novalidate-cert";
      }
      assert option == "/service=" + protocol + SslFlag(ssl) + TlsFlag(tlsOn) + CertFlag(selfCert);
      assert option == OptionString(protocol, CurrentFlags()) by {
        OptionStringParts(protocol, CurrentFlags());
      }
      var address := "{" + server + ":" + Decimal(port) + option;
      if IsGmailHost(server) {
        s := address + "}INBOX";
      } else {
        s := address + "}";
      }
      assert s == address + "}" + Mailbox(server);
      ServerStringParts(server, port, protocol, CurrentFlags());
    }

    /**
     * Stores the server string, opens the stream and reports whether the
     * object is connected. A failed open leaves `connected` as it was.
     */
    method Connect(server: string, port: nat, login: string, password: string,
                   imapOpen: (string, string, string) -> Option<nat>) returns (ok: bool)
      modifies this`serverString, this`connection, this`connected
      ensures serverString == Some(ServerString(server, port, protocol, CurrentFlags()))
      ensures connection == Opened(imapOpen(serverString.value, login, password))
      ensures connected == (old(connected) || imapOpen(serverString.value, login, password).Some?)
      ensures ok == connected
    {
      var s := BuildServerString(server, port);
      serverString := Some(s);
      var result := imapOpen(s, login, password);
      connection := Opened(result);
      if result.Some? {
        connected := true;
      }
      ok := connected;
    }

    /**
     * The count of messages to process: unseen ones in debug mode, all of
     * them otherwise. Debug mode asks only for the status, normal mode only
     * for the total.
     */
    method GetNumberOfMessages(debug: bool, t: Transport) returns (n: nat)
      modifies t`log
      ensures n == MessageCount(debug, t.status(connection, serverString), t.numMsg(connection))
      ensures t.log == old(t.log) + [if debug then StatusQuery else NumMsgQuery]
    {
      if debug {
        var status := t.ImapStatus(connection, serverString);
        if status.Some? {
          n := status.value.unseen;
        } else {
          n := 0;
        }
      } else {
        n := t.ImapNumMsg(connection);
      }
    }

    /**
     * The raw message at `index`, or the sentinel when the header flags say
     * it has been read. Header and body are fetched only when the gate
     * opens; a skipped message costs the header query alone.
     */
    method FetchEmail(index: int, debug: bool, t: Transport) returns (email: string)
      modifies t`log
      ensures email == FetchedText(debug, t.headerInfo(connection, index),
                                   t.fetchHeader(connection, index), t.body(connection, index))
      ensures t.log == old(t.log) + [HeaderInfoQuery(index)]
                       + (if ShouldFetch(debug, t.headerInfo(connection, index))
                          then [FetchHeaderQuery(index), BodyQuery(index)] else [])
    {
      var info := t.ImapHeaderInfo(connection, index);
      if debug || (info.Some? && (info.value.recent == "N" || info.value.unseen == "U")) {
        email := t.ImapFetchHeader(connection, index);
        var text := t.ImapBody(connection, index);
        email := email + text;
      } else {
        email := AlreadyRead;
      }
    }

    /** Closes the stream: `_connection` becomes `false`, `connected` keeps its value. */
    method Disconnect()
      modifies this`connection
      ensures connection == NoStream
    {
      connection := NoStream;
    }

    /**
     * A disconnect after which `isConnected`, which is meant to show whether
     * the object is actually connected, reports false.
     */
    method DisconnectAndReset()
      modifies this`connection, this`connected
      ensures connection == NoStream && !connected
    {
      connection := NoStream;
      connected := false;
    }

    /**
     * `Factory`: a new object of the variant the lower-cased identifier
     * names, built with that variant's defaults; any other identifier fails
     * with the message the source dies with.
     */
    static method Factory(id: string) returns (r: Result<PostieImap, string>)
      ensures r.Failure? <==> FactoryVariant(id).None?
      ensures r.Failure? ==> r.error == id + " not supported"
      ensures r.Success? ==> fresh(r.value)
      ensures r.Success? ==>
        var d := Defaults(FactoryVariant(id).value);
        r.value.Initial(d.protocol, d.ssl, d.selfCert)
    {
      var key := Lower(id);
      if key == "imap" {
        var s := new PostieImap();
        r := Success(s);
      } else if key == "imap-ssl" {
        var s := new PostieImap.ImapSsl();
        r := Success(s);
      } else if key == "pop3-ssl" {
        var s := new PostieImap.Pop3Ssl();
        r := Success(s);
      } else {
        r := Failure(id + " not supported");
      }
    }
  }

  /**
   * After `RealCert`, connecting a default IMAP session still asks the
   * library not to validate the certificate.
   */
  method RealCertScenario(server: string, port: nat, imapOpen: (string, string, string) -> Option<nat>)
    returns (s: string)
    ensures s == ServerString(server, port, "imap", Flags(false, false, true))
    ensures s != ServerString(server, port, "imap", Flags(false, false, false))
  {
    var session := new PostieImap();
    assert Lower("imap") == "imap";
    session.RealCert();
    var _ := session.Connect(server, port, "", "", imapOpen);
    s := session.serverString.value;
    if s == ServerString(server, port, "imap", Flags(false, false, false)) {
      ServerStringDeterminesFlags(server, port, "imap", Flags(false, false, true), Flags(false, false, false));
    }
  }

  /** With the corrected setter the same connection drops `/novalidate-cert`. */
  method RequireValidCertScenario(server: string, port: nat, imapOpen: (string, string, string) -> Option<nat>)
    returns (s: string)
    ensures s == ServerString(server, port, "imap", Flags(false, false, false))
    ensures s != ServerString(server, port, "imap", Flags(false, false, true))
  {
    var session := new PostieImap();
    assert Lower("imap") == "imap";
    session.RequireValidCert();
    var _ := session.Connect(server, port, "", "", imapOpen);
    s := session.serverString.value;
    if s == ServerString(server, port, "imap", Flags(false, false, true)) {
      ServerStringDeterminesFlags(server, port, "imap", Flags(false, false, false), Flags(false, false, true));
    }
  }

  /** A successful connect followed by disconnect leaves the object reporting itself connected. */
  method DisconnectScenario(server: string, port: nat, id: nat) returns (before: bool, after: bool)
    ensures before && after
  {
    var session := new PostieImap();
    before := session.Connect(server, port, "", "", (_, _, _) => Some(id));
    session.Disconnect();
    after := session.IsConnected();
  }

  /** With the corrected disconnect the object reports itself disconnected. */
  method DisconnectAndResetScenario(server: string, port: nat, id: nat) returns (before: bool, after: bool)
    ensures before && !after
  {
    var session := new PostieImap();
    before := session.Connect(server, port, "", "", (_, _, _) => Some(id));
    session.DisconnectAndReset();
    after := session.IsConnected();
  }
}
