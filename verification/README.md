# Postie mailbox session, modelled in Dafny

Postie turns e-mail into blog posts. Its class `PostieIMAP` (with the
variants `PostieIMAPSSL` and `PostiePOP3SSL`) wraps PHP's IMAP extension:
it builds the mailbox specification string `{host:port/service=...}` from
its configuration, opens and closes the stream, reports how many messages
to process, and fetches a message only when its header flags say it has
not been read. This project models that object and its decisions and
proves what they guarantee.

- `text.dfy` (module `Text`): `strtolower` on ASCII, the case-insensitive
  host test, and the decimal text of the port.
- `endpoint.dfy` (module `Endpoint`): the option flags, the server string,
  and a parser for the flag part that proves the string names the
  configuration unambiguously.
- `retrieval.dfy` (module `Retrieval`): the count `getNumberOfMessages`
  returns and the read-state gate of `fetchEmail`.
- `protocols.dfy` (module `Protocols`): the `Factory` switch and the
  constructor defaults of the three variants.
- `session.dfy` (module `Session`): the class `PostieImap` with the
  source's fields, its constructors and methods, proved against the
  functions above.
- `wrappers.dfy` (module `Wrappers`): `Option` and `Result`.

The mail library's `imap_open` is a function-valued parameter of
`Connect`, and the global `IsDebugMode()` is a `debug` parameter.

The model follows the code as written: a failed `connect` leaves
`connected` at its previous value (which is `true` after an earlier
successful connect); `disconnect` does not reset `connected`, although
`isConnected` is commented as showing whether the object is actually
connected; and the fetch gate compares `Recent` with `N`, which the mail
library uses for a recent message that has not been seen (not for a
message that is not recent).

The queries on an open stream (`imap_status`, `imap_num_msg`,
`imap_headerinfo`, `imap_fetchheader`, `imap_body`) go through a
`Transport` object (module `Session`) whose answers are fixed functions of
their arguments and which records, in a ghost log, every query made; this
lets the contracts say which library calls an operation makes, not only
what it returns.

## Model

| member | source | states |
|---|---|---|
| Text.Lower | postieIMAP.php:30 | `strtolower` keeps the length, maps each capital A-Z to its small letter, leaves every other character, and leaves no capital behind |
| Text.LowerIdempotent | postieIMAP.php:170 | lower-casing an already lower-cased identifier changes nothing |
| Text.FindFrom | postieIMAP.php:75 | the search from position i answers true exactly when the pattern occurs, ignoring case, at some position at or after i |
| Text.ContainsIgnoringCase | postieIMAP.php:75 | the host test is true exactly when some slice of the host lower-cases to the pattern |
| Text.Decimal | postieIMAP.php:77 | the port's text is non-empty, all digits, and starts with 0 only for port 0 |
| Text.DecimalRoundTrip | postieIMAP.php:82 | reading the port's text back as a number gives the port |
| Text.DecimalInjective | postieIMAP.php:82 | different ports have different decimal texts |
| Endpoint.FlagText | postieIMAP.php:64-74 | defines the flags connect appends after the service name, in the order `/ssl`, `/tls` or `/notls`, `/novalidate-cert`; between 4 and 26 characters long |
| Endpoint.ParseFlagText | postieIMAP.php:62-74 | the appended flags parse back to the SSL, TLS and certificate switches: `/ssl` iff SSL, exactly one of `/tls` or `/notls`, `/novalidate-cert` iff self-signed certificates are accepted, in that order |
| Endpoint.FlagTextOfParse | postieIMAP.php:62-74 | every flag string of that shape is the flag text of the switches it parses to |
| Endpoint.FlagTextInjective | postieIMAP.php:62-74 | different switch settings never produce the same flags |
| Endpoint.OptionString | postieIMAP.php:62-74 | defines the final value of `$option`: `/service=` and the protocol, then the flags; it always starts with `/service=` and the protocol |
| Endpoint.IsGmailHost | postieIMAP.php:75 | defines the host test: true exactly when `google` or `gmail` occurs in the host at some position, ignoring ASCII case |
| Endpoint.ServerString | postieIMAP.php:75-83 | defines the value stored in `_server_string`; its last character is `X` (of `INBOX`) for Google hosts and the closing brace otherwise |
| Endpoint.Mailbox | postieIMAP.php:75-83 | the mailbox after the brace is `INBOX` iff the host contains google or gmail ignoring case, and empty otherwise |
| Endpoint.ServerStringMailbox | postieIMAP.php:75-83 | the server string ends in `}INBOX` iff the host is a Google host, and ends at the closing brace otherwise |
| Endpoint.ServerStringPrefix | postieIMAP.php:77 | the server string starts with `{`, the host, `:`, the port and `/service=` with the protocol |
| Endpoint.ServerStringDeterminesFlags | postieIMAP.php:62-83 | for one host, port and protocol, equal server strings mean equal switch settings |
| Endpoint.ServerStringDeterminesPort | postieIMAP.php:77-82 | for one host, protocol and switch settings, equal server strings mean equal ports |
| Endpoint.GmailHostExamples | postieIMAP.php:75 | `imap.gmail.com`, `mail.google.com` and `IMAP.GMail.COM` get `INBOX`; `mail.example.com` does not |
| Retrieval.MessageCount | postieIMAP.php:98-113 | with debug off the total count; with debug on the status's unseen count, or 0 when the status query yields nothing |
| Retrieval.MessageCountExample | postieIMAP.php:98-113 | ten messages of which three unseen give 10 normally, 3 in debug mode, 0 in debug mode when the query fails |
| Retrieval.ShouldFetch | postieIMAP.php:125 | defines the gate: always open in debug mode, closed outside debug mode when there is no header object, and for a header whose `Recent` is not `N` and whose `Unseen` is not `U` open exactly in debug mode |
| Retrieval.FetchedText | postieIMAP.php:123-132 | when debug is on, or `Recent` is `N`, or `Unseen` is `U`, the header followed by the body; otherwise exactly `already read` |
| Retrieval.HeaderInfoOf | postieIMAP.php:125 | with the mail library's flag letters, the gate opens outside debug mode exactly for messages not yet seen, and always in debug mode |
| Retrieval.FetchOnlyUnseen | postieIMAP.php:123-132 | outside debug mode a seen message gives `already read` and an unseen one its text; in debug mode every message gives its text |
| Protocols.Defaults | postieIMAP.php:27-212 | every variant accepts self-signed certificates; only plain IMAP is without SSL; only the POP3 variant uses protocol pop3 |
| Protocols.FactoryVariant | postieIMAP.php:170-181 | defines the `switch`: a chosen variant's name is the lower-cased identifier, and no variant is chosen only when the lower-cased identifier is none of `imap`, `imap-ssl`, `pop3-ssl` |
| Protocols.FactoryVariantIff | postieIMAP.php:169-184 | `Factory` picks a variant exactly when the lower-cased identifier is that variant's name |
| Protocols.FactoryRejects | postieIMAP.php:180-181 | `Factory` fails exactly for identifiers that lower-case to none of `imap`, `imap-ssl`, `pop3-ssl` |
| Protocols.FactoryIdentifier | postieIMAP.php:170-179 | each variant's own name selects it |
| Protocols.FactoryIgnoresCase | postieIMAP.php:170 | an identifier and its lower-cased form select the same variant |
| Protocols.FactoryUpperCaseExample | postieIMAP.php:170-181 | `IMAP-SSL` selects IMAP over SSL, `Pop3-SSL` POP3 over SSL, and `pop3` is rejected |
| Session.PostieImap.constructor | postieIMAP.php:27-33 | not connected, TLS off, protocol lower-cased, SSL and certificate switches as passed, defaults imap/no SSL/self-signed accepted |
| Session.PostieImap.ImapSsl | postieIMAP.php:196-198 | the same initial state with defaults imap, SSL on, self-signed accepted |
| Session.PostieImap.Pop3Ssl | postieIMAP.php:210-212 | the same initial state with defaults pop3, SSL on, self-signed accepted |
| Session.PostieImap.TlsOn | postieIMAP.php:38-40 | sets the TLS switch and changes nothing else |
| Session.PostieImap.RealCert | postieIMAP.php:45-47 | writes only the stray `self_cert` property; the switches connect reads are unchanged |
| Session.PostieImap.RequireValidCert | postieIMAP.php:42-47 | what the comment on `RealCert` asks for: the certificate switch is cleared and nothing else changes |
| Session.PostieImap.IsConnected | postieIMAP.php:53-55 | reports the `connected` field |
| Session.PostieImap.BuildServerString | postieIMAP.php:62-83 | the flag-by-flag option build yields the server string of the current configuration, so equal settings give an identical string; nothing changes |
| Session.PostieImap.Connect | postieIMAP.php:61-92 | `_server_string` becomes the server string of the current configuration; the stream is what the open returns; `connected` becomes true on success and keeps its old value on failure; the result is `connected` |
| Session.PostieImap.GetNumberOfMessages | postieIMAP.php:98-113 | returns the count selected from what the status and total-count queries report on this object's stream; in debug mode only the status query is made, otherwise only the total-count query |
| Session.PostieImap.FetchEmail | postieIMAP.php:119-133 | returns the gated text for the header flags of message `index`; the header-info query is made first, and the header and body queries follow exactly when the gate opens, so a skipped message is answered without fetching its body |
| Session.PostieImap.Disconnect | postieIMAP.php:152-155 | the stream becomes `false`; `connected` is outside the frame, so `IsConnected` is unchanged |
| Session.PostieImap.DisconnectAndReset | postieIMAP.php:152-155 | what `isConnected`'s comment (the object is actually connected) calls for: the stream becomes `false` and the object is no longer connected |
| Session.PostieImap.Factory | postieIMAP.php:169-184 | a fresh object with the selected variant's defaults, or failure with `<id> not supported` exactly when the identifier names no variant |
| Session.RealCertScenario | postieIMAP.php:45-47 | after `RealCert`, a default IMAP session still connects with `/novalidate-cert`, not with the string that validation would give |
| Session.RequireValidCertScenario | postieIMAP.php:45-47 | after the corrected setter the same connection is made without `/novalidate-cert` |
| Session.DisconnectScenario | postieIMAP.php:152-155 | after a successful connect and a disconnect the object still reports itself connected |
| Session.DisconnectAndResetScenario | postieIMAP.php:152-155 | with the corrected disconnect the object reports itself disconnected |

## Left out

- The mail library itself (`imap_open`, `imap_status`, `imap_num_msg`, `imap_headerinfo`, `imap_fetchheader`, `imap_body`): network I/O, passed in as functions or answered by `Transport`; their IMAP/POP3 behaviour is not modelled.
- `imap_close` in `disconnect` and `imap_last_error`: I/O with no effect on the object's fields.
- `deleteMessage`, `expungeMessages` and `error`: single calls into the mail library with no logic of their own.
- `LogInfo` and `DebugDump` on the failure paths of `connect` and `getNumberOfMessages`: logging only.
- `IsDebugMode()`: a global setting, modelled as the `debug` parameter.
- `die` in `Factory`: modelled as a `Failure` carrying the message, not as ending the process.
- The PCRE engine: `/google|gmail/i` is modelled as ASCII case-insensitive substring containment of either word.
- `strtolower` is modelled on ASCII letters only; locale-dependent folding of other characters is not modelled.
- The mail library's answers are fixed functions of the stream and arguments: a mailbox whose contents change between two queries is not modelled.
- PHP references (`&new`, `&Factory`) and dynamic typing: the port is a natural number rendered in decimal, the message index an integer, and the header object only its `Recent` and `Unseen` fields.
- Session.PostieImap.FetchEmail: whether the library marks a message as seen when its body is fetched is the library's behaviour and is not modelled.

## Findings

| source | as written | input that shows it | evidently intended | confidence | as-written member | corrected member |
|---|---|---|---|---|---|---|
| postieIMAP.php:45-47 | `RealCert` assigns `self_cert`, a new property, instead of `_self_cert` | a default IMAP session, `RealCert()`, then `connect` to any host: the server string still carries `/novalidate-cert` | the certificate switch is cleared so the library validates the certificate | high, not executed | Session.RealCertScenario | Session.RequireValidCertScenario |
| postieIMAP.php:152-155 | `disconnect` closes the stream but leaves `_connected` true | a successful `connect`, then `disconnect`: `isConnected()` still returns true | the object reports itself disconnected after `disconnect` | medium, not executed | Session.DisconnectScenario | Session.DisconnectAndResetScenario |
