/**
 * The two decisions `PostieIMAP` takes on what the transport reports:
 * which count `getNumberOfMessages` returns, and whether `fetchEmail`
 * returns a message or the sentinel `already read`.
 */
module Retrieval {
  import opened Wrappers

  /** The counters `imap_status` reports for a mailbox (the ones `SA_ALL` asks for). */
  datatype MailboxStatus = MailboxStatus(messages: nat, recent: nat, unseen: nat, uidNext: nat, uidValidity: nat)

  /**
   * `getNumberOfMessages`: in debug mode the unseen count of the status
   * query, or 0 when the query yields nothing; otherwise the total count.
   */
  function MessageCount(debug: bool, status: Option<MailboxStatus>, numMsg: nat): (n: nat)
    ensures !debug ==> n == numMsg
    ensures debug ==> n == (if status.Some? then status.value.unseen else 0)
  {
    if debug then
      match status
      case Some(s) => s.unseen
      case None => 0
    else numMsg
  }

  /** A mailbox of ten messages, three of them unseen: ten normally, three in debug mode, none when the query fails. */
  lemma MessageCountExample()
    ensures MessageCount(false, Some(MailboxStatus(10, 0, 3, 11, 1)), 10) == 10
    ensures MessageCount(true, Some(MailboxStatus(10, 0, 3, 11, 1)), 10) == 3
    ensures MessageCount(true, None, 10) == 0
  {
  }

  /** The read-state fields of what `imap_headerinfo` returns: `Recent` and `Unseen`, one-character strings. */
  datatype HeaderInfo = HeaderInfo(recent: string, unseen: string)

  /** The sentinel `fetchEmail` returns for a message it skips. */
  const AlreadyRead: string := "already read"

  /**
   * The gate of `fetchEmail`: debug mode, or `Recent` equal to `N`, or
   * `Unseen` equal to `U`. A failed header query (no header object) leaves
   * both fields null, which equal neither letter.
   */
  function ShouldFetch(debug: bool, info: Option<HeaderInfo>): (open: bool)
    ensures debug ==> open
    ensures !debug && info.None? ==> !open
    ensures info.Some? && info.value.recent != "N" && info.value.unseen != "U" ==> (open <==> debug)
  {
    debug || (info.Some? && (info.value.recent == "N" || info.value.unseen == "U"))
  }

  /** What `fetchEmail` returns: the header followed by the body when the gate opens, the sentinel otherwise. */
  function FetchedText(debug: bool, info: Option<HeaderInfo>, header: string, body: string): (email: string)
    ensures ShouldFetch(debug, info) ==> email == header + body && |email| == |header| + |body|
    ensures !ShouldFetch(debug, info) ==> email == AlreadyRead
  {
    if ShouldFetch(debug, info) then header + body else AlreadyRead
  }

  /**
   * The header flags the mail library reports for a message with the
   * given read state: `Recent` is `R` (recent, seen), `N` (recent, not
   * seen) or a space (not recent); `Unseen` is `U` for a message neither
   * seen nor recent and a space otherwise. The gate opens outside debug
   * mode exactly for the messages not yet seen.
   */
  function HeaderInfoOf(seen: bool, recent: bool): (info: HeaderInfo)
    ensures ShouldFetch(false, Some(info)) <==> !seen
    ensures ShouldFetch(true, Some(info))
  {
    HeaderInfo(
      if recent then (if seen then "R" else "N") else " ",
      if !seen && !recent then "U" else " ")
  }

  /** Outside debug mode a seen message yields the sentinel and an unseen one its full text; in debug mode every message yields its full text. */
  lemma FetchOnlyUnseen(seen: bool, recent: bool, header: string, body: string)
    ensures FetchedText(false, Some(HeaderInfoOf(seen, recent)), header, body)
            == if seen then AlreadyRead else header + body
    ensures FetchedText(true, Some(HeaderInfoOf(seen, recent)), header, body) == header + body
  {
  }
}
