/**
 * What the monitor receives from the price endpoint and what it sends to
 * the group chat: the payload, the fixed lines, the polls and the
 * acknowledgment line.
 */
module Messages {
  import opened Wrappers
  import opened Dates

  /** A poll identifier as the chat platform hands it out. */
  type PollId = string

  /**
   * The JSON document the endpoint returns. Only the three fields the
   * monitor reads are visible; `document` stands for the whole of it, as
   * echoed back in the announcement. `updateTime` and `priceDate` are None
   * when the field is missing or is not a string, since strptime raises on
   * either. `price` is None only when it is missing: whatever else it holds,
   * the acknowledgment renders it, so it is kept as its rendering.
   */
  datatype Payload = Payload(
    updateTime: Option<string>,   // data.update_time, the update marker
    priceDate: Option<string>,    // data.price_date, "%Y-%m-%d"
    price: Option<string>,        // data.price, as the f-string renders it
    document: string)

  /** The outcome of one fetch of the endpoint. */
  datatype FetchResult = Fetched(payload: Payload) | FetchFailed(reason: string)

  /** What went wrong during a price check. */
  datatype Failure =
    | FetchError(reason: string)      // network, timeout, non-2xx status, malformed body
    | MissingUpdateTime               // no data.update_time in the payload
    | BadUpdateTime(marker: string)   // strptime refused the marker

  /** The text messages the monitor sends. */
  datatype Message =
    | PayloadDump(payload: Payload)   // the payload as JSON inside <pre>
    | TagLine                         // the mention asking for a cross-check
    | MonitorError(cause: Failure)    // the error notice
    | Ack(text: string)               // the acknowledgment line
    | MarkedInvestigating             // announcement answered "Investigating / Dispute"
    | MarkedHoliday                   // announcement answered "Public holiday"
    | Noted                           // announcement answered otherwise
    | NagHolidayNoted                 // nag answered "Public holiday"
    | NagInvestigatingNoted           // nag answered otherwise
    | ResetNotice                     // the daily reset confirmation

  /**
   * Which of the two polls a send opens. The kind fixes the question and the
   * options the poll carries: "QCDT price update detected. Action?" with
   * the three options below, or "QCDT price not updated yet. Action?" with two.
   */
  datatype PollKind = AnnouncementPoll | NagPoll

  /** One call of `safe_send` or `safe_send_poll`. */
  datatype Send = Text(message: Message) | OpenPoll(kind: PollKind)

  const ACKNOWLEDGE: string := "\U{2705} Acknowledge"
  const INVESTIGATING: string := "\U{1F575}\U{FE0F} Investigating / Dispute"
  const PUBLIC_HOLIDAY: string := "\U{1F38C} Public holiday"

  const CC_LINE: string := "CC: @Nathan_DMZ @LEEKAIYANG @Duke_RWAlpha @AscentHamza @Ascentkaiwei"

  /** The options offered, in the order their indices refer to. */
  function Options(k: PollKind): seq<string>
  {
    match k
    case AnnouncementPoll => [ACKNOWLEDGE, INVESTIGATING, PUBLIC_HOLIDAY]
    case NagPoll => [INVESTIGATING, PUBLIC_HOLIDAY]
  }

  /**
   * `build_ack_message`: None where it raises, which is when the price date
   * is missing or is not a "%Y-%m-%d" date.
   */
  function BuildAckMessage(p: Payload, today: Date): Option<string> {
    match PrettyDate(p.priceDate.GetOr(""))
    case None => None
    case Some(priceDay) =>
      Some("Updated today on " + PrettyText(today) + " for " + priceDay + " QCDT price. "
           + "Price of " + p.price.GetOr("") + " tallies with NAV report. " + CC_LINE)
  }

  /** `part` occurs in `text` starting at index `i`. */
  predicate OccursAt(text: string, part: string, i: int) {
    0 <= i && i + |part| <= |text| && text[i..i + |part|] == part
  }

  ghost predicate Contains(text: string, part: string) {
    exists i :: OccursAt(text, part, i)
  }

  lemma ContainsSelf(part: string)
    ensures Contains(part, part)
  {
    assert OccursAt(part, part, 0);
  }

  lemma ContainsInLeft(x: string, y: string, part: string)
    requires Contains(x, part)
    ensures Contains(x + y, part)
  {
    var i :| OccursAt(x, part, i);
    assert (x + y)[i..i + |part|] == x[i..i + |part|];
    assert OccursAt(x + y, part, i);
  }

  lemma ContainsInRight(x: string, y: string, part: string)
    requires Contains(y, part)
    ensures Contains(x + y, part)
  {
    var i :| OccursAt(y, part, i);
    assert (x + y)[|x| + i..|x| + i + |part|] == y[i..i + |part|];
    assert OccursAt(x + y, part, |x| + i);
  }

  /**
   * The acknowledgment exists exactly when the price date parses, and then
   * it names today's date, the price date in its pretty form, the price and
   * the CC line.
   */
  lemma AckMessageContents(p: Payload, today: Date)
    ensures BuildAckMessage(p, today).Some? <==> p.priceDate.Some? && ParseIsoDate(p.priceDate.value).Some?
    ensures BuildAckMessage(p, today).Some? ==>
      && Contains(BuildAckMessage(p, today).value, PrettyText(today))
      && Contains(BuildAckMessage(p, today).value, PrettyDate(p.priceDate.value).value)
      && Contains(BuildAckMessage(p, today).value, p.price.GetOr(""))
      && Contains(BuildAckMessage(p, today).value, CC_LINE)
  {
    if p.priceDate.None? {
      assert Scan(ISO_FORMAT, "") == None;
    }
    match PrettyDate(p.priceDate.GetOr(""))
    case None =>
    case Some(day) =>
      var t := PrettyText(today);
      var price := p.price.GetOr("");
      var s1 := "Updated today on " + t;
      var s2 := s1 + " for " + day;
      var s3 := s2 + " QCDT price. " + "Price of " + price;
      var s4 := s3 + " tallies with NAV report. ";
      var text := s4 + CC_LINE;
      assert BuildAckMessage(p, today) == Some(text);
      ContainsSelf(t);
      ContainsInRight("Updated today on ", t, t);
      ContainsInLeft(s1, " for ", t);
      ContainsInLeft(s1 + " for ", day, t);
      ContainsInLeft(s2, " QCDT price. ", t);
      ContainsInLeft(s2 + " QCDT price. ", "Price of ", t);
      ContainsInLeft(s2 + " QCDT price. " + "Price of ", price, t);
      ContainsInLeft(s3, " tallies with NAV report. ", t);
      ContainsInLeft(s4, CC_LINE, t);
      ContainsSelf(day);
      ContainsInRight(s1 + " for ", day, day);
      ContainsInLeft(s2, " QCDT price. ", day);
      ContainsInLeft(s2 + " QCDT price. ", "Price of ", day);
      ContainsInLeft(s2 + " QCDT price. " + "Price of ", price, day);
      ContainsInLeft(s3, " tallies with NAV report. ", day);
      ContainsInLeft(s4, CC_LINE, day);
      ContainsSelf(price);
      ContainsInRight(s2 + " QCDT price. " + "Price of ", price, price);
      ContainsInLeft(s3, " tallies with NAV report. ", price);
      ContainsInLeft(s4, CC_LINE, price);
      ContainsSelf(CC_LINE);
      ContainsInRight(s4, CC_LINE, CC_LINE);
  }
}
