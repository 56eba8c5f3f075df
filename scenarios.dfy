/**
 * Whole days of the monitor driven through its handlers from a fresh
 * start, with the clock readings and endpoint answers written out.
 */
module Scenarios {
  import opened Wrappers
  import opened Dates
  import opened Clock
  import opened Messages
  import opened Transitions
  import opened StepProperties
  import opened PriceMonitor

  /** 10 June 2025, a Tuesday. */
  const TODAY: Date := Ymd(2025, 6, 10)

  /** The first check of the afternoon still sees an old marker: recorded, not announced. */
  method StaleMarkerRecorded() returns (m: Monitor)
    ensures fresh(m)
    ensures m.outbox == [] && m.State() == ZERO.(lastSeenUpdateTime := Some(MarkerText(Ymd(2025, 1, 1), 9, 0, 0)))
  {
    m := new Monitor();
    var stale := MarkerText(Ymd(2025, 1, 1), 9, 0, 0);
    MarkerDateRoundTrip(Ymd(2025, 1, 1), 9, 0, 0);
    var now := Now(TODAY, 1, At(15, 0), 0);
    var p := Payload(Some(stale), Some("2025-06-09"), Some("1.0019"), "stale");
    m.CheckPrice(now, Fetched(p), Some("poll-0"));
    CheckPriceSeesMarker(ZERO, now, p, Some("poll-0"), stale, Ymd(2025, 1, 1));
  }

  /**
   * A Tuesday afternoon: the endpoint first still shows an old marker, then
   * today's. The old marker is recorded but not announced; today's is
   * announced with the payload, the tag line and the 3-option poll.
   */
  method UpdateAnnounced() returns (m: Monitor, p: Payload)
    ensures fresh(m)
    ensures m.outbox == [Text(PayloadDump(p)), Text(TagLine), OpenPoll(AnnouncementPoll)]
    ensures m.updateDetected && !m.stopAll
    ensures m.pendingUpdatePollId == Some("poll-1") && m.pendingUpdatePayload == Some(p)
    ensures p.priceDate == Some("2025-06-10") && p.price == Some("1.0023")
  {
    m := StaleMarkerRecorded();
    var marker := MarkerText(TODAY, 9, 15, 0);
    MarkerDateRoundTrip(TODAY, 9, 15, 0);
    MarkerDateRoundTrip(Ymd(2025, 1, 1), 9, 0, 0);
    assert m.lastSeenUpdateTime != Some(marker);
    var now2 := Now(TODAY, 1, At(15, 5), 5 * MICROS_PER_MINUTE);
    p := Payload(Some(marker), Some("2025-06-10"), Some("1.0023"), "today");
    ghost var s1 := m.State();
    m.CheckPrice(now2, Fetched(p), Some("poll-1"));
    CheckPriceSeesMarker(s1, now2, p, Some("poll-1"), marker, TODAY);
  }

  /**
   * The announcement of UpdateAnnounced acknowledged: the answer halts the
   * day and sends the acknowledgment, which names "10 Jun 2025" and the
   * price "1.0023".
   */
  method UpdateAcknowledged() returns (sent: seq<Send>, halted: bool)
    ensures |sent| == 4
    ensures sent[2] == OpenPoll(AnnouncementPoll)
    ensures sent[3].Text? && sent[3].message.Ack?
    ensures Contains(sent[3].message.text, "10 Jun 2025") && Contains(sent[3].message.text, "1.0023")
    ensures halted
  {
    var m, p := UpdateAnnounced();
    var now := Now(TODAY, 1, At(15, 20), 20 * MICROS_PER_MINUTE);
    ghost var s := m.State();
    AcknowledgeExample(s, now, p);
    m.OnPollAnswer(now, "poll-1", [0]);
    sent := m.outbox;
    halted := m.stopAll;
  }

  /** The acknowledgment for the example payload names the day and the price. */
  lemma ExampleAck(p: Payload)
    requires p.priceDate == Some("2025-06-10") && p.price == Some("1.0023")
    ensures BuildAckMessage(p, TODAY).Some?
    ensures Contains(BuildAckMessage(p, TODAY).value, "10 Jun 2025")
    ensures Contains(BuildAckMessage(p, TODAY).value, "1.0023")
  {
    AckMessageContents(p, TODAY);
    PrettyDateExample("2025-06-10");
    PrettyTextShape(TODAY);
    JuneTenthPretty();
  }

  /** Acknowledging the example announcement halts the day and sends the acknowledgment alone. */
  lemma AcknowledgeExample(s: DailyState, now: Now, p: Payload)
    requires s.pendingUpdatePollId == Some("poll-1") && s.pendingUpdatePayload == Some(p)
    requires p.priceDate == Some("2025-06-10") && p.price == Some("1.0023") && now.date == TODAY
    ensures var r := PollAnswerStep(s, now, "poll-1", [0]);
      && r.state == s.(stopAll := true) && |r.sent| == 1 && r.sent[0].Text? && r.sent[0].message.Ack?
      && Contains(r.sent[0].message.text, "10 Jun 2025") && Contains(r.sent[0].message.text, "1.0023")
  {
    AnnouncementAnswer(s, now, "poll-1", [0]);
    ExampleAck(p);
  }

  /**
   * A flapping endpoint: two failed checks ten minutes apart send exactly
   * one error notice, the second being held back by the cooldown.
   */
  method FlappingEndpointNotifiesOnce() returns (sent: seq<Send>)
    ensures sent == [Text(MonitorError(FetchError("timeout")))]
  {
    var m := new Monitor();
    var now1 := Now(TODAY, 1, At(15, 30), 0);
    var now2 := Now(TODAY, 1, At(15, 40), 10 * MICROS_PER_MINUTE);
    m.CheckPrice(now1, FetchFailed("timeout"), None);
    CheckPriceFailure(ZERO, now1, FetchFailed("timeout"), None);
    ghost var s1 := m.State();
    m.CheckPrice(now2, FetchFailed("timeout"), None);
    CheckPriceFailure(s1, now2, FetchFailed("timeout"), None);
    sent := m.outbox;
  }

  /**
   * The nag kickoff at 17:30 and the repeating nag five minutes later,
   * with no answer in between, open two 2-option polls; the second replaces
   * the first as the pending nag poll, so a late "public holiday" answer to
   * the first is dropped and the nags go on.
   */
  method NagPollReplaced() returns (sent: seq<Send>, pending: Option<PollId>, nagsStopped: bool)
    ensures sent == [OpenPoll(NagPoll), OpenPoll(NagPoll)] && |Options(sent[0].kind)| == 2
    ensures pending == Some("nag-2") && !nagsStopped
  {
    var m := new Monitor();
    var now1 := Now(TODAY, 1, At(17, 30), 0);
    var now2 := Now(TODAY, 1, At(17, 35), 5 * MICROS_PER_MINUTE);
    var now3 := Now(TODAY, 1, At(17, 36), 6 * MICROS_PER_MINUTE);
    m.NagKickoff(now1, Some("nag-1"));
    m.NagPoll(now2, Some("nag-2"));
    ghost var s2 := m.State();
    m.OnPollAnswer(now3, "nag-1", [1]);
    UnroutedAnswerIgnored(s2, now3, "nag-1", [1]);
    sent := m.outbox;
    pending := m.pendingNagPollId;
    nagsStopped := m.stopNags;
  }
}
