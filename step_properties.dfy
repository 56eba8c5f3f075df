/** What each handler does in one step, stated against the step functions. */
module StepProperties {
  import opened Wrappers
  import opened Dates
  import opened Clock
  import opened Messages
  import opened Transitions

  // ---------------------------------------------------------------------
  // check_price
  // ---------------------------------------------------------------------

  /** Halted, at the weekend, or outside 15:00-21:00: check_price does nothing. */
  lemma CheckPriceGated(s: DailyState, now: Now, fetched: FetchResult, pollSent: Option<PollId>)
    requires s.stopAll || !IsWeekday(now.weekday) || !WithinTimeWindow(now.time, CHECK_START, CHECK_END)
    ensures CheckPriceStep(s, now, fetched, pollSent) == Step(s, [])
  {
  }

  /** Past its gate, with a marker that parses, check_price observes that marker. */
  lemma CheckPriceObserves(s: DailyState, now: Now, p: Payload, pollSent: Option<PollId>, marker: string, d: Date)
    requires CheckGateOpen(s, now)
    requires p.updateTime == Some(marker) && ParseMarkerDate(marker) == Some(d)
    ensures CheckPriceStep(s, now, Fetched(p), pollSent) == ObserveMarker(s, now.date, p, marker, d, pollSent)
  {
  }

  /**
   * A fetched marker that parses becomes the last seen marker whether or not
   * it is announced; the halt flags, the nag poll and the error time stay.
   * It is announced exactly when it differs from the marker seen before,
   * carries today's date and no change was detected yet, and an announcement
   * sends the payload, the tag line and the 3-option poll, stores the
   * payload, and records the poll only when its send returned one.
   */
  lemma CheckPriceSeesMarker(s: DailyState, now: Now, p: Payload, pollSent: Option<PollId>, marker: string, d: Date)
    requires CheckGateOpen(s, now)
    requires p.updateTime == Some(marker) && ParseMarkerDate(marker) == Some(d)
    ensures var r := CheckPriceStep(s, now, Fetched(p), pollSent);
      && r.state.lastSeenUpdateTime == Some(marker)
      && r.state.stopAll == s.stopAll && r.state.stopNags == s.stopNags
      && r.state.pendingNagPollId == s.pendingNagPollId && r.state.lastErrorAt == s.lastErrorAt
      && (r.sent != [] <==> s.lastSeenUpdateTime != Some(marker) && d == now.date && !s.updateDetected)
      && (r.sent == [] ==> r.state == s.(lastSeenUpdateTime := Some(marker)))
      && (r.sent != [] ==>
            && r.sent == [Text(PayloadDump(p)), Text(TagLine), OpenPoll(AnnouncementPoll)]
            && |Options(r.sent[2].kind)| == 3
            && r.state.updateDetected && r.state.pendingUpdatePayload == Some(p)
            && r.state.pendingUpdatePollId == (if pollSent.Some? then pollSent else s.pendingUpdatePollId))
  {
    CheckPriceObserves(s, now, p, pollSent, marker, d);
  }

  /**
   * Idempotence: once check_price has seen a marker, a later check fetching
   * the same marker (whatever the rest of the payload) announces nothing and
   * changes nothing.
   */
  lemma SameMarkerNeverReannounced(s: DailyState, now1: Now, now2: Now, p1: Payload, p2: Payload,
                                   poll1: Option<PollId>, poll2: Option<PollId>)
    requires CheckGateOpen(s, now1)
    requires p1.updateTime.Some? && p2.updateTime == p1.updateTime
    requires ParseMarkerDate(p1.updateTime.value).Some?
    ensures var s1 := CheckPriceStep(s, now1, Fetched(p1), poll1).state;
      CheckPriceStep(s1, now2, Fetched(p2), poll2) == Step(s1, [])
  {
    var marker := p1.updateTime.value;
    var d := ParseMarkerDate(marker).value;
    CheckPriceObserves(s, now1, p1, poll1, marker, d);
    var s1 := CheckPriceStep(s, now1, Fetched(p1), poll1).state;
    assert s1.lastSeenUpdateTime == Some(marker);
    if CheckGateOpen(s1, now2) {
      CheckPriceObserves(s1, now2, p2, poll2, marker, d);
    }
  }

  /**
   * A failed fetch, a missing marker or a marker strptime refuses leaves the
   * last seen marker and every flag alone; it sends one error notice and
   * records the time exactly when the cooldown allows, and nothing otherwise.
   */
  lemma CheckPriceFailure(s: DailyState, now: Now, fetched: FetchResult, pollSent: Option<PollId>)
    requires CheckGateOpen(s, now) && FetchFails(fetched)
    ensures var r := CheckPriceStep(s, now, fetched, pollSent);
      && r == ReportError(s, now, FailureOf(fetched))
      && r.state.lastSeenUpdateTime == s.lastSeenUpdateTime
      && (ShouldSendError(s.lastErrorAt, now.instant) ==>
            r.state == s.(lastErrorAt := Some(now.instant)) && |r.sent| == 1 && r.sent[0].Text? && r.sent[0].message.MonitorError?)
      && (!ShouldSendError(s.lastErrorAt, now.instant) ==> r == Step(s, []))
  {
  }

  /**
   * A flapping endpoint: two failing checks less than 60 minutes apart, the
   * first with no error sent in the hour before it, send exactly one error notice.
   */
  lemma TwoFailuresOneNotice(s: DailyState, now1: Now, now2: Now, f1: FetchResult, f2: FetchResult,
                             poll1: Option<PollId>, poll2: Option<PollId>)
    requires ShouldSendError(s.lastErrorAt, now1.instant)
    requires CheckGateOpen(s, now1) && FetchFails(f1) && FetchFails(f2)
    requires now1.instant <= now2.instant < now1.instant + ERROR_COOLDOWN
    ensures var r1 := CheckPriceStep(s, now1, f1, poll1);
      var r2 := CheckPriceStep(r1.state, now2, f2, poll2);
      |r1.sent + r2.sent| == 1
  {
  }

  // ---------------------------------------------------------------------
  // nag_poll
  // ---------------------------------------------------------------------

  /**
   * nag_poll does nothing once halted, once nags are stopped, once a change
   * was detected, at the weekend or outside 17:30-21:00; otherwise it sends
   * one 2-option poll and overwrites only the pending nag poll, and only
   * when the send returned a poll.
   */
  lemma NagPollBehaviour(s: DailyState, now: Now, pollSent: Option<PollId>)
    ensures var r := NagPollStep(s, now, pollSent);
      && (!NagGateOpen(s, now) ==> r == Step(s, []))
      && (NagGateOpen(s, now) ==>
            && r.sent == [OpenPoll(NagPoll)] && |Options(NagPoll)| == 2
            && r.state == (if pollSent.Some? then s.(pendingNagPollId := pollSent) else s))
  {
  }

  /**
   * Each nag firing replaces the previous nag poll: after a second poll, an
   * answer to the first (superseded) poll is dropped.
   */
  lemma SupersededNagAnswerDropped(s: DailyState, now1: Now, now2: Now, now3: Now, first: PollId, second: PollId,
                                   optionIds: seq<int>)
    requires NagGateOpen(s, now1) && NagGateOpen(s, now2) && first != second
    requires s.pendingUpdatePollId != Some(first)
    ensures var s1 := NagPollStep(s, now1, Some(first)).state;
      var s2 := NagPollStep(s1, now2, Some(second)).state;
      && s2.pendingNagPollId == Some(second)
      && PollAnswerStep(s2, now3, first, optionIds) == Step(s2, [])
  {
  }

  // ---------------------------------------------------------------------
  // on_poll_answer
  // ---------------------------------------------------------------------

  /** An answer without a choice, or to a poll that is neither pending one, changes nothing. */
  lemma UnroutedAnswerIgnored(s: DailyState, now: Now, pollId: PollId, optionIds: seq<int>)
    requires |optionIds| == 0 || (s.pendingUpdatePollId != Some(pollId) && s.pendingNagPollId != Some(pollId))
    ensures PollAnswerStep(s, now, pollId, optionIds) == Step(s, [])
  {
  }

  /**
   * An answer on the announcement poll halts monitoring for the day whatever
   * the choice, and is routed before the nag poll is looked at. Its reply:
   * investigating for 1, holiday for 2, the acknowledgment for 0 with a
   * stored payload (nothing at all when the price date does not parse), and
   * "noted" for anything else.
   */
  lemma AnnouncementAnswer(s: DailyState, now: Now, pollId: PollId, optionIds: seq<int>)
    requires |optionIds| > 0 && s.pendingUpdatePollId == Some(pollId)
    ensures var r := PollAnswerStep(s, now, pollId, optionIds);
      var choice := optionIds[0];
      && r.state == s.(stopAll := true)
      && (choice == 1 ==> r.sent == [Text(MarkedInvestigating)])
      && (choice == 2 ==> r.sent == [Text(MarkedHoliday)])
      && (choice == 0 && s.pendingUpdatePayload.Some? ==>
            match BuildAckMessage(s.pendingUpdatePayload.value, now.date)
            case None => r.sent == []
            case Some(text) => r.sent == [Text(Ack(text))])
      && ((choice !in {0, 1, 2} || (choice == 0 && s.pendingUpdatePayload.None?)) ==> r.sent == [Text(Noted)])
  {
  }

  /**
   * An answer on the current nag poll stops the nags for the day only for
   * choice 1 (public holiday); any other choice leaves the state as it was.
   * Either way one confirmation is sent.
   */
  lemma NagAnswer(s: DailyState, now: Now, pollId: PollId, optionIds: seq<int>)
    requires |optionIds| > 0 && s.pendingUpdatePollId != Some(pollId) && s.pendingNagPollId == Some(pollId)
    ensures var r := PollAnswerStep(s, now, pollId, optionIds);
      && (optionIds[0] == 1 ==> r == Step(s.(stopNags := true), [Text(NagHolidayNoted)]))
      && (optionIds[0] != 1 ==> r == Step(s, [Text(NagInvestigatingNoted)]))
  {
  }

  /**
   * The announcement poll stays pending after it is answered: a second
   * answer to it is routed again, leaves the same state, and sends its reply
   * again.
   */
  lemma RepeatAnnouncementAnswerResends(s: DailyState, now: Now, pollId: PollId, optionIds: seq<int>)
    requires |optionIds| > 0 && s.pendingUpdatePollId == Some(pollId)
    ensures var r1 := PollAnswerStep(s, now, pollId, optionIds);
      var r2 := PollAnswerStep(r1.state, now, pollId, optionIds);
      r2.state == r1.state && r2.sent == r1.sent
  {
  }

  /**
   * In a consistent state the announcement poll always has its payload, so
   * choice 0 never falls through to "noted": it sends the acknowledgment, or
   * nothing when the price date does not parse.
   */
  lemma AcknowledgeNeverNoted(s: DailyState, now: Now, pollId: PollId, optionIds: seq<int>)
    requires Consistent(s) && |optionIds| > 0 && optionIds[0] == 0 && s.pendingUpdatePollId == Some(pollId)
    ensures var r := PollAnswerStep(s, now, pollId, optionIds);
      r.sent == [] || (|r.sent| == 1 && r.sent[0].Text? && r.sent[0].message.Ack?)
  {
  }

  /**
   * The announcement poll's options and on_poll_answer agree on the order:
   * picking the option labelled "Investigating / Dispute" (or "Public
   * holiday") is exactly what sends the investigating (or holiday) reply,
   * and with a stored payload, picking "Acknowledge" is exactly what sends
   * nothing but the acknowledgment.
   */
  lemma AnnouncementOptionsRouted(payload: Option<Payload>, i: int, today: Date)
    requires 0 <= i < |Options(AnnouncementPoll)|
    ensures var reply := AnnouncementReply(payload, i, today);
      && (Options(AnnouncementPoll)[i] == INVESTIGATING <==> reply == [Text(MarkedInvestigating)])
      && (Options(AnnouncementPoll)[i] == PUBLIC_HOLIDAY <==> reply == [Text(MarkedHoliday)])
      && (payload.Some? ==>
            (Options(AnnouncementPoll)[i] == ACKNOWLEDGE <==>
               forall k | 0 <= k < |reply| :: reply[k].Text? && reply[k].message.Ack?))
  {
  }

  /**
   * The nag poll's options and on_poll_answer agree on the order: on the
   * current nag poll, picking the option labelled "Public holiday" is
   * exactly what stops the nags and sends the holiday confirmation.
   */
  lemma NagOptionsRouted(s: DailyState, now: Now, pollId: PollId, i: int)
    requires s.pendingUpdatePollId != Some(pollId) && s.pendingNagPollId == Some(pollId)
    requires 0 <= i < |Options(NagPoll)|
    ensures var r := PollAnswerStep(s, now, pollId, [i]);
      && (Options(NagPoll)[i] == PUBLIC_HOLIDAY <==> r.sent == [Text(NagHolidayNoted)])
      && r.state == (if Options(NagPoll)[i] == PUBLIC_HOLIDAY then s.(stopNags := true) else s)
      && (Options(NagPoll)[i] == INVESTIGATING <==> r.sent == [Text(NagInvestigatingNoted)])
  {
  }

  // ---------------------------------------------------------------------
  // daily_reset and the invariant
  // ---------------------------------------------------------------------

  /** daily_reset clears every field, whatever came before, and sends one notice. */
  lemma DailyResetClears(s: DailyState)
    ensures var r := DailyResetStep(s);
      && r.state.lastSeenUpdateTime.None? && !r.state.updateDetected && !r.state.stopAll && !r.state.stopNags
      && r.state.pendingUpdatePayload.None? && r.state.pendingUpdatePollId.None?
      && r.state.pendingNagPollId.None? && r.state.lastErrorAt.None?
      && r.sent == [Text(ResetNotice)]
  {
  }

  /** check_price keeps the state consistent. */
  lemma CheckPriceKeepsConsistent(s: DailyState, now: Now, fetched: FetchResult, pollSent: Option<PollId>)
    requires Consistent(s)
    ensures Consistent(CheckPriceStep(s, now, fetched, pollSent).state)
  {
    var r := CheckPriceStep(s, now, fetched, pollSent);
    if !CheckGateOpen(s, now) {
      assert Consistent(r.state) by { CheckPriceGated(s, now, fetched, pollSent); }
    } else if FetchFails(fetched) {
      assert Consistent(r.state) by { CheckPriceFailure(s, now, fetched, pollSent); }
    } else {
      var marker := fetched.payload.updateTime.value;
      assert Consistent(r.state) by {
        CheckPriceObserves(s, now, fetched.payload, pollSent, marker, ParseMarkerDate(marker).value);
      }
    }
  }

  /** The other handlers keep the state consistent, and the zero state is. */
  lemma HandlersKeepConsistent(s: DailyState, now: Now, pollSent: Option<PollId>, pollId: PollId, optionIds: seq<int>)
    requires Consistent(s)
    ensures Consistent(ZERO)
    ensures Consistent(NagPollStep(s, now, pollSent).state)
    ensures Consistent(PollAnswerStep(s, now, pollId, optionIds).state)
    ensures Consistent(DailyResetStep(s).state)
  {
  }
}
