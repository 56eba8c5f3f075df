/**
 * The monitor as the program runs it: one object holding the daily state,
 * whose handlers update it field by field and send through the chat. Each
 * handler runs to completion before the next one starts, so each method is
 * one atomic step, and each is proved to take the step its function in
 * Transitions describes.
 */
module PriceMonitor {
  import opened Wrappers
  import opened Dates
  import opened Clock
  import opened Messages
  import opened Transitions
  import StepProperties

  class Monitor {
    var lastSeenUpdateTime: Option<string>
    var updateDetected: bool
    var stopAll: bool
    var stopNags: bool
    var pendingUpdatePayload: Option<Payload>
    var pendingUpdatePollId: Option<PollId>
    var pendingNagPollId: Option<PollId>
    var lastErrorAt: Option<int>

    /** Every `safe_send` and `safe_send_poll` call made so far, in order. */
    var outbox: seq<Send>

    /** The daily state the fields hold. */
    function State(): DailyState
      reads this
    {
      DailyState(lastSeenUpdateTime, updateDetected, stopAll, stopNags,
                 pendingUpdatePayload, pendingUpdatePollId, pendingNagPollId, lastErrorAt)
    }

    constructor ()
      ensures State() == ZERO && outbox == []
    {
      lastSeenUpdateTime := None;
      updateDetected := false;
      stopAll := false;
      stopNags := false;
      pendingUpdatePayload := None;
      pendingUpdatePollId := None;
      pendingNagPollId := None;
      lastErrorAt := None;
      outbox := [];
    }

    /** `safe_send`: delivery failures are swallowed, so the call is all that is recorded. */
    method SafeSend(m: Message)
      modifies this`outbox
      ensures outbox == old(outbox) + [Text(m)]
    {
      outbox := outbox + [Text(m)];
    }

    /** `safe_send_poll`: returns the new poll's identifier, or None when the send failed. */
    method SafeSendPoll(kind: PollKind, result: Option<PollId>) returns (poll: Option<PollId>)
      modifies this`outbox
      ensures outbox == old(outbox) + [OpenPoll(kind)] && poll == result
    {
      outbox := outbox + [OpenPoll(kind)];
      poll := result;
    }

    /** The `except` branch of check_price. */
    method NotifyError(now: Now, cause: Failure)
      modifies this
      ensures State() == Transitions.ReportError(old(State()), now, cause).state
      ensures outbox == old(outbox) + Transitions.ReportError(old(State()), now, cause).sent
    {
      if ShouldSendError(lastErrorAt, now.instant) {
        lastErrorAt := Some(now.instant);
        SafeSend(MonitorError(cause));
      }
    }

    /**
     * `check_price`: `fetched` is what the endpoint returned, `pollSent` what
     * the announcement poll send would return.
     */
    method CheckPrice(now: Now, fetched: FetchResult, pollSent: Option<PollId>)
      modifies this
      ensures State() == CheckPriceStep(old(State()), now, fetched, pollSent).state
      ensures outbox == old(outbox) + CheckPriceStep(old(State()), now, fetched, pollSent).sent
    {
      if stopAll || !IsWeekday(now.weekday) || !WithinTimeWindow(now.time, CHECK_START, CHECK_END) {
        StepProperties.CheckPriceGated(State(), now, fetched, pollSent);
        return;
      }
      ghost var before := State();
      match fetched
      case FetchFailed(reason) =>
        StepProperties.CheckPriceFailure(before, now, fetched, pollSent);
        NotifyError(now, FetchError(reason));
      case Fetched(payload) =>
        if payload.updateTime.None? {
          StepProperties.CheckPriceFailure(before, now, fetched, pollSent);
          NotifyError(now, MissingUpdateTime);
          return;
        }
        var ut := payload.updateTime.value;
        var parsed := ParseMarkerDate(ut);
        if parsed.None? {
          StepProperties.CheckPriceFailure(before, now, fetched, pollSent);
          NotifyError(now, BadUpdateTime(ut));
          return;
        }
        StepProperties.CheckPriceObserves(before, now, payload, pollSent, ut, parsed.value);
        ObserveMarker(now.date, payload, ut, parsed.value, pollSent);
    }

    /**
     * The `try` branch of check_price once the marker `ut` has parsed to
     * the date `d`: remember the marker, and announce a change first seen today.
     */
    method ObserveMarker(today: Date, payload: Payload, ut: string, d: Date, pollSent: Option<PollId>)
      modifies this
      ensures State() == Transitions.ObserveMarker(old(State()), today, payload, ut, d, pollSent).state
      ensures outbox == old(outbox) + Transitions.ObserveMarker(old(State()), today, payload, ut, d, pollSent).sent
    {
      var changed := lastSeenUpdateTime != Some(ut);
      var isToday := d == today;
      lastSeenUpdateTime := Some(ut);
      if changed && isToday && !updateDetected {
        updateDetected := true;
        pendingUpdatePayload := Some(payload);
        SafeSend(PayloadDump(payload));
        SafeSend(TagLine);
        var poll := SafeSendPoll(AnnouncementPoll, pollSent);
        if poll.Some? {
          pendingUpdatePollId := poll;
        }
      }
    }

    /** `nag_poll`: `pollSent` is what the nag poll send would return. */
    method NagPoll(now: Now, pollSent: Option<PollId>)
      modifies this
      ensures State() == NagPollStep(old(State()), now, pollSent).state
      ensures outbox == old(outbox) + NagPollStep(old(State()), now, pollSent).sent
    {
      if stopAll || stopNags || updateDetected {
        return;
      }
      if !IsWeekday(now.weekday) {
        return;
      }
      if !WithinTimeWindow(now.time, NAG_START, NAG_END) {
        return;
      }
      var poll := SafeSendPoll(Messages.NagPoll, pollSent);
      if poll.Some? {
        pendingNagPollId := poll;
      }
    }

    /** `nag_kickoff`: the 17:30 trigger runs the same routine. */
    method NagKickoff(now: Now, pollSent: Option<PollId>)
      modifies this
      ensures State() == NagPollStep(old(State()), now, pollSent).state
      ensures outbox == old(outbox) + NagPollStep(old(State()), now, pollSent).sent
    {
      NagPoll(now, pollSent);
    }

    /** `on_poll_answer` for an answer choosing `optionIds` on poll `pollId`. */
    method OnPollAnswer(now: Now, pollId: PollId, optionIds: seq<int>)
      modifies this
      ensures State() == PollAnswerStep(old(State()), now, pollId, optionIds).state
      ensures outbox == old(outbox) + PollAnswerStep(old(State()), now, pollId, optionIds).sent
    {
      if |optionIds| == 0 {
        return;
      }
      var choice := optionIds[0];
      if pendingUpdatePollId == Some(pollId) {
        stopAll := true;
        var payload := pendingUpdatePayload;
        if choice == 0 && payload.Some? {
          var text := BuildAckMessage(payload.value, now.date);
          if text.Some? {
            SafeSend(Ack(text.value));
          }
        } else if choice == 1 {
          SafeSend(MarkedInvestigating);
        } else if choice == 2 {
          SafeSend(MarkedHoliday);
        } else {
          SafeSend(Noted);
        }
        return;
      }
      if pendingNagPollId == Some(pollId) {
        if choice == 1 {
          stopNags := true;
          SafeSend(NagHolidayNoted);
        } else {
          SafeSend(NagInvestigatingNoted);
        }
      }
    }

    /** `daily_reset`. */
    method DailyReset()
      modifies this
      ensures State() == DailyResetStep(old(State())).state
      ensures outbox == old(outbox) + DailyResetStep(old(State())).sent
    {
      updateDetected := false;
      stopAll := false;
      stopNags := false;
      pendingUpdatePayload := None;
      pendingUpdatePollId := None;
      pendingNagPollId := None;
      lastErrorAt := None;
      lastSeenUpdateTime := None;
      SafeSend(ResetNotice);
    }
  }
}
