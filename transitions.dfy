/**
 * The monitor's daily state and, for each handler, the step it takes: the
 * new state and the sends it makes, as a function of the old state and of
 * what the outside world answered (clock, fetch, poll send).
 */
module Transitions {
  import opened Wrappers
  import opened Dates
  import opened Clock
  import opened Messages

  /** The module-level `state` record, reset once a day. */
  datatype DailyState = DailyState(
    lastSeenUpdateTime: Option<string>,
    updateDetected: bool,
    stopAll: bool,
    stopNags: bool,
    pendingUpdatePayload: Option<Payload>,
    pendingUpdatePollId: Option<PollId>,
    pendingNagPollId: Option<PollId>,
    lastErrorAt: Option<int>)

  /** Every field None or false: the state at start-up and after a reset. */
  const ZERO: DailyState := DailyState(None, false, false, false, None, None, None, None)

  /** The state a handler leaves and the sends it made, in order. */
  datatype Step = Step(state: DailyState, sent: seq<Send>)

  /**
   * What the handlers keep true of the state: a change is detected together
   * with storing its payload, only after a marker was seen, and only an
   * announcement leaves an announcement poll to answer.
   */
  predicate Consistent(s: DailyState) {
    && (s.updateDetected <==> s.pendingUpdatePayload.Some?)
    && (s.pendingUpdatePollId.Some? ==> s.updateDetected)
    && (s.updateDetected ==> s.lastSeenUpdateTime.Some?)
  }

  // ---------------------------------------------------------------------
  // check_price
  // ---------------------------------------------------------------------

  /** `should_send_error`: no error sent yet, or the last one 60 minutes or more ago. */
  predicate ShouldSendError(lastErrorAt: Option<int>, now: int) {
    lastErrorAt.None? || now - lastErrorAt.value >= ERROR_COOLDOWN
  }

  /** The `except` branch of check_price. */
  function ReportError(s: DailyState, now: Now, cause: Failure): Step {
    if ShouldSendError(s.lastErrorAt, now.instant)
    then Step(s.(lastErrorAt := Some(now.instant)), [Text(MonitorError(cause))])
    else Step(s, [])
  }

  /** check_price proceeds past its three early returns. */
  predicate CheckGateOpen(s: DailyState, now: Now) {
    !s.stopAll && IsWeekday(now.weekday) && WithinTimeWindow(now.time, CHECK_START, CHECK_END)
  }

  /** The announcement: payload, tag line, 3-option poll. */
  function Announce(s: DailyState, p: Payload, pollSent: Option<PollId>): Step {
    Step(s.(updateDetected := true,
            pendingUpdatePayload := Some(p),
            pendingUpdatePollId := if pollSent.Some? then pollSent else s.pendingUpdatePollId),
         [Text(PayloadDump(p)), Text(TagLine), OpenPoll(AnnouncementPoll)])
  }

  /** `check_price`; `pollSent` is what the announcement poll send returned. */
  function CheckPriceStep(s: DailyState, now: Now, fetched: FetchResult, pollSent: Option<PollId>): Step {
    if !CheckGateOpen(s, now) then Step(s, [])
    else
      match fetched
      case FetchFailed(reason) => ReportError(s, now, FetchError(reason))
      case Fetched(p) =>
        match p.updateTime
        case None => ReportError(s, now, MissingUpdateTime)
        case Some(marker) =>
          match ParseMarkerDate(marker)
          case None => ReportError(s, now, BadUpdateTime(marker))
          case Some(d) => ObserveMarker(s, now.date, p, marker, d, pollSent)
  }

  /**
   * The `try` branch of check_price once the marker has parsed to the date
   * `d`: record the marker, and announce a change first seen today.
   */
  function ObserveMarker(s: DailyState, today: Date, p: Payload, marker: string, d: Date,
                         pollSent: Option<PollId>): Step {
    var changed := s.lastSeenUpdateTime != Some(marker);
    var isToday := d == today;
    var seen := s.(lastSeenUpdateTime := Some(marker));
    if changed && isToday && !s.updateDetected then Announce(seen, p, pollSent)
    else Step(seen, [])
  }

  /** The fetch or the marker fails: check_price takes its `except` branch. */
  predicate FetchFails(fetched: FetchResult) {
    || fetched.FetchFailed?
    || fetched.payload.updateTime.None?
    || ParseMarkerDate(fetched.payload.updateTime.value).None?
  }

  /** What the error notice reports when the fetch or the marker fails. */
  function FailureOf(fetched: FetchResult): Failure {
    match fetched
    case FetchFailed(reason) => FetchError(reason)
    case Fetched(p) => if p.updateTime.None? then MissingUpdateTime else BadUpdateTime(p.updateTime.value)
  }

  // ---------------------------------------------------------------------
  // nag_poll / nag_kickoff
  // ---------------------------------------------------------------------

  /** nag_poll proceeds past its three early returns. */
  predicate NagGateOpen(s: DailyState, now: Now) {
    && !s.stopAll && !s.stopNags && !s.updateDetected
    && IsWeekday(now.weekday) && WithinTimeWindow(now.time, NAG_START, NAG_END)
  }

  /** `nag_poll`; `pollSent` is what the nag poll send returned. */
  function NagPollStep(s: DailyState, now: Now, pollSent: Option<PollId>): Step {
    if !NagGateOpen(s, now) then Step(s, [])
    else Step(if pollSent.Some? then s.(pendingNagPollId := pollSent) else s, [OpenPoll(NagPoll)])
  }

  // ---------------------------------------------------------------------
  // on_poll_answer
  // ---------------------------------------------------------------------

  /**
   * The reply to an answer on the announcement poll. A stored payload whose
   * price date does not parse makes build_ack_message raise: nothing is sent.
   */
  function AnnouncementReply(payload: Option<Payload>, choice: int, today: Date): seq<Send> {
    if choice == 0 && payload.Some? then
      match BuildAckMessage(payload.value, today)
      case None => []
      case Some(text) => [Text(Ack(text))]
    else if choice == 1 then [Text(MarkedInvestigating)]
    else if choice == 2 then [Text(MarkedHoliday)]
    else [Text(Noted)]
  }

  /** `on_poll_answer` for an answer choosing `optionIds` on poll `pollId`. */
  function PollAnswerStep(s: DailyState, now: Now, pollId: PollId, optionIds: seq<int>): Step {
    if |optionIds| == 0 then Step(s, [])
    else
      var choice := optionIds[0];
      if s.pendingUpdatePollId == Some(pollId) then
        Step(s.(stopAll := true), AnnouncementReply(s.pendingUpdatePayload, choice, now.date))
      else if s.pendingNagPollId == Some(pollId) then
        if choice == 1 then Step(s.(stopNags := true), [Text(NagHolidayNoted)])
        else Step(s, [Text(NagInvestigatingNoted)])
      else Step(s, [])
  }

  // ---------------------------------------------------------------------
  // daily_reset
  // ---------------------------------------------------------------------

  function DailyResetStep(s: DailyState): Step {
    Step(ZERO, [Text(ResetNotice)])
  }
}
