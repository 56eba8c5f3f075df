# QCDT price monitor: the daily detection-and-acknowledgment state machine

The monitor is a chat bot that polls a price endpoint on weekday afternoons.
It keeps one small in-memory record for the day: the `state` dict of
`main.py`. Four handlers update that record:

- `check_price` is scheduled every two minutes around the clock, weekends
  included. It gates itself: it does nothing once the day is halted, at the
  weekend, or outside 15:00-21:00 Singapore time. Past the gate it fetches
  the payload and reads its update marker (`data.update_time`).
  It announces the update once, the first time a new marker dated today is
  seen. The announcement is the payload, a tag line and a 3-option poll.
  When the fetch fails or the marker does not parse, it sends an error
  notice, at most once per 60 minutes.
- `nag_poll` is scheduled every five minutes from one minute after start-up,
  and `nag_kickoff` runs it once at 17:30 on the days main.py:380 lists. The
  job queue numbers those days from Sunday, so they are Sunday to Thursday.
  On a Sunday `nag_poll`'s own weekday check stops the kickoff. On a Friday
  the first nag comes from the five-minute job instead. `nag_poll` gates
  itself: only on a weekday, only in 17:30-21:00, and only while no update
  has been detected and nobody has said to stop does it open a 2-option
  "not updated yet" poll.
- `on_poll_answer` routes an answer by poll id:
  - An answer on the announcement poll halts the day. Choosing "Acknowledge"
    sends the acknowledgment line that `build_ack_message` builds.
  - A "Public holiday" answer on the current nag poll stops the nags.
- `daily_reset` clears the record and sends a notice.

The model has five layers:

- **Values.** `Dates` models the two `strptime` formats the monitor reads,
  with CPython's field patterns, full-string match and date validation.
  It also models the `strftime(...).lstrip("0")` rendering. `Clock` holds
  the windows and the cooldown. `Messages` holds the payload, the sends and
  `build_ack_message`.
- **One step per handler.** `Transitions` holds the record as a datatype
  and one step function per handler. Each gives the new record and the
  sends it makes, from the old record and what the outside world answered:
  the clock reading, the fetch result, the poll-send result.
  `StepProperties` states what each step does.
- **The handlers.** `PriceMonitor.Monitor` is a class with the record's
  eight fields and an outbox of every `safe_send` / `safe_send_poll` call.
  Its methods mirror the Python handlers statement by statement. Each is
  proved to take exactly the step its function describes.
- **Whole days.** `Runs` folds the steps over a sequence of handler calls.
  It proves what holds of every day between resets:
  - at most one announcement;
  - once halted, no poll, payload, tag line or error notice;
  - no nag once an update is detected;
  - no nag once the nags are stopped;
  - at most one error notice in any 60-minute span;
  - a seen marker is never announced again.
- **Concrete days.** `Scenarios` drives the class through concrete days.

Where the code and the behaviour one might expect differ, the model follows
the code:

- **No restart nag.** Nothing re-opens a nag after a restart. The start-up
  hook only sends an "online" message (main.py:346-355).
- **A repeat announcement answer is handled again.** A second answer to the
  announcement poll is routed again and sends its reply again, because
  `pending_update_poll_id` is never cleared (main.py:308-320).
- **A repeat nag holiday answer repeats its confirmation.** A second
  "Public holiday" answer to the same nag poll confirms again.
- **A failed acknowledgment still halts the day.** When the stored price
  date does not parse, `build_ack_message` raises after `stop_all` was set.
  The day is then halted, and no message is sent.

## Model

| member | source | states |
|---|---|---|
| Dates.ScanFits | main.py:190-191 | whatever the format scanner accepts gives one value per field of the format, each in its strptime range |
| Dates.ScanRender | main.py:190-191 | scanning a format's rendering of in-range values gives back exactly those values |
| Dates.MarkerScan | main.py:190-191 | a "%Y-%m-%d %H:%M:%S" marker scans back to its six fields |
| Dates.MarkerReadsBack | main.py:190-191 | a well-formed marker parses to its date when that date exists; leap seconds 60 and 61 match the pattern but are refused |
| Dates.MarkerDateRoundTrip | main.py:213 | the marker written for a date and a valid time parses back to that date, so `is_today` compares exactly that date |
| Dates.IsoReadsBack | main.py:108-110 | a "%Y-%m-%d" text parses exactly when the date exists, and then to that date |
| Dates.IsoDateRoundTrip | main.py:108-110 | a date's canonical text parses back to the date |
| Dates.NoLeapDayIn2025 | main.py:108-110 | "2025-02-29" does not parse: strptime refuses dates that do not exist |
| Dates.PrettyTextShape | main.py:108-113 | the pretty form is the day without a leading zero, the month abbreviation and the 4-digit year |
| Dates.PrettyDateOfIso | main.py:108-110 | `pretty_date_yyyy_mm_dd` of a canonical date text is that date's pretty form |
| Dates.PrettyDateExample | main.py:108-110 | "2025-06-10" renders as "10 Jun 2025" |
| Dates.PrettyDateStripsZero | main.py:108-110 | "2025-06-09" renders as "9 Jun 2025": the day's leading zero is stripped |
| Clock.WindowsAreClosed | main.py:119-120 | both windows include both ends: 21:00:00 is in both, one microsecond later is in neither, 15:00 and 17:30 open them |
| Clock.NagWindowInsideCheckWindow | main.py:65-66 | every time in the nag window is in the check window |
| Messages.AckMessageContents | main.py:237-244 | the acknowledgment exists exactly when the price date is present and parses; it then names today's pretty date, the pretty price date, the price and the CC line |
| StepProperties.CheckPriceGated | main.py:196-206 | halted, at the weekend or outside 15:00-21:00, check_price changes nothing and sends nothing |
| StepProperties.CheckPriceSeesMarker | main.py:210-230 | a parsed marker becomes the last seen marker; it is announced iff it changed, is dated today and no update was detected; the announcement sends payload, tag line and a 3-option poll, stores the payload and records the poll only when one was returned; the halt flags, nag poll and error time are kept |
| StepProperties.SameMarkerNeverReannounced | main.py:212-217 | after a check sees a marker, a check fetching the same marker changes and sends nothing |
| StepProperties.CheckPriceFailure | main.py:208-235 | a failed fetch, missing marker or unparseable marker keeps the last seen marker and the flags; one error notice and `last_error_at := now` exactly when the cooldown allows, nothing otherwise |
| StepProperties.TwoFailuresOneNotice | main.py:115-117 | when the first check passes its gate and the cooldown lets it send a notice, two failing checks less than 60 minutes apart send exactly one notice in total |
| StepProperties.NagPollBehaviour | main.py:249-266 | nag_poll is a no-op unless not halted, nags not stopped, no update detected, a weekday and 17:30-21:00; otherwise it opens one 2-option poll and overwrites only the pending nag poll, only when the send returned one |
| StepProperties.SupersededNagAnswerDropped | main.py:264-266 | after a second nag poll, an answer to the first is ignored |
| StepProperties.UnroutedAnswerIgnored | main.py:299-328 | an answer with no options, or on neither pending poll, changes nothing and sends nothing |
| StepProperties.AnnouncementAnswer | main.py:308-320 | an announcement-poll answer sets `stop_all` for every choice and sends the reply for its choice: acknowledgment (or nothing when it cannot be built), investigating, holiday, or "noted" |
| StepProperties.AnnouncementOptionsRouted | main.py:224-228 | the announcement poll's labels and the answer routing agree: picking the option labelled "Investigating / Dispute" (or "Public holiday") is exactly what sends the investigating (or holiday) reply, and with a stored payload picking "Acknowledge" is exactly what sends nothing but the acknowledgment (nothing at all when it cannot be built) |
| StepProperties.NagOptionsRouted | main.py:260-264 | the nag poll's labels and the answer routing agree: on the current nag poll, picking the option labelled "Public holiday" is exactly what stops the nags and sends the holiday confirmation, and "Investigating / Dispute" exactly what sends the investigating note |
| StepProperties.NagAnswer | main.py:323-328 | a nag-poll answer stops the nags only for choice 1; one confirmation either way; other choices keep the state |
| StepProperties.RepeatAnnouncementAnswerResends | main.py:308-320 | a second identical answer on the announcement poll leaves the same state and sends the same reply again |
| StepProperties.AcknowledgeNeverNoted | main.py:310-313 | in a consistent state, "Acknowledge" sends the acknowledgment or nothing, never "noted" |
| StepProperties.DailyResetClears | main.py:285-294 | daily_reset sets all eight fields to None or false, whatever came before, and sends one notice |
| StepProperties.CheckPriceKeepsConsistent | main.py:196-235 | check_price keeps the record consistent: update detected iff payload stored; a pending announcement poll only after a detection; a detection only after a marker was seen |
| StepProperties.HandlersKeepConsistent | main.py:249-328 | the zero record is consistent, and nag_poll, on_poll_answer and daily_reset keep it so |
| PriceMonitor.Monitor.constructor | main.py:84-93 | the record starts with every field None or false and an empty outbox |
| PriceMonitor.Monitor.SafeSend | main.py:125-131 | one text send is appended to the outbox; delivery failures are swallowed |
| PriceMonitor.Monitor.SafeSendPoll | main.py:133-146 | one poll send is appended to the outbox and the send's result is returned |
| PriceMonitor.Monitor.NotifyError | main.py:232-235 | the except branch of check_price: the fields and outbox become the error step's |
| PriceMonitor.Monitor.CheckPrice | main.py:196-235 | the new fields and outbox are exactly the check_price step of the old record |
| PriceMonitor.Monitor.ObserveMarker | main.py:212-230 | the new fields and outbox are the observe-and-announce step for a parsed marker |
| PriceMonitor.Monitor.NagPoll | main.py:249-266 | the new fields and outbox are exactly the nag_poll step |
| PriceMonitor.Monitor.NagKickoff | main.py:269-270 | the kickoff takes the same step as nag_poll |
| PriceMonitor.Monitor.OnPollAnswer | main.py:299-328 | the new fields and outbox are exactly the on_poll_answer step |
| PriceMonitor.Monitor.DailyReset | main.py:285-294 | the new fields and outbox are exactly the daily_reset step |
| Runs.CountAnnounce | main.py:217-230 | an announcement sends exactly one announcement poll and no nag poll or error notice |
| Runs.CheckPriceFacts | main.py:196-235 | a check keeps the halt flags and nag poll, never clears a detection, sends one announcement poll exactly when it sets the detection, no nag poll, and one error notice exactly when it moves `last_error_at` |
| Runs.NagPollFacts | main.py:249-266 | a nag keeps `stop_all`, the detection and the error time, sends no announcement or error notice, and does nothing once halted or detected |
| Runs.PollAnswerFacts | main.py:299-328 | an answer never clears `stop_all`, keeps the detection and the error time, and opens no poll and sends no error notice |
| Runs.RunKeepsConsistent | main.py:84-93 | every sequence of handler calls keeps the record consistent |
| Runs.AtMostOneAnnouncement | main.py:217-219 | between resets at most one announcement poll is sent, none once a detection was made, and a detection stays |
| Runs.HaltedBroadcastsNothing | main.py:196-266 | once halted, until the reset, the day stays halted, no poll of either kind is opened, and nothing is broadcast: no payload, tag line or error notice |
| Runs.NagsStoppedStay | main.py:322-326 | once a holiday answer has stopped the nags, until the reset `stop_nags` stays set through every check, nag and answer, and no nag poll is sent |
| Runs.NoNagAfterDetection | main.py:250-251 | once an update is detected, until the reset, no nag poll is opened |
| Runs.OneErrorNoticePerCooldown | main.py:232-235 | however many checks fail within 60 minutes, at most one error notice goes out, and none when one already went out in that span |
| Runs.SeenMarkerRunsSilent | main.py:212-217 | once a parsable marker was seen, any number of checks fetching it change nothing and send nothing |
| Scenarios.StaleMarkerRecorded | main.py:210-217 | a first check seeing an old marker records it and announces nothing |
| Scenarios.UpdateAnnounced | main.py:210-230 | a later check seeing today's marker announces with payload, tag line and poll, and records the poll id and payload |
| Scenarios.UpdateAcknowledged | main.py:308-313 | acknowledging that announcement halts the day and sends one line naming "10 Jun 2025" and the price "1.0023" |
| Scenarios.ExampleAck | main.py:237-244 | the acknowledgment for a payload priced on 2025-06-10 exists and names "10 Jun 2025" and the price |
| Scenarios.AcknowledgeExample | main.py:308-312 | "Acknowledge" on the pending announcement poll sets only `stop_all` and sends only the acknowledgment |
| Scenarios.FlappingEndpointNotifiesOnce | main.py:232-235 | two fetch failures ten minutes apart send exactly one error notice |
| Scenarios.NagPollReplaced | main.py:249-270 | the kickoff and the next nag open two 2-option polls; the second replaces the first, so a holiday answer to the first is dropped and the nags go on |

## Left out

- Fetching the endpoint over HTTP is not modelled. The fetch result is a
  parameter: a payload, or a failure with its reason. A non-2xx status, a
  timeout and a malformed body are all that failure.
- The chat platform is not modelled. A send is recorded in the outbox. A
  poll send's outcome is a parameter, the poll id or None. Delivery errors
  are swallowed by `safe_send` / `safe_send_poll`, so they leave no trace.
- The clock is a parameter. Each handler reads it once, as a date, a
  weekday, a time of day and an instant in microseconds. The source calls
  `now_sgt()` several times in one handler. The readings differ by at most
  the fetch's duration, and the model does not capture a handler that
  straddles midnight or the end of a window.
- Time zones are not modelled. The clock reading is already Singapore time,
  and the marker is read as Singapore local time.
- The JSON payload is abstract. Only `update_time`, `price_date` and
  `price` are visible. A non-string `update_time` or `price_date` is
  treated as missing, since strptime raises on either. `json.dumps` and the
  HTML wrapping of the announcement and of error notices are not rendered.
  An error notice records which failure happened, not the exception text.
- Dates.PrettyTextShape: always renders the year as four digits, using
  `strftime`'s `%Y` as it behaves for years 1000-9999. The padding of
  years below 1000 differs between C libraries and is not modelled.
- Dates.ParseMarkerDate and Dates.ParseIsoDate: read ASCII digits and
  ASCII whitespace only. The regular expressions CPython's strptime uses also match other Unicode
  digits and spaces.
- Only the `strptime` formats the monitor uses are modelled:
  "%Y-%m-%d %H:%M:%S" and "%Y-%m-%d".
- The holiday summary (`holiday_summary_this_week`, `job_holiday_summary`)
  is not modelled. It calls an external holiday API and does not touch the
  record.
- `job_portal_reminder` is not modelled. It only sends a fixed reminder,
  gated by `stop_all` and the weekday.
- `status_cmd` is not modelled. It neither reads nor writes the record: it
  fetches the payload and replies to the command with it, or with the error.
- `post_init` is not modelled. It neither reads nor writes the record: it
  sends an "online" notice to the group chat at start-up, which the outbox
  does not record.
- The scheduler wiring in `main` is not modelled. It only decides when the
  handlers run; the gates inside the handlers are modelled.
- The dependency bootstrap through pip is not modelled.
- asyncio interleaving is not modelled. Each handler is one atomic step.
  The source awaits inside handlers, on the fetch and on each send, and
  another handler could run at those points. That interleaving is not
  modelled.
