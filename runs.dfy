/**
 * A day of the monitor as a sequence of handler invocations, and what holds
 * of every such sequence: at most one announcement between resets, no
 * broadcast once halted, no nag once a change is detected or the nags are
 * stopped, at most one error notice within any 60-minute span, and a
 * repeated marker never announced again.
 */
module Runs {
  import opened Wrappers
  import opened Dates
  import opened Clock
  import opened Messages
  import opened Transitions
  import opened StepProperties

  /** One invocation of a handler, with what the outside world answered. */
  datatype Event =
    | Check(now: Now, fetched: FetchResult, pollSent: Option<PollId>)
    | Nag(now: Now, pollSent: Option<PollId>)
    | Answer(now: Now, pollId: PollId, optionIds: seq<int>)
    | Reset

  function Apply(s: DailyState, e: Event): Step {
    match e
    case Check(now, fetched, pollSent) => CheckPriceStep(s, now, fetched, pollSent)
    case Nag(now, pollSent) => NagPollStep(s, now, pollSent)
    case Answer(now, pollId, optionIds) => PollAnswerStep(s, now, pollId, optionIds)
    case Reset => DailyResetStep(s)
  }

  /** The handlers run one after another: the final state and every send, in order. */
  function Run(s: DailyState, events: seq<Event>): Step
    decreases |events|
  {
    if events == [] then Step(s, [])
    else
      var first := Apply(s, events[0]);
      var rest := Run(first.state, events[1..]);
      Step(rest.state, first.sent + rest.sent)
  }

  predicate NoReset(events: seq<Event>) {
    forall i | 0 <= i < |events| :: !events[i].Reset?
  }

  // ---------------------------------------------------------------------
  // Counting sends
  // ---------------------------------------------------------------------

  predicate IsAnnouncement(x: Send) { x == OpenPoll(AnnouncementPoll) }
  predicate IsNagPoll(x: Send) { x == OpenPoll(NagPoll) }
  predicate IsPoll(x: Send) { x.OpenPoll? }
  predicate IsErrorNotice(x: Send) { x.Text? && x.message.MonitorError? }

  /** What check_price and nag_poll send on their own: any poll, the payload, the tag line, an error notice. */
  predicate IsBroadcast(x: Send) {
    x.OpenPoll? || (x.Text? && (x.message.PayloadDump? || x.message.TagLine? || x.message.MonitorError?))
  }

  function Count(sent: seq<Send>, p: Send -> bool): nat
    decreases |sent|
  {
    if sent == [] then 0 else Indicator(p(sent[0])) + Count(sent[1..], p)
  }

  lemma {:induction false} CountAppend(a: seq<Send>, b: seq<Send>, p: Send -> bool)
    ensures Count(a + b, p) == Count(a, p) + Count(b, p)
    decreases |a|
  {
    if a == [] {
      assert a + b == b;
    } else {
      assert (a + b)[1..] == a[1..] + b;
      CountAppend(a[1..], b, p);
    }
  }

  function Indicator(b: bool): nat { if b then 1 else 0 }

  lemma CountThree(x: Send, y: Send, z: Send, p: Send -> bool)
    ensures Count([x, y, z], p) == Indicator(p(x)) + Indicator(p(y)) + Indicator(p(z))
  {
    assert [x, y, z][1..] == [y, z];
    assert [y, z][1..] == [z];
    assert [z][1..] == [];
    assert Count([z], p) == Indicator(p(z));
    assert Count([y, z], p) == Indicator(p(y)) + Indicator(p(z));
  }

  lemma CountAnnounce(s: DailyState, p: Payload, pollSent: Option<PollId>)
    ensures var sent := Announce(s, p, pollSent).sent;
      Count(sent, IsAnnouncement) == 1 && Count(sent, IsNagPoll) == 0 && Count(sent, IsErrorNotice) == 0
  {
    var x, y, z := Text(PayloadDump(p)), Text(TagLine), OpenPoll(AnnouncementPoll);
    CountThree(x, y, z, IsAnnouncement);
    CountThree(x, y, z, IsNagPoll);
    CountThree(x, y, z, IsErrorNotice);
  }

  // ---------------------------------------------------------------------
  // One step
  // ---------------------------------------------------------------------

  /**
   * What every check_price step keeps: the halt flags, the nag poll, a
   * detected change. It announces exactly when it detects a change, never
   * nags, and sends an error notice exactly when it moves the error time,
   * which it moves only to now and only when the cooldown allows.
   */
  lemma CheckPriceFacts(s: DailyState, now: Now, fetched: FetchResult, pollSent: Option<PollId>)
    ensures var r := CheckPriceStep(s, now, fetched, pollSent);
      && r.state.stopAll == s.stopAll && r.state.stopNags == s.stopNags
      && r.state.pendingNagPollId == s.pendingNagPollId
      && (s.updateDetected ==> r.state.updateDetected)
      && (s.stopAll ==> r == Step(s, []))
      && Count(r.sent, IsAnnouncement) == (if r.state.updateDetected && !s.updateDetected then 1 else 0)
      && Count(r.sent, IsNagPoll) == 0
      && Count(r.sent, IsErrorNotice) == (if r.state.lastErrorAt != s.lastErrorAt then 1 else 0)
      && (r.state.lastErrorAt != s.lastErrorAt ==>
            r.state.lastErrorAt == Some(now.instant) && ShouldSendError(s.lastErrorAt, now.instant))
  {
    var r := CheckPriceStep(s, now, fetched, pollSent);
    if !CheckGateOpen(s, now) {
      CheckPriceGated(s, now, fetched, pollSent);
    } else if FetchFails(fetched) {
      CheckPriceFailure(s, now, fetched, pollSent);
      if ShouldSendError(s.lastErrorAt, now.instant) {
        assert r.sent[1..] == [];
      }
    } else {
      var p := fetched.payload;
      var marker := p.updateTime.value;
      var d := ParseMarkerDate(marker).value;
      CheckPriceObserves(s, now, p, pollSent, marker, d);
      var seen := s.(lastSeenUpdateTime := Some(marker));
      if r.sent != [] {
        CountAnnounce(seen, p, pollSent);
      }
    }
  }

  /** What every nag_poll step keeps, and that it sends nothing but a nag poll. */
  lemma NagPollFacts(s: DailyState, now: Now, pollSent: Option<PollId>)
    ensures var r := NagPollStep(s, now, pollSent);
      && r.state.stopAll == s.stopAll && r.state.updateDetected == s.updateDetected
      && r.state.lastErrorAt == s.lastErrorAt
      && Count(r.sent, IsAnnouncement) == 0 && Count(r.sent, IsErrorNotice) == 0
      && ((s.stopAll || s.updateDetected) ==> r == Step(s, []))
  {
    var r := NagPollStep(s, now, pollSent);
    assert r.sent == [] || r.sent[1..] == [];
  }

  /**
   * An answer never opens a poll, reports an error or repeats the
   * announcement, never clears a flag, never moves the error time.
   */
  lemma PollAnswerFacts(s: DailyState, now: Now, pollId: PollId, optionIds: seq<int>)
    ensures var r := PollAnswerStep(s, now, pollId, optionIds);
      && (s.stopAll ==> r.state.stopAll) && r.state.updateDetected == s.updateDetected
      && r.state.lastErrorAt == s.lastErrorAt
      && Count(r.sent, IsPoll) == 0 && Count(r.sent, IsErrorNotice) == 0 && Count(r.sent, IsBroadcast) == 0
  {
  }

  // ---------------------------------------------------------------------
  // Runs
  // ---------------------------------------------------------------------

  /** Every handler, daily_reset included, keeps the state consistent, so every run does. */
  lemma {:induction false} RunKeepsConsistent(s: DailyState, events: seq<Event>)
    requires Consistent(s)
    ensures Consistent(Run(s, events).state)
    decreases |events|
  {
    if events != [] {
      var first := Apply(s, events[0]);
      match events[0] {
      case Check(now, fetched, pollSent) => CheckPriceKeepsConsistent(s, now, fetched, pollSent);
      case Nag(now, pollSent) => HandlersKeepConsistent(s, now, pollSent, "", []);
      case Answer(now, pollId, optionIds) => HandlersKeepConsistent(s, now, None, pollId, optionIds);
      case Reset => HandlersKeepConsistent(s, Now(Ymd(1, 1, 1), 0, 0, 0), None, "", []);
      }
      RunKeepsConsistent(first.state, events[1..]);
    }
  }

  /**
   * Between resets the change is announced at most once: no announcement
   * poll at all once a change was detected, at most one otherwise, and a
   * detected change stays detected.
   */
  lemma {:induction false} AtMostOneAnnouncement(s: DailyState, events: seq<Event>)
    requires NoReset(events)
    ensures s.updateDetected ==> Run(s, events).state.updateDetected
    ensures Count(Run(s, events).sent, IsAnnouncement) <= (if s.updateDetected then 0 else 1)
    decreases |events|
  {
    if events != [] {
      var first := Apply(s, events[0]);
      var rest := Run(first.state, events[1..]);
      match events[0] {
      case Check(now, fetched, pollSent) => CheckPriceFacts(s, now, fetched, pollSent);
      case Nag(now, pollSent) => NagPollFacts(s, now, pollSent);
      case Answer(now, pollId, optionIds) =>
        PollAnswerFacts(s, now, pollId, optionIds);
        assert Count(first.sent, IsAnnouncement) <= Count(first.sent, IsPoll) by {
          CountImplied(first.sent, IsAnnouncement, IsPoll);
        }
      }
      assert NoReset(events[1..]) by {
        assert forall i | 0 <= i < |events| - 1 :: events[1..][i] == events[i + 1];
      }
      AtMostOneAnnouncement(first.state, events[1..]);
      CountAppend(first.sent, rest.sent, IsAnnouncement);
    }
  }

  lemma {:induction false} CountImplied(sent: seq<Send>, p: Send -> bool, q: Send -> bool)
    requires forall x :: p(x) ==> q(x)
    ensures Count(sent, p) <= Count(sent, q)
    decreases |sent|
  {
    if sent != [] {
      CountImplied(sent[1..], p, q);
    }
  }

  /**
   * Once monitoring is halted for the day, until the next reset the halt
   * holds and nothing is broadcast: no poll, no payload, no tag line, no
   * error notice. Only answers still reply.
   */
  lemma {:induction false} HaltedBroadcastsNothing(s: DailyState, events: seq<Event>)
    requires s.stopAll && NoReset(events)
    ensures Run(s, events).state.stopAll
    ensures Count(Run(s, events).sent, IsPoll) == 0
    ensures Count(Run(s, events).sent, IsBroadcast) == 0
    decreases |events|
  {
    if events != [] {
      var first := Apply(s, events[0]);
      var rest := Run(first.state, events[1..]);
      match events[0] {
      case Check(now, fetched, pollSent) => CheckPriceFacts(s, now, fetched, pollSent);
      case Nag(now, pollSent) => NagPollFacts(s, now, pollSent);
      case Answer(now, pollId, optionIds) => PollAnswerFacts(s, now, pollId, optionIds);
      }
      assert NoReset(events[1..]) by {
        assert forall i | 0 <= i < |events| - 1 :: events[1..][i] == events[i + 1];
      }
      HaltedBroadcastsNothing(first.state, events[1..]);
      CountAppend(first.sent, rest.sent, IsPoll);
      CountAppend(first.sent, rest.sent, IsBroadcast);
    }
  }

  /** Once a change is detected, no nag poll is sent until the next reset. */
  lemma {:induction false} NoNagAfterDetection(s: DailyState, events: seq<Event>)
    requires s.updateDetected && NoReset(events)
    ensures Run(s, events).state.updateDetected
    ensures Count(Run(s, events).sent, IsNagPoll) == 0
    decreases |events|
  {
    if events != [] {
      var first := Apply(s, events[0]);
      var rest := Run(first.state, events[1..]);
      match events[0] {
      case Check(now, fetched, pollSent) => CheckPriceFacts(s, now, fetched, pollSent);
      case Nag(now, pollSent) => NagPollFacts(s, now, pollSent);
      case Answer(now, pollId, optionIds) =>
        PollAnswerFacts(s, now, pollId, optionIds);
        CountImplied(first.sent, IsNagPoll, IsPoll);
      }
      assert NoReset(events[1..]) by {
        assert forall i | 0 <= i < |events| - 1 :: events[1..][i] == events[i + 1];
      }
      NoNagAfterDetection(first.state, events[1..]);
      CountAppend(first.sent, rest.sent, IsNagPoll);
    }
  }

  /**
   * A "public holiday" answer on the nag poll stops the nags for the rest of
   * the day: until the next reset the flag stays set and no nag poll is sent.
   */
  lemma {:induction false} NagsStoppedStay(s: DailyState, events: seq<Event>)
    requires s.stopNags && NoReset(events)
    ensures Run(s, events).state.stopNags
    ensures Count(Run(s, events).sent, IsNagPoll) == 0
    decreases |events|
  {
    if events != [] {
      var first := Apply(s, events[0]);
      var rest := Run(first.state, events[1..]);
      match events[0] {
      case Check(now, fetched, pollSent) => CheckPriceFacts(s, now, fetched, pollSent);
      case Nag(now, pollSent) => NagPollBehaviour(s, now, pollSent);
      case Answer(now, pollId, optionIds) =>
        PollAnswerFacts(s, now, pollId, optionIds);
        CountImplied(first.sent, IsNagPoll, IsPoll);
      }
      assert NoReset(events[1..]) by {
        assert forall i | 0 <= i < |events| - 1 :: events[1..][i] == events[i + 1];
      }
      NagsStoppedStay(first.state, events[1..]);
      CountAppend(first.sent, rest.sent, IsNagPoll);
    }
  }

  /** Every check in the run happens in the 60 minutes from `t0`. */
  predicate ChecksWithin(events: seq<Event>, t0: int) {
    forall i | 0 <= i < |events| :: events[i].Check? ==>
      t0 <= events[i].now.instant < t0 + ERROR_COOLDOWN
  }

  /** An error notice was sent at or after `t0`. */
  predicate NoticedSince(s: DailyState, t0: int) {
    s.lastErrorAt.Some? && s.lastErrorAt.value >= t0
  }

  /**
   * The error cooldown: however many checks fail within one 60-minute span,
   * between resets at most one error notice goes out, and none when one
   * already went out earlier in the span.
   */
  lemma {:induction false} OneErrorNoticePerCooldown(s: DailyState, events: seq<Event>, t0: int)
    requires NoReset(events) && ChecksWithin(events, t0)
    ensures NoticedSince(s, t0) ==> NoticedSince(Run(s, events).state, t0)
    ensures Count(Run(s, events).sent, IsErrorNotice) <= (if NoticedSince(s, t0) then 0 else 1)
    ensures Count(Run(s, events).sent, IsErrorNotice) > 0 ==> NoticedSince(Run(s, events).state, t0)
    decreases |events|
  {
    if events != [] {
      var first := Apply(s, events[0]);
      var rest := Run(first.state, events[1..]);
      match events[0] {
      case Check(now, fetched, pollSent) =>
        assert t0 <= now.instant < t0 + ERROR_COOLDOWN by { assert events[0].Check?; }
        CheckPriceFacts(s, now, fetched, pollSent);
      case Nag(now, pollSent) => NagPollFacts(s, now, pollSent);
      case Answer(now, pollId, optionIds) => PollAnswerFacts(s, now, pollId, optionIds);
      }
      assert NoReset(events[1..]) && ChecksWithin(events[1..], t0) by {
        assert forall i | 0 <= i < |events| - 1 :: events[1..][i] == events[i + 1];
      }
      OneErrorNoticePerCooldown(first.state, events[1..], t0);
      CountAppend(first.sent, rest.sent, IsErrorNotice);
    }
  }

  /** Every check in the run fetches a payload carrying `marker`. */
  predicate AllFetch(events: seq<Event>, marker: string) {
    forall i | 0 <= i < |events| ::
      events[i].Check? && events[i].fetched.Fetched? && events[i].fetched.payload.updateTime == Some(marker)
  }

  /**
   * Idempotence over a run: once a marker that parses has been seen, any
   * number of further checks fetching it change nothing and send nothing.
   */
  lemma {:induction false} SeenMarkerRunsSilent(s: DailyState, events: seq<Event>, marker: string)
    requires s.lastSeenUpdateTime == Some(marker) && ParseMarkerDate(marker).Some?
    requires AllFetch(events, marker)
    ensures Run(s, events) == Step(s, [])
    decreases |events|
  {
    if events != [] {
      var e := events[0];
      assert e.Check? && e.fetched.payload.updateTime == Some(marker);
      if CheckGateOpen(s, e.now) {
        CheckPriceObserves(s, e.now, e.fetched.payload, e.pollSent, marker, ParseMarkerDate(marker).value);
        assert s.(lastSeenUpdateTime := Some(marker)) == s;
      } else {
        CheckPriceGated(s, e.now, e.fetched, e.pollSent);
      }
      assert AllFetch(events[1..], marker) by {
        assert forall i | 0 <= i < |events| - 1 :: events[1..][i] == events[i + 1];
      }
      SeenMarkerRunsSilent(s, events[1..], marker);
    }
  }
}
