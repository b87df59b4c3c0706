/** Properties of the controller's operations that relate several calls,
    or a call to an independent description of what it should do. */
module AppProperties {
  import opened ZStack
  import opened AppModel

  datatype Option<T> = None | Some(value: T)

  // ---------------------------------------------------------------------
  // Draining the message queue
  // ---------------------------------------------------------------------

  /** Draining releases every queued message exactly once, in arrival order,
      and only appends to the log. */
  lemma {:induction false} DrainReleasesEachMessageOnce(s: AppState, allocOk: bool)
    ensures s.log <= DrainQueue(s, allocOk).log
    ensures Deallocated(DrainQueue(s, allocOk).log) == Deallocated(s.log) + s.queue
    decreases |s.queue|
  {
    if s.queue != [] {
      var next := DrainStep(s, allocOk);
      DrainReleasesEachMessageOnce(next, allocOk);
      SeqSplit(Deallocated(s.log), s.queue);
    }
  }

  lemma SeqSplit<T>(a: seq<T>, q: seq<T>)
    requires q != []
    ensures (a + [q[0]]) + q[1..] == a + q
  {
  }

  lemma DrainStep(s: AppState, allocOk: bool) returns (next: AppState)
    requires s.queue != []
    ensures next == ProcessMessage(s.(queue := s.queue[1..]), s.queue[0], allocOk)
    ensures DrainQueue(s, allocOk) == DrainQueue(next, allocOk)
    ensures next.queue == s.queue[1..]
    ensures s.log <= next.log && Deallocated(next.log) == Deallocated(s.log) + [s.queue[0]]
  {
    next := ProcessMessage(s.(queue := s.queue[1..]), s.queue[0], allocOk);
  }

  /** No state-change message at index `from` or later. */
  predicate NoStateChangeFrom(q: seq<Msg>, from: nat)
  {
    forall j :: from <= j < |q| ==> !q[j].ZdoStateChange?
  }

  /** After draining, the network state is the status of the last
      state-change message in the queue, or unchanged if there was none. */
  lemma {:induction false} DrainKeepsLastNetworkState(s: AppState, allocOk: bool)
    ensures NoStateChangeFrom(s.queue, 0) ==> DrainQueue(s, allocOk).nwkState == s.nwkState
    ensures forall i :: 0 <= i < |s.queue| && s.queue[i].ZdoStateChange? && NoStateChangeFrom(s.queue, i + 1) ==>
      DrainQueue(s, allocOk).nwkState == s.queue[i].status
    decreases |s.queue|
  {
    if s.queue != [] {
      var next := DrainStep(s, allocOk);
      DrainKeepsLastNetworkState(next, allocOk);
      LastStateStep(s.queue, s.nwkState, next.nwkState, DrainQueue(next, allocOk).nwkState);
    }
  }

  /** The step of that induction, on the network-state values alone: the
      first message sets `after` from `before`, the rest of the queue sets
      `final` from `after`. */
  lemma LastStateStep(q: seq<Msg>, before: bv8, after: bv8, final: bv8)
    requires q != []
    requires after == if q[0].ZdoStateChange? then q[0].status else before
    requires NoStateChangeFrom(q[1..], 0) ==> final == after
    requires forall i :: 0 <= i < |q[1..]| && q[1..][i].ZdoStateChange? && NoStateChangeFrom(q[1..], i + 1) ==>
      final == q[1..][i].status
    ensures NoStateChangeFrom(q, 0) ==> final == before
    ensures forall i :: 0 <= i < |q| && q[i].ZdoStateChange? && NoStateChangeFrom(q, i + 1) ==> final == q[i].status
  {
    forall i | 0 <= i < |q| && q[i].ZdoStateChange? && NoStateChangeFrom(q, i + 1)
      ensures final == q[i].status
    {
      if i > 0 {
        assert q[1..][i - 1] == q[i];
        assert NoStateChangeFrom(q[1..], i);
      } else {
        assert NoStateChangeFrom(q[1..], 0);
      }
    }
    if NoStateChangeFrom(q, 0) {
      assert NoStateChangeFrom(q[1..], 0);
    }
  }

  /** With the system-message bit set, the dispatcher empties the queue,
      releases each message once in order, leaves the network state to the
      last state-change message, and returns the event word with only the
      system-message bit cleared. */
  lemma SystemMessagesDrainTheQueue(s: AppState, events: bv16, inp: Inputs)
    requires events & SYS_EVENT_MSG != 0
    ensures var d := EventLoop(s, events, inp);
      && d.rest == events & !SYS_EVENT_MSG
      && d.state.queue == []
      && Deallocated(d.state.log) == Deallocated(s.log) + s.queue
      && (NoStateChangeFrom(s.queue, 0) ==> d.state.nwkState == s.nwkState)
      && (forall i :: 0 <= i < |s.queue| && s.queue[i].ZdoStateChange? && NoStateChangeFrom(s.queue, i + 1) ==>
            d.state.nwkState == s.queue[i].status)
    ensures EventLoop(s, events, inp).state == EventLoop(s, SYS_EVENT_MSG, inp).state
  {
    DrainReleasesEachMessageOnce(s, inp.allocOk);
    DrainKeepsLastNetworkState(s, inp.allocOk);
  }

  // ---------------------------------------------------------------------
  // One event bit per invocation, in priority order
  // ---------------------------------------------------------------------

  /** The order in which the dispatcher considers the timed events; the
      rejoin event exists only in end-device builds. */
  function Priority(endDeviceBuild: bool): seq<TaskEvent>
  {
    if endDeviceBuild then [RejoinEvt] + CommonEvents() else CommonEvents()
  }

  /** Whether the bit of event `e` is set in the event word. */
  predicate Pending(events: bv16, e: TaskEvent)
  {
    events & Bit(e) != 0
  }

  /** The first event of `order` whose bit is set in `events`. */
  function FirstPending(events: bv16, order: seq<TaskEvent>): Option<TaskEvent>
  {
    if order == [] then None
    else if Pending(events, order[0]) then Some(order[0])
    else FirstPending(events, order[1..])
  }

  /** The event FirstPending picks is one of the order and is pending. */
  lemma {:induction false} FirstPendingIsPending(events: bv16, order: seq<TaskEvent>)
    ensures FirstPending(events, order).Some? ==>
      FirstPending(events, order).value in order && Pending(events, FirstPending(events, order).value)
  {
    if order != [] && !Pending(events, order[0]) {
      FirstPendingIsPending(events, order[1..]);
    }
  }

  /** An event of the order that is pending, with no pending event before
      it, is the one FirstPending picks. */
  lemma {:induction false} FirstPendingIsHighestPriority(events: bv16, order: seq<TaskEvent>, k: nat)
    requires k < |order| && Pending(events, order[k])
    requires forall j :: 0 <= j < k ==> !Pending(events, order[j])
    ensures FirstPending(events, order) == Some(order[k])
  {
    if k > 0 {
      assert !Pending(events, order[0]);
      forall j | 0 <= j < k - 1 ensures !Pending(events, order[1..][j]) {
        assert order[1..][j] == order[j + 1];
      }
      FirstPendingIsHighestPriority(events, order[1..], k - 1);
    }
  }

  /** FirstPending picks nothing exactly when no event of the order is
      pending. */
  lemma {:induction false} FirstPendingNoneIffNonePending(events: bv16, order: seq<TaskEvent>)
    ensures FirstPending(events, order).None? <==> forall j :: 0 <= j < |order| ==> !Pending(events, order[j])
  {
    if order != [] {
      FirstPendingNoneIffNonePending(events, order[1..]);
      if !Pending(events, order[0]) {
        assert forall j :: 1 <= j < |order| ==> order[j] == order[1..][j - 1];
      }
    }
  }

  /** Reference dispatcher for an event word without the system-message
      bit: act on the first pending event of the priority order and hand
      back the word with that one bit cleared and every other bit as it was;
      with nothing of the order pending, act on nothing and hand back 0. */
  function PriorityDispatch(s: AppState, events: bv16, inp: Inputs): Dispatch
  {
    match FirstPending(events, Priority(s.endDeviceBuild))
    case None => Dispatch(s, 0)
    case Some(e) => Dispatch(Act(s, e, inp), events & !Bit(e))
  }

  /** The branch the reference order picks. */
  function AsBranch(o: Option<TaskEvent>): Branch
  {
    match o
    case None => Idle
    case Some(e) => Timed(e)
  }

  /** Without the system-message bit, the dispatcher's tests select the
      first pending event of the priority order. */
  lemma SelectedIsFirstPending(endDeviceBuild: bool, events: bv16)
    requires events & SYS_EVENT_MSG == 0
    ensures Selected(endDeviceBuild, events) == AsBranch(FirstPending(events, Priority(endDeviceBuild)))
  {
    FirstPendingOfCommonEvents(events);
    if endDeviceBuild {
      FirstPendingCons(events, RejoinEvt, CommonEvents());
    }
  }

  /** Only a pending event is selected. */
  lemma SelectedIsPending(endDeviceBuild: bool, events: bv16, e: TaskEvent)
    requires Selected(endDeviceBuild, events) == Timed(e)
    ensures Pending(events, e)
  {
  }

  /** Without the system-message bit, the dispatcher is the reference
      dispatcher. */
  lemma EventLoopActsOnFirstPending(s: AppState, events: bv16, inp: Inputs)
    requires events & SYS_EVENT_MSG == 0
    ensures EventLoop(s, events, inp) == PriorityDispatch(s, events, inp)
  {
    SelectedIsFirstPending(s.endDeviceBuild, events);
    match FirstPending(events, Priority(s.endDeviceBuild))
    case None =>
    case Some(e) =>
      FirstPendingIsPending(events, Priority(s.endDeviceBuild));
      PendingBitToggledOff(events, e);
  }

  /** Each event owns a single bit, so toggling a pending event's bit off
      clears that bit and leaves every other bit as it was.  The generic
      fact is XorClearsSetBit; it is split here into one lemma per event
      only because the solver handles a symbolic event's bit far less
      cheaply than a known one. */
  lemma PendingBitToggledOff(events: bv16, e: TaskEvent)
    requires Pending(events, e)
    ensures events ^ Bit(e) == events & !Bit(e)
  {
    match e
    case KeyPollEvt => KeyPollBitToggledOff(events, e);
    case LedBlinkEvt => LedBlinkBitToggledOff(events, e);
    case RejoinEvt => RejoinBitToggledOff(events, e);
    case GoToSleepEvt => GoToSleepBitToggledOff(events, e);
    case LongPressEvt => LongPressBitToggledOff(events, e);
  }

  lemma KeyPollBitToggledOff(events: bv16, e: TaskEvent)
    requires e == KeyPollEvt && Pending(events, e)
    ensures events ^ Bit(e) == events & !Bit(e)
  {
  }

  lemma LedBlinkBitToggledOff(events: bv16, e: TaskEvent)
    requires e == LedBlinkEvt && Pending(events, e)
    ensures events ^ Bit(e) == events & !Bit(e)
  {
  }

  lemma RejoinBitToggledOff(events: bv16, e: TaskEvent)
    requires e == RejoinEvt && Pending(events, e)
    ensures events ^ Bit(e) == events & !Bit(e)
  {
  }

  lemma GoToSleepBitToggledOff(events: bv16, e: TaskEvent)
    requires e == GoToSleepEvt && Pending(events, e)
    ensures events ^ Bit(e) == events & !Bit(e)
  {
  }

  lemma LongPressBitToggledOff(events: bv16, e: TaskEvent)
    requires e == LongPressEvt && Pending(events, e)
    ensures events ^ Bit(e) == events & !Bit(e)
  {
  }

  /** One step of FirstPending on an order that starts with `e`. */
  lemma FirstPendingCons(events: bv16, e: TaskEvent, rest: seq<TaskEvent>)
    ensures FirstPending(events, [e] + rest) == if Pending(events, e) then Some(e) else FirstPending(events, rest)
  {
    assert ([e] + rest)[1..] == rest;
  }

  /** The timed events every build has, in the dispatcher's order. */
  function CommonEvents(): seq<TaskEvent>
  {
    [LedBlinkEvt, GoToSleepEvt, LongPressEvt, KeyPollEvt]
  }

  lemma FirstPendingOfCommonEvents(events: bv16)
    ensures FirstPending(events, CommonEvents()) ==
      if Pending(events, LedBlinkEvt) then Some(LedBlinkEvt)
      else if Pending(events, GoToSleepEvt) then Some(GoToSleepEvt)
      else if Pending(events, LongPressEvt) then Some(LongPressEvt)
      else if Pending(events, KeyPollEvt) then Some(KeyPollEvt)
      else None
  {
    assert CommonEvents() == [LedBlinkEvt] + ([GoToSleepEvt] + ([LongPressEvt] + ([KeyPollEvt] + [])));
    FirstPendingCons(events, KeyPollEvt, []);
    FirstPendingCons(events, LongPressEvt, [KeyPollEvt] + []);
    FirstPendingCons(events, GoToSleepEvt, [LongPressEvt] + ([KeyPollEvt] + []));
    FirstPendingCons(events, LedBlinkEvt, [GoToSleepEvt] + ([LongPressEvt] + ([KeyPollEvt] + [])));
  }

  // ---------------------------------------------------------------------
  // Key sampling
  // ---------------------------------------------------------------------

  /** A second poll with the same button levels changes nothing. */
  lemma KeyPollIdempotent(s: AppState, button1: bool, button2: bool)
    ensures KeyPoll(KeyPoll(s, button1, button2), button1, button2) == KeyPoll(s, button1, button2)
  {
  }

  /** The button levels one poll reads. */
  datatype Levels = Levels(button1: bool, button2: bool)

  /** Polls run back to back over a series of samples. */
  function PollAll(s: AppState, samples: seq<Levels>): AppState
    decreases |samples|
  {
    if samples == [] then s
    else PollAll(KeyPoll(s, samples[0].button1, samples[0].button2), samples[1..])
  }

  /** The key changes a series of samples should produce: one for every
      sample whose mask differs from the mask before it. */
  function Changes(prev: bv8, samples: seq<Levels>): seq<Msg>
    decreases |samples|
  {
    if samples == [] then []
    else
      var m := KeyMask(samples[0].button1, samples[0].button2);
      (if m != prev then [KeyChange(HAL_KEY_STATE_NORMAL, m)] else []) + Changes(m, samples[1..])
  }

  /** Over any series of samples, the poll queues a key change exactly for
      each sample whose mask differs from the previous one. */
  lemma {:induction false} PollSeriesEmitsExactlyTheChanges(s: AppState, samples: seq<Levels>)
    ensures PollAll(s, samples).queue == s.queue + Changes(s.savedKeys, samples)
    decreases |samples|
  {
    if samples != [] {
      var next := KeyPoll(s, samples[0].button1, samples[0].button2);
      PollSeriesEmitsExactlyTheChanges(next, samples[1..]);
    }
  }

  /** Masks 0x00, 0x01, 0x01, 0x00 from a released state: one key change for
      the press and one for the release, none for the repeated sample. */
  lemma PressAndReleaseScenario(s: AppState)
    requires s.savedKeys == 0
    ensures var samples := [Levels(false, false), Levels(true, false), Levels(true, false), Levels(false, false)];
      PollAll(s, samples).queue == s.queue + [KeyChange(HAL_KEY_STATE_NORMAL, 0x01), KeyChange(HAL_KEY_STATE_NORMAL, 0x00)]
  {
    var samples := [Levels(false, false), Levels(true, false), Levels(true, false), Levels(false, false)];
    PollSeriesEmitsExactlyTheChanges(s, samples);
    assert samples[1..][1..][1..][1..] == [];
  }

  // ---------------------------------------------------------------------
  // Reports
  // ---------------------------------------------------------------------

  /** A button-1 press issues exactly, in order: the report (when the
      payload was allocated), the payload free, and the LED 2 command. */
  lemma PressIssuesExactly(s: AppState, allocOk: bool)
    ensures Press(s, allocOk).log ==
      s.log + (if allocOk then [SendReport(OnOffReport(true, s.seqNum))] else [])
            + [FreeReportPayload(allocOk), SetLed2(if s.ledOnOff then LedOff else LedOn)]
  {
    var reported := ReportOnOff(s, SIMPLE_DESC_ENDPOINTS[1], true, allocOk);
    assert Press(s, allocOk).log == reported.log + [SetLed2(if s.ledOnOff then LedOff else LedOn)];
  }

  /** Two reports in a row are both sent, with sequence numbers n and
      n + 1 modulo 256. */
  lemma ConsecutiveReportsNumbered(s: AppState, endPoint: bv8)
    ensures var r := ReportOnOff(ReportOnOff(s, endPoint, true, true), endPoint, false, true);
      && Reports(r.log) == Reports(s.log) + [OnOffReport(true, s.seqNum), OnOffReport(false, (s.seqNum + 1) % 256)]
      && r.seqNum == (s.seqNum + 2) % 256
  {
    var r1 := ReportOnOff(s, endPoint, true, true);
    assert r1.seqNum == (s.seqNum + 1) % 256;
    assert Reports(r1.log) == Reports(s.log) + [OnOffReport(true, s.seqNum)];
    var r2 := ReportOnOff(r1, endPoint, false, true);
    assert Reports(r2.log) == Reports(r1.log) + [OnOffReport(false, r1.seqNum)];
  }
}
