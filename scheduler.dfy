/** The OSAL run loop around the controller's task, as an environment for
    the controller: a timer that expires raises its event, and one run of
    the task hands the dispatcher every event held for it, clears them,
    and merges back the event word the dispatcher returns.  These two steps
    are how OSAL behaves, not something the application file states; the
    lemmas here use them to follow the controller across several runs. */
module Scheduler {
  import opened ZStack
  import opened AppModel
  import opened AppProperties

  /** osal_set_event: the event's bit is set in the word, and every other
      bit is as it was. */
  function RaiseEvent(events: bv16, e: TaskEvent): (r: bv16)
    ensures Pending(r, e)
    ensures r & !Bit(e) == events & !Bit(e)
  {
    BitNonZero(e);
    SetBit(events, Bit(e));
    events | Bit(e)
  }

  lemma BitNonZero(e: TaskEvent)
    ensures Bit(e) != 0
  {
    match e
    case KeyPollEvt =>
    case LedBlinkEvt =>
    case RejoinEvt =>
    case GoToSleepEvt =>
    case LongPressEvt =>
  }

  lemma SetBit(events: bv16, bit: bv16)
    ensures (events | bit) & bit == bit
    ensures (events | bit) & !bit == events & !bit
  {
  }

  /** A timer of the task expires: its event is raised; a one-shot timer
      disappears, a reloading one stays armed. */
  function FireTimer(s: AppState, e: TaskEvent): (r: AppState)
    requires e in s.timers
    ensures r.signalled == RaiseEvent(s.signalled, e)
    ensures r.timers == if s.timers[e].reload then s.timers else s.timers - {e}
    ensures r.(timers := s.timers, signalled := s.signalled) == s
  {
    s.(timers := if s.timers[e].reload then s.timers else s.timers - {e},
       signalled := RaiseEvent(s.signalled, e))
  }

  /** One run of the task: the events held so far are delivered and
      cleared, the dispatcher runs, and the word it returns is merged with
      whatever was raised while it ran. */
  function RunTask(s: AppState, inp: Inputs): AppState
  {
    var d := EventLoop(s.(signalled := 0), s.signalled, inp);
    d.state.(signalled := d.state.signalled | d.rest)
  }

  // ---------------------------------------------------------------------
  // The invariant Valid is kept by every operation
  // ---------------------------------------------------------------------

  lemma ReportOnOffKeepsValid(s: AppState, endPoint: bv8, state: bool, allocOk: bool)
    requires Valid(s)
    ensures Valid(ReportOnOff(s, endPoint, state, allocOk))
  {
    var r := ReportOnOff(s, endPoint, state, allocOk);
    assert r.timers == s.timers && r.savedKeys == s.savedKeys && r.endDeviceBuild == s.endDeviceBuild;
  }

  lemma HandleKeysKeepsValid(s: AppState, shift: bv8, keys: bv8, allocOk: bool)
    requires Valid(s)
    ensures Valid(HandleKeys(s, shift, keys, allocOk))
  {
    if keys & HAL_KEY_SW_1 != 0 {
      PressKeepsValid(s, shift, keys, allocOk);
    } else if keys == 0 {
      ReleaseKeepsValid(s, shift, allocOk);
    }
  }

  lemma ReleaseKeepsValid(s: AppState, shift: bv8, allocOk: bool)
    requires Valid(s)
    ensures Valid(HandleKeys(s, shift, 0, allocOk))
  {
    var r := HandleKeys(s, shift, 0, allocOk);
    assert r.timers == s.timers - {LongPressEvt, KeyPollEvt};
    assert r.endDeviceBuild == s.endDeviceBuild && r.savedKeys == 0;
  }

  lemma PressKeepsValid(s: AppState, shift: bv8, keys: bv8, allocOk: bool)
    requires Valid(s) && keys & HAL_KEY_SW_1 != 0
    ensures Valid(HandleKeys(s, shift, keys, allocOk))
  {
    var reported := ReportOnOff(s, SIMPLE_DESC_ENDPOINTS[1], true, allocOk);
    ReportOnOffKeepsValid(s, SIMPLE_DESC_ENDPOINTS[1], true, allocOk);
    ToggleBlinkKeepsValid(reported);
    assert keys != 0;
    assert HandleKeys(s, shift, keys, allocOk) == ToggleBlink(reported);
  }

  lemma ToggleBlinkKeepsValid(s: AppState)
    requires Valid(s)
    ensures Valid(ToggleBlink(s))
  {
    var r := ToggleBlink(s);
    assert r.savedKeys == s.savedKeys && r.endDeviceBuild == s.endDeviceBuild;
    forall e | e in r.timers ensures e in TIMER_CONFIG && r.timers[e] == TIMER_CONFIG[e] {
      if e != LedBlinkEvt {
        assert e in r.timers - {LedBlinkEvt};
      }
    }
    assert RejoinEvt in r.timers ==> RejoinEvt in r.timers - {LedBlinkEvt};
  }

  lemma KeyPollKeepsValid(s: AppState, button1: bool, button2: bool)
    requires Valid(s)
    ensures Valid(KeyPoll(s, button1, button2))
  {
  }

  lemma KeyInterruptKeepsValid(s: AppState)
    requires Valid(s)
    ensures Valid(KeyInterrupt(s))
  {
    var r := KeyInterrupt(s);
    forall e | e in r.timers ensures e in TIMER_CONFIG && r.timers[e] == TIMER_CONFIG[e] {
      if e != KeyPollEvt && e != LongPressEvt {
        assert e in r.timers - {KeyPollEvt, LongPressEvt};
      }
    }
    assert RejoinEvt in r.timers ==> RejoinEvt in r.timers - {KeyPollEvt, LongPressEvt};
  }

  lemma LongPressKeepsValid(s: AppState, onNetwork: bool, leaveStatus: bv8)
    requires Valid(s)
    ensures Valid(LongPress(s, onNetwork, leaveStatus))
  {
    var r := LongPress(s, onNetwork, leaveStatus);
    forall e | e in r.timers ensures e in TIMER_CONFIG && r.timers[e] == TIMER_CONFIG[e] {
      if e != LedBlinkEvt {
        assert e in r.timers - {LedBlinkEvt};
      }
    }
    assert RejoinEvt in r.timers ==> RejoinEvt in r.timers - {LedBlinkEvt};
  }

  lemma IssueKeepsValid(s: AppState, c: Command)
    requires Valid(s)
    ensures Valid(Issue(s, c))
  {
    var r := Issue(s, c);
    assert r.timers == s.timers && r.savedKeys == s.savedKeys && r.endDeviceBuild == s.endDeviceBuild;
  }

  lemma OnBlinkKeepsValid(s: AppState)
    requires Valid(s)
    ensures Valid(OnBlink(s))
  {
    IssueKeepsValid(s, SetLed2(LedToggle));
  }

  lemma ProcessCommissioningStatusKeepsValid(s: AppState, m: CommissioningMsg)
    requires Valid(s)
    ensures Valid(ProcessCommissioningStatus(s, m))
  {
  }

  lemma ProcessMessageKeepsValid(s: AppState, m: Msg, allocOk: bool)
    requires Valid(s)
    ensures Valid(ProcessMessage(s, m, allocOk))
  {
    var handled := HandleMessage(s, m, allocOk);
    HandleMessageKeepsValid(s, m, allocOk);
    IssueKeepsValid(handled, Deallocate(m));
  }

  lemma HandleMessageKeepsValid(s: AppState, m: Msg, allocOk: bool)
    requires Valid(s)
    ensures Valid(HandleMessage(s, m, allocOk))
  {
    match m {
      case ZclIncoming(hasAttrCmd) =>
        if hasAttrCmd {
          IssueKeepsValid(s, FreeAttrCmd);
        }
      case KeyChange(state, keys) =>
        HandleKeysKeepsValid(s, state, keys, allocOk);
      case ZdoStateChange(status) =>
        assert HandleMessage(s, m, allocOk).timers == s.timers;
      case OtherMsg(_) =>
    }
  }

  lemma {:induction false} DrainQueueKeepsValid(s: AppState, allocOk: bool)
    requires Valid(s)
    ensures Valid(DrainQueue(s, allocOk))
    decreases |s.queue|
  {
    if s.queue != [] {
      var next := DrainStep(s, allocOk);
      ProcessMessageKeepsValid(s.(queue := s.queue[1..]), s.queue[0], allocOk);
      DrainQueueKeepsValid(next, allocOk);
    }
  }

  lemma ActKeepsValid(s: AppState, e: TaskEvent, inp: Inputs)
    requires Valid(s)
    ensures Valid(Act(s, e, inp))
  {
    match e
    case RejoinEvt => IssueKeepsValid(s, RecoverNetwork);
    case LedBlinkEvt => OnBlinkKeepsValid(s);
    case GoToSleepEvt => IssueKeepsValid(s, Sleep(SLEEP_MS));
    case LongPressEvt => LongPressKeepsValid(s, inp.onNetwork, inp.leaveStatus);
    case KeyPollEvt => KeyPollKeepsValid(s, inp.button1, inp.button2);
  }

  /** Whatever event word it is handed, the dispatcher keeps Valid. */
  lemma EventLoopKeepsValid(s: AppState, events: bv16, inp: Inputs)
    requires Valid(s)
    ensures Valid(EventLoop(s, events, inp).state)
  {
    if events & SYS_EVENT_MSG != 0 {
      DrainQueueKeepsValid(s, inp.allocOk);
    } else {
      EventLoopActsOnFirstPending(s, events, inp);
      match FirstPending(events, Priority(s.endDeviceBuild))
      case None =>
      case Some(e) => ActKeepsValid(s, e, inp);
    }
  }

  lemma FireTimerKeepsValid(s: AppState, e: TaskEvent)
    requires Valid(s) && e in s.timers
    ensures Valid(FireTimer(s, e))
  {
  }

  lemma RunTaskKeepsValid(s: AppState, inp: Inputs)
    requires Valid(s)
    ensures Valid(RunTask(s, inp))
  {
    EventLoopKeepsValid(s.(signalled := 0), s.signalled, inp);
  }

  // ---------------------------------------------------------------------
  // A release that is processed before the long-press event is raised
  // cancels it for good
  // ---------------------------------------------------------------------

  /** The long-press event is neither armed nor held for the task. */
  predicate NoLongPress(s: AppState)
  {
    LongPressEvt !in s.timers && !Pending(s.signalled, LongPressEvt)
  }

  /** A key change with mask 0 cancels a long press that has not yet been
      delivered to the task. */
  lemma ReleaseCancelsLongPress(s: AppState, shift: bv8, allocOk: bool)
    ensures NoLongPress(HandleKeys(s, shift, 0, allocOk))
  {
  }

  lemma ProcessMessageKeepsNoLongPress(s: AppState, m: Msg, allocOk: bool)
    requires NoLongPress(s)
    ensures NoLongPress(ProcessMessage(s, m, allocOk))
  {
    if m.KeyChange? {
      if m.keys == 0 {
        ReleaseCancelsLongPress(s, m.state, allocOk);
      } else if m.keys & HAL_KEY_SW_1 != 0 {
        PressKeepsNoLongPress(s, m.state, m.keys, allocOk);
      }
    }
  }

  lemma PressKeepsNoLongPress(s: AppState, shift: bv8, keys: bv8, allocOk: bool)
    requires NoLongPress(s) && keys & HAL_KEY_SW_1 != 0
    ensures NoLongPress(HandleKeys(s, shift, keys, allocOk))
  {
    var r := HandleKeys(s, shift, keys, allocOk);
    assert r.signalled == s.signalled;
    assert LongPressEvt !in s.timers - {LedBlinkEvt};
  }

  lemma {:induction false} DrainQueueKeepsNoLongPress(s: AppState, allocOk: bool)
    requires NoLongPress(s)
    ensures NoLongPress(DrainQueue(s, allocOk))
    decreases |s.queue|
  {
    if s.queue != [] {
      var next := DrainStep(s, allocOk);
      ProcessMessageKeepsNoLongPress(s.(queue := s.queue[1..]), s.queue[0], allocOk);
      DrainQueueKeepsNoLongPress(next, allocOk);
    }
  }

  lemma ActKeepsNoLongPress(s: AppState, e: TaskEvent, inp: Inputs)
    requires NoLongPress(s) && e != LongPressEvt
    ensures NoLongPress(Act(s, e, inp))
  {
  }

  /** Handed a word without the long-press bit, from a state without a long
      press, the dispatcher neither arms nor raises nor returns one. */
  lemma EventLoopKeepsNoLongPress(s: AppState, events: bv16, inp: Inputs)
    requires NoLongPress(s) && !Pending(events, LongPressEvt)
    ensures var d := EventLoop(s, events, inp);
      NoLongPress(d.state) && !Pending(d.rest, LongPressEvt)
  {
    match Selected(s.endDeviceBuild, events)
    case SystemMessages =>
      DrainQueueKeepsNoLongPress(s, inp.allocOk);
      ToggleKeepsLongPressClear(events, SYS_EVENT_MSG);
    case Timed(e) =>
      SelectedIsPending(s.endDeviceBuild, events, e);
      ActKeepsNoLongPress(s, e, inp);
      OtherEventBit(e);
      ToggleKeepsLongPressClear(events, Bit(e));
    case Idle =>
  }

  /** Toggling a bit other than the long-press bit leaves it clear. */
  lemma ToggleKeepsLongPressClear(events: bv16, bit: bv16)
    requires events & GENERICAPP_SW1_LONG_PRESS == 0 && bit & GENERICAPP_SW1_LONG_PRESS == 0
    ensures (events ^ bit) & GENERICAPP_SW1_LONG_PRESS == 0
  {
  }

  /** The bit of every other event lies apart from the long-press bit. */
  lemma OtherEventBit(e: TaskEvent)
    requires e != LongPressEvt
    ensures Bit(e) & GENERICAPP_SW1_LONG_PRESS == 0
  {
    match e
    case KeyPollEvt =>
    case LedBlinkEvt =>
    case RejoinEvt =>
    case GoToSleepEvt =>
  }

  /** Once cancelled, a long press stays cancelled across runs of the task
      and timer expiries, until the next key interrupt. */
  lemma RunTaskKeepsNoLongPress(s: AppState, inp: Inputs)
    requires NoLongPress(s)
    ensures NoLongPress(RunTask(s, inp))
  {
    EventLoopKeepsNoLongPress(s.(signalled := 0), s.signalled, inp);
  }

  lemma FireTimerKeepsNoLongPress(s: AppState, e: TaskEvent)
    requires NoLongPress(s) && e in s.timers
    ensures NoLongPress(FireTimer(s, e))
  {
  }

  // ---------------------------------------------------------------------
  // A release processed in the same run as the long-press event does not
  // cancel it
  // ---------------------------------------------------------------------

  /** If the long-press timer has already raised its event when the run
      that processes the release starts, osal_clear_event in the release
      branch finds nothing to clear: the dispatcher has been handed the bit
      and hands it back, because it only clears the system-message bit.
      The next run then carries out the long press although the button is
      up: the leave path on a network, commissioning off it. */
  lemma ReleaseInSameRunKeepsLongPress(s: AppState, inp: Inputs, next: Inputs)
    requires s.queue == [KeyChange(HAL_KEY_STATE_NORMAL, 0)]
    requires s.signalled == SYS_EVENT_MSG | GENERICAPP_SW1_LONG_PRESS
    ensures var r := RunTask(s, inp);
      && r.queue == [] && r.savedKeys == 0
      && LongPressEvt !in r.timers && KeyPollEvt !in r.timers
      && r.signalled == GENERICAPP_SW1_LONG_PRESS
      && RunTask(r, next).log == r.log +
           (if next.onNetwork then LeaveNetworkCommands(next.leaveStatus) else [StartCommissioning(JOIN_MODES)])
  {
    var s0 := s.(signalled := 0);
    DrainOfRelease(s0, inp.allocOk);
    SystemMessagesDrainTheQueue(s0, s.signalled, inp);
    LongPressRun(RunTask(s, inp), next);
  }

  /** Draining a queue that holds only a release, with nothing raised. */
  lemma DrainOfRelease(s: AppState, allocOk: bool)
    requires s.queue == [KeyChange(HAL_KEY_STATE_NORMAL, 0)] && s.signalled == 0
    ensures var r := DrainQueue(s, allocOk);
      && r.queue == [] && r.savedKeys == 0 && r.signalled == 0
      && LongPressEvt !in r.timers && KeyPollEvt !in r.timers
  {
    var step := DrainStep(s, allocOk);
    var released := HandleKeys(s.(queue := []), HAL_KEY_STATE_NORMAL, 0, allocOk);
    assert step == Issue(released, Deallocate(KeyChange(HAL_KEY_STATE_NORMAL, 0)));
    assert step.queue == [];
  }

  /** A run handed only the long-press bit carries out the long press. */
  lemma LongPressRun(r: AppState, next: Inputs)
    requires r.signalled == GENERICAPP_SW1_LONG_PRESS
    ensures RunTask(r, next).log == r.log +
      (if next.onNetwork then LeaveNetworkCommands(next.leaveStatus) else [StartCommissioning(JOIN_MODES)])
  {
    assert Selected(r.endDeviceBuild, r.signalled) == Timed(LongPressEvt);
  }

  // ---------------------------------------------------------------------
  // Parent loss in an end-device build
  // ---------------------------------------------------------------------

  /** In an end-device build, a parent loss that was not recovered arms the
      rejoin timer; when it expires, the next run asks BDB to recover the
      network and nothing else. */
  lemma ParentLostLeadsToRecovery(s: AppState, m: CommissioningMsg, inp: Inputs)
    requires s.endDeviceBuild && s.signalled == 0
    requires m.stage == BDB_COMMISSIONING_PARENT_LOST && m.status != BDB_COMMISSIONING_NETWORK_RESTORED
    ensures var armed := ProcessCommissioningStatus(s, m);
      && RejoinEvt in armed.timers
      && armed.timers[RejoinEvt] == Timer(GENERICAPP_END_DEVICE_REJOIN_DELAY, false)
      && RunTask(FireTimer(armed, RejoinEvt), inp).log == s.log + [RecoverNetwork]
  {
    var armed := ProcessCommissioningStatus(s, m);
    var fired := FireTimer(armed, RejoinEvt);
    assert fired.signalled == GENERICAPP_END_DEVICE_REJOIN_EVT;
    assert Selected(true, fired.signalled) == Timed(RejoinEvt);
  }
}
