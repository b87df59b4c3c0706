/** The generic application controller as the source runs it: one object
    whose methods update its variables, its task's timers and pending
    events, its message queue and its command log in place.  Each method is
    proved to leave the object in the state the corresponding function of
    module AppModel describes, so every property proved about those
    functions holds of the methods. */
module GenericApp {
  import opened ZStack
  import opened AppModel
  import AppProperties

  class Controller {
    /** ZG_BUILD_ENDDEVICE_TYPE: fixed when the firmware is built. */
    const endDeviceBuild: bool
    /** halKeySavedKeys: the key mask seen by the last poll. */
    var savedKeys: bv8
    /** zclGenericApp_NwkState. */
    var nwkState: bv8
    /** The static LED_OnOff flag of the key handler. */
    var ledOnOff: bool
    /** SeqNum of the on/off reports. */
    var seqNum: uint8
    /** The task's armed OSAL timers, by event. */
    var timers: map<TaskEvent, Timer>
    /** Events OSAL holds for the task and has not yet delivered. */
    var signalled: bv16
    /** The task's OSAL message queue, oldest first. */
    var queue: seq<Msg>
    /** Effects asked of the collaborators so far, oldest first. */
    var log: seq<Command>

    /** The object's state as a value of the functional model. */
    function Abs(): AppState
      reads this
    {
      AppState(endDeviceBuild, savedKeys, nwkState, ledOnOff, seqNum, timers, signalled, queue, log)
    }

    /** The state at start-up. */
    constructor (endDeviceBuild: bool)
      ensures Abs() == Initial(endDeviceBuild)
    {
      this.endDeviceBuild := endDeviceBuild;
      savedKeys := 0;
      nwkState := DEV_INIT;
      ledOnOff := false;
      seqNum := 0;
      timers := map[];
      signalled := 0;
      queue := [];
      log := [];
    }

    /** zclGenericApp_ReportOnOff: sends the on/off report when the payload
        can be allocated, and frees the payload. */
    method ReportOnOff(endPoint: bv8, state: bool, allocOk: bool)
      modifies this
      ensures Abs() == AppModel.ReportOnOff(old(Abs()), endPoint, state, allocOk)
    {
      if allocOk {
        log := log + [SendReport(OnOffReport(state, seqNum))];
        seqNum := (seqNum + 1) % 256;
      }
      log := log + [FreeReportPayload(allocOk)];
    }

    /** zclGenericApp_HandleKeys. */
    method HandleKeys(shift: bv8, keys: bv8, allocOk: bool)
      modifies this
      ensures Abs() == AppModel.HandleKeys(old(Abs()), shift, keys, allocOk)
    {
      if keys == 0 {
        CancelKeyTimers();
      }
      if keys & HAL_KEY_SW_1 != 0 {
        ReportOnOff(SIMPLE_DESC_ENDPOINTS[1], true, allocOk);
        ToggleLed();
      }
    }

    /** The release branch of the key handler: stop the long-press and
        key-poll timers, withdraw their pending events, reset the saved
        mask. */
    method CancelKeyTimers()
      modifies this
      ensures Abs() == Release(old(Abs()))
    {
      ghost var s0 := Abs();
      timers := timers - {LongPressEvt};
      signalled := signalled & !GENERICAPP_SW1_LONG_PRESS;
      timers := timers - {KeyPollEvt};
      signalled := signalled & !HAL_KEY_EVENT;
      savedKeys := 0;
      ReleaseSteps(s0, Abs());
    }

    /** The release branch's four OSAL calls, one after the other, are
        Release. */
    static lemma ReleaseSteps(s: AppState, r: AppState)
      requires r.timers == s.timers - {LongPressEvt} - {KeyPollEvt}
      requires r.signalled == s.signalled & !GENERICAPP_SW1_LONG_PRESS & !HAL_KEY_EVENT
      requires r == s.(timers := r.timers, signalled := r.signalled, savedKeys := 0)
      ensures r == Release(s)
    {
    }

    /** The LED branch of a button-1 press. */
    method ToggleLed()
      modifies this
      ensures Abs() == ToggleBlink(old(Abs()))
    {
      if ledOnOff {
        timers := timers - {LedBlinkEvt};
        log := log + [SetLed2(LedOff)];
        ledOnOff := false;
      } else {
        timers := timers[LedBlinkEvt := Timer(LED_BLINK_MS, false)];
        log := log + [SetLed2(LedOn)];
        ledOnOff := true;
      }
    }

    /** GenericApp_HalKeyPoll: samples both buttons and, when the mask
        changed, saves it and queues a key change for the task. */
    method HalKeyPoll(button1: bool, button2: bool)
      modifies this
      ensures Abs() == AppModel.KeyPoll(old(Abs()), button1, button2)
    {
      var keys := SampleKeys(button1, button2);
      if keys == savedKeys {
        return;
      }
      savedKeys := keys;
      SendKeys(keys, HAL_KEY_STATE_NORMAL);
    }

    /** The key mask of the two button levels, built bit by bit. */
    static method SampleKeys(button1: bool, button2: bool) returns (keys: bv8)
      ensures (keys & HAL_KEY_SW_1 != 0) == button1
      ensures (keys & HAL_KEY_SW_2 != 0) == button2
      ensures keys == KeyMask(button1, button2)
    {
      keys := 0;
      if button1 {
        keys := keys | HAL_KEY_SW_1;
      }
      if button2 {
        keys := keys | HAL_KEY_SW_2;
      }
    }

    /** OnBoard_SendKeys: queue a key change for the task and raise its
        system-message event. */
    method SendKeys(keys: bv8, state: bv8)
      modifies this
      ensures Abs() == AppModel.SendKeys(old(Abs()), keys, state)
    {
      queue := queue + [KeyChange(state, keys)];
      signalled := signalled | SYS_EVENT_MSG;
    }

    /** halProcessKeyInterrupt: arms the key-poll and long-press timers. */
    method KeyInterrupt()
      modifies this
      ensures Abs() == AppModel.KeyInterrupt(old(Abs()))
    {
      timers := timers[KeyPollEvt := Timer(KEY_POLL_MS, true)];
      timers := timers[LongPressEvt := Timer(LONG_PRESS_MS, false)];
    }

    /** zclGenericApp_LeaveNetwork, with the status NLME_LeaveReq returns. */
    method LeaveNetwork(leaveStatus: bv8)
      modifies this
      ensures Abs() == IssueAll(old(Abs()), LeaveNetworkCommands(leaveStatus))
    {
      log := log + [ResetAttributesToDefaults];
      var leaveReq := LeaveReq(false, false, false, false);
      log := log + [SetStartupDefaultNetworkState];
      log := log + [LeaveRequest(leaveReq)];
      if leaveStatus != Z_SUCCESS {
        log := log + [LeaveReset(false)];
      }
    }

    /** zclGenericApp_ProcessCommissioningStatus. */
    method ProcessCommissioningStatus(m: CommissioningMsg)
      modifies this
      ensures Abs() == AppModel.ProcessCommissioningStatus(old(Abs()), m)
    {
      if m.stage == BDB_COMMISSIONING_FORMATION {
        if m.status == BDB_COMMISSIONING_SUCCESS {
          log := log + [StartCommissioning(BDB_COMMISSIONING_MODE_NWK_STEERING | m.remaining)];
        }
      } else if endDeviceBuild && m.stage == BDB_COMMISSIONING_PARENT_LOST {
        if m.status != BDB_COMMISSIONING_NETWORK_RESTORED {
          timers := timers[RejoinEvt := Timer(GENERICAPP_END_DEVICE_REJOIN_DELAY, false)];
        }
      }
    }

    /** zclGenericApp_ProcessIncomingMsg: frees the attribute command. */
    method ProcessIncomingMsg(hasAttrCmd: bool)
      modifies this
      ensures Abs() == AppModel.ProcessIncomingMsg(old(Abs()), hasAttrCmd)
    {
      if hasAttrCmd {
        log := log + [FreeAttrCmd];
      }
    }

    /** One message taken from the queue: dispatched by kind, then
        released. */
    method ProcessMessage(m: Msg, allocOk: bool)
      modifies this
      ensures Abs() == AppModel.ProcessMessage(old(Abs()), m, allocOk)
    {
      HandleMessage(m, allocOk);
      log := log + [Deallocate(m)];
    }

    /** The handler a message's kind selects. */
    method HandleMessage(m: Msg, allocOk: bool)
      modifies this
      ensures Abs() == AppModel.HandleMessage(old(Abs()), m, allocOk)
    {
      match m
      case ZclIncoming(hasAttrCmd) => ProcessIncomingMsg(hasAttrCmd);
      case KeyChange(state, keys) => HandleKeys(state, keys, allocOk);
      case ZdoStateChange(status) => nwkState := status;
      case OtherMsg(_) =>
    }

    /** The system-message branch of the dispatcher: receive and handle
        messages until the queue is empty. */
    method DrainQueue(allocOk: bool)
      modifies this
      ensures Abs() == AppModel.DrainQueue(old(Abs()), allocOk)
    {
      while queue != []
        invariant AppModel.DrainQueue(Abs(), allocOk) == AppModel.DrainQueue(old(Abs()), allocOk)
        decreases |queue|
      {
        ghost var before := Abs();
        ReceiveOne(allocOk);
        ghost var step := AppProperties.DrainStep(before, allocOk);
      }
    }

    /** One turn of the receive loop: take the oldest message and handle
        and release it. */
    method ReceiveOne(allocOk: bool)
      requires queue != []
      modifies this
      ensures Abs() == AppModel.ProcessMessage(old(Abs()).(queue := old(queue)[1..]), old(queue)[0], allocOk)
    {
      var m := queue[0];
      queue := queue[1..];
      ProcessMessage(m, allocOk);
    }

    /** The rejoin branch of the dispatcher: ask BDB to recover the
        network. */
    method OnRejoin()
      modifies this
      ensures Abs() == AppModel.OnRejoin(old(Abs()))
    {
      log := log + [RecoverNetwork];
    }

    /** The blink branch of the dispatcher: toggle LED 2 and re-arm the
        blink timer. */
    method OnBlink()
      modifies this
      ensures Abs() == AppModel.OnBlink(old(Abs()))
    {
      log := log + [SetLed2(LedToggle)];
      timers := timers[LedBlinkEvt := Timer(LED_BLINK_MS, false)];
    }

    /** The sleep branch of the dispatcher: ask the platform to sleep. */
    method OnSleep()
      modifies this
      ensures Abs() == AppModel.OnSleep(old(Abs()))
    {
      log := log + [Sleep(SLEEP_MS)];
    }

    /** The long-press branch of the dispatcher: leave the network when on
        one, otherwise start joining and blink LED 2. */
    method LongPress(onNetwork: bool, leaveStatus: bv8)
      modifies this
      ensures Abs() == AppModel.LongPress(old(Abs()), onNetwork, leaveStatus)
    {
      if onNetwork {
        LeaveNetwork(leaveStatus);
      } else {
        log := log + [StartCommissioning(JOIN_MODES)];
        timers := timers[LedBlinkEvt := Timer(LED_BLINK_MS, false)];
      }
    }

    /** zclGenericApp_event_loop: handles the branch its tests select for
        the event word OSAL delivers and returns the events it did not
        handle. */
    method EventLoop(events: bv16, inp: Inputs) returns (rest: bv16)
      modifies this
      ensures Dispatch(Abs(), rest) == AppModel.EventLoop(old(Abs()), events, inp)
    {
      match Selected(endDeviceBuild, events) {
        case SystemMessages =>
          DrainQueue(inp.allocOk);
          rest := events ^ SYS_EVENT_MSG;
        case Timed(e) =>
          Act(e, inp);
          rest := events ^ Bit(e);
        case Idle =>
          rest := 0;
      }
    }

    /** The action of the dispatcher's branch for a timed event. */
    method Act(e: TaskEvent, inp: Inputs)
      modifies this
      ensures Abs() == AppModel.Act(old(Abs()), e, inp)
    {
      match e {
        case RejoinEvt => OnRejoin();
        case LedBlinkEvt => OnBlink();
        case GoToSleepEvt => OnSleep();
        case LongPressEvt => LongPress(inp.onNetwork, inp.leaveStatus);
        case KeyPollEvt => HalKeyPoll(inp.button1, inp.button2);
      }
    }
  }
}
