/** The generic application controller as a state-transition system.
    Each function takes the controller's state before one of its operations
    and returns the state after it; the class in module GenericApp runs the
    same operations in place and is proved to agree with these functions. */
module AppModel {
  import opened ZStack

  /** Everything the controller's operations read or change: its own
      variables, the OSAL timers and pending events of its task, its message
      queue, and the log of effects it has asked of its collaborators. */
  datatype AppState = AppState(
    endDeviceBuild: bool,          // ZG_BUILD_ENDDEVICE_TYPE, fixed per build
    savedKeys: bv8,                // halKeySavedKeys
    nwkState: bv8,                 // zclGenericApp_NwkState
    ledOnOff: bool,                // LED_OnOff in HandleKeys
    seqNum: uint8,                 // SeqNum of the on/off reports
    timers: map<TaskEvent, Timer>, // armed OSAL timers, by event
    signalled: bv16,               // events OSAL holds for the task, not yet delivered
    queue: seq<Msg>,               // the task's OSAL message queue, oldest first
    log: seq<Command>)             // effects issued so far, oldest first

  /** What the environment decides during one dispatcher invocation: the
      button levels a poll reads, whether a report payload can be allocated,
      whether BDB believes the node is on a network, and what NLME_LeaveReq
      returns. */
  datatype Inputs = Inputs(button1: bool, button2: bool, allocOk: bool, onNetwork: bool, leaveStatus: bv8)

  /** The result of one dispatcher invocation: the new state and the event
      word returned to OSAL. */
  datatype Dispatch = Dispatch(state: AppState, rest: bv16)

  // ---------------------------------------------------------------------
  // Views of the command log
  // ---------------------------------------------------------------------

  function ReportsOf(c: Command): seq<Report>
  {
    if c.SendReport? then [c.report] else []
  }

  function DeallocatedOf(c: Command): seq<Msg>
  {
    if c.Deallocate? then [c.msg] else []
  }

  function PayloadFreesOf(c: Command): nat
  {
    if c.FreeReportPayload? then 1 else 0
  }

  /** The reports submitted, in order. */
  function Reports(log: seq<Command>): seq<Report>
  {
    if log == [] then [] else Reports(log[..|log| - 1]) + ReportsOf(log[|log| - 1])
  }

  /** The queue messages released, in order. */
  function Deallocated(log: seq<Command>): seq<Msg>
  {
    if log == [] then [] else Deallocated(log[..|log| - 1]) + DeallocatedOf(log[|log| - 1])
  }

  /** How many report payloads were freed. */
  function PayloadFrees(log: seq<Command>): nat
  {
    if log == [] then 0 else PayloadFrees(log[..|log| - 1]) + PayloadFreesOf(log[|log| - 1])
  }

  // ---------------------------------------------------------------------
  // The invariant every operation keeps
  // ---------------------------------------------------------------------

  /** The only timers the controller ever arms, each with the one
      configuration it is armed with. */
  const TIMER_CONFIG: map<TaskEvent, Timer> := map[
    KeyPollEvt := Timer(KEY_POLL_MS, true),
    LongPressEvt := Timer(LONG_PRESS_MS, false),
    LedBlinkEvt := Timer(LED_BLINK_MS, false),
    RejoinEvt := Timer(GENERICAPP_END_DEVICE_REJOIN_DELAY, false)]

  /** Every armed timer is one of the controller's own, armed with its fixed
      configuration (so each has a defined handler); the rejoin timer exists
      only in end-device builds; the saved key mask holds only the two
      buttons' bits. */
  predicate Valid(s: AppState)
  {
    && (forall e :: e in s.timers ==> e in TIMER_CONFIG && s.timers[e] == TIMER_CONFIG[e])
    && (!s.endDeviceBuild ==> RejoinEvt !in s.timers)
    && s.savedKeys & !(HAL_KEY_SW_1 | HAL_KEY_SW_2) == 0
  }

  /** The state at start-up: the static initialisers of the source file. */
  function Initial(endDeviceBuild: bool): (s: AppState)
    ensures Valid(s) && s.queue == [] && s.log == [] && s.endDeviceBuild == endDeviceBuild
  {
    AppState(endDeviceBuild, 0, DEV_INIT, false, 0, map[], 0, [], [])
  }

  // ---------------------------------------------------------------------
  // OSAL primitives, as effects on the state
  // ---------------------------------------------------------------------

  /** osal_start_timerEx: (re)arms a one-shot timer; re-arming replaces. */
  function StartTimer(s: AppState, evt: TaskEvent, ms: nat): AppState
  {
    s.(timers := s.timers[evt := Timer(ms, false)])
  }

  /** osal_start_reload_timer: (re)arms a periodic timer. */
  function StartReloadTimer(s: AppState, evt: TaskEvent, ms: nat): AppState
  {
    s.(timers := s.timers[evt := Timer(ms, true)])
  }

  /** osal_stop_timerEx. */
  function StopTimer(s: AppState, evt: TaskEvent): AppState
  {
    s.(timers := s.timers - {evt})
  }

  /** osal_clear_event: withdraws an event OSAL holds for the task. */
  function ClearEvent(s: AppState, evt: TaskEvent): AppState
  {
    s.(signalled := s.signalled & !Bit(evt))
  }

  /** Appends one effect to the log; each view of the log grows by the
      view of that effect. */
  function Issue(s: AppState, c: Command): (r: AppState)
    ensures r.log == s.log + [c] && r.(log := s.log) == s
    ensures Reports(r.log) == Reports(s.log) + ReportsOf(c)
    ensures Deallocated(r.log) == Deallocated(s.log) + DeallocatedOf(c)
    ensures PayloadFrees(r.log) == PayloadFrees(s.log) + PayloadFreesOf(c)
  {
    assert (s.log + [c])[..|s.log|] == s.log;
    s.(log := s.log + [c])
  }

  /** Appends several effects to the log, in order. */
  function IssueAll(s: AppState, cmds: seq<Command>): (r: AppState)
    ensures r.log == s.log + cmds && r.(log := s.log) == s
  {
    s.(log := s.log + cmds)
  }

  // ---------------------------------------------------------------------
  // Reporting gateway: zclGenericApp_ReportOnOff
  // ---------------------------------------------------------------------

  /** The report zclGenericApp_ReportOnOff builds: on/off attribute, boolean
      type, sent from the first simple descriptor's endpoint to short
      address 0, endpoint 1. */
  function OnOffReport(value: bool, seqNum: uint8): Report
  {
    Report(SIMPLE_DESC_ENDPOINTS[0], 0, 1, ZCL_CLUSTER_ID_GEN_ON_OFF, ATTRID_ON_OFF,
           ZCL_DATATYPE_BOOLEAN, value, false, seqNum)
  }

  /** One report carrying the old sequence number is sent, and the number
      advances by one modulo 256, exactly when the payload was allocated;
      the payload is freed on both paths; the endpoint argument is not used. */
  function ReportOnOff(s: AppState, endPoint: bv8, state: bool, allocOk: bool): (r: AppState)
    ensures r.seqNum == if allocOk then (s.seqNum + 1) % 256 else s.seqNum
    ensures Reports(r.log) == Reports(s.log) + (if allocOk then [OnOffReport(state, s.seqNum)] else [])
    ensures PayloadFrees(r.log) == PayloadFrees(s.log) + 1
    ensures s.log <= r.log && Deallocated(r.log) == Deallocated(s.log)
    ensures r.log == s.log + (if allocOk then [SendReport(OnOffReport(state, s.seqNum))] else []) + [FreeReportPayload(allocOk)]
    ensures r.(seqNum := s.seqNum, log := s.log) == s
  {
    var sent := if allocOk then Issue(s, SendReport(OnOffReport(state, s.seqNum))).(seqNum := (s.seqNum + 1) % 256) else s;
    Issue(sent, FreeReportPayload(allocOk))
  }

  // ---------------------------------------------------------------------
  // Key classifier: zclGenericApp_HandleKeys
  // ---------------------------------------------------------------------

  /** The release branch: long-press and key-poll timers stopped and their
      pending events withdrawn, saved mask reset. */
  function Release(s: AppState): (r: AppState)
    ensures r.timers == s.timers - {LongPressEvt, KeyPollEvt}
    ensures r.signalled == s.signalled & !(GENERICAPP_SW1_LONG_PRESS | HAL_KEY_EVENT)
    ensures r.savedKeys == 0
    ensures r.(timers := s.timers, signalled := s.signalled, savedKeys := s.savedKeys) == s
  {
    var s1 := ClearEvent(StopTimer(s, LongPressEvt), LongPressEvt);
    ClearEvent(StopTimer(s1, KeyPollEvt), KeyPollEvt).(savedKeys := 0)
  }

  /** The LED branch of a button-1 press: stop blinking and switch LED 2 off
      if LED_OnOff was set, start blinking and switch it on otherwise. */
  function ToggleBlink(s: AppState): (r: AppState)
    ensures r.ledOnOff == !s.ledOnOff
    ensures r.log == s.log + [SetLed2(if s.ledOnOff then LedOff else LedOn)]
    ensures Reports(r.log) == Reports(s.log) && Deallocated(r.log) == Deallocated(s.log)
    ensures s.ledOnOff ==> LedBlinkEvt !in r.timers
    ensures !s.ledOnOff ==> LedBlinkEvt in r.timers && r.timers[LedBlinkEvt] == Timer(LED_BLINK_MS, false)
    ensures r.timers - {LedBlinkEvt} == s.timers - {LedBlinkEvt}
    ensures r.(ledOnOff := s.ledOnOff, timers := s.timers, log := s.log) == s
  {
    if s.ledOnOff then
      Issue(StopTimer(s, LedBlinkEvt), SetLed2(LedOff)).(ledOnOff := false)
    else
      Issue(StartTimer(s, LedBlinkEvt, LED_BLINK_MS), SetLed2(LedOn)).(ledOnOff := true)
  }

  /** The button-1 branch: one "on" report (sent if the payload can be
      allocated, numbered with the current SeqNum, which then advances),
      then the LED branch. */
  function Press(s: AppState, allocOk: bool): (r: AppState)
    ensures r.ledOnOff == !s.ledOnOff
    ensures Reports(r.log) == Reports(s.log) + (if allocOk then [OnOffReport(true, s.seqNum)] else [])
    ensures r.seqNum == (if allocOk then (s.seqNum + 1) % 256 else s.seqNum)
    ensures PayloadFrees(r.log) == PayloadFrees(s.log) + 1
    ensures s.log <= r.log && r.log[|r.log| - 1] == SetLed2(if s.ledOnOff then LedOff else LedOn)
    ensures s.ledOnOff ==> LedBlinkEvt !in r.timers
    ensures !s.ledOnOff ==> LedBlinkEvt in r.timers && r.timers[LedBlinkEvt] == Timer(LED_BLINK_MS, false)
    ensures r.timers - {LedBlinkEvt} == s.timers - {LedBlinkEvt}
    ensures Deallocated(r.log) == Deallocated(s.log)
    ensures && r.endDeviceBuild == s.endDeviceBuild && r.savedKeys == s.savedKeys && r.nwkState == s.nwkState
            && r.signalled == s.signalled && r.queue == s.queue
  {
    var reported := ReportOnOff(s, SIMPLE_DESC_ENDPOINTS[1], true, allocOk);
    ToggleBlink(reported)
  }

  /** A key change with mask 0 cancels the long-press and key-poll timers
      (armed or already pending) and resets the saved mask, touching nothing
      else; a mask with button 1 is a press (after the release when the mask
      is 0, which cannot then hold button 1); any other mask changes nothing.
      The shift byte is not used. */
  function HandleKeys(s: AppState, shift: bv8, keys: bv8, allocOk: bool): (r: AppState)
    ensures keys == 0 ==> r == Release(s)
    ensures keys & HAL_KEY_SW_1 != 0 ==> r == Press(s, allocOk)
    ensures keys != 0 && keys & HAL_KEY_SW_1 == 0 ==> r == s
    ensures r.queue == s.queue && r.nwkState == s.nwkState && r.endDeviceBuild == s.endDeviceBuild
    ensures s.log <= r.log && Deallocated(r.log) == Deallocated(s.log)
  {
    var released := if keys == 0 then Release(s) else s;
    if keys & HAL_KEY_SW_1 != 0 then Press(released, allocOk) else released
  }

  // ---------------------------------------------------------------------
  // Key sampler: GenericApp_HalKeyPoll, halProcessKeyInterrupt
  // ---------------------------------------------------------------------

  /** The key mask a poll computes from the two button levels. */
  function KeyMask(button1: bool, button2: bool): (m: bv8)
    ensures (m & HAL_KEY_SW_1 != 0) == button1
    ensures (m & HAL_KEY_SW_2 != 0) == button2
    ensures m & !(HAL_KEY_SW_1 | HAL_KEY_SW_2) == 0
  {
    (if button1 then HAL_KEY_SW_1 else 0) | (if button2 then HAL_KEY_SW_2 else 0)
  }

  /** OnBoard_SendKeys: queues a key-change message for the task and raises
      its system-message event. */
  function SendKeys(s: AppState, keys: bv8, state: bv8): (r: AppState)
    ensures r.queue == s.queue + [KeyChange(state, keys)]
    ensures r.signalled & SYS_EVENT_MSG == SYS_EVENT_MSG
    ensures r.signalled & !SYS_EVENT_MSG == s.signalled & !SYS_EVENT_MSG
    ensures r.(queue := s.queue, signalled := s.signalled) == s
  {
    s.(queue := s.queue + [KeyChange(state, keys)], signalled := s.signalled | SYS_EVENT_MSG)
  }

  /** A poll queues a key change exactly when the fresh mask differs from
      the saved one, and always leaves the fresh mask saved. */
  function KeyPoll(s: AppState, button1: bool, button2: bool): (r: AppState)
    ensures r.savedKeys == KeyMask(button1, button2)
    ensures r.queue != s.queue <==> KeyMask(button1, button2) != s.savedKeys
    ensures KeyMask(button1, button2) != s.savedKeys ==>
      && r.queue == s.queue + [KeyChange(HAL_KEY_STATE_NORMAL, KeyMask(button1, button2))]
      && r.signalled == s.signalled | SYS_EVENT_MSG
    ensures KeyMask(button1, button2) == s.savedKeys ==> r == s
    ensures r.(savedKeys := s.savedKeys, queue := s.queue, signalled := s.signalled) == s
  {
    var keys := KeyMask(button1, button2);
    if keys == s.savedKeys then s
    else SendKeys(s.(savedKeys := keys), keys, HAL_KEY_STATE_NORMAL)
  }

  /** The timer-arming effect of the key interrupt: a 100 ms reloading
      key-poll timer and a 5000 ms one-shot long-press timer, each replacing
      any earlier instance; nothing else changes. */
  function KeyInterrupt(s: AppState): (r: AppState)
    ensures KeyPollEvt in r.timers && r.timers[KeyPollEvt] == Timer(KEY_POLL_MS, true)
    ensures LongPressEvt in r.timers
    ensures r.timers[LongPressEvt] == Timer(LONG_PRESS_MS, false)
    ensures r.timers - {KeyPollEvt, LongPressEvt} == s.timers - {KeyPollEvt, LongPressEvt}
    ensures r.(timers := s.timers) == s
  {
    StartTimer(StartReloadTimer(s, KeyPollEvt, KEY_POLL_MS), LongPressEvt, LONG_PRESS_MS)
  }

  // ---------------------------------------------------------------------
  // Long press and the leave path
  // ---------------------------------------------------------------------

  /** The modes a long press off the network asks BDB to run. */
  const JOIN_MODES: bv8 :=
    BDB_COMMISSIONING_MODE_NWK_FORMATION | BDB_COMMISSIONING_MODE_NWK_STEERING |
    BDB_COMMISSIONING_MODE_FINDING_BINDING | BDB_COMMISSIONING_MODE_INITIATOR_TL

  /** zclGenericApp_LeaveNetwork: reset the attributes, set the "default
      network state" startup option, send a zeroed leave request without
      rejoin, and fall back to a leave-reset without rejoin exactly when the
      request was not accepted. */
  function LeaveNetworkCommands(leaveStatus: bv8): (cmds: seq<Command>)
    ensures |cmds| == if leaveStatus != Z_SUCCESS then 4 else 3
    ensures cmds[..2] == [ResetAttributesToDefaults, SetStartupDefaultNetworkState]
    ensures cmds[2] == LeaveRequest(LeaveReq(false, false, false, false))
    ensures forall i :: 0 <= i < |cmds| && cmds[i].LeaveRequest? ==> i == 2
    ensures LeaveReset(false) in cmds <==> leaveStatus != Z_SUCCESS
    ensures forall i :: 0 <= i < |cmds| && cmds[i].LeaveReset? ==> i == 3 && !cmds[i].rejoin
    ensures forall i :: 0 <= i < |cmds| ==> !cmds[i].StartCommissioning?
  {
    [ResetAttributesToDefaults, SetStartupDefaultNetworkState, LeaveRequest(LeaveReq(false, false, false, false))]
    + (if leaveStatus != Z_SUCCESS then [LeaveReset(false)] else [])
  }

  /** The long-press action: on a network, the leave path; off it, one
      start-commissioning with formation, steering, finding-binding and the
      touchlink-initiator flag, and a 500 ms blink timer. */
  function LongPress(s: AppState, onNetwork: bool, leaveStatus: bv8): (r: AppState)
    ensures onNetwork ==> r.log == s.log + LeaveNetworkCommands(leaveStatus) && r.timers == s.timers
    ensures !onNetwork ==>
      && r.log == s.log + [StartCommissioning(JOIN_MODES)]
      && LedBlinkEvt in r.timers && r.timers[LedBlinkEvt] == Timer(LED_BLINK_MS, false)
      && r.timers - {LedBlinkEvt} == s.timers - {LedBlinkEvt}
    ensures r.(log := s.log, timers := s.timers) == s
  {
    if onNetwork then IssueAll(s, LeaveNetworkCommands(leaveStatus))
    else StartTimer(Issue(s, StartCommissioning(JOIN_MODES)), LedBlinkEvt, LED_BLINK_MS)
  }

  // ---------------------------------------------------------------------
  // Commissioning coordinator: zclGenericApp_ProcessCommissioningStatus
  // ---------------------------------------------------------------------

  datatype Reaction = NoReaction | Commission(modes: bv8) | ArmRejoin(delayMs: nat)

  /** The decision the commissioning callback makes: after a successful
      formation, steering plus exactly the remaining modes; in an end-device
      build, a parent loss that was not recovered arms the rejoin timer with
      the fixed delay; nothing for any other stage and status. */
  function CommissioningReaction(endDeviceBuild: bool, m: CommissioningMsg): (a: Reaction)
    ensures a.Commission? <==> m.stage == BDB_COMMISSIONING_FORMATION && m.status == BDB_COMMISSIONING_SUCCESS
    ensures a.Commission? ==>
      && a.modes & BDB_COMMISSIONING_MODE_NWK_STEERING != 0
      && a.modes & m.remaining == m.remaining
      && a.modes & !(BDB_COMMISSIONING_MODE_NWK_STEERING | m.remaining) == 0
    ensures a.ArmRejoin? <==>
      endDeviceBuild && m.stage == BDB_COMMISSIONING_PARENT_LOST && m.status != BDB_COMMISSIONING_NETWORK_RESTORED
    ensures a.ArmRejoin? ==> a.delayMs == GENERICAPP_END_DEVICE_REJOIN_DELAY
  {
    if m.stage == BDB_COMMISSIONING_FORMATION then
      if m.status == BDB_COMMISSIONING_SUCCESS
      then Commission(BDB_COMMISSIONING_MODE_NWK_STEERING | m.remaining)
      else NoReaction
    else if endDeviceBuild && m.stage == BDB_COMMISSIONING_PARENT_LOST then
      if m.status == BDB_COMMISSIONING_NETWORK_RESTORED then NoReaction
      else ArmRejoin(GENERICAPP_END_DEVICE_REJOIN_DELAY)
    else NoReaction
  }

  /** The callback's effect: the reaction carried out on the state. */
  function ProcessCommissioningStatus(s: AppState, m: CommissioningMsg): (r: AppState)
    ensures r.(log := s.log, timers := s.timers) == s
    ensures CommissioningReaction(s.endDeviceBuild, m).NoReaction? ==> r == s
    ensures CommissioningReaction(s.endDeviceBuild, m).Commission? ==>
      r.log == s.log + [StartCommissioning(BDB_COMMISSIONING_MODE_NWK_STEERING | m.remaining)] && r.timers == s.timers
    ensures CommissioningReaction(s.endDeviceBuild, m).ArmRejoin? ==>
      && r.log == s.log
      && r.timers == s.timers[RejoinEvt := Timer(GENERICAPP_END_DEVICE_REJOIN_DELAY, false)]
  {
    match CommissioningReaction(s.endDeviceBuild, m)
    case NoReaction => s
    case Commission(modes) => Issue(s, StartCommissioning(modes))
    case ArmRejoin(delayMs) => StartTimer(s, RejoinEvt, delayMs)
  }

  // ---------------------------------------------------------------------
  // Event-loop dispatcher: zclGenericApp_event_loop
  // ---------------------------------------------------------------------

  /** zclGenericApp_ProcessIncomingMsg: every command branch is empty; the
      attribute command buffer is freed when there is one. */
  function ProcessIncomingMsg(s: AppState, hasAttrCmd: bool): (r: AppState)
    ensures s.log <= r.log && r.(log := s.log) == s
    ensures |r.log| != |s.log| <==> hasAttrCmd
    ensures hasAttrCmd ==> r.log[|s.log|..] == [FreeAttrCmd]
    ensures Reports(r.log) == Reports(s.log) && Deallocated(r.log) == Deallocated(s.log)
  {
    if hasAttrCmd then Issue(s, FreeAttrCmd) else s
  }

  /** One message taken from the queue: dispatched by kind, then released
      exactly once whatever its kind. */
  function ProcessMessage(s: AppState, m: Msg, allocOk: bool): (r: AppState)
    ensures r.queue == s.queue && r.endDeviceBuild == s.endDeviceBuild
    ensures s.log <= r.log
    ensures Deallocated(r.log) == Deallocated(s.log) + [m]
    ensures r.nwkState == if m.ZdoStateChange? then m.status else s.nwkState
    ensures r.log == HandleMessage(s, m, allocOk).log + [Deallocate(m)]
    ensures r.(log := s.log) == HandleMessage(s, m, allocOk).(log := s.log)
  {
    Issue(HandleMessage(s, m, allocOk), Deallocate(m))
  }

  /** The handling of a message by the kind in its header: ZCL incoming
      messages, key changes and device-state changes have handlers; any
      other kind is ignored. */
  function HandleMessage(s: AppState, m: Msg, allocOk: bool): (r: AppState)
    ensures r.queue == s.queue && r.endDeviceBuild == s.endDeviceBuild
    ensures s.log <= r.log && Deallocated(r.log) == Deallocated(s.log)
    ensures r.nwkState == if m.ZdoStateChange? then m.status else s.nwkState
    ensures m.ZclIncoming? ==> r == ProcessIncomingMsg(s, m.hasAttrCmd)
    ensures m.KeyChange? ==> r == HandleKeys(s, m.state, m.keys, allocOk)
    ensures m.ZdoStateChange? ==> r == s.(nwkState := m.status)
    ensures m.OtherMsg? ==> r == s
  {
    match m
    case ZclIncoming(hasAttrCmd) => ProcessIncomingMsg(s, hasAttrCmd)
    case KeyChange(state, keys) => HandleKeys(s, state, keys, allocOk)
    case ZdoStateChange(status) => s.(nwkState := status)
    case OtherMsg(_) => s
  }

  /** The system-message branch: messages are taken from the queue in
      arrival order until it is empty, and each is released once. */
  function DrainQueue(s: AppState, allocOk: bool): (r: AppState)
    ensures r.queue == [] && r.endDeviceBuild == s.endDeviceBuild
    ensures s.queue == [] ==> r == s
    decreases |s.queue|
  {
    if s.queue == [] then s
    else DrainQueue(ProcessMessage(s.(queue := s.queue[1..]), s.queue[0], allocOk), allocOk)
  }

  /** The dispatcher hands back `events ^ bit` for a bit it found set: that
      clears exactly the bit, whatever else is set. */
  lemma XorClearsSetBit(events: bv16, bit: bv16)
    requires events & bit == bit
    ensures events ^ bit == events & !bit
  {
  }

  /** Rejoin event: ask BDB to recover the network. */
  function OnRejoin(s: AppState): (r: AppState)
    ensures r.log == s.log + [RecoverNetwork] && r.(log := s.log) == s
  {
    Issue(s, RecoverNetwork)
  }

  /** Blink event: toggle LED 2 and arm the next 500 ms blink. */
  function OnBlink(s: AppState): (r: AppState)
    ensures r.log == s.log + [SetLed2(LedToggle)]
    ensures LedBlinkEvt in r.timers && r.timers[LedBlinkEvt] == Timer(LED_BLINK_MS, false)
    ensures r.timers - {LedBlinkEvt} == s.timers - {LedBlinkEvt}
    ensures r.(log := s.log, timers := s.timers) == s
  {
    StartTimer(Issue(s, SetLed2(LedToggle)), LedBlinkEvt, LED_BLINK_MS)
  }

  /** Sleep event: ask the platform to sleep 10000 ms. */
  function OnSleep(s: AppState): (r: AppState)
    ensures r.log == s.log + [Sleep(SLEEP_MS)] && r.(log := s.log) == s
  {
    Issue(s, Sleep(SLEEP_MS))
  }

  /** The action the dispatcher takes for each timed event. */
  function Act(s: AppState, e: TaskEvent, inp: Inputs): (r: AppState)
    ensures r.endDeviceBuild == s.endDeviceBuild && r.nwkState == s.nwkState
    ensures r.seqNum == s.seqNum && r.ledOnOff == s.ledOnOff
    ensures s.log <= r.log
    ensures e != KeyPollEvt ==> r.queue == s.queue && r.savedKeys == s.savedKeys && r.signalled == s.signalled
    ensures e == KeyPollEvt ==> r.log == s.log && r.timers == s.timers
    ensures e == RejoinEvt ==> r == OnRejoin(s)
    ensures e == LedBlinkEvt ==> r == OnBlink(s)
    ensures e == GoToSleepEvt ==> r == OnSleep(s)
    ensures e == LongPressEvt ==> r == LongPress(s, inp.onNetwork, inp.leaveStatus)
    ensures e == KeyPollEvt ==> r == KeyPoll(s, inp.button1, inp.button2)
  {
    match e
    case RejoinEvt => OnRejoin(s)
    case LedBlinkEvt => OnBlink(s)
    case GoToSleepEvt => OnSleep(s)
    case LongPressEvt => LongPress(s, inp.onNetwork, inp.leaveStatus)
    case KeyPollEvt => KeyPoll(s, inp.button1, inp.button2)
  }

  /** Which branch of the dispatcher's if-chain an event word takes. */
  datatype Branch = SystemMessages | Timed(e: TaskEvent) | Idle

  /** The dispatcher's tests, in its order: the system-message bit first,
      then rejoin (end-device builds only), blink, sleep, long press and key
      poll; with none of them set, no branch. */
  function Selected(endDeviceBuild: bool, events: bv16): (b: Branch)
    ensures b == SystemMessages <==> events & SYS_EVENT_MSG != 0
    ensures b == Timed(RejoinEvt) ==> endDeviceBuild
    ensures b == Idle ==>
      events & (SYS_EVENT_MSG | HAL_LED_BLINK_EVENT | GENERICAPP_EVT_GO_TO_SLEEP | GENERICAPP_SW1_LONG_PRESS | HAL_KEY_EVENT) == 0
  {
    if events & SYS_EVENT_MSG != 0 then SystemMessages
    else if endDeviceBuild && events & GENERICAPP_END_DEVICE_REJOIN_EVT != 0 then Timed(RejoinEvt)
    else if events & HAL_LED_BLINK_EVENT != 0 then Timed(LedBlinkEvt)
    else if events & GENERICAPP_EVT_GO_TO_SLEEP != 0 then Timed(GoToSleepEvt)
    else if events & GENERICAPP_SW1_LONG_PRESS != 0 then Timed(LongPressEvt)
    else if events & HAL_KEY_EVENT != 0 then Timed(KeyPollEvt)
    else Idle
  }

  /** One invocation of the dispatcher with the event word OSAL delivers:
      the selected branch acts and hands back the word with its bit toggled
      off (`events ^ bit`); with no branch selected, 0 is handed back. */
  function EventLoop(s: AppState, events: bv16, inp: Inputs): (d: Dispatch)
    ensures d.state.endDeviceBuild == s.endDeviceBuild
    ensures events & SYS_EVENT_MSG != 0 ==> d.state.queue == [] && d.rest == events & !SYS_EVENT_MSG
    ensures events & SYS_EVENT_MSG != 0 ==> d.state == DrainQueue(s, inp.allocOk)
    ensures Selected(s.endDeviceBuild, events).Timed? ==>
      d.state == Act(s, Selected(s.endDeviceBuild, events).e, inp)
    ensures Selected(s.endDeviceBuild, events) == Idle ==> d == Dispatch(s, 0)
  {
    match Selected(s.endDeviceBuild, events)
    case SystemMessages =>
      XorClearsSetBit(events, SYS_EVENT_MSG);
      Dispatch(DrainQueue(s, inp.allocOk), events ^ SYS_EVENT_MSG)
    case Timed(e) => Dispatch(Act(s, e, inp), events ^ Bit(e))
    case Idle => Dispatch(s, 0)
  }
}
