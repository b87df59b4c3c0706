/** Constants and message shapes of the Z-Stack collaborators that the
    generic application controller talks to: the OSAL event word and timers,
    the key driver, the base-device-behaviour (BDB) commissioning layer, the
    network layer and the ZCL reporting call.  Only what the controller
    reads or produces is described; the collaborators themselves are not
    modelled. */
module ZStack {

  // ---------------------------------------------------------------------
  // OSAL event word of the application task (16 bits)
  // ---------------------------------------------------------------------

  /** Raised by OSAL whenever a message is queued for the task. */
  const SYS_EVENT_MSG: bv16 := 0x8000
  /** Key-poll event (periodic while a key is down). */
  const HAL_KEY_EVENT: bv16 := 0x0001
  /** LED blink event (re-armed by its own handler). */
  const HAL_LED_BLINK_EVENT: bv16 := 0x0002
  /** Application events; their header is not part of this model, so the
      values are assumed to be distinct single bits. */
  const GENERICAPP_END_DEVICE_REJOIN_EVT: bv16 := 0x0010
  const GENERICAPP_EVT_GO_TO_SLEEP: bv16 := 0x0020
  const GENERICAPP_SW1_LONG_PRESS: bv16 := 0x0040

  // ---------------------------------------------------------------------
  // Timer durations (milliseconds)
  // ---------------------------------------------------------------------

  const KEY_POLL_MS: nat := 100
  const LONG_PRESS_MS: nat := 5000
  const LED_BLINK_MS: nat := 500
  const GENERICAPP_END_DEVICE_REJOIN_DELAY: nat := 10000
  const SLEEP_MS: nat := 10000

  /** The task's own events, by name. */
  datatype TaskEvent = KeyPollEvt | LedBlinkEvt | RejoinEvt | GoToSleepEvt | LongPressEvt

  /** The bit of the event word that stands for each event. */
  function Bit(e: TaskEvent): bv16
  {
    match e
    case KeyPollEvt => HAL_KEY_EVENT
    case LedBlinkEvt => HAL_LED_BLINK_EVENT
    case RejoinEvt => GENERICAPP_END_DEVICE_REJOIN_EVT
    case GoToSleepEvt => GENERICAPP_EVT_GO_TO_SLEEP
    case LongPressEvt => GENERICAPP_SW1_LONG_PRESS
  }

  /** An OSAL timer for one event of the task: its duration and whether it
      reloads after firing. */
  datatype Timer = Timer(timeoutMs: nat, reload: bool)

  // ---------------------------------------------------------------------
  // Key driver
  // ---------------------------------------------------------------------

  const HAL_KEY_SW_1: bv8 := 0x01
  const HAL_KEY_SW_2: bv8 := 0x02
  const HAL_KEY_STATE_NORMAL: bv8 := 0x00

  // ---------------------------------------------------------------------
  // BDB commissioning
  // ---------------------------------------------------------------------

  /** Commissioning mode flags passed to bdb_StartCommissioning. */
  const BDB_COMMISSIONING_MODE_INITIATOR_TL: bv8 := 0x01
  const BDB_COMMISSIONING_MODE_NWK_STEERING: bv8 := 0x02
  const BDB_COMMISSIONING_MODE_NWK_FORMATION: bv8 := 0x04
  const BDB_COMMISSIONING_MODE_FINDING_BINDING: bv8 := 0x08

  /** Stage codes carried by a commissioning-status notification. */
  const BDB_COMMISSIONING_INITIALIZATION: bv8 := 0
  const BDB_COMMISSIONING_NWK_STEERING: bv8 := 1
  const BDB_COMMISSIONING_FORMATION: bv8 := 2
  const BDB_COMMISSIONING_FINDING_BINDING: bv8 := 3
  const BDB_COMMISSIONING_TOUCHLINK: bv8 := 4
  const BDB_COMMISSIONING_PARENT_LOST: bv8 := 5

  /** Status codes carried by a commissioning-status notification. */
  const BDB_COMMISSIONING_SUCCESS: bv8 := 0
  const BDB_COMMISSIONING_NETWORK_RESTORED: bv8 := 13

  /** A commissioning-status notification: the stage it reports on, its
      status, and the modes that are still to run. */
  datatype CommissioningMsg = CommissioningMsg(stage: bv8, status: bv8, remaining: bv8)

  // ---------------------------------------------------------------------
  // Network layer, device state, ZCL
  // ---------------------------------------------------------------------

  /** An unsigned 8-bit counter value; arithmetic on it wraps explicitly. */
  type uint8 = x: int | 0 <= x < 0x100

  const Z_SUCCESS: bv8 := 0
  const DEV_INIT: bv8 := 1

  const ZCL_CLUSTER_ID_GEN_ON_OFF: bv16 := 0x0006
  const ATTRID_ON_OFF: bv16 := 0x0000
  const ZCL_DATATYPE_BOOLEAN: bv8 := 0x10

  /** Endpoints of the application's simple descriptors, in table order
      (the data file that declares them is not part of this model). */
  const SIMPLE_DESC_ENDPOINTS: seq<bv8> := [1, 2]

  /** A message taken from the task's OSAL queue, by the kind in its header. */
  datatype Msg =
    | ZclIncoming(hasAttrCmd: bool)       // ZCL foundation command/response
    | KeyChange(state: bv8, keys: bv8)    // sent by the key driver
    | ZdoStateChange(status: bv8)         // new device (network) state
    | OtherMsg(event: bv8)                // any other kind: ignored

  /** The leave request handed to the network layer. */
  datatype LeaveReq = LeaveReq(extAddrGiven: bool, removeChildren: bool, rejoin: bool, silent: bool)

  /** A single-attribute ZCL report as submitted to the ZCL layer. */
  datatype Report = Report(
    srcEndpoint: bv8,
    dstShortAddr: bv16,
    dstEndpoint: bv8,
    clusterId: bv16,
    attrId: bv16,
    dataType: bv8,
    value: bool,
    disableDefaultRsp: bool,
    seqNum: uint8)

  datatype LedMode = LedOff | LedOn | LedToggle

  /** Effects the controller asks of its collaborators, in the order it
      asks for them. */
  datatype Command =
    | StartCommissioning(modes: bv8)
    | RecoverNetwork
    | ResetAttributesToDefaults
    | SetStartupDefaultNetworkState
    | LeaveRequest(req: LeaveReq)
    | LeaveReset(rejoin: bool)
    | Sleep(ms: nat)
    | SetLed2(mode: LedMode)
    | SendReport(report: Report)
    | FreeReportPayload(wasAllocated: bool)
    | FreeAttrCmd
    | Deallocate(msg: Msg)
}
