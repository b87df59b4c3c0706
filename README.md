# Generic application controller of a Zigbee (Z-Stack) end device or router

This project models the controller in `Source/zcl_genericapp.c`. That file is the OSAL task of a
Z-Stack generic application. It does five things:

- Its event dispatcher `zclGenericApp_event_loop` drains the task's message queue.
- The dispatcher also handles one timed event per invocation, in a fixed priority order.
- It samples two buttons, and classifies key changes into press, release and long press.
- It sends an on/off attribute report with a wrapping 8-bit sequence number.
- It leaves or joins the network on a long press, and reacts to BDB commissioning notifications.

The model has five files:

- `zstack.dfy` (module `ZStack`): the constants and message shapes of the collaborators.
  These are OSAL event bits and timer durations, key-driver masks, BDB modes, stages and statuses,
  the leave request, the ZCL report, and the `Command` log entries. Each log entry is one effect the
  controller asks of a collaborator.
- `app_model.dfy` (module `AppModel`): the controller as a state-transition system.
  - `AppState` holds the file's variables: `halKeySavedKeys`, `zclGenericApp_NwkState`, the static
    `LED_OnOff` and `SeqNum`, the last as an explicit `uint8` wrapping modulo 256.
  - It also holds the task's OSAL timers and its pending event word.
  - It holds the message queue, and the log of effects issued so far.
  - One function per operation gives the state after it.
- `app_properties.dfy` (module `AppProperties`): lemmas relating operations to each other and to
  independent reference definitions:
  - the priority order of the dispatcher;
  - the series of key changes a series of samples should produce.
- `scheduler.dfy` (module `Scheduler`): the OSAL run loop around the task, as an environment.
  - A timer that expires raises its event.
  - One run of the task hands the dispatcher the whole event word, then merges back what it returns.
  - On top of that: the invariant `Valid` (only the controller's own timers, each with its fixed
    configuration), kept by every operation.
  - Multi-run scenarios: cancelling a long press, parent-loss recovery.
- `controller.dfy` (module `GenericApp`): class `Controller`, with the file's variables as fields.
  - Its methods update them in place.
  - Each method is proved to leave `Abs()` equal to the `AppModel` function for the same operation,
    so every lemma about the functions holds of the methods.

Modelling decisions:

- The build flag `ZG_BUILD_ENDDEVICE_TYPE` is a constant field (`endDeviceBuild`), so both builds
  are modelled. The rejoin branch of the dispatcher and the parent-lost case of the commissioning
  callback exist only when it is set.
- OSAL timers are a map keyed by event. Re-arming an event replaces its entry.
  - Timers are armed only by the key interrupt (`halProcessKeyInterrupt`), by the key handler's LED
    branch, by the blink and long-press branches, and by the parent-lost case.
  - Nothing in the application file arms the sleep event.
- Outside influences are parameters (`Inputs`):
  - the two button levels (`HAL_PUSH_BUTTON1/2`);
  - whether `osal_mem_alloc` of the report payload succeeds;
  - `bdbAttributes.bdbNodeIsOnANetwork`;
  - the status `NLME_LeaveReq` returns.
- The behaviour is modelled as written. These points look unintended:
  - `zclGenericApp_ReportOnOff` ignores its `endPoint` argument and always sends from the first
    simple descriptor's endpoint.
  - The key handler always reports `TRUE`, whatever the LED state.
  - A release processed in the same task run as an already-raised long-press event does not cancel
    it, because `osal_clear_event` cannot withdraw a bit already delivered to the dispatcher
    (`ReleaseInSameRunKeepsLongPress`).

## Model

| member | source | states |
|---|---|---|
| AppModel.Initial | Source/zcl_genericapp.c:53-56 | The start-up state (no saved keys, `DEV_INIT`, LED flag and `SeqNum` 0, no timers, empty queue) satisfies the invariant `Valid`. |
| GenericApp.Controller.constructor | Source/zcl_genericapp.c:53-56 | A new controller is in the start-up state. |
| AppModel.ReportOnOff | Source/zcl_genericapp.c:626-649 | Exactly one report, carrying the old `SeqNum`, is sent when the payload was allocated, and none otherwise. `SeqNum` then advances by 1 modulo 256. The payload is freed on both paths. The log gains exactly those entries, and nothing else changes. |
| AppProperties.ConsecutiveReportsNumbered | Source/zcl_genericapp.c:644-645 | Two successful reports carry sequence numbers n and n+1 mod 256, and leave n+2 mod 256. |
| GenericApp.Controller.ReportOnOff | Source/zcl_genericapp.c:626-649 | The in-place report leaves the state `AppModel.ReportOnOff` gives. |
| AppModel.Release | Source/zcl_genericapp.c:314-326 | The release branch removes the long-press and key-poll timers and withdraws their pending event bits. It zeroes the saved mask and changes nothing else. |
| GenericApp.Controller.CancelKeyTimers | Source/zcl_genericapp.c:314-326 | The four OSAL calls and the reset, done in place, give `Release`. |
| GenericApp.Controller.ReleaseSteps | Source/zcl_genericapp.c:317-323 | Stopping and clearing the two events one after the other equals `Release`. |
| AppModel.ToggleBlink | Source/zcl_genericapp.c:331-341 | The LED flag is negated. If it was set, the blink timer is stopped and LED 2 switched off. Otherwise a 500 ms blink timer is armed and LED 2 switched on. Other timers are untouched. |
| GenericApp.Controller.ToggleLed | Source/zcl_genericapp.c:331-341 | The in-place LED branch gives `ToggleBlink`. |
| AppModel.Press | Source/zcl_genericapp.c:328-342 | A button-1 press reports `TRUE` once, numbered with the old `SeqNum`, if allocation succeeds. `SeqNum` then advances by 1 modulo 256, and the payload is freed either way. The LED flag is negated, and the blink timer is stopped or armed (500 ms) to match. The last command is LED 2 off or on. Every other field is unchanged. |
| AppProperties.PressIssuesExactly | Source/zcl_genericapp.c:328-342 | A press issues exactly the report (when allocated), the payload free and the LED 2 command, in that order. |
| AppModel.HandleKeys | Source/zcl_genericapp.c:310-346 | Mask 0 is exactly `Release`. A mask with button 1 is exactly `Press`. Any other mask changes nothing. The queue, network state and released messages never change, and the log only grows. |
| GenericApp.Controller.HandleKeys | Source/zcl_genericapp.c:310-346 | The in-place key handler gives `AppModel.HandleKeys`. |
| AppModel.KeyMask | Source/zcl_genericapp.c:434-444 | Bit `HAL_KEY_SW_1` is set iff button 1 is down, `HAL_KEY_SW_2` iff button 2 is down, and no other bit is set. |
| GenericApp.Controller.SampleKeys | Source/zcl_genericapp.c:434-444 | The mask built with two `|=` steps has the same bits and equals `KeyMask`. |
| AppModel.KeyPoll | Source/zcl_genericapp.c:433-455 | The queue changes iff the fresh mask differs from the saved one. In that case one key change with `HAL_KEY_STATE_NORMAL` is queued and `SYS_EVENT_MSG` raised. Otherwise the state is unchanged. The fresh mask is always saved. |
| AppProperties.KeyPollIdempotent | Source/zcl_genericapp.c:446-451 | A second poll with the same levels changes nothing. |
| AppProperties.PollSeriesEmitsExactlyTheChanges | Source/zcl_genericapp.c:433-455 | Over any series of samples, the queued key changes are exactly those of the reference `Changes`, one per sample whose mask differs from the previous mask. |
| AppProperties.PressAndReleaseScenario | Source/zcl_genericapp.c:433-455 | Masks 0, 1, 1, 0 from a released state queue exactly one press and one release. |
| GenericApp.Controller.HalKeyPoll | Source/zcl_genericapp.c:433-455 | The in-place poll gives `AppModel.KeyPoll`. |
| AppModel.SendKeys | Source/zcl_genericapp.c:454 | One key change is queued, the system-message bit is set, every other event bit is unchanged, and nothing else changes. |
| GenericApp.Controller.SendKeys | Source/zcl_genericapp.c:454 | The in-place send gives `AppModel.SendKeys`. |
| AppModel.KeyInterrupt | Source/zcl_genericapp.c:392-411 | A 100 ms reloading key-poll timer and a 5000 ms one-shot long-press timer are armed, each replacing any earlier one. No other timer and nothing else changes. |
| GenericApp.Controller.KeyInterrupt | Source/zcl_genericapp.c:407-410 | The in-place interrupt gives `AppModel.KeyInterrupt`. |
| AppModel.LeaveNetworkCommands | Source/zcl_genericapp.c:289-308 | Reset attributes, set the default-network-state startup option, then one all-zero leave request without rejoin. A `LeaveReset(FALSE)` follows iff the request was not accepted, and nothing else: the list has 4 commands then, 3 otherwise. Nothing starts commissioning. |
| GenericApp.Controller.LeaveNetwork | Source/zcl_genericapp.c:289-308 | The in-place leave appends exactly `LeaveNetworkCommands`. |
| AppModel.LongPress | Source/zcl_genericapp.c:260-274 | On a network: exactly the leave commands, timers untouched. Off a network: one commissioning start with formation, steering, finding-binding and touchlink-initiator, and a 500 ms blink timer. |
| GenericApp.Controller.LongPress | Source/zcl_genericapp.c:260-274 | The in-place long press gives `AppModel.LongPress`. |
| AppModel.CommissioningReaction | Source/zcl_genericapp.c:456-509 | Commissioning starts iff formation succeeded, with steering plus exactly the remaining modes. The rejoin timer is armed, with the fixed delay, iff an end-device build lost its parent and did not recover. |
| AppModel.ProcessCommissioningStatus | Source/zcl_genericapp.c:456-509 | No reaction leaves the state unchanged. A commission reaction appends one start. An arm reaction sets the rejoin timer only. |
| GenericApp.Controller.ProcessCommissioningStatus | Source/zcl_genericapp.c:456-509 | The in-place callback gives `AppModel.ProcessCommissioningStatus`. |
| Scheduler.ParentLostLeadsToRecovery | Source/zcl_genericapp.c:497-506 | After an unrecovered parent loss in an end-device build, the rejoin timer is armed. When it expires, the next run issues exactly one network recovery. |
| AppModel.ProcessIncomingMsg | Source/zcl_genericapp.c:525-571 | The attribute command is freed exactly once iff there is one. Nothing else happens. |
| GenericApp.Controller.ProcessIncomingMsg | Source/zcl_genericapp.c:569-570 | The in-place handler gives `AppModel.ProcessIncomingMsg`. |
| AppModel.HandleMessage | Source/zcl_genericapp.c:211-227 | Each kind reaches its handler. A ZCL message is exactly `ProcessIncomingMsg` with its attribute-command flag. A key change is exactly `HandleKeys` with its state and mask. A state change only overwrites the network state with its status. Any other kind changes nothing. The queue and the released messages are untouched. |
| GenericApp.Controller.HandleMessage | Source/zcl_genericapp.c:211-227 | The in-place dispatch gives `AppModel.HandleMessage`. |
| AppModel.ProcessMessage | Source/zcl_genericapp.c:211-230 | The message is first handled by `HandleMessage`, then released: the log is the handler's log plus one `Deallocate` of the message, and every other field is the handler's. So each message taken is released exactly once, whatever its kind. |
| GenericApp.Controller.ProcessMessage | Source/zcl_genericapp.c:211-230 | The in-place step gives `AppModel.ProcessMessage`. |
| AppModel.DrainQueue | Source/zcl_genericapp.c:210-231 | Messages are received until the queue is empty; with an empty queue nothing changes. |
| AppProperties.DrainStep | Source/zcl_genericapp.c:210-231 | Draining a non-empty queue is `ProcessMessage` of the oldest message on the rest of the queue, followed by draining what is left. That step releases exactly that message. |
| AppProperties.DrainReleasesEachMessageOnce | Source/zcl_genericapp.c:210-231 | Draining releases every queued message exactly once, in arrival order, and only appends to the log. |
| AppProperties.DrainKeepsLastNetworkState | Source/zcl_genericapp.c:221-223 | After draining, the network state is the status of the last state-change message, or unchanged if there was none. |
| AppProperties.LastStateStep | Source/zcl_genericapp.c:221-223 | The step of that induction on the network-state values alone: the first message, then the rest of the queue, leave the last state change's status. |
| GenericApp.Controller.DrainQueue | Source/zcl_genericapp.c:210-231 | The receive loop gives `AppModel.DrainQueue`. |
| GenericApp.Controller.ReceiveOne | Source/zcl_genericapp.c:210-230 | One turn of the loop takes the oldest message and gives `AppModel.ProcessMessage` on the rest of the queue. |
| AppModel.XorClearsSetBit | Source/zcl_genericapp.c:234 | Returning `events ^ bit` for a set bit clears exactly that bit. |
| AppProperties.SystemMessagesDrainTheQueue | Source/zcl_genericapp.c:209-235 | With `SYS_EVENT_MSG` set, the dispatcher empties the queue, releases each message once in order, and leaves the network state to the last state change. It returns the word with only `SYS_EVENT_MSG` cleared. Its new state does not depend on any other bit, so no timed branch runs. |
| AppModel.EventLoop | Source/zcl_genericapp.c:200-286 | The build flag never changes. With `SYS_EVENT_MSG` set, the new state is exactly `DrainQueue` (so the queue ends empty), and the returned word is the delivered one with only that bit cleared. When a timed event is selected, the new state is exactly that event's `Act`. With nothing selected, the state is unchanged and 0 is returned. Which event is selected, and what a drained message does, are stated by `SelectedIsFirstPending`, `EventLoopActsOnFirstPending`, `SystemMessagesDrainTheQueue` and the `HandleMessage` contract. |
| AppModel.Selected | Source/zcl_genericapp.c:209-285 | The system-message branch is taken iff its bit is set. The rejoin branch is taken only in end-device builds. No branch is taken only when none of the bits of the other branches are set. `SelectedIsFirstPending` states the order. |
| AppModel.Act | Source/zcl_genericapp.c:238-282 | Each timed event reaches its handler: rejoin is exactly `OnRejoin`, blink `OnBlink`, sleep `OnSleep`, long press `LongPress` with the on-network flag and leave status, key poll `KeyPoll` with the button levels. No timed branch changes the build flag, the network state, `SeqNum` or the LED flag, and the log only grows. Every branch but the key poll leaves the queue, saved mask and event word alone. The key poll issues no command and arms no timer. |
| AppModel.OnRejoin | Source/zcl_genericapp.c:239 | Exactly one network-recovery request is issued, and nothing else changes. |
| AppModel.OnBlink | Source/zcl_genericapp.c:248-249 | LED 2 is toggled and a 500 ms one-shot blink timer is armed, replacing any earlier one. Other timers and everything else are unchanged. |
| AppModel.OnSleep | Source/zcl_genericapp.c:255-256 | Exactly one 10000 ms sleep request is issued, and nothing else changes. |
| AppProperties.SelectedIsFirstPending | Source/zcl_genericapp.c:237-285 | Without `SYS_EVENT_MSG`, the dispatcher's if-chain selects the first pending event of the priority order (rejoin only in end-device builds, then blink, sleep, long press, key poll), or nothing. |
| AppProperties.SelectedIsPending | Source/zcl_genericapp.c:237-282 | Only an event whose bit is set is handled. |
| AppProperties.EventLoopActsOnFirstPending | Source/zcl_genericapp.c:237-285 | Without `SYS_EVENT_MSG`, the dispatcher equals the reference `PriorityDispatch`. That reference handles exactly one event, the first pending one, and returns the word with that bit cleared and every other bit unchanged. If no bit is pending it returns 0. |
| AppProperties.PendingBitToggledOff | Source/zcl_genericapp.c:240-281 | `events ^ bit` on a pending event's bit equals clearing that bit alone. |
| AppProperties.FirstPendingIsPending | Source/zcl_genericapp.c:237-282 | The event the priority order picks is pending. |
| AppProperties.FirstPendingIsHighestPriority | Source/zcl_genericapp.c:237-282 | A pending event with nothing pending before it is the one picked. |
| AppProperties.FirstPendingNoneIffNonePending | Source/zcl_genericapp.c:284-285 | Nothing is picked iff no event of the order is pending. |
| GenericApp.Controller.EventLoop | Source/zcl_genericapp.c:200-286 | The in-place dispatcher leaves the state, and returns the word, that `AppModel.EventLoop` gives. |
| GenericApp.Controller.Act | Source/zcl_genericapp.c:238-282 | Each timed branch's in-place action gives `AppModel.Act`. |
| GenericApp.Controller.OnRejoin | Source/zcl_genericapp.c:238-241 | Asks BDB to recover the network. |
| GenericApp.Controller.OnBlink | Source/zcl_genericapp.c:246-252 | Toggles LED 2 and re-arms the 500 ms blink timer. |
| GenericApp.Controller.OnSleep | Source/zcl_genericapp.c:254-258 | Asks the platform to sleep 10000 ms. |
| Scheduler.FireTimer | Source/zcl_genericapp.c:408-409 | An expiring timer raises its event's bit and no other bit. A one-shot timer disappears and a reloading one stays. |
| Scheduler.ReportOnOffKeepsValid | Source/zcl_genericapp.c:626-649 | Reporting keeps `Valid`. |
| Scheduler.HandleKeysKeepsValid | Source/zcl_genericapp.c:310-346 | The key handler keeps `Valid`. |
| Scheduler.ReleaseKeepsValid | Source/zcl_genericapp.c:314-326 | The release branch keeps `Valid`. |
| Scheduler.PressKeepsValid | Source/zcl_genericapp.c:328-342 | The button-1 branch keeps `Valid`. |
| Scheduler.ToggleBlinkKeepsValid | Source/zcl_genericapp.c:331-341 | The LED branch keeps `Valid`. |
| Scheduler.KeyPollKeepsValid | Source/zcl_genericapp.c:433-455 | A poll keeps `Valid`, including the saved mask holding only the two button bits. |
| Scheduler.KeyInterruptKeepsValid | Source/zcl_genericapp.c:407-410 | The interrupt keeps `Valid`. |
| Scheduler.LongPressKeepsValid | Source/zcl_genericapp.c:260-274 | The long-press branch keeps `Valid`. |
| Scheduler.IssueKeepsValid | Source/zcl_genericapp.c:239 | Issuing a command to a collaborator keeps `Valid`. |
| Scheduler.OnBlinkKeepsValid | Source/zcl_genericapp.c:246-252 | The blink branch keeps `Valid`. |
| Scheduler.ProcessCommissioningStatusKeepsValid | Source/zcl_genericapp.c:497-506 | The rejoin timer is armed only in end-device builds, with its fixed delay. |
| Scheduler.ProcessMessageKeepsValid | Source/zcl_genericapp.c:211-230 | Handling and releasing one message keeps `Valid`. |
| Scheduler.HandleMessageKeepsValid | Source/zcl_genericapp.c:211-227 | Every message kind's handler keeps `Valid`. |
| Scheduler.DrainQueueKeepsValid | Source/zcl_genericapp.c:210-231 | Draining keeps `Valid`. |
| Scheduler.ActKeepsValid | Source/zcl_genericapp.c:238-282 | Every timed branch keeps `Valid`. |
| Scheduler.EventLoopKeepsValid | Source/zcl_genericapp.c:200-286 | Whatever word it is handed, the dispatcher keeps `Valid`. |
| Scheduler.FireTimerKeepsValid | Source/zcl_genericapp.c:408-409 | Timer expiry keeps `Valid`. |
| Scheduler.RunTaskKeepsValid | Source/zcl_genericapp.c:200-286 | A whole run of the task keeps `Valid`. |
| Scheduler.ReleaseCancelsLongPress | Source/zcl_genericapp.c:314-321 | A release leaves no long-press timer and no pending long-press bit. |
| Scheduler.ProcessMessageKeepsNoLongPress | Source/zcl_genericapp.c:211-230 | No message handler arms or raises a long press. |
| Scheduler.PressKeepsNoLongPress | Source/zcl_genericapp.c:328-342 | The button-1 branch does not arm or raise a long press. |
| Scheduler.DrainQueueKeepsNoLongPress | Source/zcl_genericapp.c:210-231 | Draining does not arm or raise a long press. |
| Scheduler.ActKeepsNoLongPress | Source/zcl_genericapp.c:238-258 | No timed branch other than the long press arms or raises one. |
| Scheduler.EventLoopKeepsNoLongPress | Source/zcl_genericapp.c:200-286 | Handed a word without the long-press bit, the dispatcher neither arms, raises nor returns one. |
| Scheduler.OtherEventBit | Source/zcl_genericapp.c:238-282 | Every other event's bit is apart from the long-press bit. |
| Scheduler.RunTaskKeepsNoLongPress | Source/zcl_genericapp.c:200-286 | Once cancelled, a long press stays cancelled across task runs. |
| Scheduler.FireTimerKeepsNoLongPress | Source/zcl_genericapp.c:408-409 | Once cancelled, a long press stays cancelled across timer expiries, until the next key interrupt. |
| Scheduler.ReleaseInSameRunKeepsLongPress | Source/zcl_genericapp.c:209-274 | A release processed in the run that was also handed the long-press bit stops the timers and resets the mask. The long-press bit still comes back, and the next run leaves (on a network) or starts commissioning (off one). |
| Scheduler.DrainOfRelease | Source/zcl_genericapp.c:314-326 | Draining a queue holding only a release stops both key timers, resets the mask and raises nothing. |
| Scheduler.LongPressRun | Source/zcl_genericapp.c:260-274 | A run handed only the long-press bit issues exactly the long-press commands. |

## Left out

- `GenericApp_HalKeyInit` and the interrupt service routines' register writes: hardware configuration with no effect on the modelled state.
- `zclGenericApp_Init` is not modelled. It registers the endpoints, callbacks and key events, then starts commissioning with formation, steering and finding-binding. The model starts from the state after these static initialisers; the registrations and that first commissioning request are outside it.
- `zclGenericApp_BasicResetCB` is not modelled. It resets the attributes to their defaults when a Basic-cluster reset command arrives, which only the ZCL layer can trigger.
- The callback tables and the empty callbacks (`BindNotification`, `BatteryWarningCB`) are not modelled: they have no effect on the modelled state.
- Debug output (`LREP`, `LREPMaster`, `sprintf`): no effect on state.
- The ZCL response handlers selected in `zclGenericApp_ProcessIncomingMsg` (read, write, default and discover responses) have empty bodies; only the final free of the attribute command is modelled.
- `halSleep(10000)` appears only as a `Sleep(10000)` entry in the log; the platform's sleep is not modelled.
- OSAL, BDB, NLME, ZDApp and ZCL internals are not modelled.
  - Their calls are log entries.
  - Their results are inputs: allocation success, `bdbNodeIsOnANetwork`, the `NLME_LeaveReq` status.
- The OSAL run loop itself is an environment assumption in `Scheduler`: a timer raises its event, and a run delivers and clears the whole word.
- Interrupt concurrency and real time are not modelled. An interrupt is an operation between runs, and a timer expires when `FireTimer` is applied.
- One allocation outcome per dispatcher invocation: every report in one drain sees the same `allocOk`.
- The `OnBoard_SendKeys` message allocation is not modelled; it is assumed to succeed.
- The header files and `zcl_genericapp_data.c` are not part of this model. Assumed values:
  - the application event bits (`0x0010`, `0x0020`, `0x0040`), each a distinct single bit;
  - the simple-descriptor endpoints `[1, 2]`;
  - the rejoin delay of 10000 ms.
- The report's frame direction and the destination address mode are not recorded in `Report`.
- The shift byte of a key change is passed along but unused, as in the source.
