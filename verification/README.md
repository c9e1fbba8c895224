# Boot sequencer of the CC2640 simple-peripheral firmware

This project models `Startup/main.c`, the startup code of a BLE peripheral
application on a CC2640/CC1350 part running TI-RTOS. It covers:

- `main`, which registers the stack-assert callback, initialises the board,
  reads the reset source and picks one of two paths. On a wake from shutdown
  it opens the GPIO and RF-switch pins, sets the cache and power policy,
  initialises ICall and creates the protocol tasks. On any other reset source
  it constructs a task that re-arms the wake-up button and shuts the device
  down again. Both paths end by starting the RTOS.
- `taskFxn`, the shutdown task.
- `AssertHandler`, the callback for asserts raised by the stack.
- `smallErrorHook`, the RTOS error hook.
- `rFSwitchNotifyCb`, the power-notify callback that powers the external RF
  switch down on entering standby and up again on waking.

Every call the firmware makes into drivers, the RTOS, the stack or hardware
registers is one `Action` appended to a trace. The compile-time switches
(`CACHE_AS_RAM`, `POWER_SAVING`, `USE_FPGA`, `CC1350_LAUNCHXL`, `ICALL_JT`,
`Display_DISABLE_ALL`) form a `BuildConfig`. An infinite loop (the spin after
`Power_shutdown`, `HAL_ASSERT_SPINLOCK`, the error hook) is the phase `Halted`.

The project has five modules:

- `Platform` (platform.dfy): the trace alphabet, the pin tables and an
  occurrence count.
- `Boot` (boot.dfy): `main` and `taskFxn` as specification functions over
  traces, and the properties the boot sequence promises.
- `StackAssert` (assert_handler.dfy): the decision table of `AssertHandler`
  and its display output, for one assert and for a series of them.
- `RfSwitch` (rf_switch.dfy): the RF-switch callback and its effect over a
  series of power events.
- `Startup` (device.dfy): class `Device`. It holds the globals of `main.c`
  (`rSrc`, the pin handles, the display handle, the copied user
  configuration), and one method per function of the file changes them step
  by step. Each method is proved to produce exactly the trace and state that
  the specification functions give. The invariant `Device.Valid` ties the
  globals together: a registered callback implies an open RF-switch handle,
  a held RF-switch handle implies the switch pins are driven, and a shutdown
  task exists only after a reset source other than wake-from-shutdown.

The comment at `main.c:215` says "If not coming from shutdown, use special
gpio table", but the code opens `BoardGpioInitTable` and runs the whole
activation path only when the reset source IS wake-from-shutdown. The model
follows the code.

## Model

| member | source | states |
|---|---|---|
| Boot.ActivationStep | Startup/main.c:218-271 | Step k (1 to 10) of the wake-from-shutdown branch, as the build switches select it: the GPIO table and DIO0; the RF switch open and, with POWER_SAVING, the notify registration; SET_RFC_BLE_MODE; the retention constraints or the VIMS calls; the two disallow constraints; the two user-configuration writes; ICall_init; and the three task creations. Any other k is no step. |
| Boot.StepsThrough | Startup/main.c:218-271 | The calls of activation steps 1 to k, in source order. |
| Boot.ActivationTrace | Startup/main.c:216-272 | The calls of the whole wake-from-shutdown branch: all ten steps. |
| Boot.BootBody | Startup/main.c:216-282 | The branch main takes on the reset source: the activation path on wake-from-shutdown, otherwise the single Task_construct of the shutdown task. |
| Boot.BootTrace | Startup/main.c:199-288 | Every call main makes: the FPGA register clears, RegisterAssertCback, Board_initGeneral, the reset-source read, the branch, then BIOS_start. |
| Boot.ShutdownTaskTrace | Startup/main.c:170-180 | The calls of taskFxn: PINCC26XX_setWakeup(ButtonTableWakeUp), then Power_shutdown. |
| Boot.CycleTrace | Startup/main.c:170-288 | One power cycle from reset: main, followed on sources other than wake-from-shutdown by the shutdown task the scheduler then runs. |
| Boot.CyclePhase | Startup/main.c:170-288 | Where a cycle ends: running after a wake from shutdown; otherwise shut down, or spinning in taskFxn's `while (1)` if Power_shutdown returns. |
| Boot.ActivationUnfolded | Startup/main.c:218-271 | The wake-from-shutdown branch runs, in this order: GPIO table and DIO0, RF switch, RFC mode, cache policy, disallow constraints, user-configuration copy, ICall_init, remote tasks, GAP role task, application task. |
| Boot.ActivationOrder | Startup/main.c:218-271 | Every action of the activation path belongs to one of the ten steps, and steps never go back whatever the flags. The path begins with PIN_open of the board table and DIO0 high, ends with ICall_init and the three task creations, and each of those four happens exactly once. |
| Boot.CachePolicyExclusive | Startup/main.c:239-248 | With CACHE_AS_RAM, each retention constraint is set exactly once and no VIMS call of any kind is made. Otherwise VIMSConfigure(prefetch) and VIMSModeSet(ENABLED) happen once each, the second directly after the first, and neither retention constraint is set. |
| Boot.FlagDependentSteps | Startup/main.c:222-261 | Each flag-dependent step runs if and only if its condition holds: the disallow constraints iff !POWER_SAVING or USE_FPGA; the RF switch open iff CC1350_LAUNCHXL; the standby notify iff CC1350_LAUNCHXL and POWER_SAVING; the RFC mode iff USE_FPGA; the tick-period and max-msec copy, with the values handed in, iff ICALL_JT. Every notify registration is for exactly the standby enter and exit events. |
| Boot.PathExclusivity | Startup/main.c:202-285 | After the FPGA register clears, both paths run the assert registration, board init and reset-source read. The reset source is read once. Activation steps occur iff the source is wake-from-shutdown. The shutdown task is constructed exactly once on other sources and never on wake. The trace ends in a single BIOS_start. For other sources the whole trace is given exactly. |
| Boot.ShutdownPath | Startup/main.c:170-180 | On a source other than wake-from-shutdown, the cycle is main's short path, then PINCC26XX_setWakeup with exactly button 0 (pull-up, falling edge), then Power_shutdown, with no activation step anywhere. |
| Boot.WakeupNoShutdown | Startup/main.c:216-272 | On wake-from-shutdown the cycle never arms a wake table and never asks for shutdown. |
| Boot.RadCtrlDefaults | Startup/main.c:143-147 | Opening radCtrlCfg drives DIO1 low (2.4 GHz path) and DIO30 high (switch powered) and leaves every other pin alone. |
| Boot.ScenarioPlainWakeup | Startup/main.c:199-288 | For a build with every switch off, the wake-from-shutdown trace of main is given action by action. |
| StackAssert.Classify | Startup/main.c:340-397 | The switch of AssertHandler: for each cause, and for internal errors the subcause, the message line shown and whether HAL_ASSERT_SPINLOCK follows. |
| StackAssert.AssertTrace | Startup/main.c:329-397 | The display calls of one assert: none with Display_DISABLE_ALL; otherwise Display_open when no handle is held, then the banner, the error header and the cause's message. |
| StackAssert.AssertSeries | Startup/main.c:327-400 | The display calls of a series of asserts, with the handle kept from one to the next, up to and including the first assert that spins. |
| StackAssert.Dispositions | Startup/main.c:340-397 | The handler returns for out-of-memory and internal errors and spins for every other cause, unrecognised ones included. The subcause never changes whether it spins. It changes the message only for internal errors, and the FW message appears iff the subcause is FW_INERNAL_ERROR. |
| StackAssert.MessageIdentifiesFault | Startup/main.c:340-397 | Reading the displayed message back gives the fault class of the assert. |
| StackAssert.DistinctFaultsDistinctMessages | Startup/main.c:340-397 | Asserts of different fault classes never show the same message. |
| StackAssert.AssertDisplay | Startup/main.c:329-397 | With Display_DISABLE_ALL nothing is shown. Otherwise the assert makes exactly three display calls when a handle is held and four when none is: Display_open comes first and only when no handle is held, and the banner, the error header and the cause's message follow. |
| StackAssert.DisplayOpenedOnce | Startup/main.c:329-334 | Over any series of asserts, Display_open is called exactly once if the display is compiled in, no handle was held and some assert was raised; otherwise never. |
| StackAssert.BannerPerAssert | Startup/main.c:336 | Over any series of asserts, the banner is shown once per assert handled, up to and including the first one that spins. |
| RfSwitch.PinWrites | Startup/main.c:441-450 | The pin writes of one notification: DIO30 low on entering standby, DIO30 high on waking, none for any other event. |
| RfSwitch.SwitchPowerAfter | Startup/main.c:441-450 | The switch-power level after one notification, given the level before it. |
| RfSwitch.NotifyWrites | Startup/main.c:441-453 | The callback drives only DIO30: low on entering standby, high on waking, nothing for other events. DIO1 (path select) is never driven. |
| RfSwitch.LevelIsLastTransition | Startup/main.c:441-453 | After any series of power events, the switch-power level is set by the last standby transition (low if entering, high if waking), or unchanged if there was none. |
| RfSwitch.WritesFollowEvents | Startup/main.c:438-454 | Running the callback for each event of a series drives DIO30 to the level of the series and changes no other pin. |
| RfSwitch.StandbyRoundTrip | Startup/main.c:449-452 | Any series of events that ends with a wake from standby leaves the RF switch powered. |
| Startup.ActivationPins | Startup/main.c:218-231 | The pin levels after the activation path: DIO0 driven high, then, with CC1350_LAUNCHXL, the levels radCtrlCfg drives. |
| Startup.ActivationPinLevels | Startup/main.c:218-231 | After activation, DIO0 is high. With the RF switch present, DIO1 is low and DIO30 high. No other pin changes. |
| Startup.Device.constructor | Startup/main.c:119-127 | The power-on state of the globals: no handles open, no reset source read, nothing registered or constructed, empty trace. |
| Startup.Device.OpenBoardPins | Startup/main.c:218-220 | Appends PIN_open(BoardGpioInitTable) and DIO0 high, holds the pin handle and sets DIO0 high. |
| Startup.Device.EnableRfSwitch | Startup/main.c:222-231 | Appends the RF-switch step. With CC1350_LAUNCHXL it opens radCtrlCfg and holds radCtrlHandle; with POWER_SAVING as well, it registers the callback. |
| Startup.Device.SelectRfcMode | Startup/main.c:233-237 | Appends SET_RFC_BLE_MODE on FPGA builds only. |
| Startup.Device.ApplyCachePolicy | Startup/main.c:239-248 | Appends the retention constraints or the VIMS configuration, as CACHE_AS_RAM selects. |
| Startup.Device.DisallowPowerDown | Startup/main.c:250-255 | Appends SB_DISALLOW and IDLE_PD_DISALLOW unless power saving is on without FPGA. |
| Startup.Device.UpdateUserConfig | Startup/main.c:257-261 | With ICALL_JT, stores the tick period and the ICall maximum duration in the user configuration and appends both writes; otherwise changes nothing. |
| Startup.Device.StartStack | Startup/main.c:262-271 | Appends ICall_init, ICall_createRemoteTasks, GAPRole_createTask and SimplePeripheral_createTask, in that order. |
| Startup.Device.SetUpIo | Startup/main.c:218-237 | Appends activation steps 1 to 3 and leaves the pin levels and handles as those steps set them. |
| Startup.Device.SetUpPowerAndStack | Startup/main.c:239-271 | Given steps 1 to 3 in the trace, appends steps 4 to 10, completing the activation path. |
| Startup.Device.Activate | Startup/main.c:216-272 | Appends exactly the activation path and leaves pins, handles, notify registration and user configuration as it sets them. |
| Startup.Device.ConstructShutdownTask | Startup/main.c:273-282 | Appends Task_construct and records that the shutdown task exists. |
| Startup.Device.RunPreamble | Startup/main.c:202-213 | Appends the FPGA clears, RegisterAssertCback, Board_initGeneral and the reset-source read, and stores the reset source in rSrc. |
| Startup.Device.Booted | Startup/main.c:213-282 | The globals main leaves for a reset source. rSrc holds the source and no display is open. On wake, the pin handles, the pin levels, the notify registration and the user configuration are as the activation path sets them, and no shutdown task exists. On other sources, only the shutdown task exists. |
| Startup.Device.Boot | Startup/main.c:199-288 | From the power-on state, the trace is exactly BootTrace, the device is running, the invariant holds and the globals are as Booted gives for the source. |
| Startup.Device.TaskFxn | Startup/main.c:170-180 | Appends the wake-table setup and Power_shutdown and keeps the invariant. The device is shut down, or spinning if Power_shutdown returns. |
| Startup.Device.PowerCycle | Startup/main.c:170-288 | One cycle from reset yields exactly CycleTrace and ends in CyclePhase: running after a wake, shut down (or spinning) otherwise. The invariant holds and every global is as Booted gives, since the shutdown task changes none of them. |
| Startup.Device.ShowBanner | Startup/main.c:329-337 | Appends Display_open when no handle is held, then the banner, and holds the handle from then on; nothing with Display_DISABLE_ALL. |
| Startup.Device.AssertHandler | Startup/main.c:327-400 | Appends exactly AssertTrace for the cause's disposition, holds a display handle from then on (unless the display is compiled out), keeps the invariant and spins exactly when the disposition says so. |
| Startup.Device.SmallErrorHook | Startup/main.c:418-421 | The RTOS error hook spins forever, from any phase: the device halts, makes no call and keeps the invariant. |
| Startup.Device.RfSwitchNotifyCb | Startup/main.c:438-454 | Returns Power_NOTIFYDONE, appends the callback's pin write and sets DIO30 to the level SwitchPowerAfter gives. |

## Left out

- Register internals: each `HWREG` write (`PRCM_O_PDCTL0`/`PDCTL1` clears, `SET_RFC_BLE_MODE`) is one action, with no register contents.
- Driver internals of PIN, Power, VIMS, Display, ICall, GAPRole, the task-creation functions and BIOS_start: only their calls and arguments are recorded.
- The contents of `BoardGpioInitTable`: it is defined in the board files, which are not part of this model. Opening it leaves the modelled pin levels unchanged.
- The numeric values of the `hal_assert.h` causes and subcauses: `hal_assert.h` is not part of this model. Causes are an enumeration plus `UnrecognisedCause(code)`, which stands for any other value.
- Display row and column arguments, and a failing `Display_open` (a NULL handle): the model assumes the display opens.
- RTOS scheduling and task priorities, `Task_Params` (stack pointer and 512-byte size) and concurrency. Callbacks run to completion, one at a time, and `PowerCycle` runs the shutdown task right after `BIOS_start`.
- Startup.Device.AssertHandler: requires the running phase. Asserts raised from inside `main` before `BIOS_start` are not modelled.
- Startup.Device.RfSwitchNotifyCb: requires a registered callback. The power driver delivers events only to registered clients, and the callback is compiled only with CC1350_LAUNCHXL and POWER_SAVING.
- Values from I/O are parameters: the reset source (reduced to wake-from-shutdown or other), `Clock_tickPeriod`, `ICall_getMaxMSecs()`, and whether `Power_shutdown` returns. The 32-bit width of these values is not modelled.
- The return value of `main` and the unused callback arguments (`eventArg`, `clientArg`, the `Error_Block`).
