/** Build-time switches, board identifiers and the alphabet of observable
    actions (driver, RTOS and register calls) that the boot sequencer of
    Startup/main.c performs. Every foreign call is one `Action` appended to a
    trace; the model proves its properties over such traces. */
module Platform {

  datatype Option<T> = None | Some(value: T)

  /** The compile-time switches of main.c, fixed for a build. */
  datatype BuildConfig = BuildConfig(
    cacheAsRam: bool,         // CACHE_AS_RAM
    powerSaving: bool,        // POWER_SAVING
    useFpga: bool,            // USE_FPGA
    cc1350LaunchXl: bool,     // CC1350_LAUNCHXL (external RF switch present)
    icallJt: bool,            // ICALL_JT
    displayDisableAll: bool)  // Display_DISABLE_ALL

  /** What SysCtrlResetSourceGet reports, reduced to the one value main
      compares against. */
  datatype ResetSource = WakeupFromShutdown | Other

  datatype Level = Low | High

  datatype Pin = Dio0 | Dio1RfSw | Dio30SwPwr | Button0

  datatype WakeEdge = NegEdge | PosEdge

  /** One entry of a PIN_Config table (PIN_TERMINATE is the end of the seq). */
  datatype PinConfig =
    | GpioOutput(pin: Pin, initial: Level)
    | WakeupInput(pin: Pin, pullUp: bool, edge: WakeEdge)

  /** ButtonTableWakeUp: button 0, input with pull-up, wakes on a falling edge. */
  const ButtonTableWakeUp: seq<PinConfig> := [WakeupInput(Button0, true, NegEdge)]

  /** radCtrlCfg: RF switch select low (2.4 GHz path), switch power high. */
  const RadCtrlCfg: seq<PinConfig> := [GpioOutput(Dio1RfSw, Low), GpioOutput(Dio30SwPwr, High)]

  /** The pin tables main opens. The board's general GPIO table is defined in
      board files and stays opaque. */
  datatype PinTable = BoardGpioInitTable | RadCtrlTable

  /** Output levels a table drives when it is opened; later entries win. */
  function OpenedLevels(levels: map<Pin, Level>, table: seq<PinConfig>): map<Pin, Level>
    decreases |table|
  {
    if table == [] then levels
    else
      var next := match table[0]
        case GpioOutput(p, l) => levels[p := l]
        case WakeupInput(_, _, _) => levels;
      OpenedLevels(next, table[1..])
  }

  /** Power-manager notification events. */
  datatype PowerEvent = EnteringStandby | AwakeStandby | OtherEvent(code: nat)

  /** The event mask PowerCC26XX_ENTERING_STANDBY | PowerCC26XX_AWAKE_STANDBY. */
  const StandbyEvents: set<PowerEvent> := {EnteringStandby, AwakeStandby}

  datatype Constraint = SbVimsCacheRetain | NeedFlashInIdle | SbDisallow | IdlePdDisallow

  datatype VimsMode = VimsModeEnabled

  datatype PdCtlRegister = PdCtl0 | PdCtl1

  /** One observable step. Arguments are kept where main.c passes them. */
  datatype Action =
    | PrcmClearRfcOn(reg: PdCtlRegister)           // HWREG(PRCM_BASE + PRCM_O_PDCTLx) &= ~RFC_ON
    | RegisterAssertCback                          // RegisterAssertCback(AssertHandler)
    | BoardInitGeneral
    | ResetSourceGet                               // SysCtrlResetSourceGet()
    | PinOpen(table: PinTable)
    | PinSetOutputValue(pin: Pin, level: Level)
    | PowerRegisterNotify(events: set<PowerEvent>) // with rFSwitchNotifyCb
    | SetRfcBleMode                                // SET_RFC_BLE_MODE(RFC_MODE_BLE)
    | PowerSetConstraint(c: Constraint)
    | VimsConfigure(roundRobin: bool, prefetch: bool)
    | VimsModeSet(mode: VimsMode)
    | SetTimerTickPeriod(value: int)               // user0Cfg.appServiceInfo->timerTickPeriod
    | SetTimerMaxMillisecond(value: int)           // user0Cfg.appServiceInfo->timerMaxMillisecond
    | ICallInit
    | ICallCreateRemoteTasks
    | GapRoleCreateTask
    | SimplePeripheralCreateTask
    | TaskConstruct                                // Task_construct(&myTask, taskFxn, ...)
    | BiosStart
    | PinSetWakeup(wakeTable: seq<PinConfig>)      // PINCC26XX_setWakeup
    | PowerShutdown                                // Power_shutdown(0, 0)
    | DisplayOpen                                  // Display_open(Display_Type_LCD, NULL)
    | DisplayPrint(line: string)

  /** Number of occurrences of `x` in `s`. */
  function Count<T(==)>(s: seq<T>, x: T): (n: nat)
    ensures n <= |s|
    ensures n > 0 <==> x in s
  {
    if s == [] then 0
    else (if s[0] == x then 1 else 0) + Count(s[1..], x)
  }

  lemma {:induction false} CountAppend<T>(a: seq<T>, b: seq<T>, x: T)
    ensures Count(a + b, x) == Count(a, x) + Count(b, x)
  {
    if a == [] {
      assert a + b == b;
    } else {
      assert (a + b)[1..] == a[1..] + b;
      CountAppend(a[1..], b, x);
    }
  }
}
