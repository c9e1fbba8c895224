/** The firmware of Startup/main.c as a device whose globals change step by
    step: `main` (here `Boot`), the shutdown task `taskFxn`, and the callbacks
    the stack, the RTOS and the power driver invoke. Every method appends the
    foreign calls it makes to `trace` and is proved to append exactly what the
    specification functions of the Boot, StackAssert and RfSwitch modules say. */
module Startup {
  import opened Platform
  import opened Boot
  import opened StackAssert
  import opened RfSwitch

  /** Output levels after the activation path: DIO0 driven high, then, with
      the external RF switch, the levels radCtrlCfg drives. The board's own
      GPIO table is not modelled and leaves the levels alone. */
  function ActivationPins(cfg: BuildConfig, levels: map<Pin, Level>): map<Pin, Level>
  {
    var l := levels[Dio0 := High];
    if cfg.cc1350LaunchXl then OpenedLevels(l, RadCtrlCfg) else l
  }

  /** After activation DIO0 is high; with the RF switch the 2.4 GHz path is
      selected and the switch is powered; no other pin changes. */
  lemma ActivationPinLevels(cfg: BuildConfig, levels: map<Pin, Level>)
    ensures var r := ActivationPins(cfg, levels);
      && r[Dio0] == High
      && (cfg.cc1350LaunchXl ==> r.Keys == levels.Keys + {Dio0, Dio1RfSw, Dio30SwPwr})
      && (cfg.cc1350LaunchXl ==> r[Dio1RfSw] == Low && r[Dio30SwPwr] == High)
      && (!cfg.cc1350LaunchXl ==> r.Keys == levels.Keys + {Dio0})
      && (forall p :: p in levels && p != Dio0 && p != Dio1RfSw && p != Dio30SwPwr ==> r[p] == levels[p])
  {
  }

  /** With the RF switch, activation leaves both of its pins driven. */
  lemma RfSwitchPinsDriven(cfg: BuildConfig, levels: map<Pin, Level>)
    requires cfg.cc1350LaunchXl
    ensures Dio1RfSw in ActivationPins(cfg, levels) && Dio30SwPwr in ActivationPins(cfg, levels)
  {
  }

  /** Appending activation step k to steps 1..k-1 gives steps 1..k. */
  lemma ExtendThrough(t0: seq<Action>, cfg: BuildConfig, clockTickPeriod: int, maxMSecs: int, k: nat)
    requires k >= 1
    ensures t0 + StepsThrough(cfg, clockTickPeriod, maxMSecs, k - 1) + ActivationStep(cfg, clockTickPeriod, maxMSecs, k)
      == t0 + StepsThrough(cfg, clockTickPeriod, maxMSecs, k)
  {
  }

  /** Appending ICall_init and the three task creations to steps 1..6 gives
      the whole activation path. */
  lemma StackThrough(t0: seq<Action>, cfg: BuildConfig, clockTickPeriod: int, maxMSecs: int)
    ensures t0 + StepsThrough(cfg, clockTickPeriod, maxMSecs, 6) + StackStep
      == t0 + ActivationTrace(cfg, clockTickPeriod, maxMSecs)
  {
    var c, t, m := cfg, clockTickPeriod, maxMSecs;
    var s6 := StepsThrough(c, t, m, 6);
    assert StepsThrough(c, t, m, 7) == s6 + [ICallInit];
    assert StepsThrough(c, t, m, 8) == s6 + [ICallInit] + [ICallCreateRemoteTasks];
    assert StepsThrough(c, t, m, 9) == s6 + [ICallInit] + [ICallCreateRemoteTasks] + [GapRoleCreateTask];
    assert StepsThrough(c, t, m, 10) == s6 + StackStep;
  }

  class Device {
    const cfg: BuildConfig
    /** Every foreign call made so far. */
    var trace: seq<Action>
    var phase: Phase
    /** The global rSrc; None before main reads it. */
    var rSrc: Option<ResetSource>
    /** Whether tmpPinHandle and radCtrlHandle hold open pin handles. */
    var tmpPinHandle: bool
    var radCtrlHandle: bool
    /** Output levels of the pins main and the callbacks drive. */
    var pins: map<Pin, Level>
    /** Whether rFSwitchNotifyCb is registered with the power driver. */
    var notifyRegistered: bool
    /** user0Cfg.appServiceInfo->timerTickPeriod and ->timerMaxMillisecond. */
    var timerTickPeriod: Option<int>
    var timerMaxMillisecond: Option<int>
    /** Whether the shutdown task has been constructed. */
    var shutdownTaskConstructed: bool
    /** Whether dispHandle holds an open display. */
    var dispHandle: bool

    /** The power-on state of the globals, which main relies on. */
    ghost predicate PowerOnState()
      reads this
    {
      && trace == [] && rSrc == None && !tmpPinHandle && !radCtrlHandle && pins == map[]
      && !notifyRegistered && timerTickPeriod == None && timerMaxMillisecond == None
      && !shutdownTaskConstructed && !dispHandle
    }

    ghost predicate Valid()
      reads this
    {
      && (phase == PreBoot ==> PowerOnState())
      && (phase == Running || phase == ShutDown ==> rSrc.Some?)
      && (radCtrlHandle ==> cfg.cc1350LaunchXl && Dio1RfSw in pins && Dio30SwPwr in pins)
      && (notifyRegistered ==> radCtrlHandle && cfg.powerSaving)
      && (shutdownTaskConstructed ==> rSrc == Some(Other))
      && (rSrc == Some(Other) ==> !tmpPinHandle && !radCtrlHandle && !notifyRegistered)
    }

    /** The globals main leaves behind for reset source `src`: on a wake from
        shutdown those the activation path sets, and no shutdown task; on any
        other source only the shutdown task, with no pin, handle or user
        configuration touched. No display is open on either path. */
    ghost predicate Booted(src: ResetSource, clockTickPeriod: int, maxMSecs: int)
      reads this
    {
      && rSrc == Some(src) && !dispHandle
      && (src == WakeupFromShutdown ==>
        && tmpPinHandle && pins == ActivationPins(cfg, map[])
        && radCtrlHandle == cfg.cc1350LaunchXl
        && notifyRegistered == (cfg.cc1350LaunchXl && cfg.powerSaving)
        && timerTickPeriod == (if cfg.icallJt then Some(clockTickPeriod) else None)
        && timerMaxMillisecond == (if cfg.icallJt then Some(maxMSecs) else None)
        && !shutdownTaskConstructed)
      && (src != WakeupFromShutdown ==>
        && shutdownTaskConstructed
        && !tmpPinHandle && pins == map[] && !radCtrlHandle && !notifyRegistered
        && timerTickPeriod == None && timerMaxMillisecond == None)
    }

    constructor(cfg: BuildConfig)
      ensures this.cfg == cfg && phase == PreBoot && PowerOnState() && Valid()
    {
      this.cfg := cfg;
      trace := [];
      phase := PreBoot;
      rSrc := None;
      tmpPinHandle := false;
      radCtrlHandle := false;
      pins := map[];
      notifyRegistered := false;
      timerTickPeriod := None;
      timerMaxMillisecond := None;
      shutdownTaskConstructed := false;
      dispHandle := false;
    }

    /** Activation step 1: open the board GPIO table, drive DIO0 high. */
    method OpenBoardPins()
      modifies this`trace, this`tmpPinHandle, this`pins
      ensures trace == old(trace) + GpioStep
      ensures tmpPinHandle && pins == old(pins)[Dio0 := High]
    {
      trace := trace + [PinOpen(BoardGpioInitTable)];
      tmpPinHandle := true;
      trace := trace + [PinSetOutputValue(Dio0, High)];
      pins := pins[Dio0 := High];
    }

    /** Activation step 2: the RF switch pins and the standby notification. */
    method EnableRfSwitch()
      modifies this`trace, this`radCtrlHandle, this`pins, this`notifyRegistered
      ensures trace == old(trace) + RfSwitchStep(cfg)
      ensures radCtrlHandle == (old(radCtrlHandle) || cfg.cc1350LaunchXl)
      ensures pins == if cfg.cc1350LaunchXl then OpenedLevels(old(pins), RadCtrlCfg) else old(pins)
      ensures notifyRegistered == (old(notifyRegistered) || (cfg.cc1350LaunchXl && cfg.powerSaving))
    {
      if cfg.cc1350LaunchXl {
        trace := trace + [PinOpen(RadCtrlTable)];
        radCtrlHandle := true;
        pins := OpenedLevels(pins, RadCtrlCfg);
        if cfg.powerSaving {
          trace := trace + [PowerRegisterNotify(StandbyEvents)];
          notifyRegistered := true;
        }
      }
    }

    /** Activation step 3: select the BLE radio-core mode (FPGA builds). */
    method SelectRfcMode()
      modifies this`trace
      ensures trace == old(trace) + RfcModeStep(cfg)
    {
      if cfg.useFpga {
        trace := trace + [SetRfcBleMode];
      }
    }

    /** Activation step 4: keep the cache as RAM, or enable it with prefetch. */
    method ApplyCachePolicy()
      modifies this`trace
      ensures trace == old(trace) + CachePolicyStep(cfg)
    {
      if cfg.cacheAsRam {
        trace := trace + [PowerSetConstraint(SbVimsCacheRetain)];
        trace := trace + [PowerSetConstraint(NeedFlashInIdle)];
      } else {
        trace := trace + [VimsConfigure(true, true)];
        trace := trace + [VimsModeSet(VimsModeEnabled)];
      }
    }

    /** Activation step 5: forbid standby and idle power-down. */
    method DisallowPowerDown()
      modifies this`trace
      ensures trace == old(trace) + DisallowStep(cfg)
    {
      if !cfg.powerSaving || cfg.useFpga {
        trace := trace + [PowerSetConstraint(SbDisallow)];
        trace := trace + [PowerSetConstraint(IdlePdDisallow)];
      }
    }

    /** Activation step 6: copy the tick period and the maximum timer duration
        into the stack's user configuration (ICALL_JT builds). */
    method UpdateUserConfig(clockTickPeriod: int, maxMSecs: int)
      modifies this`trace, this`timerTickPeriod, this`timerMaxMillisecond
      ensures trace == old(trace) + UserCfgStep(cfg, clockTickPeriod, maxMSecs)
      ensures timerTickPeriod == if cfg.icallJt then Some(clockTickPeriod) else old(timerTickPeriod)
      ensures timerMaxMillisecond == if cfg.icallJt then Some(maxMSecs) else old(timerMaxMillisecond)
    {
      if cfg.icallJt {
        trace := trace + [SetTimerTickPeriod(clockTickPeriod)];
        timerTickPeriod := Some(clockTickPeriod);
        trace := trace + [SetTimerMaxMillisecond(maxMSecs)];
        timerMaxMillisecond := Some(maxMSecs);
      }
    }

    /** Activation steps 7 to 10: ICall, then the remote, GAP role and
        application tasks. */
    method StartStack()
      modifies this`trace
      ensures trace == old(trace) + StackStep
    {
      trace := trace + [ICallInit];
      trace := trace + [ICallCreateRemoteTasks];
      trace := trace + [GapRoleCreateTask];
      trace := trace + [SimplePeripheralCreateTask];
    }

    /** Activation steps 1 to 3: the board pins, the RF switch, the radio-core
        mode. */
    method SetUpIo(clockTickPeriod: int, maxMSecs: int)
      modifies this`trace, this`tmpPinHandle, this`pins, this`radCtrlHandle, this`notifyRegistered
      ensures trace == old(trace) + StepsThrough(cfg, clockTickPeriod, maxMSecs, 3)
      ensures tmpPinHandle && pins == ActivationPins(cfg, old(pins))
      ensures radCtrlHandle == (old(radCtrlHandle) || cfg.cc1350LaunchXl)
      ensures notifyRegistered == (old(notifyRegistered) || (cfg.cc1350LaunchXl && cfg.powerSaving))
    {
      ghost var t0 := trace;
      OpenBoardPins();
      ExtendThrough(t0, cfg, clockTickPeriod, maxMSecs, 1);
      assert trace == t0 + StepsThrough(cfg, clockTickPeriod, maxMSecs, 1);
      EnableRfSwitch();
      ExtendThrough(t0, cfg, clockTickPeriod, maxMSecs, 2);
      assert trace == t0 + StepsThrough(cfg, clockTickPeriod, maxMSecs, 2);
      SelectRfcMode();
      ExtendThrough(t0, cfg, clockTickPeriod, maxMSecs, 3);
    }

    /** Activation steps 4 to 10, after steps 1 to 3 (`t0` is the trace before
        step 1): cache policy, power constraints, the stack's user
        configuration, ICall and the tasks. */
    method SetUpPowerAndStack(ghost t0: seq<Action>, clockTickPeriod: int, maxMSecs: int)
      requires trace == t0 + StepsThrough(cfg, clockTickPeriod, maxMSecs, 3)
      modifies this`trace, this`timerTickPeriod, this`timerMaxMillisecond
      ensures trace == t0 + ActivationTrace(cfg, clockTickPeriod, maxMSecs)
      ensures timerTickPeriod == if cfg.icallJt then Some(clockTickPeriod) else old(timerTickPeriod)
      ensures timerMaxMillisecond == if cfg.icallJt then Some(maxMSecs) else old(timerMaxMillisecond)
    {
      ApplyCachePolicy();
      ExtendThrough(t0, cfg, clockTickPeriod, maxMSecs, 4);
      assert trace == t0 + StepsThrough(cfg, clockTickPeriod, maxMSecs, 4);
      DisallowPowerDown();
      ExtendThrough(t0, cfg, clockTickPeriod, maxMSecs, 5);
      assert trace == t0 + StepsThrough(cfg, clockTickPeriod, maxMSecs, 5);
      UpdateUserConfig(clockTickPeriod, maxMSecs);
      ExtendThrough(t0, cfg, clockTickPeriod, maxMSecs, 6);
      assert trace == t0 + StepsThrough(cfg, clockTickPeriod, maxMSecs, 6);
      StartStack();
      StackThrough(t0, cfg, clockTickPeriod, maxMSecs);
    }

    /** The wake-from-shutdown branch of main. */
    method Activate(clockTickPeriod: int, maxMSecs: int)
      modifies this`trace, this`tmpPinHandle, this`pins, this`radCtrlHandle, this`notifyRegistered,
        this`timerTickPeriod, this`timerMaxMillisecond
      ensures trace == old(trace) + ActivationTrace(cfg, clockTickPeriod, maxMSecs)
      ensures tmpPinHandle && pins == ActivationPins(cfg, old(pins))
      ensures radCtrlHandle == (old(radCtrlHandle) || cfg.cc1350LaunchXl)
      ensures notifyRegistered == (old(notifyRegistered) || (cfg.cc1350LaunchXl && cfg.powerSaving))
      ensures timerTickPeriod == if cfg.icallJt then Some(clockTickPeriod) else old(timerTickPeriod)
      ensures timerMaxMillisecond == if cfg.icallJt then Some(maxMSecs) else old(timerMaxMillisecond)
    {
      ghost var t0 := trace;
      SetUpIo(clockTickPeriod, maxMSecs);
      SetUpPowerAndStack(t0, clockTickPeriod, maxMSecs);
    }

    /** The other branch of main: construct the shutdown task. */
    method ConstructShutdownTask()
      modifies this`trace, this`shutdownTaskConstructed
      ensures trace == old(trace) + [TaskConstruct] && shutdownTaskConstructed
    {
      trace := trace + [TaskConstruct];
      shutdownTaskConstructed := true;
    }

    /** The start of main on both paths: the FPGA register clears, the assert
        callback, Board_initGeneral and the reset-source read. */
    method RunPreamble(src: ResetSource)
      modifies this`trace, this`rSrc
      ensures trace == old(trace) + FpgaPrologue(cfg) + Preamble
      ensures rSrc == Some(src)
    {
      if cfg.useFpga {
        trace := trace + [PrcmClearRfcOn(PdCtl0)];
        trace := trace + [PrcmClearRfcOn(PdCtl1)];
      }
      trace := trace + [RegisterAssertCback];
      trace := trace + [BoardInitGeneral];
      trace := trace + [ResetSourceGet];
      rSrc := Some(src);
    }

    /** `main`: from the power-on state, the FPGA register clears, the assert
        callback, board init and the reset-source read, then one of the two
        branches, then BIOS_start, after which the scheduler runs. `src` is
        what SysCtrlResetSourceGet reports, `clockTickPeriod` the RTOS tick
        period and `maxMSecs` what ICall_getMaxMSecs returns. */
    method Boot(src: ResetSource, clockTickPeriod: int, maxMSecs: int)
      requires phase == PreBoot && Valid()
      modifies this
      ensures trace == BootTrace(cfg, src, clockTickPeriod, maxMSecs)
      ensures phase == Running && Valid()
      ensures Booted(src, clockTickPeriod, maxMSecs)
    {
      RunPreamble(src);
      ghost var head := trace;
      if src == WakeupFromShutdown {
        Activate(clockTickPeriod, maxMSecs);
        if cfg.cc1350LaunchXl {
          RfSwitchPinsDriven(cfg, map[]);
        }
      } else {
        ConstructShutdownTask();
      }
      assert trace == head + BootBody(cfg, src, clockTickPeriod, maxMSecs);
      trace := trace + [BiosStart];
      phase := Running;
    }

    /** taskFxn: arm the wake-up table, request shutdown. If Power_shutdown
        comes back (`shutdownReturns`) the task spins forever. */
    method TaskFxn(shutdownReturns: bool)
      requires phase == Running && shutdownTaskConstructed && Valid()
      modifies this`trace, this`phase
      ensures Valid()
      ensures trace == old(trace) + ShutdownTaskTrace
      ensures phase == if shutdownReturns then Halted else ShutDown
    {
      trace := trace + [PinSetWakeup(ButtonTableWakeUp)];
      trace := trace + [PowerShutdown];
      if shutdownReturns {
        phase := Halted;
      } else {
        phase := ShutDown;
      }
    }

    /** One power cycle from reset: main, then on any source other than
        wake-from-shutdown the scheduler runs the shutdown task. */
    method PowerCycle(src: ResetSource, clockTickPeriod: int, maxMSecs: int, shutdownReturns: bool)
      requires phase == PreBoot && Valid()
      modifies this
      ensures trace == CycleTrace(cfg, src, clockTickPeriod, maxMSecs)
      ensures phase == CyclePhase(src, shutdownReturns)
      ensures Valid() && Booted(src, clockTickPeriod, maxMSecs)
    {
      Boot(src, clockTickPeriod, maxMSecs);
      if src != WakeupFromShutdown {
        TaskFxn(shutdownReturns);
      }
    }

    /** The start of AssertHandler: open the display if no handle is held
        yet, then show the banner; nothing when the display is compiled out. */
    method ShowBanner()
      modifies this`trace, this`dispHandle
      ensures trace == old(trace) + (if cfg.displayDisableAll then [] else (if old(dispHandle) then [] else [DisplayOpen]) + [DisplayPrint(Banner)])
      ensures dispHandle == (old(dispHandle) || !cfg.displayDisableAll)
    {
      if !cfg.displayDisableAll {
        if !dispHandle {
          trace := trace + [DisplayOpen];
          dispHandle := true;
        }
        trace := trace + [DisplayPrint(Banner)];
      }
    }

    /** AssertHandler: open the display if no handle is held, show the banner,
        then for the cause the error header and its message; spin for every
        cause but out-of-memory and internal errors. */
    method AssertHandler(cause: Cause, sub: Subcause)
      requires phase == Running && Valid()
      modifies this`trace, this`dispHandle, this`phase
      ensures Valid()
      ensures trace == old(trace) + AssertTrace(cfg.displayDisableAll, old(dispHandle), Classify(cause, sub))
      ensures dispHandle == (old(dispHandle) || !cfg.displayDisableAll)
      ensures phase == if Classify(cause, sub).halts then Halted else Running
    {
      ShowBanner();
      var message: string;
      var spin: bool;
      match cause {
        case OutOfMemory =>
          message, spin := ">> OUT OF MEMORY!", false;
        case InternalError =>
          if sub == FwInternalError {
            message, spin := ">> INTERNAL FW ERROR!", false;
          } else {
            message, spin := ">> INTERNAL ERROR!", false;
          }
        case ICallAbort =>
          message, spin := ">> ICALL ABORT!", true;
        case ICallTimeout =>
          message, spin := ">> ICALL TIMEOUT!", true;
        case WrongApiCall =>
          message, spin := ">> WRONG API CALL!", true;
        case UnrecognisedCause(_) =>
          message, spin := ">> DEFAULT SPINLOCK!", true;
      }
      assert Disposition(message, spin) == Classify(cause, sub);
      if !cfg.displayDisableAll {
        trace := trace + [DisplayPrint(ErrorHeader)];
        trace := trace + [DisplayPrint(message)];
      }
      if spin {
        phase := Halted;
      }
    }

    /** smallErrorHook: the RTOS error hook spins forever. */
    method SmallErrorHook()
      requires Valid()
      modifies this`phase
      ensures Valid()
      ensures phase == Halted
    {
      phase := Halted;
    }

    /** rFSwitchNotifyCb: power the RF switch down on entering standby and up
        on waking; always reports Power_NOTIFYDONE. */
    method RfSwitchNotifyCb(event: PowerEvent) returns (status: NotifyStatus)
      requires phase == Running && notifyRegistered && Valid()
      modifies this`trace, this`pins
      ensures Valid()
      ensures status == NotifyDone
      ensures trace == old(trace) + PinWrites(event)
      ensures pins == ApplyWrites(old(pins), PinWrites(event))
      ensures pins[Dio30SwPwr] == SwitchPowerAfter(event, old(pins)[Dio30SwPwr])
    {
      NotifyWrites(pins, event);
      if event == EnteringStandby {
        trace := trace + [PinSetOutputValue(Dio30SwPwr, Low)];
        pins := pins[Dio30SwPwr := Low];
      } else if event == AwakeStandby {
        trace := trace + [PinSetOutputValue(Dio30SwPwr, High)];
        pins := pins[Dio30SwPwr := High];
      }
      status := NotifyDone;
    }
  }
}
