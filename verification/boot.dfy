/** The boot sequencer of Startup/main.c (`main` and the shutdown task
    `taskFxn`) as specification functions over traces, and the properties the
    sequencer promises: path exclusivity, the fixed activation order, the
    cache policy and the flag-dependent constraints. */
module Boot {
  import opened Platform

  /** Where one power cycle stands: before main, scheduler running, device in
      shutdown (the cycle is over), or spinning in a deliberate halt loop. */
  datatype Phase = PreBoot | Running | ShutDown | Halted

  /** USE_FPGA: the two PRCM power-domain register clears before anything else. */
  function FpgaPrologue(cfg: BuildConfig): seq<Action>
  {
    if cfg.useFpga then [PrcmClearRfcOn(PdCtl0), PrcmClearRfcOn(PdCtl1)] else []
  }

  /** Common to both paths: assert callback, general board init, reset source. */
  const Preamble: seq<Action> := [RegisterAssertCback, BoardInitGeneral, ResetSourceGet]

  // Activation steps 1 to 7, in the order main runs them.

  /** Step 1: open the board GPIO table and drive DIO0 high. */
  const GpioStep: seq<Action> := [PinOpen(BoardGpioInitTable), PinSetOutputValue(Dio0, High)]

  /** Step 2: RF switch pins, and the standby notification under POWER_SAVING. */
  function RfSwitchStep(cfg: BuildConfig): seq<Action>
  {
    if cfg.cc1350LaunchXl then
      [PinOpen(RadCtrlTable)] + (if cfg.powerSaving then [PowerRegisterNotify(StandbyEvents)] else [])
    else []
  }

  /** Step 3: radio-core mode select, FPGA builds only. */
  function RfcModeStep(cfg: BuildConfig): seq<Action>
  {
    if cfg.useFpga then [SetRfcBleMode] else []
  }

  /** Step 4: the cache policy. */
  function CachePolicyStep(cfg: BuildConfig): seq<Action>
  {
    if cfg.cacheAsRam then
      [PowerSetConstraint(SbVimsCacheRetain), PowerSetConstraint(NeedFlashInIdle)]
    else
      [VimsConfigure(true, true), VimsModeSet(VimsModeEnabled)]
  }

  /** Step 5: forbid standby and idle power-down unless power saving is on
      (FPGA builds always forbid them). */
  function DisallowStep(cfg: BuildConfig): seq<Action>
  {
    if !cfg.powerSaving || cfg.useFpga then
      [PowerSetConstraint(SbDisallow), PowerSetConstraint(IdlePdDisallow)]
    else []
  }

  /** Step 6: hand the RTOS tick period and the ICall maximum timer duration to
      the stack's user configuration (ICALL_JT builds). */
  function UserCfgStep(cfg: BuildConfig, clockTickPeriod: int, maxMSecs: int): seq<Action>
  {
    if cfg.icallJt then [SetTimerTickPeriod(clockTickPeriod), SetTimerMaxMillisecond(maxMSecs)] else []
  }

  /** Step 7: ICall transport, then the remote, GAP role and application tasks. */
  const StackStep: seq<Action> := [ICallInit, ICallCreateRemoteTasks, GapRoleCreateTask, SimplePeripheralCreateTask]

  /** Activation step k, for k in 1..10, as main runs it; steps 7 to 10 are
      ICall_init and the three task creations of StackStep. */
  function ActivationStep(cfg: BuildConfig, clockTickPeriod: int, maxMSecs: int, k: nat): seq<Action>
  {
    match k
    case 1 => GpioStep
    case 2 => RfSwitchStep(cfg)
    case 3 => RfcModeStep(cfg)
    case 4 => CachePolicyStep(cfg)
    case 5 => DisallowStep(cfg)
    case 6 => UserCfgStep(cfg, clockTickPeriod, maxMSecs)
    case 7 => [ICallInit]
    case 8 => [ICallCreateRemoteTasks]
    case 9 => [GapRoleCreateTask]
    case 10 => [SimplePeripheralCreateTask]
    case _ => []
  }

  /** Steps 1..k of the activation path, concatenated in order. */
  function StepsThrough(cfg: BuildConfig, clockTickPeriod: int, maxMSecs: int, k: nat): seq<Action>
  {
    if k == 0 then [] else StepsThrough(cfg, clockTickPeriod, maxMSecs, k - 1) + ActivationStep(cfg, clockTickPeriod, maxMSecs, k)
  }

  /** The activation path of main (the wake-from-shutdown branch). */
  function ActivationTrace(cfg: BuildConfig, clockTickPeriod: int, maxMSecs: int): seq<Action>
  {
    StepsThrough(cfg, clockTickPeriod, maxMSecs, 10)
  }

  /** The body of main between the preamble and BIOS_start. */
  function BootBody(cfg: BuildConfig, src: ResetSource, clockTickPeriod: int, maxMSecs: int): seq<Action>
  {
    if src == WakeupFromShutdown then ActivationTrace(cfg, clockTickPeriod, maxMSecs) else [TaskConstruct]
  }

  /** Everything `main` does, up to and including BIOS_start. */
  function BootTrace(cfg: BuildConfig, src: ResetSource, clockTickPeriod: int, maxMSecs: int): seq<Action>
  {
    FpgaPrologue(cfg) + Preamble + BootBody(cfg, src, clockTickPeriod, maxMSecs) + [BiosStart]
  }

  /** What the shutdown task does once the scheduler runs it. */
  const ShutdownTaskTrace: seq<Action> := [PinSetWakeup(ButtonTableWakeUp), PowerShutdown]

  /** One power cycle: main, then (other reset sources) the shutdown task. */
  function CycleTrace(cfg: BuildConfig, src: ResetSource, clockTickPeriod: int, maxMSecs: int): seq<Action>
  {
    BootTrace(cfg, src, clockTickPeriod, maxMSecs)
      + (if src == WakeupFromShutdown then [] else ShutdownTaskTrace)
  }

  /** Where the cycle ends. `shutdownReturns` says whether Power_shutdown came
      back (a failure to enter shutdown); the task then spins. */
  function CyclePhase(src: ResetSource, shutdownReturns: bool): Phase
  {
    if src == WakeupFromShutdown then Running
    else if shutdownReturns then Halted
    else ShutDown
  }

  /** The activation step (1..10) an action belongs to; 0 for actions outside
      the activation path. Step 2 covers the RF switch, 4 the cache policy,
      5 the disallow constraints, 6 the user-configuration copy, 7..10 the
      ICall initialisation and the three task creations. */
  function StepOf(a: Action): nat
  {
    match a
    case PinOpen(BoardGpioInitTable) => 1
    case PinSetOutputValue(Dio0, _) => 1
    case PinOpen(RadCtrlTable) => 2
    case PowerRegisterNotify(_) => 2
    case SetRfcBleMode => 3
    case PowerSetConstraint(SbVimsCacheRetain) => 4
    case PowerSetConstraint(NeedFlashInIdle) => 4
    case VimsConfigure(_, _) => 4
    case VimsModeSet(_) => 4
    case PowerSetConstraint(SbDisallow) => 5
    case PowerSetConstraint(IdlePdDisallow) => 5
    case SetTimerTickPeriod(_) => 6
    case SetTimerMaxMillisecond(_) => 6
    case ICallInit => 7
    case ICallCreateRemoteTasks => 8
    case GapRoleCreateTask => 9
    case SimplePeripheralCreateTask => 10
    case _ => 0
  }

  predicate IsActivationStep(a: Action)
  {
    StepOf(a) > 0
  }

  /** Every action of `t` has a step in [lo, hi], and steps never go back. */
  predicate OrderedWithin(t: seq<Action>, lo: int, hi: int)
  {
    (forall i :: 0 <= i < |t| ==> lo <= StepOf(t[i]) <= hi)
    && (forall i, j :: 0 <= i < j < |t| ==> StepOf(t[i]) <= StepOf(t[j]))
  }

  lemma StepBanded(cfg: BuildConfig, clockTickPeriod: int, maxMSecs: int, k: nat)
    ensures forall i :: 0 <= i < |ActivationStep(cfg, clockTickPeriod, maxMSecs, k)| ==>
      StepOf(ActivationStep(cfg, clockTickPeriod, maxMSecs, k)[i]) == k
  {
  }

  /** The activation path written out step by step, as main runs it. */
  lemma ActivationUnfolded(cfg: BuildConfig, clockTickPeriod: int, maxMSecs: int)
    ensures ActivationTrace(cfg, clockTickPeriod, maxMSecs) ==
      GpioStep + RfSwitchStep(cfg) + RfcModeStep(cfg) + CachePolicyStep(cfg)
        + DisallowStep(cfg) + UserCfgStep(cfg, clockTickPeriod, maxMSecs)
        + [ICallInit] + [ICallCreateRemoteTasks] + [GapRoleCreateTask] + [SimplePeripheralCreateTask]
  {
    var c, t, m := cfg, clockTickPeriod, maxMSecs;
    assert StepsThrough(c, t, m, 1) == GpioStep by {
      assert StepsThrough(c, t, m, 1) == [] + GpioStep;
    }
    assert StepsThrough(c, t, m, 2) == StepsThrough(c, t, m, 1) + RfSwitchStep(c);
    assert StepsThrough(c, t, m, 3) == StepsThrough(c, t, m, 2) + RfcModeStep(c);
    assert StepsThrough(c, t, m, 4) == StepsThrough(c, t, m, 3) + CachePolicyStep(c);
    assert StepsThrough(c, t, m, 5) == StepsThrough(c, t, m, 4) + DisallowStep(c);
    assert StepsThrough(c, t, m, 6) == StepsThrough(c, t, m, 5) + UserCfgStep(c, t, m);
    assert StepsThrough(c, t, m, 7) == StepsThrough(c, t, m, 6) + [ICallInit];
    assert StepsThrough(c, t, m, 8) == StepsThrough(c, t, m, 7) + [ICallCreateRemoteTasks];
    assert StepsThrough(c, t, m, 9) == StepsThrough(c, t, m, 8) + [GapRoleCreateTask];
    assert StepsThrough(c, t, m, 10) == StepsThrough(c, t, m, 9) + [SimplePeripheralCreateTask];
  }

  lemma CountOtherStep(b: seq<Action>, s: int, x: Action)
    requires forall i :: 0 <= i < |b| ==> StepOf(b[i]) == s
    requires StepOf(x) != s
    ensures Count(b, x) == 0
  {
  }

  /** An action never occurs in a step other than its own. */
  lemma CountOutsideStep(cfg: BuildConfig, clockTickPeriod: int, maxMSecs: int, k: nat, x: Action)
    requires StepOf(x) != k
    ensures Count(ActivationStep(cfg, clockTickPeriod, maxMSecs, k), x) == 0
  {
    StepBanded(cfg, clockTickPeriod, maxMSecs, k);
    CountOtherStep(ActivationStep(cfg, clockTickPeriod, maxMSecs, k), k, x);
  }

  /** One step of the count induction, over plain sequences. */
  lemma CountFold(prev: seq<Action>, b: seq<Action>, x: Action, s: int, k: int, n: int)
    requires 1 <= k
    requires Count(prev, x) == if 1 <= s <= k - 1 then n else 0
    requires Count(b, x) == if s == k then n else 0
    ensures Count(prev + b, x) == if 1 <= s <= k then n else 0
  {
    CountAppend(prev, b, x);
  }

  /** In steps 1..k an action can occur only within its own step. */
  lemma {:induction false} CountThrough(cfg: BuildConfig, clockTickPeriod: int, maxMSecs: int, k: nat, x: Action)
    ensures Count(StepsThrough(cfg, clockTickPeriod, maxMSecs, k), x) ==
      if 1 <= StepOf(x) <= k then Count(ActivationStep(cfg, clockTickPeriod, maxMSecs, StepOf(x)), x) else 0
  {
    if k > 0 {
      CountThrough(cfg, clockTickPeriod, maxMSecs, k - 1, x);
      if StepOf(x) != k {
        CountOutsideStep(cfg, clockTickPeriod, maxMSecs, k, x);
      }
      CountFold(StepsThrough(cfg, clockTickPeriod, maxMSecs, k - 1), ActivationStep(cfg, clockTickPeriod, maxMSecs, k), x,
        StepOf(x), k, Count(ActivationStep(cfg, clockTickPeriod, maxMSecs, StepOf(x)), x));
    }
  }

  lemma Join(a: seq<Action>, b: seq<Action>, lo: int, mid: int, hi: int)
    requires OrderedWithin(a, lo, mid) && OrderedWithin(b, mid, hi) && lo <= mid <= hi
    ensures OrderedWithin(a + b, lo, hi)
  {
  }

  /** Steps 1..k concatenate to a trace whose steps never go back. */
  lemma {:induction false} OrderedThrough(cfg: BuildConfig, clockTickPeriod: int, maxMSecs: int, k: nat)
    requires 1 <= k
    ensures OrderedWithin(StepsThrough(cfg, clockTickPeriod, maxMSecs, k), 1, k)
  {
    var b := ActivationStep(cfg, clockTickPeriod, maxMSecs, k);
    var prev := StepsThrough(cfg, clockTickPeriod, maxMSecs, k - 1);
    StepBanded(cfg, clockTickPeriod, maxMSecs, k);
    assert OrderedWithin(b, k, k);
    if k == 1 {
      assert prev + b == b;
    } else {
      OrderedThrough(cfg, clockTickPeriod, maxMSecs, k - 1);
      Join(prev, b, 1, k, k);
    }
  }

  /** An action occurs in the activation path only within its own step. */
  lemma CountInActivation(cfg: BuildConfig, clockTickPeriod: int, maxMSecs: int, x: Action)
    ensures Count(ActivationTrace(cfg, clockTickPeriod, maxMSecs), x) ==
      if IsActivationStep(x) then Count(ActivationStep(cfg, clockTickPeriod, maxMSecs, StepOf(x)), x) else 0
  {
    CountThrough(cfg, clockTickPeriod, maxMSecs, 10, x);
  }

  lemma ActivationEnds(cfg: BuildConfig, clockTickPeriod: int, maxMSecs: int)
    ensures var t := ActivationTrace(cfg, clockTickPeriod, maxMSecs);
      |t| >= 8 && t[..2] == GpioStep && t[|t| - 4..] == StackStep
  {
    ActivationUnfolded(cfg, clockTickPeriod, maxMSecs);
  }

  /** Whether an action of the activation path occurs in it: exactly when it
      occurs in its own step. */
  lemma InActivation(cfg: BuildConfig, clockTickPeriod: int, maxMSecs: int, x: Action)
    ensures x in ActivationTrace(cfg, clockTickPeriod, maxMSecs) <==>
      IsActivationStep(x) && x in ActivationStep(cfg, clockTickPeriod, maxMSecs, StepOf(x))
  {
    CountInActivation(cfg, clockTickPeriod, maxMSecs, x);
  }

  /** Steps 1..j are a prefix of steps 1..k. */
  lemma {:induction false} PrefixThrough(cfg: BuildConfig, clockTickPeriod: int, maxMSecs: int, j: nat, k: nat)
    requires j <= k
    ensures StepsThrough(cfg, clockTickPeriod, maxMSecs, j) <= StepsThrough(cfg, clockTickPeriod, maxMSecs, k)
  {
    if j < k {
      PrefixThrough(cfg, clockTickPeriod, maxMSecs, j, k - 1);
      var prev := StepsThrough(cfg, clockTickPeriod, maxMSecs, k - 1);
      assert prev <= prev + ActivationStep(cfg, clockTickPeriod, maxMSecs, k);
    }
  }

  /** ICall_init and each task creation happen exactly once. */
  lemma StackActionOnce(cfg: BuildConfig, clockTickPeriod: int, maxMSecs: int, x: Action)
    requires x in StackStep
    ensures Count(ActivationTrace(cfg, clockTickPeriod, maxMSecs), x) == 1
  {
    CountInActivation(cfg, clockTickPeriod, maxMSecs, x);
    assert ActivationStep(cfg, clockTickPeriod, maxMSecs, StepOf(x)) == [x];
  }

  /** Activation order: every action of the activation path belongs to one of
      the ten steps, the steps appear in their fixed order whatever the flags
      (flags only drop or choose steps), the path opens with step 1 and ends
      with ICall_init and the three task creations, each exactly once. */
  lemma ActivationOrder(cfg: BuildConfig, clockTickPeriod: int, maxMSecs: int)
    ensures var t := ActivationTrace(cfg, clockTickPeriod, maxMSecs);
      && (forall i :: 0 <= i < |t| ==> 1 <= StepOf(t[i]) <= 10)
      && (forall i, j :: 0 <= i < j < |t| ==> StepOf(t[i]) <= StepOf(t[j]))
      && |t| >= 8
      && t[..2] == GpioStep
      && t[|t| - 4..] == StackStep
      && (forall x :: x in StackStep ==> Count(t, x) == 1)
  {
    OrderedThrough(cfg, clockTickPeriod, maxMSecs, 10);
    ActivationEnds(cfg, clockTickPeriod, maxMSecs);
    forall x | x in StackStep ensures Count(ActivationTrace(cfg, clockTickPeriod, maxMSecs), x) == 1 {
      StackActionOnce(cfg, clockTickPeriod, maxMSecs, x);
    }
  }

  /** How often a cache-policy action occurs: as often as in step 4. */
  lemma CacheActionCount(cfg: BuildConfig, clockTickPeriod: int, maxMSecs: int, x: Action)
    requires StepOf(x) == 4
    ensures Count(ActivationTrace(cfg, clockTickPeriod, maxMSecs), x) == Count(CachePolicyStep(cfg), x)
  {
    CountInActivation(cfg, clockTickPeriod, maxMSecs, x);
  }

  lemma RetentionCounts(cfg: BuildConfig, clockTickPeriod: int, maxMSecs: int)
    ensures var t := ActivationTrace(cfg, clockTickPeriod, maxMSecs);
      && Count(t, PowerSetConstraint(SbVimsCacheRetain)) == (if cfg.cacheAsRam then 1 else 0)
      && Count(t, PowerSetConstraint(NeedFlashInIdle)) == (if cfg.cacheAsRam then 1 else 0)
  {
    CacheActionCount(cfg, clockTickPeriod, maxMSecs, PowerSetConstraint(SbVimsCacheRetain));
    CacheActionCount(cfg, clockTickPeriod, maxMSecs, PowerSetConstraint(NeedFlashInIdle));
  }

  lemma VimsCounts(cfg: BuildConfig, clockTickPeriod: int, maxMSecs: int)
    ensures var t := ActivationTrace(cfg, clockTickPeriod, maxMSecs);
      && Count(t, VimsConfigure(true, true)) == (if cfg.cacheAsRam then 0 else 1)
      && Count(t, VimsModeSet(VimsModeEnabled)) == (if cfg.cacheAsRam then 0 else 1)
  {
    CacheActionCount(cfg, clockTickPeriod, maxMSecs, VimsConfigure(true, true));
    CacheActionCount(cfg, clockTickPeriod, maxMSecs, VimsModeSet(VimsModeEnabled));
  }

  /** With CACHE_AS_RAM no VIMS call of any kind is made. */
  lemma NoVimsWithCacheAsRam(cfg: BuildConfig, clockTickPeriod: int, maxMSecs: int)
    requires cfg.cacheAsRam
    ensures var t := ActivationTrace(cfg, clockTickPeriod, maxMSecs);
      forall i :: 0 <= i < |t| ==> !t[i].VimsConfigure? && !t[i].VimsModeSet?
  {
    var t := ActivationTrace(cfg, clockTickPeriod, maxMSecs);
    forall i | 0 <= i < |t| ensures !t[i].VimsConfigure? && !t[i].VimsModeSet? {
      if t[i].VimsConfigure? || t[i].VimsModeSet? {
        InActivation(cfg, clockTickPeriod, maxMSecs, t[i]);
      }
    }
  }

  /** Without CACHE_AS_RAM, VIMSModeSet directly follows VIMSConfigure. */
  lemma VimsAdjacent(cfg: BuildConfig, clockTickPeriod: int, maxMSecs: int)
    requires !cfg.cacheAsRam
    ensures var t := ActivationTrace(cfg, clockTickPeriod, maxMSecs);
      exists i :: 0 <= i < |t| - 1 && t[i] == VimsConfigure(true, true) && t[i + 1] == VimsModeSet(VimsModeEnabled)
  {
    var t := ActivationTrace(cfg, clockTickPeriod, maxMSecs);
    var pre := StepsThrough(cfg, clockTickPeriod, maxMSecs, 3);
    var s4 := StepsThrough(cfg, clockTickPeriod, maxMSecs, 4);
    assert s4 == pre + CachePolicyStep(cfg);
    PrefixThrough(cfg, clockTickPeriod, maxMSecs, 4, 10);
    assert t[|pre|] == s4[|pre|] && t[|pre| + 1] == s4[|pre| + 1];
  }

  /** Cache policy is exclusive and total: with CACHE_AS_RAM the two retention
      constraints are set once each and VIMS is never touched; otherwise
      VIMSConfigure with prefetch, immediately followed by VIMSModeSet(ENABLED),
      once each, and neither retention constraint is set. */
  lemma CachePolicyExclusive(cfg: BuildConfig, clockTickPeriod: int, maxMSecs: int)
    ensures var t := ActivationTrace(cfg, clockTickPeriod, maxMSecs);
      cfg.cacheAsRam ==>
        && Count(t, PowerSetConstraint(SbVimsCacheRetain)) == 1
        && Count(t, PowerSetConstraint(NeedFlashInIdle)) == 1
        && (forall i :: 0 <= i < |t| ==> !t[i].VimsConfigure? && !t[i].VimsModeSet?)
    ensures var t := ActivationTrace(cfg, clockTickPeriod, maxMSecs);
      !cfg.cacheAsRam ==>
        && Count(t, VimsConfigure(true, true)) == 1
        && Count(t, VimsModeSet(VimsModeEnabled)) == 1
        && (exists i :: 0 <= i < |t| - 1 && t[i] == VimsConfigure(true, true) && t[i + 1] == VimsModeSet(VimsModeEnabled))
        && Count(t, PowerSetConstraint(SbVimsCacheRetain)) == 0
        && Count(t, PowerSetConstraint(NeedFlashInIdle)) == 0
  {
    RetentionCounts(cfg, clockTickPeriod, maxMSecs);
    VimsCounts(cfg, clockTickPeriod, maxMSecs);
    if cfg.cacheAsRam {
      NoVimsWithCacheAsRam(cfg, clockTickPeriod, maxMSecs);
    } else {
      VimsAdjacent(cfg, clockTickPeriod, maxMSecs);
    }
  }

  /** Every standby notification registered is for exactly the standby enter
      and exit events. */
  lemma NotifyEventsOnly(cfg: BuildConfig, clockTickPeriod: int, maxMSecs: int)
    ensures var t := ActivationTrace(cfg, clockTickPeriod, maxMSecs);
      forall i :: 0 <= i < |t| && t[i].PowerRegisterNotify? ==> t[i].events == StandbyEvents
  {
    var t := ActivationTrace(cfg, clockTickPeriod, maxMSecs);
    forall i | 0 <= i < |t| && t[i].PowerRegisterNotify? ensures t[i].events == StandbyEvents {
      InActivation(cfg, clockTickPeriod, maxMSecs, t[i]);
    }
  }

  /** Which flag-dependent steps run: the disallow constraints if and only if
      POWER_SAVING is off or USE_FPGA is on; the RF switch pins if and only if
      CC1350_LAUNCHXL; the standby notification (for exactly the standby enter
      and exit events) if and only if CC1350_LAUNCHXL and POWER_SAVING; the RFC
      mode select if and only if USE_FPGA; the configuration copy, with the
      values handed over, if and only if ICALL_JT. */
  lemma FlagDependentSteps(cfg: BuildConfig, clockTickPeriod: int, maxMSecs: int)
    ensures var t := ActivationTrace(cfg, clockTickPeriod, maxMSecs);
      && (PowerSetConstraint(SbDisallow) in t <==> !cfg.powerSaving || cfg.useFpga)
      && (PowerSetConstraint(IdlePdDisallow) in t <==> !cfg.powerSaving || cfg.useFpga)
      && (PinOpen(RadCtrlTable) in t <==> cfg.cc1350LaunchXl)
      && (PowerRegisterNotify(StandbyEvents) in t <==> cfg.cc1350LaunchXl && cfg.powerSaving)
      && (forall i :: 0 <= i < |t| && t[i].PowerRegisterNotify? ==> t[i].events == StandbyEvents)
      && (SetRfcBleMode in t <==> cfg.useFpga)
      && (SetTimerTickPeriod(clockTickPeriod) in t <==> cfg.icallJt)
      && (SetTimerMaxMillisecond(maxMSecs) in t <==> cfg.icallJt)
  {
    InActivation(cfg, clockTickPeriod, maxMSecs, PowerSetConstraint(SbDisallow));
    InActivation(cfg, clockTickPeriod, maxMSecs, PowerSetConstraint(IdlePdDisallow));
    InActivation(cfg, clockTickPeriod, maxMSecs, PinOpen(RadCtrlTable));
    InActivation(cfg, clockTickPeriod, maxMSecs, PowerRegisterNotify(StandbyEvents));
    InActivation(cfg, clockTickPeriod, maxMSecs, SetRfcBleMode);
    InActivation(cfg, clockTickPeriod, maxMSecs, SetTimerTickPeriod(clockTickPeriod));
    InActivation(cfg, clockTickPeriod, maxMSecs, SetTimerMaxMillisecond(maxMSecs));
    NotifyEventsOnly(cfg, clockTickPeriod, maxMSecs);
  }

  /** Occurrences in main's trace add up over its four parts. */
  lemma CountBoot(cfg: BuildConfig, src: ResetSource, clockTickPeriod: int, maxMSecs: int, x: Action)
    ensures Count(BootTrace(cfg, src, clockTickPeriod, maxMSecs), x) ==
      Count(FpgaPrologue(cfg), x) + Count(Preamble, x) + Count(BootBody(cfg, src, clockTickPeriod, maxMSecs), x)
        + Count([BiosStart], x)
  {
    var head := FpgaPrologue(cfg) + Preamble;
    var body := BootBody(cfg, src, clockTickPeriod, maxMSecs);
    CountAppend(FpgaPrologue(cfg), Preamble, x);
    CountAppend(head, body, x);
    CountAppend(head + body, [BiosStart], x);
  }

  /** An action outside the activation path, the prologue and the preamble
      occurs in main's trace only through the other-source body or BIOS_start. */
  lemma CountBootOutside(cfg: BuildConfig, src: ResetSource, clockTickPeriod: int, maxMSecs: int, x: Action)
    requires !IsActivationStep(x) && !x.PrcmClearRfcOn? && x !in Preamble
    ensures Count(BootTrace(cfg, src, clockTickPeriod, maxMSecs), x) ==
      (if src != WakeupFromShutdown && x == TaskConstruct then 1 else 0) + (if x == BiosStart then 1 else 0)
  {
    CountBoot(cfg, src, clockTickPeriod, maxMSecs, x);
    CountInActivation(cfg, clockTickPeriod, maxMSecs, x);
  }

  lemma ResetSourceOnce(cfg: BuildConfig, src: ResetSource, clockTickPeriod: int, maxMSecs: int)
    ensures Count(BootTrace(cfg, src, clockTickPeriod, maxMSecs), ResetSourceGet) == 1
  {
    CountBoot(cfg, src, clockTickPeriod, maxMSecs, ResetSourceGet);
    CountInActivation(cfg, clockTickPeriod, maxMSecs, ResetSourceGet);
  }

  /** Main's trace: the FPGA register clears, the preamble, the body, and a
      final BIOS_start. */
  lemma BootShape(cfg: BuildConfig, src: ResetSource, clockTickPeriod: int, maxMSecs: int)
    ensures var t := BootTrace(cfg, src, clockTickPeriod, maxMSecs);
      var p := |FpgaPrologue(cfg)|;
      && |t| >= p + 5
      && (forall i :: 0 <= i < p ==> t[i].PrcmClearRfcOn?)
      && t[p] == RegisterAssertCback && t[p + 1] == BoardInitGeneral && t[p + 2] == ResetSourceGet
      && t[|t| - 1] == BiosStart
  {
  }

  /** Main's trace on any source other than wake-from-shutdown. */
  lemma OtherSourceBoot(cfg: BuildConfig, src: ResetSource, clockTickPeriod: int, maxMSecs: int)
    requires src != WakeupFromShutdown
    ensures var t := BootTrace(cfg, src, clockTickPeriod, maxMSecs);
      && t == FpgaPrologue(cfg) + Preamble + [TaskConstruct, BiosStart]
      && (forall i :: 0 <= i < |t| ==> !IsActivationStep(t[i]))
  {
  }

  /** On wake-from-shutdown the activation path follows the preamble. */
  lemma WakeupBoot(cfg: BuildConfig, clockTickPeriod: int, maxMSecs: int)
    ensures var t := BootTrace(cfg, WakeupFromShutdown, clockTickPeriod, maxMSecs);
      var p := |FpgaPrologue(cfg)| + |Preamble|;
      p < |t| && t[p] == PinOpen(BoardGpioInitTable)
  {
    var t := BootTrace(cfg, WakeupFromShutdown, clockTickPeriod, maxMSecs);
    var head := FpgaPrologue(cfg) + Preamble;
    var a := ActivationTrace(cfg, clockTickPeriod, maxMSecs);
    ActivationEnds(cfg, clockTickPeriod, maxMSecs);
    assert t == head + (a + [BiosStart]);
    assert t[|head|] == a[0] == a[..2][0];
  }

  /** Path exclusivity: the activation path runs if and only if the reset
      source is wake-from-shutdown; any other source constructs only the
      shutdown task. Both paths read the reset source once, start with the
      assert callback registration and Board_initGeneral (after the FPGA
      register clears) and end with a single BIOS_start. */
  lemma PathExclusivity(cfg: BuildConfig, src: ResetSource, clockTickPeriod: int, maxMSecs: int)
    ensures var t := BootTrace(cfg, src, clockTickPeriod, maxMSecs);
      var p := |FpgaPrologue(cfg)|;
      && |t| >= p + 5
      && (forall i :: 0 <= i < p ==> t[i].PrcmClearRfcOn?)
      && t[p] == RegisterAssertCback && t[p + 1] == BoardInitGeneral && t[p + 2] == ResetSourceGet
      && t[|t| - 1] == BiosStart
      && Count(t, BiosStart) == 1
      && Count(t, ResetSourceGet) == 1
      && ((exists i :: 0 <= i < |t| && IsActivationStep(t[i])) <==> src == WakeupFromShutdown)
      && Count(t, TaskConstruct) == (if src == WakeupFromShutdown then 0 else 1)
    ensures src != WakeupFromShutdown ==>
      BootTrace(cfg, src, clockTickPeriod, maxMSecs) == FpgaPrologue(cfg) + Preamble + [TaskConstruct, BiosStart]
  {
    BootShape(cfg, src, clockTickPeriod, maxMSecs);
    BootCounts(cfg, src, clockTickPeriod, maxMSecs);
    PathChoice(cfg, src, clockTickPeriod, maxMSecs);
  }

  /** BIOS_start and the reset-source read happen once each; the shutdown task
      is constructed once on other sources and never on wake-from-shutdown. */
  lemma BootCounts(cfg: BuildConfig, src: ResetSource, clockTickPeriod: int, maxMSecs: int)
    ensures var t := BootTrace(cfg, src, clockTickPeriod, maxMSecs);
      && Count(t, BiosStart) == 1
      && Count(t, ResetSourceGet) == 1
      && Count(t, TaskConstruct) == (if src == WakeupFromShutdown then 0 else 1)
  {
    ResetSourceOnce(cfg, src, clockTickPeriod, maxMSecs);
    BiosStartOnce(cfg, src, clockTickPeriod, maxMSecs);
    TaskConstructCount(cfg, src, clockTickPeriod, maxMSecs);
  }

  lemma BiosStartOnce(cfg: BuildConfig, src: ResetSource, clockTickPeriod: int, maxMSecs: int)
    ensures Count(BootTrace(cfg, src, clockTickPeriod, maxMSecs), BiosStart) == 1
  {
    CountBootOutside(cfg, src, clockTickPeriod, maxMSecs, BiosStart);
  }

  lemma TaskConstructCount(cfg: BuildConfig, src: ResetSource, clockTickPeriod: int, maxMSecs: int)
    ensures Count(BootTrace(cfg, src, clockTickPeriod, maxMSecs), TaskConstruct) ==
      if src == WakeupFromShutdown then 0 else 1
  {
    CountBootOutside(cfg, src, clockTickPeriod, maxMSecs, TaskConstruct);
  }

  /** Activation steps occur in main's trace if and only if the reset source is
      wake-from-shutdown. */
  lemma PathChoice(cfg: BuildConfig, src: ResetSource, clockTickPeriod: int, maxMSecs: int)
    ensures var t := BootTrace(cfg, src, clockTickPeriod, maxMSecs);
      (exists i :: 0 <= i < |t| && IsActivationStep(t[i])) <==> src == WakeupFromShutdown
    ensures src != WakeupFromShutdown ==>
      BootTrace(cfg, src, clockTickPeriod, maxMSecs) == FpgaPrologue(cfg) + Preamble + [TaskConstruct, BiosStart]
  {
    if src == WakeupFromShutdown {
      WakeupBoot(cfg, clockTickPeriod, maxMSecs);
    } else {
      OtherSourceBoot(cfg, src, clockTickPeriod, maxMSecs);
    }
  }

  /** The shutdown path of a whole cycle: main's other-source path, then the
      wake table holding exactly button 0 on a falling edge, then the shutdown
      request, and nothing after it. */
  lemma ShutdownPath(cfg: BuildConfig, src: ResetSource, clockTickPeriod: int, maxMSecs: int)
    requires src != WakeupFromShutdown
    ensures var t := CycleTrace(cfg, src, clockTickPeriod, maxMSecs);
      && t == FpgaPrologue(cfg) + Preamble + [TaskConstruct, BiosStart, PinSetWakeup(ButtonTableWakeUp), PowerShutdown]
      && ButtonTableWakeUp == [WakeupInput(Button0, true, NegEdge)]
      && (forall i :: 0 <= i < |t| ==> !IsActivationStep(t[i]))
  {
  }

  /** On wake-from-shutdown the cycle neither arms a wake table nor asks for
      shutdown. */
  lemma WakeupNoShutdown(cfg: BuildConfig, clockTickPeriod: int, maxMSecs: int, x: Action)
    requires x == PowerShutdown || x.PinSetWakeup?
    ensures x !in CycleTrace(cfg, WakeupFromShutdown, clockTickPeriod, maxMSecs)
  {
    CountBootOutside(cfg, WakeupFromShutdown, clockTickPeriod, maxMSecs, x);
    assert CycleTrace(cfg, WakeupFromShutdown, clockTickPeriod, maxMSecs) == BootTrace(cfg, WakeupFromShutdown, clockTickPeriod, maxMSecs);
  }

  /** PIN_open of radCtrlCfg leaves the RF switch on the 2.4 GHz path (DIO1
      low) and powers the switch (DIO30 high), changing no other pin. */
  lemma RadCtrlDefaults(levels: map<Pin, Level>)
    ensures var r := OpenedLevels(levels, RadCtrlCfg);
      && r.Keys == levels.Keys + {Dio1RfSw, Dio30SwPwr}
      && r[Dio1RfSw] == Low && r[Dio30SwPwr] == High
      && (forall p :: p in levels && p != Dio1RfSw && p != Dio30SwPwr ==> r[p] == levels[p])
  {
  }

  /** A wake from shutdown on a build with cache enabled, no power saving and no
      RF switch: VIMS is enabled, standby and idle power-down are forbidden, no
      RF switch step runs, and the three task creations follow ICall_init. */
  lemma ScenarioPlainWakeup(clockTickPeriod: int, maxMSecs: int)
    ensures var cfg := BuildConfig(false, false, false, false, false, false);
      BootTrace(cfg, WakeupFromShutdown, clockTickPeriod, maxMSecs) ==
        [RegisterAssertCback, BoardInitGeneral, ResetSourceGet,
         PinOpen(BoardGpioInitTable), PinSetOutputValue(Dio0, High),
         VimsConfigure(true, true), VimsModeSet(VimsModeEnabled),
         PowerSetConstraint(SbDisallow), PowerSetConstraint(IdlePdDisallow),
         ICallInit, ICallCreateRemoteTasks, GapRoleCreateTask, SimplePeripheralCreateTask,
         BiosStart]
  {
    ActivationUnfolded(BuildConfig(false, false, false, false, false, false), clockTickPeriod, maxMSecs);
  }
}
