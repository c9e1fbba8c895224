/** The stack-assert callback of Startup/main.c (`AssertHandler`): what it
    shows on the display for each assert cause and whether it then spins
    (HAL_ASSERT_SPINLOCK) or returns to the stack. */
module StackAssert {
  import opened Platform

  /** The assert causes of hal_assert.h that the handler distinguishes; any
      other cause value is `UnrecognisedCause`. */
  datatype Cause =
    | OutOfMemory
    | InternalError
    | ICallAbort
    | ICallTimeout
    | WrongApiCall
    | UnrecognisedCause(code: nat)

  /** The subcause; only HAL_ASSERT_SUBCAUSE_FW_INERNAL_ERROR is looked at. */
  datatype Subcause = SubcauseNone | FwInternalError | OtherSubcause(code: nat)

  /** What the handler does for one assert: the line it shows and whether it
      spins afterwards. */
  datatype Disposition = Disposition(message: string, halts: bool)

  const Banner: string := ">>>STACK ASSERT"
  const ErrorHeader: string := "***ERROR***"

  /** The switch of AssertHandler. */
  function Classify(cause: Cause, sub: Subcause): Disposition
  {
    match cause
    case OutOfMemory => Disposition(">> OUT OF MEMORY!", false)
    case InternalError =>
      if sub == FwInternalError then Disposition(">> INTERNAL FW ERROR!", false)
      else Disposition(">> INTERNAL ERROR!", false)
    case ICallAbort => Disposition(">> ICALL ABORT!", true)
    case ICallTimeout => Disposition(">> ICALL TIMEOUT!", true)
    case WrongApiCall => Disposition(">> WRONG API CALL!", true)
    case UnrecognisedCause(_) => Disposition(">> DEFAULT SPINLOCK!", true)
  }

  /** The kinds of fault a reader of the display can tell apart. */
  datatype FaultClass = MemoryFault | FirmwareFault | InternalFault | AbortFault | TimeoutFault | ApiFault | UnknownFault

  /** The fault class of an assert, independent of how it is displayed. */
  function ClassOf(cause: Cause, sub: Subcause): FaultClass
  {
    if cause.OutOfMemory? then MemoryFault
    else if cause.InternalError? && sub.FwInternalError? then FirmwareFault
    else if cause.InternalError? then InternalFault
    else if cause.ICallAbort? then AbortFault
    else if cause.ICallTimeout? then TimeoutFault
    else if cause.WrongApiCall? then ApiFault
    else UnknownFault
  }

  /** Reading the fault class back from the message line; None for any line
      the handler never shows. */
  function ClassOfMessage(message: string): (r: Option<FaultClass>)
  {
    if message == ">> OUT OF MEMORY!" then Some(MemoryFault)
    else if message == ">> INTERNAL FW ERROR!" then Some(FirmwareFault)
    else if message == ">> INTERNAL ERROR!" then Some(InternalFault)
    else if message == ">> ICALL ABORT!" then Some(AbortFault)
    else if message == ">> ICALL TIMEOUT!" then Some(TimeoutFault)
    else if message == ">> WRONG API CALL!" then Some(ApiFault)
    else if message == ">> DEFAULT SPINLOCK!" then Some(UnknownFault)
    else None
  }

  /** The message shown identifies the fault class: reading it back gives the
      class of the assert, so two asserts of different classes never show the
      same line. */
  lemma MessageIdentifiesFault(cause: Cause, sub: Subcause)
    ensures ClassOfMessage(Classify(cause, sub).message) == Some(ClassOf(cause, sub))
  {
  }

  lemma DistinctFaultsDistinctMessages(c1: Cause, s1: Subcause, c2: Cause, s2: Subcause)
    requires ClassOf(c1, s1) != ClassOf(c2, s2)
    ensures Classify(c1, s1).message != Classify(c2, s2).message
  {
    MessageIdentifiesFault(c1, s1);
    MessageIdentifiesFault(c2, s2);
  }

  /** Dispositions: the handler returns to the stack for out-of-memory and
      internal errors (whatever the subcause) and spins for every other cause,
      unrecognised ones included; the subcause changes nothing but the
      message, and only for internal errors. */
  lemma Dispositions(cause: Cause, sub: Subcause, other: Subcause)
    ensures Classify(cause, sub).halts <==> !(cause == OutOfMemory || cause == InternalError)
    ensures cause != InternalError ==> Classify(cause, sub) == Classify(cause, other)
    ensures Classify(cause, sub).halts == Classify(cause, other).halts
    ensures cause == InternalError ==>
      (Classify(cause, sub).message == ">> INTERNAL FW ERROR!" <==> sub == FwInternalError)
  {
  }

  /** The display calls of one assert: nothing when the display is compiled
      out; otherwise Display_open if no handle is held yet, then the banner,
      the error header and the cause's message. */
  function AssertTrace(displayDisabled: bool, dispOpen: bool, d: Disposition): seq<Action>
  {
    if displayDisabled then []
    else (if dispOpen then [] else [DisplayOpen]) + [DisplayPrint(Banner), DisplayPrint(ErrorHeader), DisplayPrint(d.message)]
  }

  /** Every assert shown makes exactly the display calls of main.c: first
      Display_open, only when no handle is held, then the banner, the header
      and its message; nothing else. */
  lemma AssertDisplay(displayDisabled: bool, dispOpen: bool, cause: Cause, sub: Subcause)
    ensures var t := AssertTrace(displayDisabled, dispOpen, Classify(cause, sub));
      && (displayDisabled ==> t == [])
      && (!displayDisabled ==>
        && |t| == (if dispOpen then 3 else 4)
        && (!dispOpen ==> t[0] == DisplayOpen)
        && t[|t| - 3..] == [DisplayPrint(Banner), DisplayPrint(ErrorHeader), DisplayPrint(Classify(cause, sub).message)]
        && (DisplayOpen in t <==> !dispOpen)
        && Count(t, DisplayOpen) <= 1)
  {
  }

  /** A series of asserts raised by the stack, one after another, with the
      display handle kept between them; the series stops at the first assert
      that spins. */
  function AssertSeries(displayDisabled: bool, dispOpen: bool, faults: seq<(Cause, Subcause)>): seq<Action>
    decreases |faults|
  {
    if faults == [] then []
    else
      var d := Classify(faults[0].0, faults[0].1);
      AssertTrace(displayDisabled, dispOpen, d)
        + (if d.halts then [] else AssertSeries(displayDisabled, dispOpen || !displayDisabled, faults[1..]))
  }

  /** Display_open is called at most once over any series of asserts: exactly
      once if the display is compiled in, no handle was held and at least one
      assert was raised. */
  lemma {:induction false} DisplayOpenedOnce(displayDisabled: bool, dispOpen: bool, faults: seq<(Cause, Subcause)>)
    ensures Count(AssertSeries(displayDisabled, dispOpen, faults), DisplayOpen) ==
      if !displayDisabled && !dispOpen && |faults| > 0 then 1 else 0
    decreases |faults|
  {
    if faults != [] {
      var d := Classify(faults[0].0, faults[0].1);
      var head := AssertTrace(displayDisabled, dispOpen, d);
      var rest := if d.halts then [] else AssertSeries(displayDisabled, dispOpen || !displayDisabled, faults[1..]);
      CountAppend(head, rest, DisplayOpen);
      AssertDisplay(displayDisabled, dispOpen, faults[0].0, faults[0].1);
      if !d.halts {
        DisplayOpenedOnce(displayDisabled, dispOpen || !displayDisabled, faults[1..]);
      }
    }
  }

  /** The number of asserts handled before the first one that spins, that one
      included. */
  function Handled(faults: seq<(Cause, Subcause)>): (n: nat)
    ensures n <= |faults|
    decreases |faults|
  {
    if faults == [] then 0
    else if Classify(faults[0].0, faults[0].1).halts then 1
    else 1 + Handled(faults[1..])
  }

  /** One assert shows the banner once, unless the display is compiled out. */
  lemma BannerOnce(displayDisabled: bool, dispOpen: bool, cause: Cause, sub: Subcause)
    ensures Count(AssertTrace(displayDisabled, dispOpen, Classify(cause, sub)), DisplayPrint(Banner)) ==
      if displayDisabled then 0 else 1
  {
  }

  /** Each handled assert shows the banner once; none after the first spin. */
  lemma {:induction false} BannerPerAssert(displayDisabled: bool, dispOpen: bool, faults: seq<(Cause, Subcause)>)
    ensures Count(AssertSeries(displayDisabled, dispOpen, faults), DisplayPrint(Banner)) ==
      if displayDisabled then 0 else Handled(faults)
    decreases |faults|
  {
    if faults != [] {
      var d := Classify(faults[0].0, faults[0].1);
      var head := AssertTrace(displayDisabled, dispOpen, d);
      var rest := if d.halts then [] else AssertSeries(displayDisabled, dispOpen || !displayDisabled, faults[1..]);
      CountAppend(head, rest, DisplayPrint(Banner));
      BannerOnce(displayDisabled, dispOpen, faults[0].0, faults[0].1);
      if !d.halts {
        BannerPerAssert(displayDisabled, dispOpen || !displayDisabled, faults[1..]);
      }
    }
  }
}
