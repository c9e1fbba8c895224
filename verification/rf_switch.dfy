/** The power-notify callback of Startup/main.c (`rFSwitchNotifyCb`): on the
    standby transitions it powers the external RF switch down and up again by
    driving the switch-power pin. */
module RfSwitch {
  import opened Platform

  /** Power_NOTIFYDONE, the only status the callback returns. */
  datatype NotifyStatus = NotifyDone

  /** The pin writes the callback makes for one event. */
  function PinWrites(event: PowerEvent): seq<Action>
  {
    if event == EnteringStandby then [PinSetOutputValue(Dio30SwPwr, Low)]
    else if event == AwakeStandby then [PinSetOutputValue(Dio30SwPwr, High)]
    else []
  }

  /** Output levels after a sequence of pin writes; other actions leave the
      levels alone. */
  function ApplyWrites(levels: map<Pin, Level>, writes: seq<Action>): map<Pin, Level>
    decreases |writes|
  {
    if writes == [] then levels
    else
      var next := match writes[0]
        case PinSetOutputValue(p, l) => levels[p := l]
        case _ => levels;
      ApplyWrites(next, writes[1..])
  }

  lemma {:induction false} ApplyWritesAppend(levels: map<Pin, Level>, a: seq<Action>, b: seq<Action>)
    ensures ApplyWrites(levels, a + b) == ApplyWrites(ApplyWrites(levels, a), b)
    decreases |a|
  {
    if a == [] {
      assert a + b == b;
    } else {
      assert (a + b)[1..] == a[1..] + b;
      var next := match a[0]
        case PinSetOutputValue(p, l) => levels[p := l]
        case _ => levels;
      ApplyWritesAppend(next, a[1..], b);
    }
  }

  /** The switch-power level after one notification, given the level before:
      low on entering standby, high on waking, unchanged for any other event. */
  function SwitchPowerAfter(event: PowerEvent, level: Level): Level
  {
    match event
    case EnteringStandby => Low
    case AwakeStandby => High
    case OtherEvent(_) => level
  }

  /** The callback touches only the switch-power pin, and leaves it at the
      level SwitchPowerAfter gives; the RF path select pin is never driven. */
  lemma NotifyWrites(levels: map<Pin, Level>, event: PowerEvent)
    requires Dio30SwPwr in levels
    ensures var r := ApplyWrites(levels, PinWrites(event));
      && r.Keys == levels.Keys
      && r[Dio30SwPwr] == SwitchPowerAfter(event, levels[Dio30SwPwr])
      && (forall p :: p in levels && p != Dio30SwPwr ==> r[p] == levels[p])
      && (event !in StandbyEvents ==> r == levels)
  {
  }

  /** Switch-power level after a series of notifications, one at a time. */
  function LevelAfterAll(level: Level, events: seq<PowerEvent>): Level
    decreases |events|
  {
    if events == [] then level else LevelAfterAll(SwitchPowerAfter(events[0], level), events[1..])
  }

  /** The last standby transition in a series of events, if there is one. */
  function LastTransition(events: seq<PowerEvent>): (r: Option<PowerEvent>)
    ensures r.Some? ==> r.value in StandbyEvents && r.value in events
    ensures r.None? <==> forall i :: 0 <= i < |events| ==> events[i] !in StandbyEvents
    decreases |events|
  {
    if events == [] then None
    else if events[|events| - 1] in StandbyEvents then Some(events[|events| - 1])
    else LastTransition(events[..|events| - 1])
  }

  lemma {:induction false} LevelAfterAllSnoc(level: Level, events: seq<PowerEvent>, e: PowerEvent)
    ensures LevelAfterAll(level, events + [e]) == SwitchPowerAfter(e, LevelAfterAll(level, events))
    decreases |events|
  {
    if events == [] {
      assert events + [e] == [e];
    } else {
      assert (events + [e])[1..] == events[1..] + [e];
      LevelAfterAllSnoc(SwitchPowerAfter(events[0], level), events[1..], e);
    }
  }

  /** After any series of notifications the switch power reflects the last
      standby transition: off if the device last entered standby, on if it
      last woke; with no transition it keeps its level. */
  lemma {:induction false} LevelIsLastTransition(level: Level, events: seq<PowerEvent>)
    ensures LevelAfterAll(level, events) ==
      match LastTransition(events)
      case None => level
      case Some(e) => if e == EnteringStandby then Low else High
    decreases |events|
  {
    if events != [] {
      var init := events[..|events| - 1];
      var e := events[|events| - 1];
      assert events == init + [e];
      LevelAfterAllSnoc(level, init, e);
      LevelIsLastTransition(level, init);
    }
  }

  /** The pin writes of the callback, once per event, in order. */
  function WritesFor(events: seq<PowerEvent>): seq<Action>
    decreases |events|
  {
    if events == [] then [] else PinWrites(events[0]) + WritesFor(events[1..])
  }

  /** Running the callback for each event in turn drives the switch-power pin
      to the level the series of events gives. */
  lemma {:induction false} WritesFollowEvents(levels: map<Pin, Level>, events: seq<PowerEvent>)
    requires Dio30SwPwr in levels
    ensures var r := ApplyWrites(levels, WritesFor(events));
      && r.Keys == levels.Keys
      && r[Dio30SwPwr] == LevelAfterAll(levels[Dio30SwPwr], events)
      && (forall p :: p in levels && p != Dio30SwPwr ==> r[p] == levels[p])
    decreases |events|
  {
    if events != [] {
      var once := ApplyWrites(levels, PinWrites(events[0]));
      ApplyWritesAppend(levels, PinWrites(events[0]), WritesFor(events[1..]));
      NotifyWrites(levels, events[0]);
      WritesFollowEvents(once, events[1..]);
    }
  }

  /** Any series of events that ends with a wake from standby leaves the
      switch powered, whatever the level before. */
  lemma StandbyRoundTrip(level: Level, events: seq<PowerEvent>)
    requires |events| > 0 && events[|events| - 1] == AwakeStandby
    ensures LevelAfterAll(level, events) == High
  {
    LevelIsLastTransition(level, events);
  }
}
