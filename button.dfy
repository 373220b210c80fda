/** common/button.py: a push button with a short-press and a long-press callback. The GPIO edge
    callback and one pass of the long-press monitor are methods taking the pin level and the clock
    reading (whole milliseconds) as inputs; which callback fires is their result. */
module Button {
  import opened Common

  /** Which callback a transition fires. */
  datatype Fired = NoCallback | ShortPress | LongPress

  /** The three fields the callbacks share. */
  datatype State = State(pressTime: Option<int>, released: bool, longTriggered: bool)

  /** The button's configuration: whether each callback is set, and the hold time of a long press. */
  datatype Config = Config(hasShort: bool, hasLong: bool, longPressDuration: int)

  /** `_button_callback`: a LOW pin is a press, anything else a release. */
  function Edge(cfg: Config, s: State, pinLow: bool, now: int): (r: (State, Fired))
  {
    if pinLow then (State(Some(now), false, false), NoCallback)
    else if s.pressTime.Some? && !s.released then
      (State(None, true, s.longTriggered), if !s.longTriggered && cfg.hasShort then ShortPress else NoCallback)
    else (s, NoCallback)
  }

  /** One pass of `_monitor_long_press`'s loop. */
  function Poll(cfg: Config, s: State, now: int): (r: (State, Fired))
  {
    if !s.released && s.pressTime.Some? && !s.longTriggered
       && now - s.pressTime.value >= cfg.longPressDuration && cfg.hasLong
    then (s.(longTriggered := true), LongPress)
    else (s, NoCallback)
  }

  /** What the button sees: an edge with the pin level, or a pass of the monitor. */
  datatype Event = PinEdge(low: bool, at: int) | MonitorPass(at: int)

  function Apply(cfg: Config, s: State, e: Event): (State, Fired) {
    match e
    case PinEdge(low, at) => Edge(cfg, s, low, at)
    case MonitorPass(at) => Poll(cfg, s, at)
  }

  predicate IsPress(e: Event) {
    e.PinEdge? && e.low
  }

  /** The state after a run of events and the number of callbacks it fired. */
  function Run(cfg: Config, s: State, events: seq<Event>): (State, nat) {
    if |events| == 0 then (s, 0)
    else
      var (s1, n) := Run(cfg, s, events[..|events| - 1]);
      var (s2, f) := Apply(cfg, s1, events[|events| - 1]);
      (s2, n + if f == NoCallback then 0 else 1)
  }

  /** A press records the time and re-arms both callbacks; a release after a press clears the press
      and fires the short press unless the long press already fired; a release without a pending
      press changes nothing. */
  lemma EdgeRules(cfg: Config, s: State, now: int)
    ensures Edge(cfg, s, true, now) == (State(Some(now), false, false), NoCallback)
    ensures s.pressTime.Some? && !s.released ==>
      && Edge(cfg, s, false, now).0.pressTime.None? && Edge(cfg, s, false, now).0.released
      && (Edge(cfg, s, false, now).1 == ShortPress <==> !s.longTriggered && cfg.hasShort)
    ensures s.pressTime.None? || s.released ==> Edge(cfg, s, false, now) == (s, NoCallback)
  {
  }

  /** The monitor fires the long press exactly when a pending press has been held long enough and has
      not fired yet, and then marks it fired. */
  lemma PollRules(cfg: Config, s: State, now: int)
    ensures Poll(cfg, s, now).1 == LongPress <==>
      (!s.released && s.pressTime.Some? && !s.longTriggered && cfg.hasLong
       && now - s.pressTime.value >= cfg.longPressDuration)
    ensures Poll(cfg, s, now).1 == LongPress ==> Poll(cfg, s, now).0.longTriggered
    ensures Poll(cfg, s, now).1 != ShortPress
  {
  }

  /** Line 65 of the monitor alone: the long-press callback runs, before the press is marked. */
  function PollFire(cfg: Config, s: State, now: int): (r: (State, Fired))
  {
    if !s.released && s.pressTime.Some? && !s.longTriggered
       && now - s.pressTime.value >= cfg.longPressDuration && cfg.hasLong
    then (s, LongPress)
    else (s, NoCallback)
  }

  /** Line 66 of the monitor alone: the press is marked as long. */
  function MarkLong(s: State): (r: State)
    ensures r.longTriggered && r.pressTime == s.pressTime && r.released == s.released
  {
    s.(longTriggered := true)
  }

  /** A pass of the monitor is its two lines run back to back; a release handled on the GPIO thread
      between them (while the long-press callback runs) still sees the press unmarked and fires the
      short press too: two callbacks for one press, where the pass taken as one step leaves the
      release silent. */
  lemma ReleaseDuringLongCallback(cfg: Config, s: State, t0: int, now: int)
    requires cfg.hasShort && cfg.hasLong && now - t0 >= cfg.longPressDuration
    ensures var pressed := Edge(cfg, s, true, t0).0;
      && (PollFire(cfg, pressed, now).1 == LongPress ==> Poll(cfg, pressed, now) == (MarkLong(pressed), LongPress))
      && PollFire(cfg, pressed, now) == (pressed, LongPress)
      && Edge(cfg, PollFire(cfg, pressed, now).0, false, now).1 == ShortPress
      && Edge(cfg, Poll(cfg, pressed, now).0, false, now).1 == NoCallback
  {
  }

  /** The invariant of a press cycle: at most one callback fired, and once one has, the press is
      either released or marked as long. */
  predicate CycleInv(s: State, fired: nat) {
    fired <= 1 && (fired == 1 ==> s.released || s.longTriggered)
  }

  lemma ApplyKeepsCycleInv(cfg: Config, s: State, fired: nat, e: Event)
    requires CycleInv(s, fired) && !IsPress(e)
    ensures var (s2, f) := Apply(cfg, s, e); CycleInv(s2, fired + if f == NoCallback then 0 else 1)
  {
  }

  /** Between a press and the next press, at most one of the two callbacks fires, for any order of
      releases and monitor passes, each monitor pass taken as one step (`Poll`). */
  lemma {:induction false} OneCallbackPerPress(cfg: Config, s: State, now: int, events: seq<Event>)
    requires forall i :: 0 <= i < |events| ==> !IsPress(events[i])
    ensures Run(cfg, s, [PinEdge(true, now)] + events).1 <= 1
  {
    CycleRun(cfg, s, now, events);
  }

  lemma {:induction false} CycleRun(cfg: Config, s: State, now: int, events: seq<Event>)
    requires forall i :: 0 <= i < |events| ==> !IsPress(events[i])
    ensures var (s2, n) := Run(cfg, s, [PinEdge(true, now)] + events); CycleInv(s2, n)
    decreases |events|
  {
    var all := [PinEdge(true, now)] + events;
    if |events| == 0 {
      assert all[..0] == [];
    } else {
      assert all[..|all| - 1] == [PinEdge(true, now)] + events[..|events| - 1];
      CycleRun(cfg, s, now, events[..|events| - 1]);
      var (s1, n) := Run(cfg, s, all[..|all| - 1]);
      ApplyKeepsCycleInv(cfg, s1, n, events[|events| - 1]);
    }
  }

  /** `Button`: the fields shared by the GPIO callback and the monitor thread. */
  class Button {
    const shortPressCallback: bool
    const longPressCallback: bool
    const longPressDuration: int
    var buttonPressTime: Option<int>
    var buttonReleased: bool
    var longPressTriggered: bool

    function Settings(): Config
      reads this
    {
      Config(shortPressCallback, longPressCallback, longPressDuration)
    }

    function Fields(): State
      reads this
    {
      State(buttonPressTime, buttonReleased, longPressTriggered)
    }

    /** A released button with nothing pending; `long_press_duration` defaults to 3 seconds. */
    constructor(hasShort: bool, hasLong: bool, longPressDuration: int)
      ensures Settings() == Config(hasShort, hasLong, longPressDuration)
      ensures Fields() == State(None, true, false)
    {
      shortPressCallback := hasShort;
      longPressCallback := hasLong;
      this.longPressDuration := longPressDuration;
      buttonPressTime := None;
      buttonReleased := true;
      longPressTriggered := false;
    }

    /** `_button_callback(channel)` with the pin level read and the clock at the edge. */
    method ButtonCallback(pinLow: bool, now: int) returns (fired: Fired)
      modifies this
      ensures (Fields(), fired) == Edge(Settings(), old(Fields()), pinLow, now)
    {
      fired := NoCallback;
      if pinLow {
        buttonPressTime := Some(now);
        buttonReleased := false;
        longPressTriggered := false;
      } else {
        if buttonPressTime.Some? && !buttonReleased {
          if !longPressTriggered && shortPressCallback {
            fired := ShortPress;
          }
          buttonReleased := true;
          buttonPressTime := None;
        }
      }
    }

    /** One pass of `_monitor_long_press`'s loop with the clock at that pass. */
    method MonitorLongPress(now: int) returns (fired: Fired)
      modifies this
      ensures (Fields(), fired) == Poll(Settings(), old(Fields()), now)
    {
      fired := NoCallback;
      if !buttonReleased && buttonPressTime.Some? && !longPressTriggered {
        var pressDuration := now - buttonPressTime.value;
        if pressDuration >= longPressDuration && longPressCallback {
          fired := LongPress;
          longPressTriggered := true;
        }
      }
    }
  }
}
