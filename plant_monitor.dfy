/** The `PlantTalker` controller of plantMonitor.py: it reads its station
    address once, derives the indicator from the classified level, registers
    three periodic callbacks, and on every re-check that sees a new level
    re-lights the indicator, re-registers the blink callback when the cadence
    changes, and sends one notification.

    The hysteresis classifier is outside this model: each re-check receives
    the level the classifier has just returned (`reading`), and `sensorState`
    is what the classifier reports as its current state afterwards. The
    scheduler is outside this model too: each `registerEvent` call is recorded
    as an (interval, callback) pair in `registrations`, and each
    `sendNotification` call as a (station, message) pair in `notifications`. */
module PlantMonitor {
  import opened Moisture
  import opened Indicator

  /** Blink intervals, in milliseconds, and the re-check interval. */
  const SlowBlinkTime := 5000
  const FastBlinkTime := 100
  const RecheckTime := 10000

  /** The callbacks the controller hands to the scheduler. */
  datatype Callback = SmellTheRoses | ShowActivity | UpdateLights

  /** One `registerEvent` call: (interval, callback). */
  type Registration = (int, Callback)

  // ------------------------------------------------------------------
  // Station address

  /** A digital input reading. */
  type PinValue = v: int | 0 <= v <= 1

  /** The readings of the four address inputs, named by their weight. */
  datatype AddressLines = AddressLines(address8: PinValue, address4: PinValue, address2: PinValue, address1: PinValue)

  /** Python's `~v` on an integer. */
  function BitNot(v: int): int
  {
    -v - 1
  }

  /** What one address line contributes before weighting, `~v % 2`: the
      lines are active low. For a positive divisor Dafny's `%` agrees with
      Python's. */
  function ActiveLow(v: PinValue): (bit: nat)
    ensures bit == 1 - v
  {
    BitNot(v) % 2
  }

  /** `getStationAddress`: a line reading 0 contributes its weight and a line
      reading 1 contributes nothing. */
  function GetStationAddress(pins: AddressLines): (address: nat)
    ensures address <= 15
    ensures address == 8 * (1 - pins.address8) + 4 * (1 - pins.address4) + 2 * (1 - pins.address2) + (1 - pins.address1)
  {
    ActiveLow(pins.address8) * 8 + ActiveLow(pins.address4) * 4
      + ActiveLow(pins.address2) * 2 + ActiveLow(pins.address1)
  }

  /** The address-line readings that select a station: the inverse of
      `GetStationAddress`. Each line, from the heaviest, is pulled low when
      its weight still fits into what remains of the address. */
  function AddressLinesFor(address: nat): (pins: AddressLines)
    requires address <= 15
    ensures GetStationAddress(pins) == address
  {
    var rest4 := if address >= 8 then address - 8 else address;
    var rest2 := if rest4 >= 4 then rest4 - 4 else rest4;
    var rest1 := if rest2 >= 2 then rest2 - 2 else rest2;
    AddressLines(if address >= 8 then 0 else 1, if rest4 >= 4 then 0 else 1,
                 if rest2 >= 2 then 0 else 1, 1 - rest1)
  }

  /** Every station address comes from exactly one setting of the lines. */
  lemma AddressLinesRoundTrip(pins: AddressLines)
    ensures AddressLinesFor(GetStationAddress(pins)) == pins
  {
    var low := 2 * (1 - pins.address2) + (1 - pins.address1);
    assert 0 <= low < 4;
    var lines := AddressLinesFor(GetStationAddress(pins));
    assert lines.address8 == pins.address8;
    assert lines.address4 == pins.address4;
    assert lines.address2 == pins.address2;
    assert lines.address1 == pins.address1;
  }

  lemma StationAddressExtremes()
    ensures GetStationAddress(AddressLines(1, 1, 1, 1)) == 0
    ensures GetStationAddress(AddressLines(0, 0, 0, 0)) == 15
  {
  }

  // ------------------------------------------------------------------
  // The controller's state as a value

  /** Everything a `PlantTalker` holds that its methods read or write. */
  datatype Talker = Talker(
    stationAddress: nat,
    lights: Lights,
    currentCondition: Level,
    sensorState: Level,
    registrations: seq<Registration>,
    notifications: seq<Notification>)

  /** What holds between callbacks: the stored level is the sensor's, the
      indicator's colour and cadence are that level's table entry, and the
      outputs show the blink phase. */
  predicate Inv(t: Talker)
  {
    && t.stationAddress <= 15
    && t.sensorState == t.currentCondition
    && LedSetting(t.lights.redLightOn, t.lights.fastBlink) == LedState(t.currentCondition)
    && Coherent(t.lights)
  }

  function AfterSetLightStates(t: Talker): Talker
  {
    t.(lights := WithSetting(t.lights, t.sensorState))
  }

  function AfterUpdateLights(t: Talker): Talker
  {
    t.(lights := Flip(t.lights))
  }

  /** The two registrations a change of blink cadence makes, in order. */
  function BlinkRegistrations(oldFastBlink: bool, fastBlink: bool): seq<Registration>
  {
    if oldFastBlink == fastBlink then []
    else if fastBlink then [(FastBlinkTime, UpdateLights), (SlowBlinkTime, UpdateLights)]
    else [(SlowBlinkTime, UpdateLights), (FastBlinkTime, UpdateLights)]
  }

  /** The state after construction, for the given address lines and the
      classifier's first level. */
  function Initial(pins: AddressLines, reading: Level): Talker
  {
    var start := Talker(GetStationAddress(pins), Lights(true, true, true, false, false), reading, reading, [], []);
    var lit := AfterUpdateLights(AfterSetLightStates(start));
    lit.(registrations := [(RecheckTime, SmellTheRoses), (SlowBlinkTime, ShowActivity),
                           (if lit.lights.fastBlink then FastBlinkTime else SlowBlinkTime, UpdateLights)])
  }

  /** The state after `smellTheRoses` when the classifier returns `reading`.
      The change is judged against the sensor's state before the update; on
      a change the level is stored, colour and cadence are taken from its
      table entry, the blink callback is re-registered if the cadence
      changed, the light is flipped once, and one notification is sent. */
  function AfterSmell(t: Talker, reading: Level): Talker
  {
    if t.sensorState == reading then t
    else
      var lights := WithSetting(t.lights, reading);
      Talker(t.stationAddress, Flip(lights), reading, reading,
             t.registrations + BlinkRegistrations(t.lights.fastBlink, lights.fastBlink),
             t.notifications + [(t.stationAddress, Message(reading))])
  }

  // ------------------------------------------------------------------
  // Properties of single operations

  /** After construction the light is off, nothing has been sent, and the
      three callbacks are registered in order; the blink callback runs fast
      exactly for the two dry levels. */
  lemma InitialState(pins: AddressLines, reading: Level)
    ensures Inv(Initial(pins, reading))
    ensures !Initial(pins, reading).lights.lightOn
    ensures !Initial(pins, reading).lights.redLED && !Initial(pins, reading).lights.greenLED
    ensures Initial(pins, reading).stationAddress == GetStationAddress(pins)
    ensures Initial(pins, reading).currentCondition == reading
    ensures Initial(pins, reading).notifications == []
    ensures Initial(pins, reading).registrations ==
      [(10000, SmellTheRoses), (5000, ShowActivity),
       (if reading == Moist || reading == Dry then 100 else 5000, UpdateLights)]
  {
  }

  /** Re-checking the level the sensor already had changes nothing and
      records nothing. */
  lemma UnchangedReadingIsQuiet(t: Talker, reading: Level)
    requires reading == t.sensorState
    ensures AfterSmell(t, reading) == t
  {
  }

  /** A re-check that sees a new level stores it, takes colour and cadence
      from the table, flips the phase once and sends exactly one notification
      of the new level; the address never changes. */
  lemma ChangedReading(t: Talker, reading: Level)
    requires Inv(t) && reading != t.currentCondition
    ensures AfterSmell(t, reading).currentCondition == reading
    ensures AfterSmell(t, reading).sensorState == reading
    ensures LedSetting(AfterSmell(t, reading).lights.redLightOn, AfterSmell(t, reading).lights.fastBlink) == LedState(reading)
    ensures AfterSmell(t, reading).lights.lightOn == !t.lights.lightOn
    ensures AfterSmell(t, reading).notifications == t.notifications + [(t.stationAddress, Message(reading))]
    ensures AfterSmell(t, reading).stationAddress == t.stationAddress
  {
  }

  /** A change is reported exactly when the reading differs from the
      sensor's previous state (which the invariant makes the stored level):
      one notification for a change, none otherwise. */
  lemma NotifiesExactlyOnChange(t: Talker, reading: Level)
    ensures |AfterSmell(t, reading).notifications| == |t.notifications| + (if reading != t.sensorState then 1 else 0)
  {
  }

  /** The blink callback is re-registered only when the cadence changes, so
      Wet and Damp, or Moist and Dry, swap without registrations. Turning
      fast registers the fast interval and then the slow one; turning slow,
      the slow and then the fast one. */
  lemma SmellRegistrations(t: Talker, reading: Level)
    requires Inv(t)
    ensures var fastBefore := t.currentCondition == Moist || t.currentCondition == Dry;
            var fastAfter := reading == Moist || reading == Dry;
            AfterSmell(t, reading).registrations == t.registrations +
              (if fastBefore == fastAfter then []
               else if fastAfter then [(100, UpdateLights), (5000, UpdateLights)]
               else [(5000, UpdateLights), (100, UpdateLights)])
  {
  }

  lemma SmellKeepsInv(t: Talker, reading: Level)
    requires Inv(t)
    ensures Inv(AfterSmell(t, reading))
  {
  }

  lemma UpdateLightsKeepsInv(t: Talker)
    requires Inv(t)
    ensures Inv(AfterUpdateLights(t))
    ensures AfterUpdateLights(AfterUpdateLights(t)) == t
  {
    FlipTwice(t.lights);
  }

  /** With the invariant, `setLightStates` finds the table entry already in
      place. */
  lemma SetLightStatesIdle(t: Talker)
    requires Inv(t)
    ensures AfterSetLightStates(t) == t
  {
  }

  // ------------------------------------------------------------------
  // Properties of any series of callbacks

  /** A scheduler callback as the controller sees it: a re-check that got a
      level from the classifier, or a blink tick. */
  datatype Event = Recheck(reading: Level) | Blink

  function Step(t: Talker, e: Event): Talker
  {
    match e
    case Recheck(r) => AfterSmell(t, r)
    case Blink => AfterUpdateLights(t)
  }

  function Run(t: Talker, events: seq<Event>): Talker
    decreases |events|
  {
    if events == [] then t else Run(Step(t, events[0]), events[1..])
  }

  /** The levels the re-checks of a series received, in order: exactly the
      levels of its `Recheck` events. */
  function Readings(events: seq<Event>): (rs: seq<Level>)
    ensures forall r :: r in rs <==> Recheck(r) in events
    decreases |events|
  {
    if events == [] then []
    else match events[0]
      case Recheck(r) => [r] + Readings(events[1..])
      case Blink => Readings(events[1..])
  }

  /** A callback added at the end of a series adds its reading, if any, at
      the end of the readings: `Readings` keeps the order of the re-checks. */
  lemma {:induction false} ReadingsAppend(events: seq<Event>, e: Event)
    ensures Readings(events + [e]) == Readings(events) + (if e.Recheck? then [e.reading] else [])
    decreases |events|
  {
    if events == [] {
      assert events + [e] == [e];
    } else {
      assert (events + [e])[0] == events[0];
      assert (events + [e])[1..] == events[1..] + [e];
      ReadingsAppend(events[1..], e);
    }
  }

  /** Between callbacks the invariant always holds, so red and green are
      never on together, and the station address never changes. */
  lemma {:induction false} RunKeepsInv(t: Talker, events: seq<Event>)
    requires Inv(t)
    ensures Inv(Run(t, events)) && Exclusive(Run(t, events).lights)
    ensures Run(t, events).stationAddress == t.stationAddress
    decreases |events|
  {
    if events == [] {
      CoherentIsExclusive(t.lights);
    } else {
      match events[0] {
        case Recheck(r) => SmellKeepsInv(t, r);
        case Blink => UpdateLightsKeepsInv(t);
      }
      RunKeepsInv(Step(t, events[0]), events[1..]);
    }
  }

  /** Over any series of callbacks, one notification is sent per re-check
      whose level differs from the one before it, with that level's message,
      and none for the others. */
  lemma {:induction false} RunNotifications(t: Talker, events: seq<Event>)
    ensures Run(t, events).notifications ==
      t.notifications + Notices(t.stationAddress, Transitions(t.sensorState, Readings(events)))
    ensures Run(t, events).stationAddress == t.stationAddress
    decreases |events|
  {
    if events != [] {
      var next := Step(t, events[0]);
      RunNotifications(next, events[1..]);
      match events[0]
      case Recheck(r) =>
        assert Readings(events) == [r] + Readings(events[1..]);
        if r != t.sensorState {
          assert Transitions(t.sensorState, Readings(events)) == [r] + Transitions(r, Readings(events[1..]));
        }
      case Blink =>
    }
  }

  /** Callbacks only ever add registrations of the blink callback, at one of
      the two blink intervals; the three made at construction stay first. */
  lemma {:induction false} RunRegistrations(t: Talker, events: seq<Event>)
    ensures t.registrations <= Run(t, events).registrations
    ensures forall i :: |t.registrations| <= i < |Run(t, events).registrations| ==>
      Run(t, events).registrations[i].1 == UpdateLights &&
      (Run(t, events).registrations[i].0 == FastBlinkTime || Run(t, events).registrations[i].0 == SlowBlinkTime)
    decreases |events|
  {
    if events != [] {
      RunRegistrations(Step(t, events[0]), events[1..]);
    }
  }

  // ------------------------------------------------------------------
  // The controller

  class PlantTalker {
    const stationAddress: nat
    var lightOn: bool
    var redLightOn: bool
    var fastBlink: bool
    var redLED: bool
    var greenLED: bool
    var currentCondition: Level
    var sensorState: Level
    var registrations: seq<Registration>
    var notifications: seq<Notification>

    ghost function Model(): Talker
      reads this
    {
      Talker(stationAddress, Lights(lightOn, redLightOn, fastBlink, redLED, greenLED),
             currentCondition, sensorState, registrations, notifications)
    }

    ghost predicate Valid()
      reads this
    {
      Inv(Model())
    }

    /** `__init__`, given the address-line readings and the classifier's
        first level. */
    constructor (pins: AddressLines, reading: Level)
      ensures Model() == Initial(pins, reading)
      ensures Valid()
      ensures !lightOn && !redLED && !greenLED
      ensures notifications == [] && |registrations| == 3
    {
      lightOn, redLightOn, fastBlink := true, true, true;
      redLED, greenLED := false, false;
      stationAddress := GetStationAddress(pins);
      sensorState := reading;
      currentCondition := reading;
      registrations, notifications := [], [];
      new;
      SetLightStates();
      UpdateLights();
      // Three registerEvent calls.
      registrations := registrations + [(RecheckTime, Callback.SmellTheRoses)];
      registrations := registrations + [(SlowBlinkTime, Callback.ShowActivity)];
      var blinkTime := if fastBlink then FastBlinkTime else SlowBlinkTime;
      registrations := registrations + [(blinkTime, Callback.UpdateLights)];
      InitialState(pins, reading);
    }

    /** `setLightStates`: colour and cadence from the table entry of the
        sensor's current level. */
    method SetLightStates()
      modifies this`redLightOn, this`fastBlink
      ensures Model() == AfterSetLightStates(old(Model()))
      ensures LedSetting(redLightOn, fastBlink) == LedState(sensorState)
      ensures redLightOn == fastBlink
      ensures old(Valid()) ==> Valid()
    {
      var setting := LedState(sensorState);
      redLightOn, fastBlink := setting.redLightOn, setting.fastBlink;
      LedStateTable(sensorState);
      if old(Valid()) {
        SetLightStatesIdle(old(Model()));
      }
    }

    /** `updateLights`: flip the phase; off clears both outputs, on lights
        red or green according to `redLightOn`. */
    method UpdateLights()
      modifies this`lightOn, this`redLED, this`greenLED
      ensures Model() == AfterUpdateLights(old(Model()))
      ensures lightOn == !old(lightOn)
      ensures !lightOn ==> !redLED && !greenLED
      ensures lightOn ==> redLED == redLightOn && greenLED == !redLightOn
      ensures !(redLED && greenLED)
      ensures old(Valid()) ==> Valid()
    {
      if lightOn {
        lightOn := false;
        redLED := false;
        greenLED := false;
      } else {
        lightOn := true;
        if redLightOn {
          redLED := true;
          greenLED := false;
        } else {
          redLED := false;
          greenLED := true;
        }
      }
      if old(Valid()) {
        UpdateLightsKeepsInv(old(Model()));
      }
    }

    /** `smellTheRoses`, where `reading` is what the classifier returns from
        its update. */
    method SmellTheRoses(reading: Level)
      modifies this`sensorState, this`currentCondition, this`redLightOn, this`fastBlink
      modifies this`lightOn, this`redLED, this`greenLED, this`registrations, this`notifications
      ensures Model() == AfterSmell(old(Model()), reading)
      ensures old(sensorState) == reading ==> Model() == old(Model())
      ensures |notifications| == |old(notifications)| + (if old(sensorState) != reading then 1 else 0)
      ensures old(Valid()) ==> Valid()
    {
      ghost var expected := AfterSmell(Model(), reading);
      // The sensor's state is read before the classifier updates it.
      var previous := sensorState;
      sensorState := reading;
      var stateChanged := previous != reading;
      if stateChanged {
        currentCondition := sensorState;
        var oldFastBlink := fastBlink;
        SetLightStates();
        // Each append below is one registerEvent call, in the source's order.
        if oldFastBlink != fastBlink {
          if fastBlink {
            registrations := registrations + [(FastBlinkTime, Callback.UpdateLights)];
            registrations := registrations + [(SlowBlinkTime, Callback.UpdateLights)];
          } else {
            registrations := registrations + [(SlowBlinkTime, Callback.UpdateLights)];
            registrations := registrations + [(FastBlinkTime, Callback.UpdateLights)];
          }
        }
        UpdateLights();
        // sendNotification
        notifications := notifications + [(stationAddress, Message(currentCondition))];
      }
      assert Model().lights == expected.lights;
      assert registrations == expected.registrations && notifications == expected.notifications;
      NotifiesExactlyOnChange(old(Model()), reading);
      if previous == reading {
        UnchangedReadingIsQuiet(old(Model()), reading);
      }
      if old(Valid()) {
        SmellKeepsInv(old(Model()), reading);
      }
    }
  }
}
