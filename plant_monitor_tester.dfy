/** The `PlantTalker` controller of plantMonitorTester.py, the bench variant:
    no scheduler and no address lines. Construction turns the light off
    without consulting the LED table, and a re-check that sees a new level
    stores it and reports it for station 11; it leaves the indicator alone.

    As in the full controller, the classifier is outside this model: each
    re-check receives the level the classifier has just returned, and
    `sensorState` is what the classifier reports as its state afterwards.
    `sendNotification` calls are recorded in `notifications`. */
module PlantMonitorTester {
  import opened Moisture
  import opened Indicator

  /** The station number every notification of this variant carries. */
  const TestStation := 11

  /** Everything this `PlantTalker` holds that its methods read or write. */
  datatype Talker = Talker(
    lights: Lights,
    currentCondition: Level,
    sensorState: Level,
    notifications: seq<Notification>)

  /** What holds between calls: the stored level is the sensor's, and red and
      green are never on together. (The outputs need not show the table entry
      of the level: a re-check does not touch the indicator.) */
  predicate Inv(t: Talker)
  {
    t.sensorState == t.currentCondition && Exclusive(t.lights)
  }

  function AfterSetLightStates(t: Talker): Talker
  {
    t.(lights := WithSetting(t.lights, t.sensorState))
  }

  function AfterUpdateLights(t: Talker): Talker
  {
    t.(lights := Flip(t.lights))
  }

  /** The state after construction, for the classifier's first level. */
  function Initial(reading: Level): Talker
  {
    AfterUpdateLights(Talker(Lights(true, true, true, false, false), reading, reading, []))
  }

  /** The state after `smellTheRoses` when the classifier returns `reading`:
      the change is judged against the stored level. */
  function AfterSmell(t: Talker, reading: Level): Talker
  {
    var sensed := t.(sensorState := reading);
    if t.currentCondition == reading then sensed
    else sensed.(currentCondition := reading, notifications := t.notifications + [(TestStation, Message(reading))])
  }

  /** After construction the light is off with both outputs off, and colour
      and cadence keep their start values: red and fast, whatever the level. */
  lemma InitialState(reading: Level)
    ensures Inv(Initial(reading))
    ensures !Initial(reading).lights.lightOn
    ensures !Initial(reading).lights.redLED && !Initial(reading).lights.greenLED
    ensures Initial(reading).lights.redLightOn && Initial(reading).lights.fastBlink
    ensures Initial(reading).currentCondition == reading && Initial(reading).notifications == []
  {
  }

  /** A re-check stores the new level and sends one notification of it for
      station 11 exactly when the level differs from the stored one; it never
      touches the indicator. */
  lemma SmellReports(t: Talker, reading: Level)
    ensures AfterSmell(t, reading).lights == t.lights
    ensures AfterSmell(t, reading).currentCondition == reading
    ensures AfterSmell(t, reading).notifications ==
      t.notifications + (if reading != t.currentCondition then [(11, Message(reading))] else [])
  {
  }

  lemma SmellKeepsInv(t: Talker, reading: Level)
    requires Inv(t)
    ensures Inv(AfterSmell(t, reading))
  {
  }

  lemma UpdateLightsKeepsInv(t: Talker)
    ensures Inv(t) ==> Inv(AfterUpdateLights(t))
    ensures AfterUpdateLights(t).lights.lightOn == !t.lights.lightOn
  {
    FlipToggles(t.lights);
  }

  lemma SetLightStatesKeepsInv(t: Talker)
    requires Inv(t)
    ensures Inv(AfterSetLightStates(t))
  {
    WithSettingFacts(t.lights, t.sensorState);
  }

  /** The state after a series of re-checks. */
  function Checks(t: Talker, readings: seq<Level>): Talker
    decreases |readings|
  {
    if readings == [] then t else Checks(AfterSmell(t, readings[0]), readings[1..])
  }

  /** Over any series of re-checks the indicator never changes and the
      stored level is the last reading. */
  lemma {:induction false} ChecksKeepLights(t: Talker, readings: seq<Level>)
    ensures Checks(t, readings).lights == t.lights
    ensures readings != [] ==> Checks(t, readings).currentCondition == readings[|readings| - 1]
    decreases |readings|
  {
    if readings != [] {
      var rest := readings[1..];
      ChecksKeepLights(AfterSmell(t, readings[0]), rest);
      if rest != [] {
        assert readings[|readings| - 1] == rest[|rest| - 1];
      }
    }
  }

  /** Over any series of re-checks one notification is sent per reading that
      differs from the level before it, with that level's message, and none
      for the others. */
  lemma {:induction false} ChecksNotifications(t: Talker, readings: seq<Level>)
    ensures Checks(t, readings).notifications ==
      t.notifications + Notices(TestStation, Transitions(t.currentCondition, readings))
    decreases |readings|
  {
    if readings != [] {
      var r, rest := readings[0], readings[1..];
      var next := AfterSmell(t, r);
      ChecksNotifications(next, rest);
      if r != t.currentCondition {
        assert Transitions(t.currentCondition, readings) == [r] + Transitions(r, rest);
      } else {
        assert Transitions(t.currentCondition, readings) == Transitions(r, rest);
      }
    }
  }

  class PlantTalker {
    var lightOn: bool
    var redLightOn: bool
    var fastBlink: bool
    var redLED: bool
    var greenLED: bool
    var currentCondition: Level
    var sensorState: Level
    var notifications: seq<Notification>

    ghost function Model(): Talker
      reads this
    {
      Talker(Lights(lightOn, redLightOn, fastBlink, redLED, greenLED), currentCondition, sensorState, notifications)
    }

    ghost predicate Valid()
      reads this
    {
      Inv(Model())
    }

    /** `__init__`, given the classifier's first level. */
    constructor (reading: Level)
      ensures Model() == Initial(reading)
      ensures Valid()
      ensures !lightOn && !redLED && !greenLED
      ensures redLightOn && fastBlink
      ensures currentCondition == reading && notifications == []
    {
      lightOn, redLightOn, fastBlink := true, true, true;
      redLED, greenLED := false, false;
      sensorState := reading;
      currentCondition := reading;
      notifications := [];
      new;
      UpdateLights();
    }

    /** `setLightStates`: colour and cadence from the table entry of the
        sensor's current level. */
    method SetLightStates()
      modifies this`redLightOn, this`fastBlink
      ensures Model() == AfterSetLightStates(old(Model()))
      ensures LedSetting(redLightOn, fastBlink) == LedState(sensorState)
      ensures redLightOn == fastBlink
      ensures old(Valid()) ==> Valid()
    {
      var setting := LedState(sensorState);
      redLightOn, fastBlink := setting.redLightOn, setting.fastBlink;
      LedStateTable(sensorState);
    }

    /** `updateLights`: flip the phase; off clears both outputs, on lights
        red or green according to `redLightOn`. */
    method UpdateLights()
      modifies this`lightOn, this`redLED, this`greenLED
      ensures Model() == AfterUpdateLights(old(Model()))
      ensures lightOn == !old(lightOn)
      ensures !lightOn ==> !redLED && !greenLED
      ensures lightOn ==> redLED == redLightOn && greenLED == !redLightOn
      ensures !(redLED && greenLED)
      ensures old(Valid()) ==> Valid()
    {
      if lightOn {
        lightOn := false;
        redLED := false;
        greenLED := false;
      } else {
        lightOn := true;
        if redLightOn {
          redLED := true;
          greenLED := false;
        } else {
          redLED := false;
          greenLED := true;
        }
      }
    }

    /** `smellTheRoses`, where `reading` is what the classifier returns from
        its update. The source also copies `fastBlink` into a local it never
        reads, which has no effect. */
    method SmellTheRoses(reading: Level)
      modifies this`sensorState, this`currentCondition, this`notifications
      ensures Model() == AfterSmell(old(Model()), reading)
      ensures currentCondition == reading
      ensures notifications ==
        old(notifications) + (if reading != old(currentCondition) then [(TestStation, Message(reading))] else [])
      ensures old(Valid()) ==> Valid()
    {
      var newCondition := reading;
      sensorState := reading;
      var stateChanged := currentCondition != newCondition;
      if stateChanged {
        currentCondition := newCondition;
        // sendNotification
        notifications := notifications + [(TestStation, Message(currentCondition))];
      }
    }
  }
}
