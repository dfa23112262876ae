/** The two-colour indicator that both controllers drive: the blink phase
    `lightOn`, the colour and cadence chosen from the level, and the two
    outputs. `updateLights` and `setLightStates` have the same body in both
    controllers, so their effect on this record is defined once, here. */
module Indicator {
  import opened Moisture

  /** The indicator fields of a `PlantTalker`; `redLED` and `greenLED` are
      true when that output is on. */
  datatype Lights = Lights(lightOn: bool, redLightOn: bool, fastBlink: bool, redLED: bool, greenLED: bool)

  /** The red and green outputs are never on together. */
  predicate Exclusive(l: Lights)
  {
    !(l.redLED && l.greenLED)
  }

  /** The outputs show the phase: both off in the off phase, and in the on
      phase red exactly when `redLightOn`, green otherwise. */
  predicate Coherent(l: Lights)
  {
    if l.lightOn then l.redLED == l.redLightOn && l.greenLED == !l.redLightOn
    else !l.redLED && !l.greenLED
  }

  lemma CoherentIsExclusive(l: Lights)
    requires Coherent(l)
    ensures Exclusive(l)
  {
  }

  /** The effect of `updateLights`. */
  function Flip(l: Lights): Lights
  {
    if l.lightOn then l.(lightOn := false, redLED := false, greenLED := false)
    else if l.redLightOn then l.(lightOn := true, redLED := true, greenLED := false)
    else l.(lightOn := true, redLED := false, greenLED := true)
  }

  /** `updateLights` always changes the phase, keeps the chosen colour and
      cadence, and leaves the outputs showing the new phase, whatever they
      showed before. */
  lemma FlipToggles(l: Lights)
    ensures Flip(l).lightOn == !l.lightOn
    ensures Flip(l).redLightOn == l.redLightOn && Flip(l).fastBlink == l.fastBlink
    ensures !Flip(l).lightOn ==> !Flip(l).redLED && !Flip(l).greenLED
    ensures Flip(l).lightOn ==> (Flip(l).redLED <==> l.redLightOn) && (Flip(l).greenLED <==> !l.redLightOn)
    ensures Coherent(Flip(l)) && Exclusive(Flip(l))
  {
  }

  /** Two flips restore an indicator whose outputs show its phase. */
  lemma FlipTwice(l: Lights)
    requires Coherent(l)
    ensures Flip(Flip(l)) == l
  {
  }

  /** The effect of `setLightStates` for the sensor's current level. */
  function WithSetting(l: Lights, level: Level): Lights
  {
    l.(redLightOn := LedState(level).redLightOn, fastBlink := LedState(level).fastBlink)
  }

  /** `setLightStates` takes colour and cadence from the table and touches
      neither the phase nor the outputs. */
  lemma WithSettingFacts(l: Lights, level: Level)
    ensures WithSetting(l, level).redLightOn == WithSetting(l, level).fastBlink
    ensures WithSetting(l, level).fastBlink <==> level == Moist || level == Dry
    ensures WithSetting(l, level).lightOn == l.lightOn
    ensures WithSetting(l, level).redLED == l.redLED && WithSetting(l, level).greenLED == l.greenLED
    ensures Exclusive(l) ==> Exclusive(WithSetting(l, level))
  {
  }
}
