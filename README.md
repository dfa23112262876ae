# PlantTalker controller, modelled in Dafny

A soil-moisture station samples its sensor and classifies the reading into one
of four levels: Wet, Damp, Moist, Dry. It shows the level on a red/green light
that blinks slowly for the wet levels and quickly for the dry ones. When the
level changes it sends a notification that carries the station's address.
This project models the `PlantTalker` controller that does this. There are two
variants:

- `plantMonitor.py`, the full controller. It decodes the station address from
  four active-low address lines. It registers three periodic callbacks with its
  scheduler. On a level change it re-registers the blink callback whenever the
  blink cadence changes.
- `plantMonitorTester.py`, a bench variant. It has no scheduler and no address
  decoding. On a level change it only stores the new level and reports it as
  station 11. It never re-derives the light colour (`setLightStates` is defined
  but never called).

Modules:

- `Moisture` (`moisture.dfy`): the `Level` enumeration, the `ledStates` table
  (`LedState`), the `messages` table (`Messages`, `Message`), and the position
  of each level (`Index`). It also holds two helpers over series of re-checks:
  `Transitions` (which readings count as a change) and `Notices` (the
  notifications sent for them).
- `Indicator` (`indicator.dfy`): the indicator fields as a record (`Lights`).
  `updateLights` has the same body in both files and is defined once, as
  `Flip`. `setLightStates` is defined once, as `WithSetting`. The predicates
  `Coherent` and `Exclusive` describe the outputs.
- `PlantMonitor` (`plant_monitor.dfy`) and `PlantMonitorTester`
  (`plant_monitor_tester.dfy`): one module per source file. Each has a class
  `PlantTalker` with the source's fields and methods. The methods update the
  fields in place. Each module also has:
  - a value `Talker` holding the same state;
  - functions giving the state after each method (`Initial`,
    `AfterSetLightStates`, `AfterUpdateLights`, `AfterSmell`);
  - lemmas about those functions.

  Each method's postcondition ties its new state to the matching function,
  `Model() == AfterSmell(old(Model()), reading)`.

  `PlantMonitor` also decodes the station address (`GetStationAddress`) and
  models any series of scheduler callbacks (`Run` over `Event`s).
  `PlantMonitorTester` models any series of re-checks (`Checks`).

Collaborators the model does not contain, and how they enter it:

- The hysteresis classifier. Each re-check receives the level that
  `updateCurrentSensorValue()` has just returned, as the parameter `reading`.
  The field `sensorState` stands for what `getCurrentInputState()` returns. The
  model assumes it equals the last value the update returned.
- The `levels` mapping. It is assumed to number Wet, Damp, Moist, Dry as 0..3,
  the order of `messages`.
- The scheduler. Each `registerEvent` call is appended, as an (interval,
  callback) pair, to `registrations`.
- The notification transport. Each `sendNotification` call is appended, as a
  (station, message) pair, to `notifications`.
- The pins. The address-line readings are a constructor parameter. The two
  outputs are the booleans `redLED` and `greenLED`, true meaning on.

Both tables are defined identically in the two files (plantMonitor.py:16 and
19, plantMonitorTester.py:14 and 17), so the model has them once.
`slowBlinkTime`, `fastBlinkTime` and the re-check interval are never reassigned
after construction. They are module constants (`SlowBlinkTime`,
`FastBlinkTime`, `RecheckTime`). `stationAddress` is a `const` field assigned
by the constructor. The language itself therefore guarantees that no method
changes any of them.

Points where the code behaves differently from what one might expect, modelled as written:

- Re-registering the blink callback is two separate `registerEvent` calls, not
  one atomic replace. When the cadence becomes fast, the fast interval is
  registered first and then the slow one. When it becomes slow, the order is
  reversed. The comment at plantMonitor.py:97 says the opposite.
- plantMonitor.py judges a change by comparing the sensor's cached state, read
  before the update, with the updated value. plantMonitorTester.py compares the
  stored `currentCondition` with the updated value. Each variant is modelled
  as written. The invariant `sensorState == currentCondition`, proved in both,
  shows that the two comparisons agree.
- At start-up `lightOn` starts true. The first `updateLights` call leaves it
  false, with both outputs off.
- The bench variant never applies the LED table, so its colour and cadence stay
  red and fast.

## Model

| member | source | states |
|---|---|---|
| Moisture.Index | plantMonitor.py:107 | every level has a position in the message list |
| Moisture.LevelAt | plantMonitor.py:107 | each position of the message list belongs to exactly the level whose index it is |
| Moisture.IndexRoundTrip | plantMonitor.py:107 | the position of a level identifies the level |
| Moisture.MessageNamesLevel | plantMonitor.py:19 | two levels have the same notification text only if they are the same level |
| Moisture.Message | plantMonitor.py:107 | definition, no contract of its own: `messages[levels[l]]`, the entry of the `Messages` table (line 19) at the level's position |
| Moisture.LedState | plantMonitor.py:16 | definition, no contract of its own: the `ledStates` table, [redLightOn, fastBlink] per level |
| Moisture.LedStateTable | plantMonitor.py:16 | in the LED table, red equals fast for every level; fast holds exactly for Moist and Dry, the upper half of the levels |
| Moisture.Transitions | plantMonitor.py:89-91 | the readings that count as changes: no more than the readings; the first differs from the starting level and each from the one before it; none exactly when every reading equals the starting level |
| Moisture.Notices | plantMonitor.py:107 | one notification per change, in order, with the station and the message of that level |
| Indicator.CoherentIsExclusive | plantMonitor.py:114-126 | outputs that show the blink phase never have red and green on together |
| Indicator.Flip | plantMonitor.py:114-126 | definition, no contract of its own: the effect of `updateLights` on the indicator fields, branch for branch |
| Indicator.FlipToggles | plantMonitor.py:114-126 | `updateLights` inverts `lightOn` and keeps colour and cadence; off clears both outputs; on lights red exactly when `redLightOn` and green otherwise; the result is always coherent and exclusive |
| Indicator.FlipTwice | plantMonitor.py:114-126 | two `updateLights` calls restore a coherent indicator exactly |
| Indicator.WithSetting | plantMonitor.py:110-111 | definition, no contract of its own: the effect of `setLightStates`, colour and cadence from the table entry of the given level |
| Indicator.WithSettingFacts | plantMonitor.py:110-111 | `setLightStates` gives red equal to fast, fast exactly for Moist and Dry, and leaves `lightOn` and both outputs unchanged |
| PlantMonitor.BitNot | plantMonitor.py:70-71 | definition, no contract of its own: Python's `~` on an integer, `-v - 1` |
| PlantMonitor.ActiveLow | plantMonitor.py:70-71 | one address line contributes `~v % 2`, which is 1 for a reading of 0 and 0 for a reading of 1 |
| PlantMonitor.GetStationAddress | plantMonitor.py:69-72 | the address is in 0..15; each line reading 0 adds its weight 8/4/2/1 and each line reading 1 adds nothing |
| PlantMonitor.AddressLinesFor | plantMonitor.py:69-72 | every address 0..15 is decoded from the line readings this function gives |
| PlantMonitor.AddressLinesRoundTrip | plantMonitor.py:69-72 | the decoder is injective: the address determines the line readings |
| PlantMonitor.StationAddressExtremes | plantMonitor.py:69-72 | all lines high decode to 0, all lines low to 15 |
| PlantMonitor.Initial | plantMonitor.py:26-54 | definition, no contract of its own: the state `__init__` builds, in its order: start values, address, first level, `setLightStates`, `updateLights`, then the three registrations |
| PlantMonitor.AfterSetLightStates | plantMonitor.py:110-112 | definition, no contract of its own: the state after `setLightStates` |
| PlantMonitor.AfterUpdateLights | plantMonitor.py:114-126 | definition, no contract of its own: the state after `updateLights` |
| PlantMonitor.BlinkRegistrations | plantMonitor.py:96-102 | definition, no contract of its own: the two `registerEvent` calls a cadence change makes, in the order written |
| PlantMonitor.AfterSmell | plantMonitor.py:88-108 | definition, no contract of its own: the state after `smellTheRoses` for the level the classifier returns |
| PlantMonitor.InitialState | plantMonitor.py:26-54 | after construction the invariant holds, the light and both outputs are off, nothing has been sent, and the registrations are exactly (10000, smellTheRoses), (5000, showActivity), (100 for Moist/Dry, else 5000, updateLights) |
| PlantMonitor.UnchangedReadingIsQuiet | plantMonitor.py:89-91 | a re-check returning the sensor's previous level changes no field and logs nothing |
| PlantMonitor.ChangedReading | plantMonitor.py:91-107 | a re-check with a new level stores it, takes colour and cadence from its table entry, inverts `lightOn` once, appends exactly (station address, message of the new level), and keeps the address |
| PlantMonitor.NotifiesExactlyOnChange | plantMonitor.py:89-107 | a re-check appends one notification if the level differs from the sensor's previous state, which the invariant makes the stored level, and none otherwise |
| PlantMonitor.SmellRegistrations | plantMonitor.py:94-102 | a re-check adds no registration unless the cadence changes (so Wet/Damp and Moist/Dry swaps add none); turning fast adds (100, updateLights) then (5000, updateLights); turning slow adds (5000, updateLights) then (100, updateLights) |
| PlantMonitor.SmellKeepsInv | plantMonitor.py:88-108 | `smellTheRoses` preserves the invariant: stored level equals the sensor's, colour and cadence are its table entry, outputs show the phase |
| PlantMonitor.UpdateLightsKeepsInv | plantMonitor.py:114-126 | `updateLights` preserves the invariant, and two calls restore the whole state |
| PlantMonitor.SetLightStatesIdle | plantMonitor.py:110-111 | once the invariant holds, `setLightStates` changes nothing |
| PlantMonitor.Step | plantMonitor.py:88-126 | definition, no contract of its own: one scheduler callback, `smellTheRoses` or `updateLights` |
| PlantMonitor.Run | plantMonitor.py:88-126 | definition, no contract of its own: the state after a series of callbacks |
| PlantMonitor.Readings | plantMonitor.py:88-89 | the readings of a series are exactly the levels its re-checks received |
| PlantMonitor.ReadingsAppend | plantMonitor.py:88-89 | a callback added at the end of a series adds its level, if it is a re-check, at the end of the readings, so the readings keep the re-checks' order |
| PlantMonitor.RunKeepsInv | plantMonitor.py:88-126 | across any series of re-checks and blink ticks the invariant holds, red and green are never both on, and the station address is unchanged |
| PlantMonitor.RunNotifications | plantMonitor.py:88-108 | across any series of callbacks the notifications appended are exactly one per re-check whose level differs from the one before it, with that level's message |
| PlantMonitor.RunRegistrations | plantMonitor.py:94-102 | callbacks keep the registrations already logged as a prefix and add only updateLights registrations at 100 or 5000 |
| PlantMonitor.PlantTalker.constructor | plantMonitor.py:26-54 | the new object's state is `Initial` of the line readings and first level: light off, both outputs off, no notifications, three registrations; the invariant holds |
| PlantMonitor.PlantTalker.SetLightStates | plantMonitor.py:110-112 | sets colour and cadence to the table entry of the sensor's level, red equal to fast; nothing else changes; keeps the invariant |
| PlantMonitor.PlantTalker.UpdateLights | plantMonitor.py:114-126 | inverts `lightOn`; off clears both outputs; on lights exactly one, red iff `redLightOn`; never both on; keeps the invariant |
| PlantMonitor.PlantTalker.SmellTheRoses | plantMonitor.py:88-108 | the new state is `AfterSmell` of the old one; an unchanged level leaves the state as it was; one notification exactly on a change; keeps the invariant |
| PlantMonitorTester.Initial | plantMonitorTester.py:22-43 | definition, no contract of its own: the state `__init__` builds: start values, first level, one `updateLights`, no table lookup |
| PlantMonitorTester.AfterSetLightStates | plantMonitorTester.py:70-72 | definition, no contract of its own: the state after `setLightStates` |
| PlantMonitorTester.AfterUpdateLights | plantMonitorTester.py:74-86 | definition, no contract of its own: the state after `updateLights` |
| PlantMonitorTester.AfterSmell | plantMonitorTester.py:55-68 | definition, no contract of its own: the state after `smellTheRoses`, judged against the stored level |
| PlantMonitorTester.InitialState | plantMonitorTester.py:22-43 | after construction the light and both outputs are off, colour and cadence are still red and fast, nothing has been sent, and the invariant holds |
| PlantMonitorTester.SmellReports | plantMonitorTester.py:55-68 | a re-check stores the reading and never touches the indicator; it appends (11, message of the new level) exactly when the level differs from the stored one |
| PlantMonitorTester.SmellKeepsInv | plantMonitorTester.py:55-68 | a re-check preserves the invariant: stored level equals the sensor's, outputs never both on |
| PlantMonitorTester.UpdateLightsKeepsInv | plantMonitorTester.py:74-86 | `updateLights` inverts `lightOn` and preserves the invariant |
| PlantMonitorTester.SetLightStatesKeepsInv | plantMonitorTester.py:70-72 | `setLightStates` preserves the invariant |
| PlantMonitorTester.Checks | plantMonitorTester.py:55-68 | definition, no contract of its own: the state after a series of re-checks |
| PlantMonitorTester.ChecksKeepLights | plantMonitorTester.py:55-68 | across any series of re-checks the indicator never changes and the stored level is the last reading |
| PlantMonitorTester.ChecksNotifications | plantMonitorTester.py:55-68 | across any series of re-checks one notification for station 11 is sent per reading that differs from the level before it, with that level's message, and none for the others |
| PlantMonitorTester.PlantTalker.constructor | plantMonitorTester.py:22-43 | the new object's state is `Initial` of the first level: light and outputs off, red and fast, nothing sent |
| PlantMonitorTester.PlantTalker.SetLightStates | plantMonitorTester.py:70-72 | sets colour and cadence to the table entry of the sensor's level; nothing else changes |
| PlantMonitorTester.PlantTalker.UpdateLights | plantMonitorTester.py:74-86 | inverts `lightOn`; off clears both outputs; on lights exactly one, red iff `redLightOn`; never both on |
| PlantMonitorTester.PlantTalker.SmellTheRoses | plantMonitorTester.py:55-68 | stores the reading; appends (11, message) exactly when it differs from the stored level; changes neither `lightOn` nor colour nor cadence |

## Left out

- The hysteresis classifier `AnalogInWithHysteresis`, and `levels`, `levelValues` and `uUrlEncode` (plantMonitor.py:9). Their source is not part of this model. Only the classified level enters the model, as a parameter, so the hysteresis and clamping behaviour, and which raw readings give which level, are not modelled.
- The scheduler `TimeWarden` (plantMonitor.py:10, 49-54) and `shutdown` (plantMonitor.py:59-61). Their source is not part of this model. Registrations are only logged. Firing times, tick processing, and whether registering again replaces or toggles an entry are not modelled. So the model cannot say which blink interval is in force after a cadence change.
- `sendNotification`'s HTTP request and URL encoding (plantMonitor.py:129-140, plantMonitorTester.py:89-100). This is network I/O. A call is modelled only as appending (station, message) to a log.
- Pin construction and reads, the stop button (`isTimeToStop`), and `winkLEDS` with its sleeps (plantMonitor.py:74-82). These are hardware I/O and timing. The address-line readings are a constructor parameter.
- `showActivity`, `__str__`, `getTriggerInterval` and `triggerInterval`, and all `print` and `gc` calls. These only print, collect garbage, or return a constant. The scheduler's base interval is not used by any modelled logic.
- The `callingArgument` parameters of the callbacks. The source ignores them.
- The tester's `slowBlinkTime`, `fastBlinkTime` and address pins. The tester never reads them.
- The `__main__` blocks (plantMonitor.py:143-163, plantMonitorTester.py:103-123). These are the WLAN wait and polling loops, which are I/O and timing. This includes the tester's `thisPlant.shutdown()` call, for which that class defines no method.
