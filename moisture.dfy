/** Moisture levels as the classifier reports them, and the two fixed lookup
    tables that both controllers index by level: the LED setting of each level
    and the notification text of each level. */
module Moisture {

  /** The classified soil condition, from wettest to driest. */
  datatype Level = Wet | Damp | Moist | Dry

  /** The notification text of each level, indexed by `Index`. */
  const Messages: seq<string> := ["is wet", "is damp", "is moist!", "is bone dry!"]

  /** The position of a level in the level list. The `levels` mapping of the
      utilities module is not part of this model; it is taken to number the
      levels in this order, the order of `Messages`. */
  function Index(l: Level): (i: nat)
    ensures i < |Messages|
  {
    match l
    case Wet => 0
    case Damp => 1
    case Moist => 2
    case Dry => 3
  }

  /** The level at a position of the level list: the inverse of `Index`. */
  function LevelAt(i: nat): (l: Level)
    requires i < |Messages|
    ensures Index(l) == i
  {
    if i == 0 then Wet else if i == 1 then Damp else if i == 2 then Moist else Dry
  }

  lemma IndexRoundTrip(l: Level)
    ensures LevelAt(Index(l)) == l
  {
  }

  /** `messages[levels[l]]` */
  function Message(l: Level): string
  {
    Messages[Index(l)]
  }

  /** Different levels are announced with different texts, so a notification
      names the level it reports. */
  lemma MessageNamesLevel(l: Level, m: Level)
    ensures Message(l) == Message(m) <==> l == m
  {
  }

  /** One entry of the LED table: `[redLightOn, fastBlink]`. */
  datatype LedSetting = LedSetting(redLightOn: bool, fastBlink: bool)

  /** The `ledStates` table. */
  function LedState(l: Level): LedSetting
  {
    match l
    case Wet => LedSetting(false, false)
    case Damp => LedSetting(false, false)
    case Moist => LedSetting(true, true)
    case Dry => LedSetting(true, true)
  }

  /** The two wet levels show a slow green light, the two dry ones a fast red
      light: red and fast always agree, and a level is fast exactly when it
      is in the upper half of the level list. */
  lemma LedStateTable(l: Level)
    ensures LedState(l).redLightOn == LedState(l).fastBlink
    ensures LedState(l).fastBlink <==> l == Moist || l == Dry
    ensures LedState(l).fastBlink <==> Index(l) >= 2
  {
  }

  /** The readings of a series of re-checks at which the classified level
      differs from the one before it, starting from `prev`: the re-checks that
      count as a change. */
  function Transitions(prev: Level, readings: seq<Level>): (changes: seq<Level>)
    ensures |changes| <= |readings|
    ensures forall i :: 0 < i < |changes| ==> changes[i] != changes[i - 1]
    ensures |changes| > 0 ==> changes[0] != prev
    ensures changes == [] <==> forall j :: 0 <= j < |readings| ==> readings[j] == prev
    decreases |readings|
  {
    if readings == [] then []
    else if readings[0] != prev then [readings[0]] + Transitions(readings[0], readings[1..])
    else Transitions(prev, readings[1..])
  }

  /** A notification as `sendNotification` receives it: (station, message). */
  type Notification = (int, string)

  /** The notifications a station sends for a series of level changes. */
  function Notices(address: int, changes: seq<Level>): (ns: seq<Notification>)
    ensures |ns| == |changes|
    ensures forall i :: 0 <= i < |changes| ==> ns[i] == (address, Message(changes[i]))
    decreases |changes|
  {
    if changes == [] then [] else [(address, Message(changes[0]))] + Notices(address, changes[1..])
  }
}
