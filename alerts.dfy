/** The log level the alert logger gives each engine alert, from its category bits. */
module Alerts {
  // Category bits of the engine's alert enumeration (libtorrent).
  const ErrorNotification: bv32 := 0x1
  const DebugNotification: bv32 := 0x20
  const PerformanceWarning: bv32 := 0x200

  /** The three bits the logger looks at. */
  const LevelBits: bv32 := ErrorNotification | DebugNotification | PerformanceWarning

  datatype Level = Error | Debug | Warning | Notice

  /**
   * The first matching test in the order error, debug, performance warning
   * decides the level; an alert with none of those bits is a notice.
   */
  function LevelOf(category: bv32): (l: Level)
    ensures l == Error <==> category & ErrorNotification != 0
    ensures l == Debug <==> category & ErrorNotification == 0 && category & DebugNotification != 0
    ensures l == Warning <==>
      category & (ErrorNotification | DebugNotification) == 0 && category & PerformanceWarning != 0
    ensures l == Notice <==> category & LevelBits == 0
  {
    if category & ErrorNotification != 0 then Error
    else if category & DebugNotification != 0 then Debug
    else if category & PerformanceWarning != 0 then Warning
    else Notice
  }

  /** Only the three tested bits matter; every other category bit leaves the level alone. */
  lemma LevelIgnoresOtherBits(category: bv32)
    ensures LevelOf(category) == LevelOf(category & LevelBits)
  {
  }

  /** The error bit outranks the others: adding it to any category makes the alert an error. */
  lemma ErrorBitWins(category: bv32)
    ensures LevelOf(category | ErrorNotification) == Error
  {
  }
}
