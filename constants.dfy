/** The cycle constants the calendar logic uses (src/utils/constants.js). */
module Constants {

  /** Days a period lasts: each period window covers this many consecutive days. */
  const PeriodDuration: nat := 5

  /** Ovulation is taken to fall this many days before the next period starts. */
  const OvulationDaysBeforeNextPeriod: nat := 14

}
