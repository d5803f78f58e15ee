/**
 * The cycle record the backend returns for a user. Dates are whole day
 * numbers (days since a fixed epoch), already normalised from the ISO
 * strings the backend sends, so that adding days is integer addition and
 * "same calendar day" is equality.
 */
module CycleState {
  import opened Optional

  type Date = int

  /**
   * `found`: whether the user has any history; `cycleLength`: average
   * cycle length in days (an absent length behaves as the falsy 0);
   * `daysUntil`: signed days until the predicted next period, <= 0 when late;
   * `lastLogDate`, `history`: absent (null, undefined or "") as `None`.
   */
  datatype CycleData = CycleData(
    found: bool,
    cycleLength: int,
    daysUntil: int,
    lastLogDate: Option<Date>,
    history: Option<seq<Date>>)

}
