/**
 * The dashboard screen of src/components/views/DashboardView.jsx: which
 * branch is shown, and the values the cycle card displays.
 */
module DashboardView {
  import opened Optional
  import opened DecimalText
  import opened CycleUtils
  import opened CycleState

  /**
   * What the dashboard shows: the loading note, the welcome card for a new
   * user, or the cycle card with the ring angle, the day label, whether the
   * overdue wording is used and the number shown in bold.
   */
  datatype Screen =
    | Loading
    | Welcome
    | CycleCard(ring: Angle, dayLabel: string, overdue: bool, emphasised: Option<string>)

  /** The day label: "Day N" for a number, the string itself ("Late") otherwise. */
  function DayLabel(displayDay: DisplayDay): (caption: string)
    ensures caption == "Late" <==> displayDay.Late?
    ensures displayDay.Day? ==> |caption| > 4 && caption[..4] == "Day "
  {
    match displayDay
    case Day(n) => "Day " + IntText(n)
    case Late => "Late"
  }

  /** The number in a "Day N" label reads back as the day that was shown. */
  lemma DayLabelReadsBack(n: int)
    ensures var caption := DayLabel(Day(n));
      caption[4..] == IntText(n) && ParseInt(caption[4..]) == n
  {
    assert DayLabel(Day(n))[4..] == IntText(n);
    ParseIntOfIntText(n);
  }

  /**
   * `DashboardView`: loading first, then the welcome card when there is no
   * record or nothing was found, otherwise the cycle card built from the
   * cycleUtils helpers. The bold number is `parts[1]` of
   * `statusTextString.split(/(\d+)/)`, and it is the status day count.
   */
  function DashboardView(loading: bool, cycleData: Option<CycleData>): (screen: Screen)
    ensures loading ==> screen == Loading
    ensures !loading && (cycleData.None? || !cycleData.value.found) ==> screen == Welcome
    ensures !loading && cycleData.Some? && cycleData.value.found ==>
      var c, d := cycleData.value.cycleLength, cycleData.value.daysUntil;
      && screen.CycleCard?
      && screen.ring == CalculateProgressDegree(c, d)
      && screen.dayLabel == DayLabel(GetDisplayDay(c, d))
      && (screen.overdue <==> StatusOf(d).isLate)
      && screen.emphasised == Some(Decimal(StatusOf(d).days))
      && ParseDecimal(screen.emphasised.value) == Abs(d)
  {
    if loading then Loading
    else if cycleData.None? || !cycleData.value.found then Welcome
    else
      var cd := cycleData.value;
      var displayDay := GetDisplayDay(cd.cycleLength, cd.daysUntil);
      var progressDeg := CalculateProgressDegree(cd.cycleLength, cd.daysUntil);
      var statusTextString := GetStatusTextString(cd.daysUntil);
      var parts := SplitDigitRuns(statusTextString);
      // Both wordings embolden `parts[1]`, which is `undefined` when there is no digit run.
      var number := if |parts| > 1 then Some(parts[1]) else None;
      CycleCard(progressDeg, DayLabel(displayDay), cd.daysUntil <= 0, number)
  }

  /** The bold number identifies `daysUntil` together with the wording: nothing is lost on screen. */
  lemma CycleCardDeterminesDaysUntil(cycleData: CycleData)
    requires cycleData.found
    ensures var screen := DashboardView(false, Some(cycleData));
      DaysUntilOf(Status(screen.overdue, ParseDecimal(screen.emphasised.value))) == cycleData.daysUntil
  {
  }

}
