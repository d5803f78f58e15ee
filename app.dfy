/**
 * The older single-file app of src/App.jsx: its inline dashboard
 * computation, which clamps the ring when the period is late, and its
 * symptom selection.
 */
module App {
  import opened Optional
  import opened DecimalText
  import opened CycleUtils
  import opened CycleState
  import opened ListToggle
  import DashboardView

  /** The ring angle of the inline computation: a full turn whenever the period is due or late. */
  function ClampedProgressDegree(cycleLength: int, daysUntil: int): Angle {
    if daysUntil <= 0 then Degrees(360.0) else CalculateProgressDegree(cycleLength, daysUntil)
  }

  /**
   * Unlike `calculateProgressDegree`, the clamped angle stays within
   * [0, 360] for every `daysUntil` up to one cycle, late or not.
   */
  lemma ClampedProgressInRange(cycleLength: int, daysUntil: int)
    requires cycleLength > 0 && daysUntil <= cycleLength
    ensures var a := ClampedProgressDegree(cycleLength, daysUntil);
      a.Degrees? && 0.0 <= a.deg <= 360.0
  {
  }

  /** The two copies agree except when overdue, where only the inline one stops at 360. */
  lemma ClampDiffersOnlyWhenOverdue(cycleLength: int, daysUntil: int)
    requires cycleLength > 0
    ensures ClampedProgressDegree(cycleLength, daysUntil) == CalculateProgressDegree(cycleLength, daysUntil)
      <==> daysUntil >= 0
  {
    if daysUntil <= 0 {
      ProgressDegreeUnclampedWhenLate(cycleLength, daysUntil);
    }
  }

  /**
   * The inline dashboard computation: day, angle and status for a period
   * ahead, then overwritten with "Late", a full turn and the overdue count.
   */
  method DashboardFigures(cycleLength: int, daysUntil: int)
    returns (displayDay: DisplayDay, progressDeg: Angle, status: Status)
    ensures displayDay == GetDisplayDay(cycleLength, daysUntil)
    ensures progressDeg == ClampedProgressDegree(cycleLength, daysUntil)
    ensures status == StatusOf(daysUntil)
  {
    var day := cycleLength - daysUntil;
    displayDay := Day(day);
    progressDeg := if cycleLength == 0 then NonFinite else Degrees(day as real / cycleLength as real * 360.0);
    var late := false;
    var shown := daysUntil;
    if daysUntil <= 0 {
      displayDay := Late;
      progressDeg := Degrees(360.0);
      late := true;
      shown := Abs(daysUntil);
    }
    status := Status(late, shown);
  }

  /**
   * The app's `DashboardView`: the same branches as the later component and
   * the same card, except that the ring is clamped when the period is late.
   * The bold number is rendered straight from the status count.
   */
  method DashboardScreen(loading: bool, cycleData: Option<CycleData>) returns (screen: DashboardView.Screen)
    ensures loading ==> screen == DashboardView.Loading
    ensures !loading && (cycleData.None? || !cycleData.value.found) ==> screen == DashboardView.Welcome
    ensures !loading && cycleData.Some? && cycleData.value.found ==>
      var c, d := cycleData.value.cycleLength, cycleData.value.daysUntil;
      screen == DashboardView.DashboardView(false, cycleData).(ring := ClampedProgressDegree(c, d))
  {
    if loading {
      return DashboardView.Loading;
    }
    if cycleData.None? || !cycleData.value.found {
      return DashboardView.Welcome;
    }
    var displayDay, progressDeg, status := DashboardFigures(cycleData.value.cycleLength, cycleData.value.daysUntil);
    screen := DashboardView.CycleCard(progressDeg, DashboardView.DayLabel(displayDay), status.isLate, Some(Decimal(status.days)));
  }

  /** The app's symptom selection state (`selectedSymptoms`). */
  class SymptomSelection {
    var selectedSymptoms: seq<string>

    constructor ()
      ensures selectedSymptoms == []
    {
      selectedSymptoms := [];
    }

    /** `toggleSymptom(id)`: deselect every copy of a selected id, append an unselected one. */
    method ToggleSymptom(id: string)
      modifies this
      ensures selectedSymptoms == Toggle(old(selectedSymptoms), id)
      ensures (id in selectedSymptoms) <==> (id !in old(selectedSymptoms))
      ensures id in old(selectedSymptoms) ==> selectedSymptoms == RemoveAll(old(selectedSymptoms), id)
      ensures id !in old(selectedSymptoms) ==> selectedSymptoms == old(selectedSymptoms) + [id]
    {
      if id in selectedSymptoms {
        selectedSymptoms := RemoveAll(selectedSymptoms, id);
      } else {
        selectedSymptoms := selectedSymptoms + [id];
      }
    }
  }

}
