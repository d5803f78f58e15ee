/**
 * The calendar day classifier of src/components/views/CalendarView.jsx:
 * which calendar tiles are past-period days, predicted-period days or
 * fertile days, and the class name each tile gets.
 */
module CalendarView {
  import opened Optional
  import opened Constants
  import opened CycleState

  /** date-fns `addDays` on day numbers. */
  function AddDays(date: Date, amount: int): Date {
    date + amount
  }

  /** date-fns `subDays` on day numbers. */
  function SubDays(date: Date, amount: int): Date {
    date - amount
  }

  /** date-fns `isSameDay` on day numbers. */
  predicate IsSameDay(a: Date, b: Date) {
    a == b
  }

  // Optional chaining on a possibly null record: `cycleData?.field`.
  function HistoryOf(cycleData: Option<CycleData>): Option<seq<Date>> {
    if cycleData.Some? then cycleData.value.history else None
  }

  function LastLogDateOf(cycleData: Option<CycleData>): Option<Date> {
    if cycleData.Some? then cycleData.value.lastLogDate else None
  }

  /** `cycleData?.cycleLength`, where absent reads as the falsy 0. */
  function CycleLengthOf(cycleData: Option<CycleData>): int {
    if cycleData.Some? then cycleData.value.cycleLength else 0
  }

  /** The guard of the two predictions: a last log date and a truthy (non-zero) cycle length. */
  predicate CanPredict(cycleData: Option<CycleData>) {
    LastLogDateOf(cycleData).Some? && CycleLengthOf(cycleData) != 0
  }

  /** `addDays(lastDate, cycleLength)`: the predicted start of the next period. */
  function NextStart(cycleData: Option<CycleData>): Date
    requires CanPredict(cycleData)
  {
    AddDays(LastLogDateOf(cycleData).value, CycleLengthOf(cycleData))
  }

  /** `subDays(nextStartDate, 14)`: the predicted ovulation day. */
  function OvulationDate(cycleData: Option<CycleData>): Date
    requires CanPredict(cycleData)
  {
    SubDays(NextStart(cycleData), OvulationDaysBeforeNextPeriod)
  }

  /** `date` is one of the period days `start + i` for `0 <= i < 5` that the loops of `isPastPeriod` and `isPredictedPeriod` visit. */
  ghost predicate InPeriodWindow(date: Date, start: Date) {
    exists i :: 0 <= i < PeriodDuration && IsSameDay(date, AddDays(start, i))
  }

  /** The window is the five consecutive days starting at `start`. */
  lemma InPeriodWindowIff(date: Date, start: Date)
    ensures InPeriodWindow(date, start) <==> 0 <= date - start <= 4
  {
    if 0 <= date - start <= 4 {
      assert IsSameDay(date, AddDays(start, date - start));
    }
  }

  /** Specification of `isPastPeriod`: some logged period start has `date` in its window. */
  ghost predicate PastPeriod(date: Date, cycleData: Option<CycleData>) {
    HistoryOf(cycleData).Some? && exists h :: h in HistoryOf(cycleData).value && InPeriodWindow(date, h)
  }

  /** Specification of `isPredictedPeriod`: `date` is in the window that starts at the predicted next period. */
  ghost predicate PredictedPeriod(date: Date, cycleData: Option<CycleData>) {
    CanPredict(cycleData) && InPeriodWindow(date, NextStart(cycleData))
  }

  /** The loop `for (let i = 0; i < 5; i++) if (isSameDay(date, addDays(start, i))) return true;`. */
  method ScanPeriodWindow(date: Date, start: Date) returns (found: bool)
    ensures found <==> InPeriodWindow(date, start)
  {
    for i := 0 to PeriodDuration
      invariant forall j :: 0 <= j < i ==> !IsSameDay(date, AddDays(start, j))
    {
      if IsSameDay(date, AddDays(start, i)) {
        return true;
      }
    }
    return false;
  }

  /** `isPastPeriod`: false without a history, otherwise `history.some(...)` over the period windows. */
  method IsPastPeriod(date: Date, cycleData: Option<CycleData>) returns (past: bool)
    ensures past <==> PastPeriod(date, cycleData)
  {
    var history := HistoryOf(cycleData);
    if history.None? {
      return false;
    }
    var starts := history.value;
    var k := 0;
    while k < |starts|
      invariant 0 <= k <= |starts|
      invariant forall j :: 0 <= j < k ==> !InPeriodWindow(date, starts[j])
    {
      var hit := ScanPeriodWindow(date, starts[k]);
      if hit {
        return true;
      }
      k := k + 1;
    }
    return false;
  }

  /** `isPredictedPeriod`: false without a last log date or a truthy cycle length, otherwise the window scan. */
  method IsPredictedPeriod(date: Date, cycleData: Option<CycleData>) returns (predicted: bool)
    ensures predicted <==> PredictedPeriod(date, cycleData)
  {
    if LastLogDateOf(cycleData).None? || CycleLengthOf(cycleData) == 0 {
      return false;
    }
    var lastDate := LastLogDateOf(cycleData).value;
    var nextStartDate := AddDays(lastDate, CycleLengthOf(cycleData));
    predicted := ScanPeriodWindow(date, nextStartDate);
  }

  /** `isOvulationDay`: the ovulation day or one of its two neighbours. */
  function IsOvulationDay(date: Date, cycleData: Option<CycleData>): (fertile: bool)
    ensures fertile <==> CanPredict(cycleData) && -1 <= date - OvulationDate(cycleData) <= 1
  {
    if LastLogDateOf(cycleData).None? || CycleLengthOf(cycleData) == 0 then false
    else
      var lastDate := LastLogDateOf(cycleData).value;
      var nextStartDate := AddDays(lastDate, CycleLengthOf(cycleData));
      var ovulationDate := SubDays(nextStartDate, OvulationDaysBeforeNextPeriod);
      || IsSameDay(date, ovulationDate)
      || IsSameDay(date, AddDays(ovulationDate, 1))
      || IsSameDay(date, SubDays(ovulationDate, 1))
  }

  /** `isPastPeriod(d)` holds iff some logged start `h` has `0 <= d - h <= 4`; never without a history. */
  lemma PastPeriodIff(date: Date, cycleData: Option<CycleData>)
    ensures PastPeriod(date, cycleData) <==>
      HistoryOf(cycleData).Some? && exists h :: h in HistoryOf(cycleData).value && 0 <= date - h <= 4
  {
    if HistoryOf(cycleData).Some? {
      forall h | h in HistoryOf(cycleData).value
        ensures InPeriodWindow(date, h) <==> 0 <= date - h <= 4
      {
        InPeriodWindowIff(date, h);
      }
    }
  }

  /**
   * The predicted period is exactly the five consecutive days from
   * `lastLogDate + cycleLength`; without a last log date or with a falsy
   * cycle length there is none.
   */
  lemma PredictedPeriodIff(date: Date, cycleData: Option<CycleData>)
    ensures PredictedPeriod(date, cycleData) <==>
      CanPredict(cycleData) &&
      LastLogDateOf(cycleData).value + CycleLengthOf(cycleData) <= date <= LastLogDateOf(cycleData).value + CycleLengthOf(cycleData) + 4
  {
    if CanPredict(cycleData) {
      InPeriodWindowIff(date, NextStart(cycleData));
    }
  }

  /** The fertile days are exactly the three days centred on `lastLogDate + cycleLength - 14`. */
  lemma FertileDaysAreThree(cycleData: Option<CycleData>)
    requires CanPredict(cycleData)
    ensures forall date :: IsOvulationDay(date, cycleData) <==>
      date in {OvulationDate(cycleData) - 1, OvulationDate(cycleData), OvulationDate(cycleData) + 1}
  {
  }

  /** The fertile days all lie before the predicted period, so the two never overlap. */
  lemma FertileBeforePredicted(date: Date, cycleData: Option<CycleData>)
    requires IsOvulationDay(date, cycleData)
    ensures !PredictedPeriod(date, cycleData)
  {
  }

  /** The views of react-calendar; only the month view gets tile classes. */
  datatype CalendarViewKind = Month | Year | Decade | Century

  datatype TileClass = TilePast | TilePredict | TileFertile

  /** Specification of `tileClassName`: first match wins, past over predicted over fertile. */
  ghost function Classify(date: Date, view: CalendarViewKind, cycleData: Option<CycleData>): Option<TileClass> {
    if view != Month then None
    else if PastPeriod(date, cycleData) then Some(TilePast)
    else if PredictedPeriod(date, cycleData) then Some(TilePredict)
    else if IsOvulationDay(date, cycleData) then Some(TileFertile)
    else None
  }

  /** `tileClassName({date, view})`; `undefined` is `None`. */
  method TileClassName(date: Date, view: CalendarViewKind, cycleData: Option<CycleData>) returns (cls: Option<TileClass>)
    ensures cls == Classify(date, view, cycleData)
  {
    if view == Month {
      var past := IsPastPeriod(date, cycleData);
      if past {
        return Some(TilePast);
      }
      var predicted := IsPredictedPeriod(date, cycleData);
      if predicted {
        return Some(TilePredict);
      }
      if IsOvulationDay(date, cycleData) {
        return Some(TileFertile);
      }
    }
    return None;
  }

  /**
   * The class a tile gets, stated against the three windows: each class
   * exactly when its window holds and no earlier one does, none outside the
   * month view or outside every window.
   */
  lemma ClassifyPrecedence(date: Date, view: CalendarViewKind, cycleData: Option<CycleData>)
    ensures Classify(date, view, cycleData) == Some(TilePast) <==>
      view == Month && PastPeriod(date, cycleData)
    ensures Classify(date, view, cycleData) == Some(TilePredict) <==>
      view == Month && !PastPeriod(date, cycleData) && PredictedPeriod(date, cycleData)
    ensures Classify(date, view, cycleData) == Some(TileFertile) <==>
      view == Month && !PastPeriod(date, cycleData) && IsOvulationDay(date, cycleData)
    ensures Classify(date, view, cycleData) == None <==>
      view != Month || (!PastPeriod(date, cycleData) && !PredictedPeriod(date, cycleData) && !IsOvulationDay(date, cycleData))
  {
  }

  /**
   * With a cycle shorter than a period, the predicted start still lies in
   * the last logged period, and that tile is coloured as past.
   */
  lemma ShortCyclePastWins(last: Date, cycleLength: int, daysUntil: int, history: seq<Date>)
    requires 0 < cycleLength < PeriodDuration && last in history
    ensures var cd := Some(CycleData(true, cycleLength, daysUntil, Some(last), Some(history)));
      && PredictedPeriod(last + cycleLength, cd)
      && PastPeriod(last + cycleLength, cd)
      && Classify(last + cycleLength, Month, cd) == Some(TilePast)
  {
    var cd := Some(CycleData(true, cycleLength, daysUntil, Some(last), Some(history)));
    PredictedPeriodIff(last + cycleLength, cd);
    InPeriodWindowIff(last + cycleLength, last);
  }

  /**
   * A period logged on day 0 (1 January 2024) with a 28-day cycle: day 2 is
   * a past-period day, day 28 starts the predicted period, day 14 is the
   * ovulation day and day 31 (1 February) is not a past-period day.
   */
  lemma NewYearExample()
    ensures var cd := Some(CycleData(true, 28, 0, Some(0), Some([0])));
      && Classify(2, Month, cd) == Some(TilePast)
      && Classify(28, Month, cd) == Some(TilePredict)
      && Classify(14, Month, cd) == Some(TileFertile)
      && !PastPeriod(31, cd)
      && Classify(2, Year, cd) == None
  {
    var cd := Some(CycleData(true, 28, 0, Some(0), Some([0])));
    InPeriodWindowIff(2, 0);
    PastPeriodIff(14, cd);
    PastPeriodIff(28, cd);
    PastPeriodIff(31, cd);
    PredictedPeriodIff(28, cd);
    PredictedPeriodIff(14, cd);
  }

}
