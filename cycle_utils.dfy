/**
 * The dashboard helpers of src/utils/cycleUtils.js: the day of the cycle to
 * show, the angle of the progress ring, and the status line with its number.
 */
module CycleUtils {
  import opened DecimalText

  /** `getDisplayDay` returns either a number or the string "Late". */
  datatype DisplayDay = Day(n: int) | Late

  /**
   * A JavaScript number used as a rotation in degrees. Dividing by a zero
   * cycle length gives Infinity or NaN, which is `NonFinite` here.
   */
  datatype Angle = Degrees(deg: real) | NonFinite

  /** What the status line says: overdue or not, and the (non-negative) day count it shows. */
  datatype Status = Status(isLate: bool, days: nat)

  /** `calculateProgressDegree`: the elapsed fraction of the cycle, times 360, with no clamp. */
  function CalculateProgressDegree(cycleLength: int, daysUntil: int): (a: Angle)
    ensures a.NonFinite? <==> cycleLength == 0
    ensures a.Degrees? ==> a.deg * cycleLength as real == (cycleLength - daysUntil) as real * 360.0
  {
    if cycleLength == 0 then NonFinite
    else
      var displayDay := cycleLength - daysUntil;
      Degrees(displayDay as real / cycleLength as real * 360.0)
  }

  /** `getDisplayDay`: "Late" when the period is due or overdue, otherwise the day of the cycle. */
  function GetDisplayDay(cycleLength: int, daysUntil: int): (r: DisplayDay)
    ensures r.Late? <==> daysUntil <= 0
    ensures r.Day? ==> r.n + daysUntil == cycleLength
  {
    if daysUntil <= 0 then Late else Day(cycleLength - daysUntil)
  }

  function Abs(i: int): nat {
    if i < 0 then -i else i
  }

  /** The content of `getStatusTextString`, apart from its wording. */
  function StatusOf(daysUntil: int): (m: Status)
    ensures m.isLate <==> daysUntil <= 0
    ensures m.days == Abs(daysUntil)
  {
    if daysUntil <= 0 then Status(true, Abs(daysUntil)) else Status(false, daysUntil)
  }

  /** Recovers the signed day count from what the status line shows. */
  function DaysUntilOf(m: Status): int {
    if m.isLate then -(m.days as int) else m.days
  }

  /** The status line loses no information: it determines `daysUntil`. */
  lemma StatusRoundTrip(daysUntil: int)
    ensures DaysUntilOf(StatusOf(daysUntil)) == daysUntil
  {
  }

  // The Burmese wording of the two status lines; neither contains an ASCII digit.
  const OverduePrefix: string := "ရာသီလာမယ့်ရက်ထက် "
  const OverdueSuffix: string := " ရက် ကျော်လွန်နေပါတယ်။"
  const UntilPrefix: string := "နောက်ရာသီလာဖို့ "
  const UntilSuffix: string := " ရက် လိုပါသေးတယ်။"

  lemma OverdueWordingHasNoDigits()
    ensures NoDigits(OverduePrefix) && NoDigits(OverdueSuffix)
  {
  }

  lemma UntilWordingHasNoDigits()
    ensures NoDigits(UntilPrefix) && NoDigits(UntilSuffix)
  {
  }

  /**
   * `getStatusTextString`: the overdue sentence around `|daysUntil|` when
   * `daysUntil <= 0`, otherwise the "days to go" sentence around `daysUntil`.
   * Its only digit run is the status number, which reads back unchanged.
   */
  function GetStatusTextString(daysUntil: int): (s: string)
    ensures var parts := SplitDigitRuns(s);
      && |parts| == 3
      && parts[0] == (if daysUntil <= 0 then OverduePrefix else UntilPrefix)
      && parts[1] == Decimal(StatusOf(daysUntil).days)
      && parts[2] == (if daysUntil <= 0 then OverdueSuffix else UntilSuffix)
      && ParseDecimal(parts[1]) == Abs(daysUntil)
  {
    if daysUntil <= 0 then
      OverdueWordingHasNoDigits();
      SplitAroundNumber(OverduePrefix, Decimal(Abs(daysUntil)), OverdueSuffix);
      ParseDecimalOfDecimal(Abs(daysUntil));
      OverduePrefix + Decimal(Abs(daysUntil)) + OverdueSuffix
    else
      UntilWordingHasNoDigits();
      SplitAroundNumber(UntilPrefix, Decimal(daysUntil), UntilSuffix);
      ParseDecimalOfDecimal(daysUntil);
      UntilPrefix + Decimal(daysUntil) + UntilSuffix
  }

  /**
   * When the period is ahead and no further away than one cycle, the day
   * shown lies in [0, cycleLength).
   */
  lemma DisplayDayInCycle(cycleLength: int, daysUntil: int)
    requires 0 < daysUntil <= cycleLength
    ensures GetDisplayDay(cycleLength, daysUntil).Day?
    ensures 0 <= GetDisplayDay(cycleLength, daysUntil).n < cycleLength
  {
  }

  /** The ring shows the displayed day as a fraction of the cycle. */
  lemma RingMatchesDisplayDay(cycleLength: int, daysUntil: int)
    requires cycleLength != 0 && daysUntil > 0
    ensures CalculateProgressDegree(cycleLength, daysUntil).deg * cycleLength as real
         == GetDisplayDay(cycleLength, daysUntil).n as real * 360.0
  {
  }

  /** With the period no further away than one cycle and not late, the angle is in [0, 360]. */
  lemma ProgressDegreeInRange(cycleLength: int, daysUntil: int)
    requires cycleLength > 0 && 0 <= daysUntil <= cycleLength
    ensures var a := CalculateProgressDegree(cycleLength, daysUntil);
      a.Degrees? && 0.0 <= a.deg <= 360.0
  {
  }

  /** For a fixed cycle, the angle strictly decreases as the next period moves further away. */
  lemma ProgressDegreeDecreasing(cycleLength: int, d1: int, d2: int)
    requires cycleLength > 0 && d1 < d2
    ensures CalculateProgressDegree(cycleLength, d1).deg > CalculateProgressDegree(cycleLength, d2).deg
  {
  }

  /**
   * No clamp: on the due day the angle is exactly 360, and once the period
   * is overdue it goes past 360, although the doc comment promises 0-360.
   */
  lemma ProgressDegreeUnclampedWhenLate(cycleLength: int, daysUntil: int)
    requires cycleLength > 0 && daysUntil <= 0
    ensures daysUntil == 0 ==> CalculateProgressDegree(cycleLength, daysUntil) == Degrees(360.0)
    ensures daysUntil < 0 ==> CalculateProgressDegree(cycleLength, daysUntil).deg > 360.0
  {
    var a := CalculateProgressDegree(cycleLength, daysUntil).deg;
    var c := cycleLength as real;
    assert (a - 360.0) * c == -daysUntil as real * 360.0;
    if daysUntil == 0 {
      assert (cycleLength - daysUntil) as real / c == 1.0;
    } else {
      assert (a - 360.0) * c > 0.0;
    }
  }

  /** Half way through a 28-day cycle: day 14, half a turn, 14 days to go. */
  lemma HalfwayThroughCycle()
    ensures GetDisplayDay(28, 14) == Day(14)
    ensures CalculateProgressDegree(28, 14) == Degrees(180.0)
    ensures StatusOf(14) == Status(false, 14)
  {
  }

  /** Due today: "Late", a full turn, 0 days overdue. */
  lemma DueToday()
    ensures GetDisplayDay(28, 0) == Late
    ensures CalculateProgressDegree(28, 0) == Degrees(360.0)
    ensures StatusOf(0) == Status(true, 0)
  {
  }

}
