/**
 * The small formatters of packages/shared/src/utils.ts: the CSS classes for
 * an availability status, the opening-hours line for today, and the
 * distance text.
 */
module SharedUtils {
  import opened Wrappers
  import opened Strings
  import opened Types

  // ---- getStatusColor ----

  /** The Tailwind classes for a colour name. */
  function Classes(color: string): string {
    "text-" + color + "-600 bg-" + color + "-50"
  }

  /** `getStatusColor` */
  function StatusColor(status: string): string {
    match status
    case "available" => "text-green-600 bg-green-50"
    case "limited" => "text-yellow-600 bg-yellow-50"
    case "unavailable" => "text-red-600 bg-red-50"
    case _ => "text-gray-600 bg-gray-50"
  }

  /** `AVAILABILITY_STATUSES` of packages/shared/src/constants.ts: each status with its colour name. */
  const StatusColorNames: seq<(string, string)> :=
    [("available", "green"), ("limited", "yellow"), ("unavailable", "red"), ("unknown", "gray")]

  /** The statuses that get a colour of their own. */
  predicate IsColoredStatus(s: string) {
    s == "available" || s == "limited" || s == "unavailable"
  }

  /** Each declared status gets the classes of the colour it is declared with. */
  lemma StatusColorMatchesDeclaredColors()
    ensures |StatusColorNames| == |AvailabilityStatuses|
    ensures forall i :: 0 <= i < |StatusColorNames| ==> StatusColorNames[i].0 == AvailabilityStatuses[i]
    ensures forall i :: 0 <= i < |StatusColorNames| ==> StatusColor(StatusColorNames[i].0) == Classes(StatusColorNames[i].1)
  {
    ColoredClasses();
    GrayClasses();
  }

  lemma ColoredClasses()
    ensures StatusColor("available") == Classes("green")
    ensures StatusColor("limited") == Classes("yellow")
    ensures StatusColor("unavailable") == Classes("red")
  {
    assert Classes("green") == "text-green-600 bg-green-50";
    assert Classes("yellow") == "text-yellow-600 bg-yellow-50";
    assert Classes("red") == "text-red-600 bg-red-50";
  }

  lemma GrayClasses()
    ensures StatusColor("unknown") == Classes("gray")
  {
    assert Classes("gray") == "text-gray-600 bg-gray-50";
  }

  /** Every status other than the three colored ones, "unknown" and unexpected strings alike, is gray. */
  lemma StatusColorDefault(status: string)
    ensures !IsColoredStatus(status) ==> StatusColor(status) == Classes("gray")
  {
  }

  /** The three colored statuses get three different colours, none of them gray. */
  lemma StatusColorDistinguishes(a: string, b: string)
    requires IsColoredStatus(a)
    ensures StatusColor(a) != Classes("gray")
    ensures IsColoredStatus(b) && StatusColor(a) == StatusColor(b) ==> a == b
  {
  }

  // ---- formatOperatingHours ----

  datatype Hours = Hours(open: string, close: string)

  datatype Weekday = Mon | Tue | Wed | Thu | Fri | Sat | Sun

  /** The lower-cased en-US short weekday name, which is the key of that day's hours. */
  function DayKey(d: Weekday): string {
    match d
    case Mon => "mon"
    case Tue => "tue"
    case Wed => "wed"
    case Thu => "thu"
    case Fri => "fri"
    case Sat => "sat"
    case Sun => "sun"
  }

  const HoursNotSpecified := "Hours not specified"
  const ClosedToday := "Closed today"

  /** `formatOperatingHours`, with the current weekday passed in. */
  function FormatOperatingHours(hours: Option<map<string, Hours>>, today: Weekday): string {
    if hours.None? then HoursNotSpecified
    else if DayKey(today) !in hours.value then ClosedToday
    else hours.value[DayKey(today)].open + " - " + hours.value[DayKey(today)].close
  }

  /** Different days look up different keys. */
  lemma DayKeyInjective(a: Weekday, b: Weekday)
    ensures DayKey(a) == DayKey(b) ==> a == b
  {
  }

  /**
   * The three outcomes: no table, no entry for today, or today's opening and
   * closing times with " - " between; an open day never reads like either
   * fixed message.
   */
  lemma OperatingHoursCases(hours: Option<map<string, Hours>>, today: Weekday)
    ensures hours.None? ==> FormatOperatingHours(hours, today) == "Hours not specified"
    ensures hours.Some? && DayKey(today) !in hours.value ==> FormatOperatingHours(hours, today) == "Closed today"
    ensures hours.Some? && DayKey(today) in hours.value ==>
      var h := hours.value[DayKey(today)];
      && FormatOperatingHours(hours, today) == h.open + " - " + h.close
      && FormatOperatingHours(hours, today) != HoursNotSpecified
      && FormatOperatingHours(hours, today) != ClosedToday
  {
    if hours.Some? && DayKey(today) in hours.value {
      var h := hours.value[DayKey(today)];
      var r := h.open + " - " + h.close;
      assert r[|h.open| + 1] == '-';
      assert '-' !in HoursNotSpecified && '-' !in ClosedToday;
    }
  }

  /** Only today's entry matters: changing any other day's hours leaves the line as it was. */
  lemma OperatingHoursOnlyToday(hours: map<string, Hours>, today: Weekday, other: string, h: Hours)
    requires other != DayKey(today)
    ensures FormatOperatingHours(Some(hours[other := h]), today) == FormatOperatingHours(Some(hours), today)
  {
  }

  // ---- formatDistance ----

  function DigitChar(d: int): char
    requires 0 <= d < 10
  {
    ("0123456789")[d]
  }

  /** The decimal digits of a natural number, as `${n}` prints it. */
  function NatText(n: nat): (r: string)
    ensures |r| > 0
    ensures forall i :: 0 <= i < |r| ==> '0' <= r[i] <= '9'
    decreases n
  {
    if n < 10 then [DigitChar(n)] else NatText(n / 10) + [DigitChar(n % 10)]
  }

  /** `${n}` for an integer (the `-0` that `Math.round` gives just below zero prints as "0", as here). */
  function IntText(n: int): string {
    if n < 0 then "-" + NatText(-n) else NatText(n)
  }

  /** `Math.round`: to the nearest integer, halves upward. */
  function Round(x: real): int {
    (x + 0.5).Floor
  }

  /** `x.toFixed(1)` for `x >= 0`: the nearest multiple of one tenth, halves upward, with one decimal. */
  function Fixed1(x: real): string
    requires x >= 0.0
  {
    var tenths := Round(10.0 * x);
    NatText(tenths / 10) + "." + [DigitChar(tenths % 10)]
  }

  /** `formatDistance` */
  function FormatDistance(meters: real): string {
    if meters < 1000.0 then IntText(Round(meters)) + "m"
    else Fixed1(meters / 1000.0) + "km"
  }

  /** Rounding moves a value by at most one half. */
  lemma RoundIsNearest(x: real)
    ensures x - 0.5 < Round(x) as real <= x + 0.5
  {
  }

  /** The number shown in the kilometre form is within 0.05 of the distance in kilometres. */
  lemma KilometresAreNearest(meters: real)
    requires meters >= 1000.0
    ensures var tenths := Round(10.0 * (meters / 1000.0));
      && tenths >= 10
      && FormatDistance(meters) == NatText(tenths / 10) + "." + [DigitChar(tenths % 10)] + "km"
      && meters / 1000.0 - 0.05 < tenths as real / 10.0 <= meters / 1000.0 + 0.05
  {
    RoundIsNearest(10.0 * (meters / 1000.0));
  }

  /** The kilometre form is used exactly from 1000 metres on. */
  lemma DistanceUnit(meters: real)
    ensures |FormatDistance(meters)| >= 2
    ensures meters >= 1000.0 <==> FormatDistance(meters)[|FormatDistance(meters)| - 2..] == "km"
    ensures meters < 1000.0 ==> FormatDistance(meters)[|FormatDistance(meters)| - 1] == 'm'
  {
    var r := FormatDistance(meters);
    if meters < 1000.0 {
      var t := IntText(Round(meters));
      assert r == t + "m";
      assert '0' <= t[|t| - 1] <= '9';
      assert r[|r| - 2] == t[|t| - 1];
    } else {
      var f := Fixed1(meters / 1000.0);
      assert r == f + "km";
      assert r[|r| - 2..] == "km";
    }
  }
}
