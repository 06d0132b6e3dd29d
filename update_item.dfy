/**
 * The update list item's relative time ("5m", "3h", "2d") and its choice of icon. The clock and
 * date parsing are replaced by the difference in milliseconds between now and the update.
 */
module UpdateItem {
  import opened Wrappers
  import Text

  const MinuteMs: int := 1000 * 60
  const HourMs: int := 1000 * 60 * 60
  const DayMs: int := 1000 * 60 * 60 * 24

  datatype Unit = Minutes | Hours | Days

  /** A relative time: a whole count of some unit. */
  datatype TimeAgo = TimeAgo(count: int, unit: Unit)

  function UnitMs(u: Unit): int {
    match u
    case Minutes => MinuteMs
    case Hours => HourMs
    case Days => DayMs
  }

  function UnitSuffix(u: Unit): char {
    match u
    case Minutes => 'm'
    case Hours => 'h'
    case Days => 'd'
  }

  /**
   * The bucket `formatTimeAgo` picks. `Math.floor(d / k)` for a positive constant `k` is Dafny's
   * `d / k`, negative `d` included. The count is the floor of the difference in the chosen unit;
   * minutes below an hour, hours below a day, days from a day on.
   */
  function Bucket(diffInMs: int): (t: TimeAgo)
    ensures t.unit == Minutes <==> diffInMs < HourMs
    ensures t.unit == Hours <==> HourMs <= diffInMs < DayMs
    ensures t.unit == Days <==> DayMs <= diffInMs
    ensures t.count * UnitMs(t.unit) <= diffInMs < (t.count + 1) * UnitMs(t.unit)
  {
    var diffInMinutes := diffInMs / MinuteMs;
    var diffInHours := diffInMs / HourMs;
    var diffInDays := diffInMs / DayMs;
    if diffInMinutes < 60 then TimeAgo(diffInMinutes, Minutes)
    else if diffInHours < 24 then TimeAgo(diffInHours, Hours)
    else TimeAgo(diffInDays, Days)
  }

  /** `formatTimeAgo`: the count in decimal followed by the unit letter. */
  function FormatTimeAgo(diffInMs: int): (rendered: string)
    ensures |rendered| >= 2 && rendered[|rendered| - 1] == UnitSuffix(Bucket(diffInMs).unit)
  {
    var t := Bucket(diffInMs);
    Text.IntToDecimal(t.count) + [UnitSuffix(t.unit)]
  }

  /** Reads a relative-time label back: an integer followed by m, h or d. */
  function ParseTimeAgo(rendered: string): Option<TimeAgo> {
    if |rendered| == 0 then None
    else
      var suffix := rendered[|rendered| - 1];
      var count := Text.ParseInt(rendered[..|rendered| - 1]);
      if count.None? then None
      else if suffix == 'm' then Some(TimeAgo(count.value, Minutes))
      else if suffix == 'h' then Some(TimeAgo(count.value, Hours))
      else if suffix == 'd' then Some(TimeAgo(count.value, Days))
      else None
  }

  /** The label loses nothing: it reads back as the bucket it was made from. */
  lemma FormatTimeAgoRoundTrip(diffInMs: int)
    ensures ParseTimeAgo(FormatTimeAgo(diffInMs)) == Some(Bucket(diffInMs))
  {
    var t := Bucket(diffInMs);
    var rendered := FormatTimeAgo(diffInMs);
    assert rendered[..|rendered| - 1] == Text.IntToDecimal(t.count);
    Text.IntToDecimalRoundTrip(t.count);
  }

  /** For an update in the past, minutes run 0..59, hours 1..23, days from 1. */
  lemma BucketRanges(diffInMs: int)
    requires diffInMs >= 0
    ensures Bucket(diffInMs).unit == Minutes ==> 0 <= Bucket(diffInMs).count <= 59
    ensures Bucket(diffInMs).unit == Hours ==> 1 <= Bucket(diffInMs).count <= 23
    ensures Bucket(diffInMs).unit == Days ==> Bucket(diffInMs).count >= 1
  {
  }

  /** An update timestamped in the future lands in the minutes bucket with a negative count. */
  lemma FutureIsNegativeMinutes(diffInMs: int)
    requires diffInMs < 0
    ensures Bucket(diffInMs).unit == Minutes && Bucket(diffInMs).count < 0
  {
  }

  /** The boundaries: 59 999 ms is "0m", 60 000 ms is "1m", 3 600 000 ms is "1h", 86 400 000 ms is "1d". */
  lemma BucketBoundaries()
    ensures Bucket(MinuteMs - 1) == TimeAgo(0, Minutes)
    ensures Bucket(MinuteMs) == TimeAgo(1, Minutes)
    ensures Bucket(HourMs - 1) == TimeAgo(59, Minutes)
    ensures Bucket(HourMs) == TimeAgo(1, Hours)
    ensures Bucket(DayMs - 1) == TimeAgo(23, Hours)
    ensures Bucket(DayMs) == TimeAgo(1, Days)
  {
  }

  /** The icon kinds an update can show. */
  datatype Icon = CheckIcon | CommentIcon | ToolIcon | GearIcon

  /** `getIconForType`: the check mark for 'resolved' and for every type the switch does not name. */
  function IconForType(updateType: string): (icon: Icon)
    ensures icon == CommentIcon <==> updateType == "comment"
    ensures icon == ToolIcon <==> updateType == "status_change"
    ensures icon == GearIcon <==> updateType == "report_submitted"
  {
    if updateType == "resolved" then CheckIcon
    else if updateType == "comment" then CommentIcon
    else if updateType == "status_change" then ToolIcon
    else if updateType == "report_submitted" then GearIcon
    else CheckIcon
  }

  /** 'in_progress', a declared update type, shares the 'resolved' icon, as does any unknown type. */
  lemma InProgressLooksResolved(updateType: string)
    requires updateType != "comment" && updateType != "status_change" && updateType != "report_submitted"
    ensures IconForType(updateType) == IconForType("resolved") == IconForType("in_progress") == CheckIcon
  {
  }
}
