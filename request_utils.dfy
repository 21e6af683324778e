/**
 * Helpers of the requests page (src/pages/dashboard/components/requestUtils.ts):
 * the hour a time slot starts at and the coarse relative-time text. Instants
 * are integer milliseconds since the epoch; `None` is an unparseable date.
 */
module RequestUtils {
  import opened Wrappers
  import opened PickupTypes
  import Text

  const HourMs := 1000 * 60 * 60

  /** `getTimeSlotHour`: a two-digit hour; unknown slots fall back to the morning. */
  function TimeSlotHour(timeSlot: string): (h: string)
    ensures |h| == 2 && '0' <= h[0] <= '9' && '0' <= h[1] <= '9'
    ensures timeSlot == "afternoon" ==> h == "14"
    ensures timeSlot == "evening" ==> h == "17"
    ensures timeSlot != "afternoon" && timeSlot != "evening" ==> h == "09"
  {
    match timeSlot
    case "morning" => "09"
    case "afternoon" => "14"
    case "evening" => "17"
    case _ => "09"
  }

  /** The three slots start at different hours. */
  lemma TimeSlotHoursDistinct(a: TimeSlot, b: TimeSlot)
    ensures TimeSlotHour(TimeSlotName(a)) == TimeSlotHour(TimeSlotName(b)) ==> a == b
  {
  }

  /** The three forms `getRelativeTime` produces; NaN comes out as "In NaN days". */
  datatype RelativeTime = HoursAgo(hours: nat) | InHours(hours: nat) | InDays(days: nat) | InNaNDays

  /**
   * `getRelativeTime`: whole hours between now and the instant, floored; past
   * instants are reported as hours ago, the next day in hours, later ones in days.
   */
  function RelativeTimeOf(instant: Option<int>, now: int): (r: RelativeTime)
    ensures instant.None? <==> r.InNaNDays?
    ensures r.HoursAgo? ==>
      instant.Some? && r.hours >= 1 && (r.hours - 1) * HourMs < now - instant.value <= r.hours * HourMs
    ensures r.InHours? ==>
      instant.Some? && r.hours < 24 && r.hours * HourMs <= instant.value - now < (r.hours + 1) * HourMs
    ensures r.InDays? ==>
      instant.Some? && r.days >= 1 && 24 * r.days * HourMs <= instant.value - now < 24 * (r.days + 1) * HourMs
  {
    if instant.None? then InNaNDays
    else
      var diffInHours := (instant.value - now) / HourMs;
      if diffInHours < 0 then HoursAgo(-diffInHours)
      else if diffInHours < 24 then InHours(diffInHours)
      else InDays(diffInHours / 24)
  }

  /** Any instant strictly in the past reads "hours ago", even under an hour ("1 hours ago"). */
  lemma PastIsHoursAgo(instant: int, now: int)
    ensures instant < now <==> RelativeTimeOf(Some(instant), now).HoursAgo?
    ensures now - HourMs <= instant < now ==> RelativeTimeOf(Some(instant), now) == HoursAgo(1)
  {
  }

  /** The text of a relative time. */
  function RelativeTimeText(r: RelativeTime): (s: string)
    ensures r.HoursAgo? ==> Text.StartsWith(s, Text.NatToString(r.hours)) && s[|Text.NatToString(r.hours)|..] == " hours ago"
    ensures r.InHours? ==> Text.StartsWith(s, "In ") && s[3..] == Text.NatToString(r.hours) + " hours"
    ensures r.InDays? ==> Text.StartsWith(s, "In ") && s[3..] == Text.NatToString(r.days) + " days"
    ensures r.InNaNDays? ==> s == "In NaN days"
  {
    match r
    case HoursAgo(h) => Text.NatToString(h) + " hours ago"
    case InHours(h) => "In " + Text.NatToString(h) + " hours"
    case InDays(d) => "In " + Text.NatToString(d) + " days"
    case InNaNDays => "In NaN days"
  }

  /** Different relative times never render to the same text. */
  lemma RelativeTimeTextInjective(a: RelativeTime, b: RelativeTime)
    ensures RelativeTimeText(a) == RelativeTimeText(b) ==> a == b
  {
    if a.HoursAgo? && b.HoursAgo? {
      if RelativeTimeText(a) == RelativeTimeText(b) {
        Text.SuffixCancel(Text.NatToString(a.hours), Text.NatToString(b.hours), " hours ago");
        Text.NatToStringInjective(a.hours, b.hours);
      }
    } else if a.InHours? && b.InHours? {
      if RelativeTimeText(a) == RelativeTimeText(b) {
        Text.SuffixCancel("In " + Text.NatToString(a.hours), "In " + Text.NatToString(b.hours), " hours");
        assert Text.NatToString(a.hours) == ("In " + Text.NatToString(a.hours))[3..];
        assert Text.NatToString(b.hours) == ("In " + Text.NatToString(b.hours))[3..];
        Text.NatToStringInjective(a.hours, b.hours);
      }
    } else if a.InDays? && b.InDays? {
      if RelativeTimeText(a) == RelativeTimeText(b) {
        Text.SuffixCancel("In " + Text.NatToString(a.days), "In " + Text.NatToString(b.days), " days");
        assert Text.NatToString(a.days) == ("In " + Text.NatToString(a.days))[3..];
        assert Text.NatToString(b.days) == ("In " + Text.NatToString(b.days))[3..];
        Text.NatToStringInjective(a.days, b.days);
      }
    } else if !(a.InNaNDays? && b.InNaNDays?) {
      if (a.HoursAgo? && !b.HoursAgo?) || (a.InHours? && (b.InDays? || b.InNaNDays?)) || (a.InDays? && b.InNaNDays?) {
        DifferentFormsDiffer(a, b);
      } else {
        DifferentFormsDiffer(b, a);
      }
    }
  }

  /** Texts of different forms differ at their first or fourth character, or in their digits. */
  lemma DifferentFormsDiffer(a: RelativeTime, b: RelativeTime)
    requires (a.HoursAgo? && !b.HoursAgo?) || (a.InHours? && (b.InDays? || b.InNaNDays?)) || (a.InDays? && b.InNaNDays?)
    ensures RelativeTimeText(a) != RelativeTimeText(b)
  {
    if a.HoursAgo? {
      assert '0' <= RelativeTimeText(a)[0] <= '9' by {
        assert RelativeTimeText(a)[0] == Text.NatToString(a.hours)[0];
      }
      assert RelativeTimeText(b)[0] == 'I';
    } else if a.InHours? && b.InDays? {
      DigitsThenWord("In ", Text.NatToString(a.hours), Text.NatToString(b.days));
    } else {
      var n := if a.InHours? then a.hours else a.days;
      assert RelativeTimeText(a)[3] == Text.NatToString(n)[0];
      assert RelativeTimeText(b)[3] == 'N';
    }
  }

  /** After a common prefix, digits followed by " hours" never equal digits followed by " days". */
  lemma DigitsThenWord(p: string, dh: string, dd: string)
    requires forall i :: 0 <= i < |dd| ==> '0' <= dd[i] <= '9'
    ensures p + dh + " hours" != p + dd + " days"
  {
    if |dd| == |dh| + 1 {
      assert (p + dh + " hours")[|p| + |dh|] == ' ';
      assert (p + dd + " days")[|p| + |dh|] == dd[|dh|];
    } else {
      assert |p + dh + " hours"| != |p + dd + " days"|;
    }
  }
}
