/**
 * The buckets of `formatRelativeTime`, which the results view uses for the age
 * of a re-validated cached analysis. The elapsed whole seconds are an input
 * (the popup computes them from the clock); the date text of the last bucket is
 * an input too, being locale dependent.
 */
module TimeFormat {
  import opened Text

  datatype Elapsed = JustNow | MinutesAgo(minutes: nat) | HoursAgo(hours: nat) | OnDate

  /** The bucket for `seconds` elapsed: under a minute, under an hour, under a day, or older. */
  function RelativeBucket(seconds: int): (e: Elapsed)
    ensures e == JustNow <==> seconds < 60
    ensures e.MinutesAgo? <==> 60 <= seconds < 3600
    ensures e.HoursAgo? <==> 3600 <= seconds < 86400
    ensures e == OnDate <==> 86400 <= seconds
    ensures e.MinutesAgo? ==> 1 <= e.minutes < 60 && e.minutes * 60 <= seconds < e.minutes * 60 + 60
    ensures e.HoursAgo? ==> 1 <= e.hours < 24 && e.hours * 3600 <= seconds < e.hours * 3600 + 3600
  {
    if seconds < 60 then JustNow
    else if seconds < 3600 then MinutesAgo(seconds / 60)
    else if seconds < 86400 then HoursAgo(seconds / 3600)
    else OnDate
  }

  /** The text `formatRelativeTime` returns for `seconds` elapsed. */
  function RelativeTimeText(seconds: int, formattedDate: string): (text: string)
    ensures seconds < 60 ==> text == "Just now"
    ensures 60 <= seconds < 86400 ==> |text| > 0 && IsDigit(text[0])
    ensures seconds >= 86400 ==> text == formattedDate
  {
    match RelativeBucket(seconds)
    case JustNow => "Just now"
    case MinutesAgo(m) => NatToString(m) + "m ago"
    case HoursAgo(h) => NatToString(h) + "h ago"
    case OnDate => formattedDate
  }

  /**
   * Within the first day the text says how old the analysis is: reading the
   * number before `m ago` or `h ago` back gives the whole minutes or hours elapsed.
   */
  lemma RelativeTimeTextRoundTrip(seconds: int, formattedDate: string)
    requires 60 <= seconds < 86400
    ensures var text := RelativeTimeText(seconds, formattedDate);
      |text| > 5 && AllDigits(text[..|text| - 5]) &&
      (seconds < 3600 ==> text[|text| - 5..] == "m ago" && ParseNat(text[..|text| - 5]) == seconds / 60) &&
      (seconds >= 3600 ==> text[|text| - 5..] == "h ago" && ParseNat(text[..|text| - 5]) == seconds / 3600)
  {
    var text := RelativeTimeText(seconds, formattedDate);
    if seconds < 3600 {
      var n := NatToString(seconds / 60);
      assert text == n + "m ago";
      assert text[..|text| - 5] == n;
      ParseNatToString(seconds / 60);
    } else {
      var n := NatToString(seconds / 3600);
      assert text == n + "h ago";
      assert text[..|text| - 5] == n;
      ParseNatToString(seconds / 3600);
    }
  }
}
