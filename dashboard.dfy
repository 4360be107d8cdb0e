/**
 * The dashboard's pure helpers: the relative-time label of an activity,
 * the activity icon, and the defaulting of the statistics document.
 * The current time and the locale date rendering are parameters.
 */
module Dashboard {
  import opened Wrappers
  import opened Text

  /** `getActivityIcon`: one icon per activity type, a pushpin for the rest. */
  function ActivityIcon(activityType: string): (icon: string)
    ensures activityType !in {"model", "dataset", "endpoint", "prediction"} <==> icon == "\U{1F4CC}"
  {
    match activityType
    case "model" => "\U{1F4CA}"
    case "dataset" => "\U{1F4C1}"
    case "endpoint" => "\U{1F517}"
    case "prediction" => "\U{1F52E}"
    case _ => "\U{1F4CC}"
  }

  /** Each known activity type has an icon of its own: two types share one only when neither is known. */
  lemma ActivityIconsDistinct(a: string, b: string)
    ensures ActivityIcon(a) == ActivityIcon(b) && a != b
            ==> a !in {"model", "dataset", "endpoint", "prediction"} && b !in {"model", "dataset", "endpoint", "prediction"}
  {
  }

  // ---------------------------------------------------------------- timestamps

  /**
   * An activity's timestamp: absent, a number of milliseconds, or a
   * Firestore timestamp (an object, so never falsy) already converted to milliseconds.
   */
  datatype Stamp = NoStamp | Millis(ms: int) | Firestore(ms: int)

  /** `!timestamp`: a missing timestamp or the number 0. */
  predicate Falsy(t: Stamp) {
    t.NoStamp? || t == Millis(0)
  }

  /** `Math.floor(a / b)` for a positive divisor. */
  function FloorDiv(a: int, b: int): (q: int)
    requires b > 0
    ensures b * q <= a < b * (q + 1)
  {
    a / b
  }

  /** The relative age `formatTimestamp` shows. */
  datatype Age = Unknown | JustNow | MinutesAgo(minutes: int) | HoursAgo(hours: int) | Yesterday | DaysAgo(days: int) | OnDate(ms: int)

  /** `formatTimestamp` before the numbers are written out: whole minutes, then hours, then days. */
  function AgeOf(t: Stamp, now: int): (a: Age)
    ensures a == Unknown <==> Falsy(t)
    ensures !Falsy(t) ==>
              var elapsed := now - t.ms;
              && (a == JustNow <==> elapsed < 60_000)
              && (a.MinutesAgo? <==> 60_000 <= elapsed < 3_600_000)
              && (a.HoursAgo? <==> 3_600_000 <= elapsed < 86_400_000)
              && (a == Yesterday <==> 86_400_000 <= elapsed < 172_800_000)
              && (a.DaysAgo? <==> 172_800_000 <= elapsed < 604_800_000)
              && (a.OnDate? <==> 604_800_000 <= elapsed)
    ensures a.MinutesAgo? ==> 1 <= a.minutes < 60 && a.minutes * 60_000 <= now - t.ms < (a.minutes + 1) * 60_000
    ensures a.HoursAgo? ==> 1 <= a.hours < 24 && a.hours * 3_600_000 <= now - t.ms < (a.hours + 1) * 3_600_000
    ensures a.DaysAgo? ==> 2 <= a.days < 7 && a.days * 86_400_000 <= now - t.ms < (a.days + 1) * 86_400_000
    ensures a.OnDate? ==> a.ms == t.ms
  {
    if Falsy(t) then Unknown
    else
      var minutes := FloorDiv(now - t.ms, 60_000);
      if minutes < 1 then JustNow
      else if minutes < 60 then MinutesAgo(minutes)
      else
        var hours := FloorDiv(minutes, 60);
        if hours < 24 then HoursAgo(hours)
        else
          var days := FloorDiv(hours, 24);
          if days == 1 then Yesterday
          else if days < 7 then DaysAgo(days)
          else OnDate(t.ms)
  }

  /** The order of the buckets from newest to oldest. */
  function Rank(a: Age): nat {
    match a
    case Unknown => 0
    case JustNow => 0
    case MinutesAgo(_) => 1
    case HoursAgo(_) => 2
    case Yesterday => 3
    case DaysAgo(_) => 4
    case OnDate(_) => 5
  }

  /** An older activity never gets a newer-sounding label, nor a smaller count in the same bucket. */
  lemma OlderNeverNewer(t1: Stamp, t2: Stamp, now: int)
    requires !Falsy(t1) && !Falsy(t2) && t2.ms <= t1.ms
    ensures Rank(AgeOf(t1, now)) <= Rank(AgeOf(t2, now))
    ensures AgeOf(t1, now).MinutesAgo? && AgeOf(t2, now).MinutesAgo? ==> AgeOf(t1, now).minutes <= AgeOf(t2, now).minutes
    ensures AgeOf(t1, now).HoursAgo? && AgeOf(t2, now).HoursAgo? ==> AgeOf(t1, now).hours <= AgeOf(t2, now).hours
    ensures AgeOf(t1, now).DaysAgo? && AgeOf(t2, now).DaysAgo? ==> AgeOf(t1, now).days <= AgeOf(t2, now).days
  {
  }

  /** The label, with `localeDate` standing for `toLocaleDateString`. */
  function AgeText(a: Age, localeDate: int -> string): string {
    match a
    case Unknown => "Unknown"
    case JustNow => "Just now"
    case MinutesAgo(m) => IntToString(m) + " minutes ago"
    case HoursAgo(h) => IntToString(h) + " hours ago"
    case Yesterday => "Yesterday"
    case DaysAgo(d) => IntToString(d) + " days ago"
    case OnDate(ms) => localeDate(ms)
  }

  /**
   * `formatTimestamp`: the label for each range of elapsed time, the count
   * being the whole number of elapsed minutes, hours or days.
   */
  function FormatTimestamp(t: Stamp, now: int, localeDate: int -> string): (text: string)
    ensures Falsy(t) ==> text == "Unknown"
    ensures !Falsy(t) && now - t.ms < 60_000 ==> text == "Just now"
    ensures !Falsy(t) && 60_000 <= now - t.ms < 3_600_000
            ==> text == IntToString((now - t.ms) / 60_000) + " minutes ago"
    ensures !Falsy(t) && 3_600_000 <= now - t.ms < 86_400_000
            ==> text == IntToString((now - t.ms) / 3_600_000) + " hours ago"
    ensures !Falsy(t) && 86_400_000 <= now - t.ms < 172_800_000 ==> text == "Yesterday"
    ensures !Falsy(t) && 172_800_000 <= now - t.ms < 604_800_000
            ==> text == IntToString((now - t.ms) / 86_400_000) + " days ago"
    ensures !Falsy(t) && 604_800_000 <= now - t.ms ==> text == localeDate(t.ms)
  {
    AgeText(AgeOf(t, now), localeDate)
  }

  /** A timestamp in the future reads 'Just now'. */
  lemma FutureIsJustNow(t: Stamp, now: int, localeDate: int -> string)
    requires !Falsy(t) && t.ms > now
    ensures FormatTimestamp(t, now, localeDate) == "Just now"
  {
  }

  /** The number 0 is falsy, so an activity stamped at the epoch reads 'Unknown'. */
  lemma EpochIsUnknown(now: int, localeDate: int -> string)
    ensures FormatTimestamp(Millis(0), now, localeDate) == "Unknown"
  {
  }

  // ---------------------------------------------------------------- statistics

  /** The first statistics document's fields; None for a missing or falsy field. */
  datatype StatsDoc = StatsDoc(modelsCreated: Option<int>, datasetsUploaded: Option<int>, apiEndpoints: Option<int>)

  datatype MlStats = MlStats(modelsCreated: int, datasetsUploaded: int, apiEndpoints: int)

  const InitialStats := MlStats(0, 0, 0)

  /**
   * The statistics after the load: the first document's fields, each
   * defaulting to 0, or the current ones when the collection is empty or
   * the read failed.
   */
  function LoadedStats(current: MlStats, firstDoc: Option<StatsDoc>): (s: MlStats)
    ensures firstDoc.None? ==> s == current
    ensures firstDoc.Some? ==>
              && s.modelsCreated == firstDoc.value.modelsCreated.GetOr(0)
              && s.datasetsUploaded == firstDoc.value.datasetsUploaded.GetOr(0)
              && s.apiEndpoints == firstDoc.value.apiEndpoints.GetOr(0)
  {
    match firstDoc
    case None => current
    case Some(d) => MlStats(d.modelsCreated.GetOr(0), d.datasetsUploaded.GetOr(0), d.apiEndpoints.GetOr(0))
  }
}
