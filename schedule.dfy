/** Admission control of the playback scheduler: whether an ad may play on
    the current weekday and at the current time. Each predicate reads the
    clock once; the clock is the `now` parameter. */
module Schedule {
  import opened Types

  /** The weekday table, Sunday first, indexed by `getDay()`. */
  const Days: seq<string> := ["Sunday", "Monday", "Tuesday", "Wednesday", "Thursday", "Friday", "Saturday"]

  /** The name of weekday `d`, written out case by case. */
  function WeekdayName(d: int): string
    requires 0 <= d < 7
  {
    if d == 0 then "Sunday"
    else if d == 1 then "Monday"
    else if d == 2 then "Tuesday"
    else if d == 3 then "Wednesday"
    else if d == 4 then "Thursday"
    else if d == 5 then "Friday"
    else "Saturday"
  }

  /** adCanPlayToday: a missing ad never plays; otherwise today's name must be
      listed in the ad's days. A weekday outside the table looks up
      `undefined`, which no list of names includes. */
  function CanPlayToday(ad: Option<Ad>, now: Now): bool {
    if ad.None? then false
    else 0 <= now.weekday < |Days| && Days[now.weekday] in ad.value.adConfiguration.days
  }

  /** The current instant lies in the ad's overall `[startTime, endTime]`
      window, both ends included. */
  predicate InWindow(ad: Ad, now: Now) {
    !(now.at.instant < ad.adConfiguration.startTime.instant
      || now.at.instant > ad.adConfiguration.endTime.instant)
  }

  /** Hour:minute `h:m` is at or after `h0:m0`, compared field by field. */
  predicate AtOrAfter(h: int, m: int, h0: int, m0: int) {
    h > h0 || (h == h0 && m >= m0)
  }

  /** Hour:minute `h:m` is at or before `h1:m1`, compared field by field. */
  predicate AtOrBefore(h: int, m: int, h1: int, m1: int) {
    h < h1 || (h == h1 && m <= m1)
  }

  /** Minutes since midnight. */
  function MinuteOfDay(t: DateTime): int {
    t.hour * 60 + t.minute
  }

  /** The daily window `[start, end]` in minutes of the day, both ends
      included; when `end` is before `start` the window wraps past midnight
      and is `[start, 24:00) ∪ [00:00, end]`. */
  predicate DailyWindowAdmits(start: int, end: int, current: int) {
    if end < start then current >= start || current <= end
    else start <= current <= end
  }

  /** adCanPlayNow: outside the overall window the ad never plays. Inside it,
      the daily window is the hour and minute of `startTime` and of `endTime`
      themselves, and it may wrap past midnight. */
  function CanPlayNow(ad: Option<Ad>, now: Now): bool {
    if ad.None? then false
    else
      var start := ad.value.adConfiguration.startTime;
      var end := ad.value.adConfiguration.endTime;
      if now.at.instant < start.instant || now.at.instant > end.instant then false
      else if end.hour < start.hour || (end.hour == start.hour && end.minute < start.minute) then
        // overnight window
        AtOrAfter(now.at.hour, now.at.minute, start.hour, start.minute)
        || AtOrBefore(now.at.hour, now.at.minute, end.hour, end.minute)
      else
        AtOrAfter(now.at.hour, now.at.minute, start.hour, start.minute)
        && AtOrBefore(now.at.hour, now.at.minute, end.hour, end.minute)
  }

  /** adCanPlayToday holds exactly when the ad is present and the name of
      today, Sunday being weekday 0, is among its days. */
  lemma CanPlayTodayIff(ad: Option<Ad>, now: Now)
    ensures CanPlayToday(ad, now)
            <==> ad.Some? && 0 <= now.weekday < 7
                 && WeekdayName(now.weekday) in ad.value.adConfiguration.days
  {
    if ad.Some? && 0 <= now.weekday < 7 {
      assert Days[now.weekday] == WeekdayName(now.weekday);
    }
  }

  /** adCanPlayNow is false for a missing ad and whenever the current
      instant is before `startTime` or after `endTime`. */
  lemma CanPlayNowOutsideWindow(ad: Option<Ad>, now: Now)
    requires ad.None? || !InWindow(ad.value, now)
    ensures !CanPlayNow(ad, now)
  {
  }

  /** Inside the overall window, adCanPlayNow is the daily window test on
      minutes of the day: between start and end inclusive, or, when the end
      is before the start, at or after the start or at or before the end. */
  lemma CanPlayNowInWindow(ad: Ad, now: Now)
    requires InWindow(ad, now)
    requires ValidClock(now.at)
    requires ValidClock(ad.adConfiguration.startTime) && ValidClock(ad.adConfiguration.endTime)
    ensures CanPlayNow(Some(ad), now)
            <==> DailyWindowAdmits(MinuteOfDay(ad.adConfiguration.startTime),
                                   MinuteOfDay(ad.adConfiguration.endTime),
                                   MinuteOfDay(now.at))
  {
    CompareAsMinutes(now.at, ad.adConfiguration.startTime);
    CompareAsMinutes(now.at, ad.adConfiguration.endTime);
    CompareAsMinutes(ad.adConfiguration.endTime, ad.adConfiguration.startTime);
  }

  /** JavaScript truthiness of a value that is `true`, `false` or `undefined`. */
  predicate Truthy(v: Option<bool>) {
    v == Some(true)
  }

  /** adNotActive: `false` for a missing ad or one outside its overall
      window, and `undefined` (it falls off the end) otherwise. */
  function NotActive(ad: Option<Ad>, now: Now): (r: Option<bool>)
    ensures !Truthy(r)
    ensures r.None? <==> ad.Some? && InWindow(ad.value, now)
  {
    if ad.None? then Some(false)
    else if !InWindow(ad.value, now) then Some(false)
    else None
  }

  /** The test every caller applies: `adCanPlayToday(ad) && adCanPlayNow(ad)`. */
  predicate Admissible(ad: Ad, now: Now) {
    CanPlayToday(Some(ad), now) && CanPlayNow(Some(ad), now)
  }

  /** An ad whose overall window does not contain the current instant is
      never admissible, whatever its days and daily hours. */
  lemma ExpiredNeverAdmissible(ad: Ad, now: Now)
    requires now.at.instant < ad.adConfiguration.startTime.instant
             || now.at.instant > ad.adConfiguration.endTime.instant
    ensures !Admissible(ad, now)
  {
  }

  /** The field-by-field hour:minute comparisons agree with comparing minutes
      of the day. */
  lemma CompareAsMinutes(t: DateTime, u: DateTime)
    requires ValidClock(t) && ValidClock(u)
    ensures AtOrAfter(t.hour, t.minute, u.hour, u.minute) <==> MinuteOfDay(t) >= MinuteOfDay(u)
    ensures AtOrBefore(t.hour, t.minute, u.hour, u.minute) <==> MinuteOfDay(t) <= MinuteOfDay(u)
  {
  }

  /** When the daily start and end are the same minute, the ad is admitted
      during exactly that minute of the day. */
  lemma EqualBoundsAdmitOneMinute(ad: Ad, now: Now)
    requires InWindow(ad, now) && ValidClock(now.at)
    requires ad.adConfiguration.startTime.hour == ad.adConfiguration.endTime.hour
    requires ad.adConfiguration.startTime.minute == ad.adConfiguration.endTime.minute
    ensures CanPlayNow(Some(ad), now)
            <==> now.at.hour == ad.adConfiguration.startTime.hour
                 && now.at.minute == ad.adConfiguration.startTime.minute
  {
  }

  /** Admissibility in full: the day is listed, the instant is inside the
      overall window, and the time of day is inside the daily window. */
  lemma AdmissibleIff(ad: Ad, now: Now)
    requires ValidClock(now.at)
    requires ValidClock(ad.adConfiguration.startTime) && ValidClock(ad.adConfiguration.endTime)
    ensures Admissible(ad, now)
            <==> && 0 <= now.weekday < 7
                 && WeekdayName(now.weekday) in ad.adConfiguration.days
                 && InWindow(ad, now)
                 && DailyWindowAdmits(MinuteOfDay(ad.adConfiguration.startTime),
                                      MinuteOfDay(ad.adConfiguration.endTime),
                                      MinuteOfDay(now.at))
  {
    CanPlayTodayIff(Some(ad), now);
    if InWindow(ad, now) {
      CanPlayNowInWindow(ad, now);
    }
  }

  /** An ad for Mondays whose campaign runs from 22:00 one day until 02:00 a
      week later: on Monday at 23:30 it is admissible, on Monday at 10:00 it
      is not, although both instants are inside the overall window. */
  lemma OvernightScenario()
    ensures
      var cfg := AdConfiguration(["Monday"], 10, DateTime(0, 22, 0), DateTime(619_200_000, 2, 0));
      var ad := Ad("acct", cfg, "ad-1", Image, Some("u"), None, "camp", 1, "name", "ref");
      && Admissible(ad, Now(DateTime(91_800_000, 23, 30), 1))
      && !Admissible(ad, Now(DateTime(43_200_000, 10, 0), 1))
      && InWindow(ad, Now(DateTime(43_200_000, 10, 0), 1))
  {
  }
}
