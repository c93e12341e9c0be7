// The admin users page (Admin.tsx): the relative time shown next to a date,
// and the scroll handler that asks for the next page of users.

module AdminPage {
  import opened Clock
  import opened Api
  import UsersCache
  import AdminUsers

  const MinuteMs: int := 60000
  const HourMs: int := 3600000
  const DayMs: int := 86400000

  /** The relative part of formatDateTime, by bucket. */
  datatype Relative =
    | JustNow
    | MinutesAgo(minutes: int)
    | HoursAgo(hours: int)
    | DaysAgo(days: int)
    | WeeksAgo(weeks: int)
    | MonthsAgo(months: int)
    | YearsAgo(years: int)

  /**
   * What formatDateTime shows: 'Не указано' for a missing date, 'Некорректная
   * дата' for an unparseable one, otherwise the (locale-formatted) date and
   * time with the relative part.
   */
  datatype Stamp = NotSpecified | InvalidDate | Stamped(at: int, relative: Relative)

  /** The bucket for a difference of diffMs milliseconds between now and the date. */
  function RelativeTime(diffMs: int): (r: Relative)
    ensures r.JustNow? <==> diffMs < MinuteMs
    ensures r.MinutesAgo? <==> MinuteMs <= diffMs < HourMs
    ensures r.HoursAgo? <==> HourMs <= diffMs < DayMs
    ensures r.DaysAgo? <==> DayMs <= diffMs < 7 * DayMs
    ensures r.WeeksAgo? <==> 7 * DayMs <= diffMs < 30 * DayMs
    ensures r.MonthsAgo? <==> 30 * DayMs <= diffMs < 365 * DayMs
    ensures r.YearsAgo? <==> 365 * DayMs <= diffMs
    ensures r.MinutesAgo? ==> 1 <= r.minutes <= 59 && r.minutes * MinuteMs <= diffMs < (r.minutes + 1) * MinuteMs
    ensures r.HoursAgo? ==> 1 <= r.hours <= 23 && r.hours * HourMs <= diffMs < (r.hours + 1) * HourMs
    ensures r.DaysAgo? ==> 1 <= r.days <= 6 && r.days * DayMs <= diffMs < (r.days + 1) * DayMs
    ensures r.WeeksAgo? ==> 1 <= r.weeks <= 4 && r.weeks * 7 * DayMs <= diffMs < (r.weeks + 1) * 7 * DayMs
    ensures r.MonthsAgo? ==> 1 <= r.months <= 12 && r.months * 30 * DayMs <= diffMs < (r.months + 1) * 30 * DayMs
    ensures r.YearsAgo? ==> r.years >= 1 && r.years * 365 * DayMs <= diffMs < (r.years + 1) * 365 * DayMs
  {
    // Math.floor of a quotient by a positive constant is Dafny's division
    var diffDays := diffMs / DayMs;
    var diffHours := diffMs / HourMs;
    var diffMinutes := diffMs / MinuteMs;
    if diffMinutes < 1 then JustNow
    else if diffMinutes < 60 then MinutesAgo(diffMinutes)
    else if diffHours < 24 then HoursAgo(diffHours)
    else if diffDays < 7 then DaysAgo(diffDays)
    else if diffDays < 30 then WeeksAgo(diffDays / 7)
    else if diffDays < 365 then MonthsAgo(diffDays / 30)
    else YearsAgo(diffDays / 365)
  }

  function FormatDateTime(date: DateInput, now: int): (s: Stamp)
    ensures date.Missing? <==> s.NotSpecified?
    ensures date.Malformed? <==> s.InvalidDate?
    ensures date.At? ==> s == Stamped(date.ms, RelativeTime(now - date.ms))
  {
    match date
    case Missing => NotSpecified
    case Malformed => InvalidDate
    case At(t) => Stamped(t, RelativeTime(now - t))
  }

  /** Any date in the future reads as 'только что'. */
  lemma FutureIsJustNow(t: int, now: int)
    requires t > now
    ensures FormatDateTime(At(t), now) == Stamped(t, JustNow)
  {
  }

  /** 'только что' is shown only for dates less than a minute before now, or in the future. */
  lemma JustNowOnlyWithinAMinute(t: int, now: int)
    requires FormatDateTime(At(t), now).relative.JustNow?
    ensures now < t + MinuteMs
  {
  }

  /** The scroll handler's condition for asking for more users. */
  predicate LoadMoreTrigger(distanceFromBottom: int, hasMore: bool, loadingMore: bool, initialLoading: bool)
  {
    distanceFromBottom <= 1000 && hasMore && !loadingMore && !initialLoading
  }

  /**
   * handleScroll: with `distanceFromBottom` the document height minus the
   * scrolled position and the window height, calls loadMoreUsers on the
   * hook's state when the trigger holds.
   */
  method HandleScroll(state: AdminUsers.AdminUsersState, distanceFromBottom: int, hasTelegramId: bool,
                      cache: UsersCache.UsersCacheManager, response: Response<AdminUsers.UsersPage>, now: int)
    modifies state, cache
    ensures !LoadMoreTrigger(distanceFromBottom, old(state.hasMore), old(state.loadingMore), old(state.initialLoading)) ==>
      unchanged(state) && unchanged(cache)
    ensures LoadMoreTrigger(distanceFromBottom, old(state.hasMore), old(state.loadingMore), old(state.initialLoading)) ==>
      state.Fetched(false, false, hasTelegramId, cache, response, now)
    ensures (LoadMoreTrigger(distanceFromBottom, old(state.hasMore), old(state.loadingMore), old(state.initialLoading))
             && hasTelegramId && |old(state.users)| > 0 && response.Data?) ==> (
      && state.users == old(state.users) + response.value.users
      && state.currentOffset == old(state.currentOffset) + |response.value.users|)
  {
    if LoadMoreTrigger(distanceFromBottom, state.hasMore, state.loadingMore, state.initialLoading) {
      state.LoadMoreUsers(hasTelegramId, cache, response, now);
    }
  }
}
