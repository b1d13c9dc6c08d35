/**
 * The live countdown page (src/pages/Countdown.tsx): a session really starts
 * after its advertisement buffer, the time left is shown as hours, minutes and
 * seconds, and a caption and a colour classify how close the start is.
 * Times are integer milliseconds; `now` is the page's clock reading.
 */
module Countdown {
  import opened Common

  datatype MovieSession = MovieSession(
    id: string,
    movieTitle: string,
    hallNumber: string,
    scheduledTime: int,
    adBufferMinutes: int,
    status: string)

  datatype TimeLeft = TimeLeft(hours: int, minutes: int, seconds: int, isStarted: bool)

  /** getActualStartTime: the film starts once the advertisement buffer after the scheduled time is over. */
  function ActualStartTime(session: MovieSession): (start: int)
    ensures start - session.scheduledTime == session.adBufferMinutes * MS_PER_MINUTE
    ensures session.adBufferMinutes >= 0 ==> start >= session.scheduledTime
  {
    session.scheduledTime + session.adBufferMinutes * 60 * 1000
  }

  /** The three floor divisions of a positive millisecond count give its whole hours, the
      whole minutes of the hour begun and the whole seconds of the minute begun. */
  lemma Decompose(diff: int)
    requires diff > 0
    ensures var h := diff / MS_PER_HOUR;
      var m := (diff % MS_PER_HOUR) / MS_PER_MINUTE;
      var s := (diff % MS_PER_MINUTE) / MS_PER_SECOND;
      && h >= 0 && 0 <= m < 60 && 0 <= s < 60
      && h * MS_PER_HOUR + m * MS_PER_MINUTE <= diff < h * MS_PER_HOUR + (m + 1) * MS_PER_MINUTE
      && h * MS_PER_HOUR + m * MS_PER_MINUTE + s * MS_PER_SECOND <= diff < h * MS_PER_HOUR + m * MS_PER_MINUTE + s * MS_PER_SECOND + MS_PER_SECOND
  {
    var h := diff / MS_PER_HOUR;
    var r1 := diff % MS_PER_HOUR;
    assert diff == h * MS_PER_HOUR + r1 && 0 <= r1 < MS_PER_HOUR;
    var m := r1 / MS_PER_MINUTE;
    var r2 := r1 % MS_PER_MINUTE;
    assert r1 == m * MS_PER_MINUTE + r2 && 0 <= r2 < MS_PER_MINUTE;
    assert 0 <= m < 60;
    // An hour is a whole number of minutes, so the remainder by minutes is the same.
    assert diff == (h * 60 + m) * MS_PER_MINUTE + r2;
    ModUnique(diff, h * 60 + m, r2, MS_PER_MINUTE);
    assert diff % MS_PER_MINUTE == r2;
    var s := r2 / MS_PER_SECOND;
    var r3 := r2 % MS_PER_SECOND;
    assert r2 == s * MS_PER_SECOND + r3 && 0 <= r3 < MS_PER_SECOND;
    assert h >= 0;
  }

  /** Division with remainder is unique. */
  lemma ModUnique(x: int, q: int, r: int, d: int)
    requires d > 0 && 0 <= r < d && x == q * d + r
    ensures x % d == r && x / d == q
  {
    var q', r' := x / d, x % d;
    assert x == q' * d + r' && 0 <= r' < d;
    assert (q - q') * d == r' - r;
    if q > q' {
      MulAtLeast(q - q', d);
    } else if q < q' {
      MulAtLeast(q' - q, d);
    }
  }

  lemma MulAtLeast(k: int, d: int)
    requires k >= 1 && d > 0
    ensures k * d >= d
  {
  }

  /** getTimeUntilStart: zero and started once the actual start has passed; otherwise
      the time left split into hours, minutes under 60 and seconds under 60, which
      together fall short of the time left by less than a second. */
  function TimeUntilStart(session: MovieSession, now: int): (t: TimeLeft)
    ensures var diff := ActualStartTime(session) - now;
      && (t.isStarted <==> diff <= 0)
      && (t.isStarted ==> t.hours == 0 && t.minutes == 0 && t.seconds == 0)
      && (!t.isStarted ==>
            && t.hours >= 0 && 0 <= t.minutes < 60 && 0 <= t.seconds < 60
            && t.hours * MS_PER_HOUR + t.minutes * MS_PER_MINUTE <= diff < t.hours * MS_PER_HOUR + (t.minutes + 1) * MS_PER_MINUTE
            && t.hours * MS_PER_HOUR + t.minutes * MS_PER_MINUTE + t.seconds * MS_PER_SECOND <= diff
            && diff < t.hours * MS_PER_HOUR + t.minutes * MS_PER_MINUTE + t.seconds * MS_PER_SECOND + MS_PER_SECOND)
  {
    var diffMs := ActualStartTime(session) - now;
    if diffMs <= 0 then TimeLeft(0, 0, 0, true)
    else
      Decompose(diffMs);
      TimeLeft(diffMs / (1000 * 60 * 60), (diffMs % (1000 * 60 * 60)) / (1000 * 60), (diffMs % (1000 * 60)) / 1000, false)
  }

  /** getStatusText: one of four captions, "Movie Started" exactly once the actual
      start has been reached. */
  function StatusText(session: MovieSession, now: int): (text: string)
    ensures text in ["Movie Started", "Starting Soon!", "Ads Playing", "Scheduled"]
    ensures text == "Movie Started" <==> ActualStartTime(session) <= now
  {
    var timeUntil := TimeUntilStart(session, now);
    if timeUntil.isStarted then "Movie Started"
    else if timeUntil.hours == 0 && timeUntil.minutes < 5 then "Starting Soon!"
    else if timeUntil.hours == 0 && timeUntil.minutes < 15 then "Ads Playing"
    else "Scheduled"
  }

  /** getStatusColor: one of four colours, green exactly once the actual start has
      been reached. */
  function StatusColor(session: MovieSession, now: int): (color: string)
    ensures color in ["bg-green-500", "bg-red-500", "bg-yellow-500", "bg-blue-500"]
    ensures color == "bg-green-500" <==> ActualStartTime(session) <= now
  {
    var timeUntil := TimeUntilStart(session, now);
    if timeUntil.isStarted then "bg-green-500"
    else if timeUntil.hours == 0 && timeUntil.minutes < 5 then "bg-red-500"
    else if timeUntil.hours == 0 && timeUntil.minutes < 15 then "bg-yellow-500"
    else "bg-blue-500"
  }

  /** The caption by the milliseconds left before the actual start: started at zero or
      below, "Starting Soon!" under five minutes, "Ads Playing" under fifteen, else "Scheduled". */
  lemma StatusTextByTimeLeft(session: MovieSession, now: int)
    ensures var diff := ActualStartTime(session) - now;
      StatusText(session, now) ==
        if diff <= 0 then "Movie Started"
        else if diff < 5 * MS_PER_MINUTE then "Starting Soon!"
        else if diff < 15 * MS_PER_MINUTE then "Ads Playing"
        else "Scheduled"
  {
  }

  /** Colour and caption go together: two readings share a colour exactly when they share a caption. */
  lemma ColorMatchesText(s1: MovieSession, now1: int, s2: MovieSession, now2: int)
    ensures StatusColor(s1, now1) == StatusColor(s2, now2) <==> StatusText(s1, now1) == StatusText(s2, now2)
  {
  }

  /** Each caption has its own colour. */
  lemma ColorOfText(session: MovieSession, now: int)
    ensures StatusText(session, now) == "Movie Started" <==> StatusColor(session, now) == "bg-green-500"
    ensures StatusText(session, now) == "Starting Soon!" <==> StatusColor(session, now) == "bg-red-500"
    ensures StatusText(session, now) == "Ads Playing" <==> StatusColor(session, now) == "bg-yellow-500"
    ensures StatusText(session, now) == "Scheduled" <==> StatusColor(session, now) == "bg-blue-500"
  {
  }

  /** As the clock advances the caption only moves forward: Scheduled, Ads Playing,
      Starting Soon!, Movie Started. */
  lemma StatusNeverGoesBack(session: MovieSession, now1: int, now2: int)
    requires now1 <= now2
    ensures StatusRank(StatusText(session, now1)) <= StatusRank(StatusText(session, now2))
  {
    StatusTextByTimeLeft(session, now1);
    StatusTextByTimeLeft(session, now2);
  }

  function StatusRank(text: string): int {
    if text == "Scheduled" then 0
    else if text == "Ads Playing" then 1
    else if text == "Starting Soon!" then 2
    else 3
  }
}
