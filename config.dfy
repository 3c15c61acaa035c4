/**
 * The configuration vocabulary of the supervisor and the schedule arithmetic
 * of `Interval` (src/config.rs).
 *
 * Instants are whole seconds. The two library services the schedule depends
 * on are kept abstract: calendar-day addition is a partial function in
 * `Calendar`. It fails at the edge of the representable range, and also when
 * the local result falls into a daylight-saving gap or overlap, where chrono
 * finds no single instant. Its length in seconds depends on the time zone.
 * A parsed cron expression is
 * only known through `Cron`: the text parser and "first occurrence after t".
 */
module Config {
  import opened Common

  /** `chrono::Duration::hours(1)`, in seconds. */
  const HourSeconds: nat := 3600

  /** One calendar day of a zone without daylight-saving shifts, in seconds. */
  const DaySeconds: nat := 86400

  /** A parsed cron schedule, kept with the text it was parsed from. */
  datatype Schedule = Schedule(source: string)

  /** `checked_add_days`: adds whole calendar days, or fails (`None`). */
  datatype Calendar = Calendar(addDays: (Time, nat) -> Option<Time>) {

    /** Every addition that succeeds moves the instant by exactly `n` days of 86400 seconds (as in UTC). */
    ghost predicate Uniform() {
      forall t: Time, n: nat :: addDays(t, n).Some? ==> addDays(t, n).value == t + n * DaySeconds
    }
  }

  /** The cron library: parsing an expression, and the first occurrence strictly after an instant. */
  datatype Cron = Cron(parse: string -> Option<Schedule>, after: (Schedule, Time) -> Option<Time>) {

    /** Occurrences reported by `after` lie strictly after the instant asked about. */
    ghost predicate StrictlyAfter() {
      forall s: Schedule, t: Time :: after(s, t).Some? ==> after(s, t).value > t
    }
  }

  datatype Interval = Hourly | Daily | Weekly | Custom(schedule: Schedule) {
    predicate Fixed() { !Custom? }
  }

  /** The failure of `Interval::from_str`: the text was no keyword and no valid cron expression. */
  datatype ParseError = InvalidCron(text: string)

  datatype BackupStrategy = StopApp | Live

  datatype NetworkMode = Host | Bridge

  /** The application's container settings. */
  datatype AppConfig = AppConfig(
    image: string,
    args: Option<seq<string>>,
    volumes: Option<seq<string>>,
    ports: Option<seq<string>>,
    networkMode: Option<NetworkMode>,
    environments: Option<map<string, string>>,
    capAdd: Option<seq<string>>)

  datatype BackupConfig = BackupConfig(
    repo: string,
    src: string,
    interval: Interval,
    strategy: Option<BackupStrategy>,
    environments: Option<map<string, string>>)

  datatype UpdateConfig = UpdateConfig(interval: Interval)

  /** `UpdateConfig::default`: the image is checked once a calendar day. */
  function DefaultUpdateConfig(): (r: UpdateConfig)
    ensures r.interval.Fixed() && !r.interval.Hourly? && PeriodDays(r.interval) == 1
  {
    UpdateConfig(Daily)
  }

  /** `BackupStrategy::default`: unless configured otherwise, the app is stopped while backing up. */
  function DefaultBackupStrategy(): (r: BackupStrategy)
    ensures r != Live
  {
    StopApp
  }

  // ---------------------------------------------------------------------
  // Schedule arithmetic

  /** Number of calendar days a daily or weekly interval adds. */
  function PeriodDays(i: Interval): nat
    requires i.Daily? || i.Weekly?
  {
    if i.Daily? then 1 else 7
  }

  /** The instant the next trigger falls on, before it is clamped against `now`. */
  function Candidate(i: Interval, last: Option<Time>, now: Time, cal: Calendar, cron: Cron): (r: Option<Time>)
    ensures i.Hourly? ==> r.Some?
    ensures i.Daily? || i.Weekly? ==> (r.None? <==> cal.addDays(last.GetOr(now), PeriodDays(i)).None?)
    ensures i.Fixed() && cal.Uniform() && r.Some? ==>
              r.value == last.GetOr(now) + (if i.Hourly? then HourSeconds else PeriodDays(i) * DaySeconds)
    ensures i.Custom? && cron.StrictlyAfter() && r.Some? ==> r.value > now
  {
    match i
    case Hourly => Some(last.GetOr(now) + HourSeconds)
    case Daily => cal.addDays(last.GetOr(now), 1)
    case Weekly => cal.addDays(last.GetOr(now), 7)
    case Custom(s) => cron.after(s, now)
  }

  /**
   * `Interval::next`: how long to wait, in seconds, before the next trigger.
   * A trigger in the past is due at once; no candidate means never.
   */
  function Next(i: Interval, last: Option<Time>, now: Time, cal: Calendar, cron: Cron): (r: Option<nat>)
    ensures r.Some? <==> Candidate(i, last, now, cal, cron).Some?
    ensures r.Some? && Candidate(i, last, now, cal, cron).value >= now ==>
              now + r.value == Candidate(i, last, now, cal, cron).value
    ensures r.Some? && Candidate(i, last, now, cal, cron).value < now ==> r.value == 0
  {
    match Candidate(i, last, now, cal, cron)
    case Some(c) => if c >= now then Some(c - now) else Some(0)
    case None => None
  }

  /** With no previous trigger an hourly schedule waits one hour, and a daily or weekly one waits until the same time one or seven calendar days on. */
  lemma FirstWaitIsOnePeriod(i: Interval, now: Time, cal: Calendar, cron: Cron)
    requires i.Fixed()
    ensures i.Hourly? ==> Next(i, None, now, cal, cron) == Some(HourSeconds)
    ensures !i.Hourly? ==>
      match cal.addDays(now, PeriodDays(i))
      case Some(d) => d >= now ==> Next(i, None, now, cal, cron) == Some(d - now)
      case None => Next(i, None, now, cal, cron) == None
  {
  }

  /** On a uniform calendar the first daily wait is one day and the first weekly wait seven, whenever the day addition succeeds. */
  lemma FirstWaitOnUniformCalendar(i: Interval, now: Time, cal: Calendar, cron: Cron)
    requires i.Daily? || i.Weekly?
    requires cal.Uniform()
    requires cal.addDays(now, PeriodDays(i)).Some?
    ensures Next(i, None, now, cal, cron) == Some(PeriodDays(i) * DaySeconds)
  {
  }

  /**
   * For a fixed interval whose last trigger is not in the future, the wait
   * never exceeds one period as the calendar counts it: one hour, or the
   * length of the one or seven calendar days from `last` (which need not be
   * whole multiples of 24 hours across a daylight-saving change).
   */
  lemma WaitWithinPeriod(i: Interval, last: Time, now: Time, cal: Calendar, cron: Cron)
    requires i.Fixed() && last <= now
    ensures match Next(i, Some(last), now, cal, cron)
      case Some(d) =>
        if i.Hourly? then d <= HourSeconds
        else cal.addDays(last, PeriodDays(i)).Some? &&
             (cal.addDays(last, PeriodDays(i)).value >= last ==> d <= cal.addDays(last, PeriodDays(i)).value - last)
      case None => !i.Hourly? && cal.addDays(last, PeriodDays(i)).None?
  {
  }

  /** On a uniform calendar the bound is one hour, one day or seven days. */
  lemma WaitWithinPeriodOnUniformCalendar(i: Interval, last: Time, now: Time, cal: Calendar, cron: Cron)
    requires i.Fixed() && last <= now
    requires !i.Hourly? ==> cal.Uniform()
    ensures match Next(i, Some(last), now, cal, cron)
      case Some(d) => d <= (if i.Hourly? then HourSeconds else PeriodDays(i) * DaySeconds)
      case None => !i.Hourly?
  {
    WaitWithinPeriod(i, last, now, cal, cron);
  }

  /** Catch-up after downtime: a fixed schedule whose next trigger after `last` is already past is due at once. */
  lemma MissedTriggerIsDueNow(i: Interval, last: Time, now: Time, cal: Calendar, cron: Cron)
    requires i.Fixed()
    requires i.Hourly? ==> last + HourSeconds < now
    requires !i.Hourly? ==> cal.addDays(last, PeriodDays(i)).Some? && cal.addDays(last, PeriodDays(i)).value < now
    ensures Next(i, Some(last), now, cal, cron) == Some(0)
  {
  }

  /** On a uniform calendar, a trigger is missed once more than one hour, one day or seven days have passed since `last`. */
  lemma MissedTriggerOnUniformCalendar(i: Interval, last: Time, now: Time, cal: Calendar, cron: Cron)
    requires i.Fixed()
    requires !i.Hourly? ==> cal.Uniform() && cal.addDays(last, PeriodDays(i)).Some?
    requires last + (if i.Hourly? then HourSeconds else PeriodDays(i) * DaySeconds) < now
    ensures Next(i, Some(last), now, cal, cron) == Some(0)
  {
    MissedTriggerIsDueNow(i, last, now, cal, cron);
  }

  /** Hourly always yields a wait; daily and weekly yield none exactly when the day addition fails. */
  lemma NoWaitOnlyWhenDayAdditionFails(i: Interval, last: Option<Time>, now: Time, cal: Calendar, cron: Cron)
    requires i.Fixed()
    ensures i.Hourly? ==> Next(i, last, now, cal, cron).Some?
    ensures !i.Hourly? ==>
      (Next(i, last, now, cal, cron).None? <==> cal.addDays(last.GetOr(now), PeriodDays(i)).None?)
  {
  }

  /** A cron schedule ignores `last`, has no wait exactly when it has no further occurrence, and is never already due. */
  lemma CustomFollowsSchedule(s: Schedule, last1: Option<Time>, last2: Option<Time>, now: Time, cal: Calendar, cron: Cron)
    ensures Next(Custom(s), last1, now, cal, cron) == Next(Custom(s), last2, now, cal, cron)
    ensures Next(Custom(s), last1, now, cal, cron).None? <==> cron.after(s, now).None?
    ensures cron.StrictlyAfter() && Next(Custom(s), last1, now, cal, cron).Some? ==>
              Next(Custom(s), last1, now, cal, cron).value > 0
  {
  }

  // ---------------------------------------------------------------------
  // Text form

  /** `char::is_whitespace`: the Unicode White_Space property. */
  predicate IsWhitespace(c: char) {
    var n := c as int;
    (9 <= n <= 13) || n == 32 || n == 0x85 || n == 0xA0 || n == 0x1680 ||
    (0x2000 <= n <= 0x200A) || n == 0x2028 || n == 0x2029 || n == 0x202F ||
    n == 0x205F || n == 0x3000
  }

  predicate AllWhitespace(s: string) {
    forall k :: 0 <= k < |s| ==> IsWhitespace(s[k])
  }

  /** Text with no whitespace at either end. */
  predicate Trimmed(t: string) {
    t == [] || (!IsWhitespace(t[0]) && !IsWhitespace(t[|t| - 1]))
  }

  function TrimStart(s: string): string {
    if |s| > 0 && IsWhitespace(s[0]) then TrimStart(s[1..]) else s
  }

  function TrimEnd(s: string): string {
    if |s| > 0 && IsWhitespace(s[|s| - 1]) then TrimEnd(s[..|s| - 1]) else s
  }

  /** `str::trim`. */
  function Trim(s: string): string {
    TrimEnd(TrimStart(s))
  }

  /** `Display for Interval`: the keyword of a fixed interval, or the cron text it was parsed from. */
  function Display(i: Interval): (r: string)
    ensures i.Fixed() ==> r != [] && Trimmed(r)
    ensures i.Fixed() ==> (r == "hourly" <==> i.Hourly?) && (r == "daily" <==> i.Daily?) && (r == "weekly" <==> i.Weekly?)
    ensures i.Custom? ==> r == i.schedule.source
  {
    match i
    case Hourly => "hourly"
    case Daily => "daily"
    case Weekly => "weekly"
    case Custom(s) => s.source
  }

  /** `FromStr for Interval`: a keyword, else a cron expression, once surrounding whitespace is trimmed. */
  function Parse(s: string, cron: Cron): (r: Result<Interval, ParseError>)
    ensures r.Ok? <==> Trim(s) in {"hourly", "daily", "weekly"} || cron.parse(Trim(s)).Some?
    ensures r.Err? ==> r.error == InvalidCron(Trim(s))
    ensures r.Ok? && r.value.Custom? ==>
              Trim(s) !in {"hourly", "daily", "weekly"} && cron.parse(Trim(s)) == Some(r.value.schedule)
  {
    var t := Trim(s);
    if t == "hourly" then Ok(Hourly)
    else if t == "daily" then Ok(Daily)
    else if t == "weekly" then Ok(Weekly)
    else match cron.parse(t)
      case Some(sched) => Ok(Custom(sched))
      case None => Err(InvalidCron(t))
  }

  lemma {:induction false} TrimStartSkipsWhitespace(pre: string, rest: string)
    requires AllWhitespace(pre)
    ensures TrimStart(pre + rest) == TrimStart(rest)
  {
    if pre == [] {
      assert pre + rest == rest;
    } else {
      assert (pre + rest)[0] == pre[0];
      assert (pre + rest)[1..] == pre[1..] + rest;
      TrimStartSkipsWhitespace(pre[1..], rest);
    }
  }

  lemma {:induction false} TrimEndSkipsWhitespace(rest: string, post: string)
    requires AllWhitespace(post)
    ensures TrimEnd(rest + post) == TrimEnd(rest)
  {
    var s := rest + post;
    if post == [] {
      assert s == rest;
    } else {
      assert s[|s| - 1] == post[|post| - 1];
      assert s[..|s| - 1] == rest + post[..|post| - 1];
      TrimEndSkipsWhitespace(rest, post[..|post| - 1]);
    }
  }

  /** Trimming removes exactly the whitespace padding around trimmed text. */
  lemma TrimPadded(pre: string, t: string, post: string)
    requires AllWhitespace(pre) && AllWhitespace(post) && Trimmed(t)
    ensures Trim(pre + t + post) == t
  {
    assert pre + t + post == pre + (t + post);
    TrimStartSkipsWhitespace(pre, t + post);
    if t == [] {
      assert t + post == post + [];
      TrimStartSkipsWhitespace(post, []);
      assert TrimStart(pre + t + post) == [];
    } else {
      TrimEndSkipsWhitespace(t, post);
    }
  }

  /** Parsing, padded with any whitespace, the text form of a fixed interval gives back that interval. */
  lemma ParseDisplayFixed(i: Interval, pre: string, post: string, cron: Cron)
    requires i.Fixed()
    requires AllWhitespace(pre) && AllWhitespace(post)
    ensures Parse(pre + Display(i) + post, cron) == Ok(i)
  {
    TrimPadded(pre, Display(i), post);
  }

  /** A cron schedule round-trips through its text when that text is trimmed, is no keyword, and re-parses to the same schedule. */
  lemma ParseDisplayCustom(s: Schedule, cron: Cron)
    requires Trimmed(s.source)
    requires s.source != "hourly" && s.source != "daily" && s.source != "weekly"
    requires cron.parse(s.source) == Some(s)
    ensures Parse(Display(Custom(s)), cron) == Ok(Custom(s))
  {
    TrimPadded([], s.source, []);
    assert [] + s.source + [] == s.source;
  }

  /** The keywords are recognised exactly: a text parses to a fixed interval if and only if its trimmed form is that interval's keyword. */
  lemma ParseKeywords(s: string, i: Interval, cron: Cron)
    requires i.Fixed()
    ensures Parse(s, cron) == Ok(i) <==> Trim(s) == Display(i)
  {
  }
}
