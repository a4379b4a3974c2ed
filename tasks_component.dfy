/**
 * The task list view (src/component/tasks.component.ts): the `HH:MM`
 * rendering of minute counts and the totals row summed over the tasks.
 */
module TasksView {
  import opened Wrappers
  import opened JsStrings
  import opened TeamWork

  // ---------------------------------------------------------------------
  // Time formatting

  /** A number of seconds split into whole hours, minutes and seconds. */
  datatype Clock = Clock(hours: int, minutes: int, seconds: int)

  /**
   * The floor divisions of toHHMM: whole hours, then the whole minutes of
   * what is left, then the seconds of what is left after that.
   */
  function Split(sec: int): (c: Clock)
    ensures c.hours * 3600 + c.minutes * 60 + c.seconds == sec
    ensures 0 <= c.minutes < 60 && 0 <= c.seconds < 60
  {
    var hours := sec / 3600;
    var minutes := (sec - hours * 3600) / 60;
    Clock(hours, minutes, sec - hours * 3600 - minutes * 60)
  }

  /** The split is the only one with minutes and seconds below 60. */
  lemma SplitUnique(sec: int, c: Clock)
    requires c.hours * 3600 + c.minutes * 60 + c.seconds == sec
    requires 0 <= c.minutes < 60 && 0 <= c.seconds < 60
    ensures c == Split(sec)
  {
  }

  /** A whole number of minutes, in seconds, splits into m / 60 hours, m % 60 minutes and no seconds. */
  lemma WholeMinutes(m: int)
    ensures Split(m * 60) == Clock(m / 60, m % 60, 0)
    ensures Split(m * 60).hours * 60 + Split(m * 60).minutes == m
  {
  }

  /** A field of the clock: a "0" in front of any value below 10. */
  function Pad(n: int): string {
    if n < 10 then "0" + IntToString(n) else IntToString(n)
  }

  /** toHHMM: hours and minutes of a number of seconds, padded and joined by a colon; the seconds are not shown. */
  function ToHHMM(sec: int): string {
    var c := Split(sec);
    Pad(c.hours) + ":" + Pad(c.minutes)
  }

  /** formatTime: minutes as `HH:MM`, negative ones as `-HH:MM` of their magnitude. */
  function FormatTime(minutes: int): string {
    if minutes >= 0 then ToHHMM(minutes * 60) else "-" + ToHHMM(0 - minutes * 60)
  }

  /** A padded field of a non-negative number: at least two digits, never truncated, exactly two below 100. */
  lemma PadDigits(n: nat)
    ensures AllDigits(Pad(n)) && |Pad(n)| >= 2 && DigitsValue(Pad(n)) == n
    ensures n < 100 ==> |Pad(n)| == 2
    ensures ':' !in Pad(n)
  {
    DigitsRoundTrip(n);
    if n < 10 {
      LeadingZero(NatToString(n));
    } else if n < 100 {
      assert NatToString(n) == NatToString(n / 10) + [DigitChar(n % 10)];
    }
  }

  /** A whole number of minutes, in seconds, renders as its padded hours and padded minutes below 60. */
  lemma ToHHMMWhole(a: int)
    ensures ToHHMM(a * 60) == Pad(a / 60) + ":" + Pad(a % 60)
  {
  }

  /**
   * The rendering of m minutes: a sign for negative m, then its hours and its
   * minutes below 60, each padded to two digits at least.
   */
  lemma FormatTimeShape(m: int)
    ensures m >= 0 ==> FormatTime(m) == Pad(m / 60) + ":" + Pad(m % 60)
    ensures m < 0 ==> FormatTime(m) == "-" + (Pad(-m / 60) + ":" + Pad(-m % 60))
  {
    if m < 0 {
      assert 0 - m * 60 == (-m) * 60;
      ToHHMMWhole(-m);
    } else {
      ToHHMMWhole(m);
    }
  }

  /** Below 100 hours either way the rendering is `HH:MM` or `-HH:MM`. */
  lemma FormatTimeWidth(m: int)
    requires -6000 < m < 6000
    ensures |FormatTime(m)| == if m < 0 then 6 else 5
  {
  }

  /** The rendering of -m is that of m with a minus sign. */
  lemma FormatTimeNegate(m: int)
    requires m > 0
    ensures FormatTime(-m) == "-" + FormatTime(m)
  {
  }

  /** The index of the first colon in s, or |s| when there is none. */
  function ColonIndex(s: string): (k: nat)
    ensures k <= |s|
  {
    if s == [] || s[0] == ':' then 0 else 1 + ColonIndex(s[1..])
  }

  lemma {:induction false} ColonAfterDigits(a: string, b: string)
    requires AllDigits(a)
    ensures ColonIndex(a + ":" + b) == |a|
  {
    if a != [] {
      assert (a + ":" + b)[1..] == a[1..] + ":" + b;
      ColonAfterDigits(a[1..], b);
    }
  }

  /** Reads `H…H:MM` (two or more hour digits, minutes below 60) back into minutes. */
  function ParseClock(s: string): Option<nat> {
    var k := ColonIndex(s);
    if k == |s| then None
    else
      var h, m := s[..k], s[k + 1..];
      if |h| >= 2 && AllDigits(h) && |m| == 2 && AllDigits(m) && DigitsValue(m) < 60
      then Some(DigitsValue(h) * 60 + DigitsValue(m))
      else None
  }

  /** Reads a rendered time back into minutes: `-` and a positive clock, or a clock. */
  function ParseTime(s: string): Option<int> {
    if s != [] && s[0] == '-' then
      match ParseClock(s[1..])
      case Some(m) => if m > 0 then Some(0 - m as int) else None
      case None => None
    else ParseClock(s)
  }

  lemma ParseClockOf(a: nat)
    ensures ParseClock(ToHHMM(a * 60)) == Some(a)
  {
    WholeMinutes(a);
    PadDigits(a / 60);
    PadDigits(a % 60);
    var s := ToHHMM(a * 60);
    var h, m := Pad(a / 60), Pad(a % 60);
    assert s == h + ":" + m;
    ColonAfterDigits(h, m);
    assert s[..|h|] == h;
    assert s[|h| + 1..] == m;
  }

  lemma RoundTripNegative(m: int)
    requires m < 0
    ensures ParseTime(FormatTime(m)) == Some(m)
  {
    var a := -m;
    assert 0 - m * 60 == a * 60;
    var s := FormatTime(m);
    assert s == "-" + ToHHMM(a * 60);
    ParseClockOf(a);
    assert s[1..] == ToHHMM(a * 60);
    assert ParseClock(s[1..]) == Some(a);
  }

  lemma RoundTripNonNegative(m: int)
    requires m >= 0
    ensures ParseTime(FormatTime(m)) == Some(m)
  {
    ParseClockOf(m);
    PadDigits(m / 60);
    ToHHMMWhole(m);
    assert FormatTime(m)[0] == Pad(m / 60)[0];
  }

  /** Every rendering reads back as the minute count it came from: nothing is lost or truncated. */
  lemma FormatTimeRoundTrip(m: int)
    ensures ParseTime(FormatTime(m)) == Some(m)
  {
    if m >= 0 {
      RoundTripNonNegative(m);
    } else {
      RoundTripNegative(m);
    }
  }

  /** The renderings the view shows for an hour and a half, its negation, and five minutes. */
  lemma FormatTimeExamples()
    ensures FormatTime(90) == "01:30"
    ensures FormatTime(-90) == "-01:30"
    ensures FormatTime(5) == "00:05"
  {
    assert Split(5400) == Clock(1, 30, 0);
    assert Split(300) == Clock(0, 5, 0);
    assert Pad(1) == "01" && Pad(30) == "30" && Pad(0) == "00" && Pad(5) == "05";
  }

  // ---------------------------------------------------------------------
  // Totals

  /** The label of the totals row ("Total" in Russian). */
  const TotalName := "Итого"

  function SumEstimated(tasks: seq<Task>): int {
    if tasks == [] then 0 else SumEstimated(tasks[..|tasks| - 1]) + tasks[|tasks| - 1].timeEstimated
  }

  function SumDayLog(tasks: seq<Task>): int {
    if tasks == [] then 0 else SumDayLog(tasks[..|tasks| - 1]) + tasks[|tasks| - 1].timeDayLog
  }

  /** The totals row: id 0, no link, and the two sums over all tasks. */
  function Total(tasks: seq<Task>): Task {
    Task(0, TotalName, SumEstimated(tasks), SumDayLog(tasks), None)
  }

  /** The totals of two lists together are the sums of their totals; an empty list totals zero. */
  lemma {:induction false} TotalAppend(a: seq<Task>, b: seq<Task>)
    ensures Total([]) == Task(0, TotalName, 0, 0, None)
    ensures Total(a + b).timeEstimated == Total(a).timeEstimated + Total(b).timeEstimated
    ensures Total(a + b).timeDayLog == Total(a).timeDayLog + Total(b).timeDayLog
  {
    if b == [] {
      assert a + b == a;
    } else {
      assert (a + b)[..|a + b| - 1] == a + b[..|b| - 1];
      TotalAppend(a, b[..|b| - 1]);
    }
  }

  /** Two tasks estimated at 60 and 120 minutes, with 30 and 0 minutes logged today, total 180 and 30. */
  lemma TotalExample(t1: Task, t2: Task)
    requires t1.timeEstimated == 60 && t1.timeDayLog == 30
    requires t2.timeEstimated == 120 && t2.timeDayLog == 0
    ensures Total([t1, t2]).timeEstimated == 180 && Total([t1, t2]).timeDayLog == 30
  {
    assert [t1, t2][..1] == [t1];
    assert [t1][..0] == [];
    assert SumEstimated([t1]) == 60 && SumDayLog([t1]) == 30;
  }

  /** Adding one more task to the totals adds its estimate and its logged minutes. */
  lemma TotalStep(ts: seq<Task>, i: nat)
    requires i < |ts|
    ensures Total(ts[..i + 1]) == Total(ts[..i]).(timeEstimated := Total(ts[..i]).timeEstimated + ts[i].timeEstimated,
                                                  timeDayLog := Total(ts[..i]).timeDayLog + ts[i].timeDayLog)
  {
    assert ts[..i + 1][..i] == ts[..i];
  }

  /** The link to the person's profile page. */
  function ProfileUrl(domain: Option<string>, personId: int): Url {
    "https://" + Show(domain) + "/#/people/" + IntToString(personId) + "/details"
  }

  // ---------------------------------------------------------------------
  // The component

  /** The task list component; every field starts out null. */
  class TasksComponent {
    /** The injected service. */
    const service: TeamWorkService
    var people: Option<Person>
    var domain: Option<string>
    var profileUrl: Option<string>
    var url: Option<string>
    var tasks: Option<seq<Task>>
    var total: Option<Task>

    constructor(service: TeamWorkService)
      ensures this.service == service
      ensures people == None && domain == None && profileUrl == None
      ensures url == None && tasks == None && total == None
    {
      this.service := service;
      people, domain, profileUrl := None, None, None;
      url, tasks, total := None, None, None;
    }

    /**
     * The totals step of created: starts the totals row at zero and adds each
     * task's estimate and logged minutes to it in turn.
     */
    method SumTotal()
      requires tasks.Some?
      modifies this`total
      ensures total == Some(Total(tasks.value))
    {
      var ts := tasks.value;
      total := Some(Task(0, TotalName, 0, 0, None));
      var i := 0;
      while i < |ts|
        invariant 0 <= i <= |ts|
        invariant total.Some? && total.value == Total(ts[..i])
      {
        TotalStep(ts, i);
        var t := total.value;
        total := Some(t.(timeEstimated := t.timeEstimated + ts[i].timeEstimated, timeDayLog := t.timeDayLog + ts[i].timeDayLog));
        i := i + 1;
      }
      assert ts[..i] == ts;
    }

    /**
     * created: reads the person and the domain, builds the links, loads the
     * tasks and sums the totals row. It stops (`completed` false) where the
     * source's `created` rejects or never settles: at `people.id` on a null
     * person, or when the task load does not resolve.
     */
    method Created(tabUrl: Option<string>, b: Backend) returns (completed: bool)
      modifies this
      ensures people == GetPeople(service.Domain(tabUrl), b.statusAt).person
      ensures domain == service.Domain(tabUrl)
      ensures people.Some? ==> profileUrl == Some(ProfileUrl(domain, people.value.id))
                               && url == Some("https://" + Show(domain))
      ensures people.None? ==> profileUrl == old(profileUrl) && url == old(url)
      ensures completed <==> people.Some? && TasksOutcome(domain, b).Resolved?
      ensures completed ==> tasks == Some(TasksOutcome(domain, b).tasks) && total == Some(Total(tasks.value))
      ensures !completed ==> tasks == old(tasks) && total == old(total)
    {
      var d := service.Domain(tabUrl);
      people := GetPeople(d, b.statusAt).person;
      domain := d;
      if people.None? {
        return false;
      }
      profileUrl := Some(ProfileUrl(domain, people.value.id));
      url := Some("https://" + Show(domain));
      var outcome := GetTasks(domain, b);
      if !outcome.Resolved? {
        return false;
      }
      tasks := Some(outcome.tasks);
      SumTotal();
      return true;
    }
  }
}
