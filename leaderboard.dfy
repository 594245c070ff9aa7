/** The top-solver list of a challenge page: the ten earliest solves, each
    shown as a nick and the time elapsed since the challenge opened.
    Datetimes are integers counting microseconds, so that the day/second
    split of Python's timedelta is exact, negative differences included. */
module Leaderboard {
  import opened Wrappers
  import opened Exceptions
  import opened Decimal

  const MicrosPerSecond := 1_000_000
  const MicrosPerDay := 86_400_000_000
  /** How many solves the page lists. */
  const TopLimit := 10

  /** An elapsed time split the way format_time_difference splits it. */
  datatype Duration = Duration(days: int, hours: int, minutes: int, seconds: int)

  /** Total seconds the four parts stand for. */
  function TotalSeconds(d: Duration): int {
    d.days * 86400 + d.hours * 3600 + d.minutes * 60 + d.seconds
  }

  /** end - start as timedelta.days, then timedelta.seconds divided into
      hours, minutes and seconds. Microseconds are dropped, so the total is
      the elapsed time rounded down to a whole second. */
  function TimeDifference(start: int, end: int): (d: Duration)
    ensures 0 <= d.hours < 24 && 0 <= d.minutes < 60 && 0 <= d.seconds < 60
    ensures TotalSeconds(d) * MicrosPerSecond <= end - start < (TotalSeconds(d) + 1) * MicrosPerSecond
  {
    var delta := end - start;
    var days := delta / MicrosPerDay;
    var daySeconds := (delta % MicrosPerDay) / MicrosPerSecond;
    var hours := daySeconds / 3600;
    var remainder := daySeconds % 3600;
    Duration(days, hours, remainder / 60, remainder % 60)
  }

  /** f"{days}d {hours}h {minutes}m {seconds}s" */
  function RenderDuration(d: Duration): string {
    ShowInt(d.days) + ("d " + (ShowInt(d.hours) + ("h " + (ShowInt(d.minutes) + ("m " + (ShowInt(d.seconds) + "s"))))))
  }

  /** format_time_difference; what it promises is stated by
      FormatTimeDifferenceReadsBack. */
  function FormatTimeDifference(start: int, end: int): string {
    RenderDuration(TimeDifference(start, end))
  }

  /** Reads a number followed by the given unit letter; the number and what follows the letter. */
  function ReadField(s: string, unit: char): Option<(int, string)> {
    match ReadInt(s)
    case None => None
    case Some((n, rest)) => if |rest| > 0 && rest[0] == unit then Some((n, rest[1..])) else None
  }

  /** Reads back "{seconds}s" to the end of the string. */
  function ParseSecondsPart(s: string): Option<int> {
    match ReadField(s, 's')
    case None => None
    case Some((seconds, rest)) => if rest == [] then Some(seconds) else None
  }

  /** Reads back "{minutes}m {seconds}s". */
  function ParseMinutesPart(s: string): Option<(int, int)> {
    match ReadField(s, 'm')
    case None => None
    case Some((minutes, rest)) =>
      if rest == [] || rest[0] != ' ' then None
      else match ParseSecondsPart(rest[1..])
        case None => None
        case Some(seconds) => Some((minutes, seconds))
  }

  /** Reads back "{hours}h {minutes}m {seconds}s". */
  function ParseHoursPart(s: string): Option<(int, int, int)> {
    match ReadField(s, 'h')
    case None => None
    case Some((hours, rest)) =>
      if rest == [] || rest[0] != ' ' then None
      else match ParseMinutesPart(rest[1..])
        case None => None
        case Some((minutes, seconds)) => Some((hours, minutes, seconds))
  }

  /** Reads back a string of the form "{days}d {hours}h {minutes}m {seconds}s". */
  function ParseDuration(s: string): Option<Duration> {
    match ReadField(s, 'd')
    case None => None
    case Some((days, rest)) =>
      if rest == [] || rest[0] != ' ' then None
      else match ParseHoursPart(rest[1..])
        case None => None
        case Some((hours, minutes, seconds)) => Some(Duration(days, hours, minutes, seconds))
  }

  lemma ReadFieldShow(n: int, unit: char, rest: string)
    requires !IsDigit(unit)
    ensures ReadField(ShowInt(n) + ([unit] + rest), unit) == Some((n, rest))
  {
    ReadShowInt(n, [unit] + rest);
  }

  lemma ParseSecondsShow(seconds: int)
    ensures ParseSecondsPart(ShowInt(seconds) + "s") == Some(seconds)
  {
    assert ShowInt(seconds) + "s" == ShowInt(seconds) + (['s'] + []);
    ReadFieldShow(seconds, 's', []);
  }

  lemma ParseMinutesShow(minutes: int, seconds: int)
    ensures ParseMinutesPart(ShowInt(minutes) + ("m " + (ShowInt(seconds) + "s"))) == Some((minutes, seconds))
  {
    var tail := ShowInt(seconds) + "s";
    assert "m " + tail == ['m'] + (" " + tail);
    ReadFieldShow(minutes, 'm', " " + tail);
    assert (" " + tail)[1..] == tail;
    ParseSecondsShow(seconds);
  }

  lemma ParseHoursShow(hours: int, minutes: int, seconds: int)
    ensures ParseHoursPart(ShowInt(hours) + ("h " + (ShowInt(minutes) + ("m " + (ShowInt(seconds) + "s")))))
      == Some((hours, minutes, seconds))
  {
    var tail := ShowInt(minutes) + ("m " + (ShowInt(seconds) + "s"));
    assert "h " + tail == ['h'] + (" " + tail);
    ReadFieldShow(hours, 'h', " " + tail);
    assert (" " + tail)[1..] == tail;
    ParseMinutesShow(minutes, seconds);
  }

  /** The rendered time difference reads back as exactly its four parts, in
      the order days, hours, minutes, seconds. */
  lemma ParseRenderDuration(d: Duration)
    ensures ParseDuration(RenderDuration(d)) == Some(d)
  {
    var tail := ShowInt(d.hours) + ("h " + (ShowInt(d.minutes) + ("m " + (ShowInt(d.seconds) + "s"))));
    assert "d " + tail == ['d'] + (" " + tail);
    ReadFieldShow(d.days, 'd', " " + tail);
    assert (" " + tail)[1..] == tail;
    ParseHoursShow(d.hours, d.minutes, d.seconds);
  }

  /** format_time_difference's text reads back as four numbers, hours,
      minutes and seconds in range, whose total is the elapsed time rounded
      down to a whole second. */
  lemma FormatTimeDifferenceReadsBack(start: int, end: int)
    ensures var d := ParseDuration(FormatTimeDifference(start, end));
      && d.Some?
      && 0 <= d.value.hours < 24 && 0 <= d.value.minutes < 60 && 0 <= d.value.seconds < 60
      && TotalSeconds(d.value) * MicrosPerSecond <= end - start < (TotalSeconds(d.value) + 1) * MicrosPerSecond
  {
    ParseRenderDuration(TimeDifference(start, end));
  }

  /** f"{first} {last[0]}." — IndexError when the last name is empty. */
  function Nick(firstName: string, lastName: string): (r: Result<string, Error>)
    ensures r.Failure? <==> lastName == []
    ensures r.Failure? ==> r.error == IndexError
    ensures r.Success? ==>
      && |r.value| == |firstName| + 3
      && r.value[..|firstName|] == firstName
      && r.value[|firstName|] == ' '
      && r.value[|firstName| + 1] == lastName[0]
      && r.value[|firstName| + 2] == '.'
  {
    if lastName == [] then Failure(IndexError) else Success(firstName + " " + [lastName[0]] + ".")
  }

  /** One row of the solves-joined-with-users query. */
  datatype Solution = Solution(firstName: string, lastName: string, solveTime: int)

  /** One entry of the rendered list. */
  datatype TopSolver = TopSolver(nick: string, time: string)

  predicate SortedByTime(rows: seq<Solution>) {
    forall i, j :: 0 <= i < j < |rows| ==> rows[i].solveTime <= rows[j].solveTime
  }

  function InsertByTime(x: Solution, rows: seq<Solution>): (r: seq<Solution>)
    requires SortedByTime(rows)
    ensures SortedByTime(r)
    ensures multiset(r) == multiset(rows) + multiset{x}
    ensures forall y :: y in r ==> y == x || y in rows
  {
    if rows == [] || x.solveTime <= rows[0].solveTime then [x] + rows
    else
      var tail := InsertByTime(x, rows[1..]);
      assert rows == [rows[0]] + rows[1..];
      assert forall j :: 0 <= j < |tail| ==> rows[0].solveTime <= tail[j].solveTime by {
        forall j | 0 <= j < |tail| ensures rows[0].solveTime <= tail[j].solveTime {
          assert tail[j] in tail;
        }
      }
      [rows[0]] + tail
  }

  /** ORDER BY solve_time ASC. */
  function SortByTime(rows: seq<Solution>): (r: seq<Solution>)
    ensures SortedByTime(r)
    ensures multiset(r) == multiset(rows)
    ensures |r| == |rows|
  {
    if rows == [] then []
    else
      assert rows == [rows[0]] + rows[1..];
      InsertByTime(rows[0], SortByTime(rows[1..]))
  }

  function Min(a: int, b: int): int {
    if a <= b then a else b
  }

  /** ORDER BY solve_time ASC LIMIT 10: the ten earliest rows in time order;
      every row left out is no earlier than every row kept. */
  function TopSolutions(rows: seq<Solution>): (r: seq<Solution>)
    ensures |r| == Min(TopLimit, |rows|)
    ensures SortedByTime(r)
    ensures multiset(r) <= multiset(rows)
    ensures forall x, y :: x in r && y in multiset(rows) - multiset(r) ==> x.solveTime <= y.solveTime
  {
    var sorted := SortByTime(rows);
    var k := Min(TopLimit, |rows|);
    assert |sorted| == |rows|;
    assert sorted == sorted[..k] + sorted[k..];
    assert multiset(rows) - multiset(sorted[..k]) == multiset(sorted[k..]);
    sorted[..k]
  }

  /** The list comprehension over the top rows: a nick and the formatted
      time since the challenge start for each, or IndexError when a last
      name is empty. */
  function TopSolvers(top: seq<Solution>, start: int): (r: Result<seq<TopSolver>, Error>)
    ensures r.Success? <==> forall i :: 0 <= i < |top| ==> top[i].lastName != []
    ensures r.Failure? ==> r.error == IndexError
    ensures r.Success? ==> |r.value| == |top| && forall i :: 0 <= i < |top| ==>
      r.value[i] == TopSolver(Nick(top[i].firstName, top[i].lastName).value, FormatTimeDifference(start, top[i].solveTime))
  {
    if top == [] then Success([])
    else
      var row := top[0];
      var nick := Nick(row.firstName, row.lastName);
      if nick.Failure? then Failure(nick.error)
      else
        var rest := TopSolvers(top[1..], start);
        if rest.Failure? then Failure(rest.error)
        else Success([TopSolver(nick.value, FormatTimeDifference(start, row.solveTime))] + rest.value)
  }
}
