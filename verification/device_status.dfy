/** DeviceStatusService: one page of device-status rows drawn from the
    day-by-day record tables of a date range.

    A LocalDate is its epoch-day number: `plusDays(1)` adds one and
    `isAfter` compares.  Parsing an ISO date text, formatting a date as
    yyyyMMdd and querying a table are parameters (`parse`, `format`,
    `query`); a query that throws is None. */
module DeviceStatus {
  import opened Common

  const TablePrefix: string := "dynamic_control_device_status_record_"

  /** What the service throws. */
  datatype Failure =
    | Unparsable(text: string)   // LocalDate.parse rejects the text
    | InvalidSuffix(suffix: string)
    | QueryFailed
    | NegativePage               // PageRequest.of refuses the page index
    | SizeBelowOne               // PageRequest.of refuses the page size

  function Message(f: Failure): string {
    match f
    case Unparsable(text) => "Text '" + text + "' could not be parsed"
    case InvalidSuffix(suffix) => "Invalid table suffix: " + suffix
    case QueryFailed => "Error querying device status records."
    case NegativePage => "Page index must not be less than zero"
    case SizeBelowOne => "Page size must not be less than one"
  }

  /** The page handed back: its rows, the request, and the rows counted. */
  datatype Page<R> = Page(content: seq<R>, page: int, size: int, total: int)

  // ---------------------------------------------------------------------
  // getDateRange
  // ---------------------------------------------------------------------

  /** Every day from start to end, both included, in ascending order. */
  function Days(start: int, end: int): seq<int> {
    seq(if start <= end then end - start + 1 else 0, i => start + i)
  }

  lemma DaysMeaning(start: int, end: int)
    ensures Days(start, end) == [] <==> start > end
    ensures forall d :: d in Days(start, end) <==> start <= d <= end
    ensures forall i, j :: 0 <= i < j < |Days(start, end)| ==> Days(start, end)[i] < Days(start, end)[j]
    ensures start <= end ==> Days(start, end)[0] == start && Days(start, end)[|Days(start, end)| - 1] == end
  {
    var r := Days(start, end);
    forall d | start <= d <= end
      ensures d in r
    {
      assert r[d - start] == d;
    }
  }

  /** getDateRange: parse both ends (the start first) and list the days
      from one to the other. */
  method GetDateRange(startDate: string, endDate: string, parse: string -> Option<int>)
    returns (r: Result<seq<int>, Failure>)
    ensures parse(startDate).None? ==> r == Err(Unparsable(startDate))
    ensures parse(startDate).Some? && parse(endDate).None? ==> r == Err(Unparsable(endDate))
    ensures parse(startDate).Some? && parse(endDate).Some? ==>
              r == Ok(Days(parse(startDate).value, parse(endDate).value))
  {
    var start := parse(startDate);
    if start.None? {
      return Err(Unparsable(startDate));
    }
    var end := parse(endDate);
    if end.None? {
      return Err(Unparsable(endDate));
    }
    var range: seq<int> := [];
    var date := start.value;
    while date <= end.value
      invariant start.value <= date <= if start.value <= end.value then end.value + 1 else start.value
      invariant range == seq(date - start.value, i => start.value + i)
    {
      range := range + [date];
      date := date + 1;
    }
    return Ok(range);
  }

  // ---------------------------------------------------------------------
  // getSafeTableName
  // ---------------------------------------------------------------------

  predicate IsDigit(c: char) {
    '0' <= c <= '9'
  }

  /** Matches `\d{8}`. */
  predicate EightDigits(s: string) {
    |s| == 8 && forall i :: 0 <= i < 8 ==> IsDigit(s[i])
  }

  /** getSafeTableName: the record table of the day whose yyyyMMdd text is
      suffix; anything but eight digits is refused. */
  function SafeTableName(suffix: string): (r: Result<string, Failure>)
    ensures r.Ok? <==> EightDigits(suffix)
    ensures r.Err? ==> r.error == InvalidSuffix(suffix)
  {
    if EightDigits(suffix) then Ok(TablePrefix + suffix) else Err(InvalidSuffix(suffix))
  }

  /** A name that can be built holds only lower-case letters, '_' and
      digits, so nothing else can reach the SQL text; the day's suffix is
      recovered from its tail. */
  lemma SafeTableNameIsSafe(suffix: string)
    requires SafeTableName(suffix).Ok?
    ensures var name := SafeTableName(suffix).value;
      |name| == |TablePrefix| + 8
      && name[|TablePrefix|..] == suffix
      && forall i :: 0 <= i < |name| ==> ('a' <= name[i] <= 'z' || name[i] == '_' || IsDigit(name[i]))
  {
    var name := SafeTableName(suffix).value;
    assert name == TablePrefix + suffix;
    forall i | 0 <= i < |name|
      ensures 'a' <= name[i] <= 'z' || name[i] == '_' || IsDigit(name[i])
    {
      if i >= |TablePrefix| {
        assert name[i] == suffix[i - |TablePrefix|];
      }
    }
  }

  // ---------------------------------------------------------------------
  // getDeviceStatus
  // ---------------------------------------------------------------------

  /** How many rows of a day with n rows are counted when room more rows
      fit before the end index: the scan counts a row before testing for
      the end, so at least one. */
  function Taken(n: nat, room: int): (t: nat)
    ensures t <= n
    ensures n > 0 ==> t > 0
  {
    if room <= 1 then (if n == 0 then 0 else 1)
    else if n < room then n else room
  }

  /** The rows counted once day is read, given those counted before; the
      day's table name may be refused and its query may throw. */
  function DayStep<R>(day: int, format: int -> string, query: string -> Option<seq<R>>,
                      endIndex: int, seen: seq<R>): Result<seq<R>, Failure>
  {
    match SafeTableName(format(day))
    case Err(e) => Err(e)
    case Ok(name) =>
      match query(name)
      case None => Err(QueryFailed)
      case Some(rows) => Ok(seen + rows[..Taken(|rows|, endIndex - |seen|)])
  }

  /** The rows counted from day k on, given those counted before: stop at
      the day whose rows reach the end index, fail at the first day whose
      table name is refused or whose query throws. */
  function Scan<R>(days: seq<int>, format: int -> string, query: string -> Option<seq<R>>,
                   endIndex: int, k: nat, seen: seq<R>): Result<seq<R>, Failure>
    requires k <= |days|
    decreases |days| - k
  {
    if k == |days| then Ok(seen)
    else
      match DayStep(days[k], format, query, endIndex, seen)
      case Err(e) => Err(e)
      case Ok(counted) =>
        if |counted| >= endIndex then Ok(counted)
        else Scan(days, format, query, endIndex, k + 1, counted)
  }

  function Clamp(x: int, n: nat): (c: nat)
    ensures c <= n
    ensures x < 0 ==> c == 0
    ensures 0 <= x <= n ==> c == x
    ensures x > n ==> c == n
  {
    if x < 0 then 0 else if x > n then n else x
  }

  /** The counted rows whose positions lie in [lo, hi), in order. */
  function Window<R>(seen: seq<R>, lo: int, hi: int): seq<R> {
    if seen == [] then []
    else
      var last := |seen| - 1;
      Window(seen[..last], lo, hi) + if lo <= last < hi then [seen[last]] else []
  }

  lemma WindowStep<R>(seen: seq<R>, x: R, lo: int, hi: int)
    ensures Window(seen + [x], lo, hi) == if lo <= |seen| < hi then Window(seen, lo, hi) + [x] else Window(seen, lo, hi)
  {
    assert (seen + [x])[..|seen|] == seen;
  }

  /** The window is the slice of the counted rows between the clamped
      bounds. */
  lemma {:induction false} WindowSlice<R>(seen: seq<R>, lo: int, hi: int)
    ensures Window(seen, lo, hi) == seen[Clamp(lo, |seen|)..Clamp(if hi < lo then lo else hi, |seen|)]
    decreases |seen|
  {
    if seen != [] {
      var last := |seen| - 1;
      WindowSlice(seen[..last], lo, hi);
      var top := if hi < lo then lo else hi;
      var a, b := Clamp(lo, last), Clamp(top, last);
      if lo <= last < hi {
        assert a == Clamp(lo, |seen|) && b == last && Clamp(top, |seen|) == b + 1;
        assert seen[a..b] + [seen[last]] == seen[a..b + 1];
      } else if last < lo {
        assert Clamp(lo, |seen|) == |seen| == Clamp(top, |seen|);
      } else {
        assert a == Clamp(lo, |seen|) && b == Clamp(top, |seen|);
        assert seen[..last][a..b] == seen[a..b];
      }
    }
  }

  /** getDeviceStatus as a value: the page at positions [page*size,
      page*size+size) of the rows counted, with the count as total. */
  function DeviceStatus<R>(startDate: string, endDate: string, page: int, size: int,
                           parse: string -> Option<int>, format: int -> string,
                           query: string -> Option<seq<R>>): Result<Page<R>, Failure>
  {
    if parse(startDate).None? then Err(Unparsable(startDate))
    else if parse(endDate).None? then Err(Unparsable(endDate))
    else
      var days := Days(parse(startDate).value, parse(endDate).value);
      var startIndex := page * size;
      var endIndex := startIndex + size;
      match Scan(days, format, query, endIndex, 0, [])
      case Err(e) => Err(e)
      case Ok(seen) =>
        if page < 0 then Err(NegativePage)
        else if size < 1 then Err(SizeBelowOne)
        else Ok(Page(Window(seen, startIndex, endIndex), page, size, |seen|))
  }

  /** getDeviceStatus: list the days, scan them for the page's rows, then
      build the page (whose request is checked last). */
  method GetDeviceStatus<R>(startDate: string, endDate: string, page: int, size: int,
                            parse: string -> Option<int>, format: int -> string,
                            query: string -> Option<seq<R>>)
    returns (r: Result<Page<R>, Failure>)
    ensures r == DeviceStatus(startDate, endDate, page, size, parse, format, query)
  {
    var range := GetDateRange(startDate, endDate, parse);
    if range.Err? {
      return Err(range.error);
    }
    var startIndex := page * size;
    var endIndex := startIndex + size;
    var scanned := ScanDays(range.value, startIndex, endIndex, format, query);
    if scanned.Err? {
      return Err(scanned.error);
    }
    var (list, currentCount) := scanned.value;
    if page < 0 {
      return Err(NegativePage);
    }
    if size < 1 {
      return Err(SizeBelowOne);
    }
    return Ok(Page(list, page, size, currentCount));
  }

  /** The loop of getDeviceStatus over the days: the rows kept and the
      number counted, or the first failure. */
  method ScanDays<R>(days: seq<int>, startIndex: int, endIndex: int,
                     format: int -> string, query: string -> Option<seq<R>>)
    returns (r: Result<(seq<R>, int), Failure>)
    ensures var scan := Scan(days, format, query, endIndex, 0, []);
      r == if scan.Err? then Err(scan.error) else Ok((Window(scan.value, startIndex, endIndex), |scan.value|))
  {
    var list: seq<R> := [];
    var currentCount := 0;
    ghost var seen: seq<R> := [];
    var k := 0;
    while k < |days|
      invariant 0 <= k <= |days|
      invariant currentCount == |seen| && list == Window(seen, startIndex, endIndex)
      invariant currentCount < endIndex || (k == 0 && seen == [])
      invariant Scan(days, format, query, endIndex, 0, []) == Scan(days, format, query, endIndex, k, seen)
    {
      ghost var before := seen;
      var step := VisitDay(days[k], list, currentCount, startIndex, endIndex, format, query, before);
      if step.Err? {
        return Err(step.error);
      }
      seen := DayStep(days[k], format, query, endIndex, before).value;
      list, currentCount := step.value.0, step.value.1;
      if currentCount >= endIndex {
        break;
      }
      k := k + 1;
    }
    return Ok((list, currentCount));
  }

  /** One pass of the loop over the days: name the day's table, query it
      and count its rows. */
  method VisitDay<R>(day: int, list: seq<R>, currentCount: int, startIndex: int, endIndex: int,
                     format: int -> string, query: string -> Option<seq<R>>, ghost before: seq<R>)
    returns (r: Result<(seq<R>, int), Failure>)
    requires currentCount == |before| && list == Window(before, startIndex, endIndex)
    ensures var step := DayStep(day, format, query, endIndex, before);
      r == if step.Err? then Err(step.error) else Ok((Window(step.value, startIndex, endIndex), |step.value|))
  {
    var tableName := SafeTableName(format(day));
    if tableName.Err? {
      return Err(tableName.error);
    }
    var results := query(tableName.value);
    if results.None? {
      return Err(QueryFailed);
    }
    var list', currentCount' := CountRows(results.value, list, currentCount, startIndex, endIndex, before);
    return Ok((list', currentCount'));
  }

  /** The inner loop of getDeviceStatus over one day's rows: count each
      row, keep it when its position is in [startIndex, endIndex), and stop
      once endIndex rows are counted. */
  method CountRows<R>(rows: seq<R>, list: seq<R>, currentCount: int, startIndex: int, endIndex: int,
                      ghost before: seq<R>)
    returns (list': seq<R>, currentCount': int)
    requires currentCount == |before| && list == Window(before, startIndex, endIndex)
    ensures var counted := before + rows[..Taken(|rows|, endIndex - |before|)];
      currentCount' == |counted| && list' == Window(counted, startIndex, endIndex)
  {
    ghost var taken := Taken(|rows|, endIndex - |before|);
    ghost var seen := before;
    list', currentCount' := list, currentCount;
    var j := 0;
    while j < |rows|
      invariant 0 <= j <= taken
      invariant seen == before + rows[..j]
      invariant currentCount' == |seen| && list' == Window(seen, startIndex, endIndex)
      invariant j == 0 || currentCount' < endIndex
    {
      if currentCount' >= startIndex && currentCount' < endIndex {
        list' := list' + [rows[j]];
      }
      WindowStep(seen, rows[j], startIndex, endIndex);
      assert before + rows[..j + 1] == seen + [rows[j]];
      seen := seen + [rows[j]];
      currentCount' := currentCount' + 1;
      j := j + 1;
      if currentCount' >= endIndex {
        break;
      }
    }
    assert j == taken;
  }

  // ---------------------------------------------------------------------
  // What a page holds
  // ---------------------------------------------------------------------

  /** All rows of the given days, day after day. */
  function Flatten<R>(tables: seq<seq<R>>): seq<R> {
    if tables == [] then [] else Flatten(tables[..|tables| - 1]) + tables[|tables| - 1]
  }

  /** The days' tables are named and queried successfully, giving tables. */
  ghost predicate Answers<R>(days: seq<int>, format: int -> string, query: string -> Option<seq<R>>, tables: seq<seq<R>>) {
    |tables| <= |days|
    && forall i :: 0 <= i < |tables| ==>
         SafeTableName(format(days[i])).Ok? && query(SafeTableName(format(days[i])).value) == Some(tables[i])
  }

  /** While the end index is not reached, the scan has counted exactly the
      rows of the days it has read. */
  lemma {:induction false} ScanReaches<R>(days: seq<int>, format: int -> string, query: string -> Option<seq<R>>,
                                          endIndex: int, tables: seq<seq<R>>)
    requires endIndex >= 1 && Answers(days, format, query, tables)
    requires |Flatten(tables)| < endIndex
    ensures Scan(days, format, query, endIndex, 0, []) == Scan(days, format, query, endIndex, |tables|, Flatten(tables))
    decreases |tables|
  {
    if tables != [] {
      var m := |tables| - 1;
      var front := tables[..m];
      assert Answers(days, format, query, front);
      ScanReaches(days, format, query, endIndex, front);
      var rows := tables[m];
      assert Taken(|rows|, endIndex - |Flatten(front)|) == |rows|;
      assert rows[..|rows|] == rows;
    }
  }

  /** Once the days read hold the end index's worth of rows, the scan stops
      with exactly the first endIndex rows, whatever the later days hold. */
  lemma ScanStops<R>(days: seq<int>, format: int -> string, query: string -> Option<seq<R>>,
                     endIndex: int, tables: seq<seq<R>>)
    requires endIndex >= 1 && Answers(days, format, query, tables) && tables != []
    requires |Flatten(tables[..|tables| - 1])| < endIndex <= |Flatten(tables)|
    ensures Scan(days, format, query, endIndex, 0, []) == Ok(Flatten(tables)[..endIndex])
  {
    var m := |tables| - 1;
    var front := tables[..m];
    assert Answers(days, format, query, front);
    ScanReaches(days, format, query, endIndex, front);
    var rows := tables[m];
    var taken := Taken(|rows|, endIndex - |Flatten(front)|);
    assert taken == endIndex - |Flatten(front)|;
    assert Flatten(tables) == Flatten(front) + rows;
    assert Flatten(front) + rows[..taken] == Flatten(tables)[..endIndex];
  }

  /** With every day answered, the scan counts all rows, or the first
      endIndex of them when there are more. */
  lemma ScanCounts<R>(days: seq<int>, format: int -> string, query: string -> Option<seq<R>>,
                      endIndex: int, tables: seq<seq<R>>)
    requires endIndex >= 1 && |tables| == |days| && Answers(days, format, query, tables)
    ensures var all := Flatten(tables);
      Scan(days, format, query, endIndex, 0, []) == Ok(all[..if endIndex < |all| then endIndex else |all|])
  {
    var all := Flatten(tables);
    if endIndex <= |all| {
      var m := FirstReaching(tables, endIndex);
      var prefix := tables[..m + 1];
      assert prefix[..m] == tables[..m];
      assert Answers(days, format, query, prefix);
      ScanStops(days, format, query, endIndex, prefix);
      FlattenPrefix(tables, m + 1);
      assert Flatten(prefix)[..endIndex] == all[..endIndex];
    } else {
      ScanReaches(days, format, query, endIndex, tables);
      assert all[..|all|] == all;
    }
  }

  /** With a valid page request and every day answered, the page holds
      positions [page*size, page*size+size) of the day-by-day rows, at most
      size of them, and the total is the number of rows counted: all of
      them, or the end index when there are more. */
  lemma DeviceStatusPage<R>(startDate: string, endDate: string, page: int, size: int,
                            parse: string -> Option<int>, format: int -> string,
                            query: string -> Option<seq<R>>, tables: seq<seq<R>>)
    requires page >= 0 && size >= 1
    requires parse(startDate).Some? && parse(endDate).Some?
    requires var days := Days(parse(startDate).value, parse(endDate).value);
      |tables| == |days| && Answers(days, format, query, tables)
    ensures var all := Flatten(tables);
      var lo := page * size;
      var hi := lo + size;
      var count := if hi < |all| then hi else |all|;
      DeviceStatus(startDate, endDate, page, size, parse, format, query)
        == Ok(Page(all[Clamp(lo, count)..count], page, size, count))
      && |all[Clamp(lo, count)..count]| <= size
  {
    var days := Days(parse(startDate).value, parse(endDate).value);
    var all := Flatten(tables);
    var lo := page * size;
    assert lo >= 0;
    var hi := lo + size;
    var count := if hi < |all| then hi else |all|;
    ScanCounts(days, format, query, hi, tables);
    assert DeviceStatus(startDate, endDate, page, size, parse, format, query)
      == Ok(Page(Window(all[..count], lo, hi), page, size, count));
    WindowOfPrefix(all, lo, hi, count);
  }

  /** The window of the counted prefix is the slice of all rows between the
      clamped start and the count, and it is no wider than the window. */
  lemma WindowOfPrefix<R>(all: seq<R>, lo: int, hi: int, count: int)
    requires 0 <= lo < hi && count == if hi < |all| then hi else |all|
    ensures 0 <= count <= |all|
    ensures Window(all[..count], lo, hi) == all[Clamp(lo, count)..count]
    ensures |all[Clamp(lo, count)..count]| <= hi - lo
  {
    var seen := all[..count];
    WindowSlice(seen, lo, hi);
    var c := Clamp(lo, count);
    assert Clamp(hi, count) == count;
    assert seen[c..count] == all[c..count];
  }

  /** A day whose query throws before the end index is reached makes the
      whole request fail with the query error. */
  lemma DeviceStatusFails<R>(startDate: string, endDate: string, page: int, size: int,
                             parse: string -> Option<int>, format: int -> string,
                             query: string -> Option<seq<R>>, tables: seq<seq<R>>)
    requires page * size + size >= 1
    requires parse(startDate).Some? && parse(endDate).Some?
    requires var days := Days(parse(startDate).value, parse(endDate).value);
      |tables| < |days| && Answers(days, format, query, tables)
      && |Flatten(tables)| < page * size + size
      && SafeTableName(format(days[|tables|])).Ok?
      && query(SafeTableName(format(days[|tables|])).value).None?
    ensures DeviceStatus(startDate, endDate, page, size, parse, format, query) == Err(QueryFailed)
  {
    var days := Days(parse(startDate).value, parse(endDate).value);
    ScanReaches(days, format, query, page * size + size, tables);
  }

  /** The number of days whose rows first reach n rows, less one. */
  function FirstReaching<R>(tables: seq<seq<R>>, n: int): (m: nat)
    requires 1 <= n <= |Flatten(tables)|
    ensures m < |tables|
    ensures |Flatten(tables[..m])| < n <= |Flatten(tables[..m + 1])|
    decreases |tables|
  {
    var last := |tables| - 1;
    assert tables[..last + 1] == tables;
    if |Flatten(tables[..last])| < n then last
    else
      var m := FirstReaching(tables[..last], n);
      assert tables[..last][..m] == tables[..m];
      assert tables[..last][..m + 1] == tables[..m + 1];
      m
  }

  /** The rows of the first k days come first among all rows. */
  lemma {:induction false} FlattenPrefix<R>(tables: seq<seq<R>>, k: nat)
    requires k <= |tables|
    ensures |Flatten(tables[..k])| <= |Flatten(tables)|
    ensures Flatten(tables)[..|Flatten(tables[..k])|] == Flatten(tables[..k])
    decreases |tables|
  {
    if k < |tables| {
      var last := |tables| - 1;
      FlattenPrefix(tables[..last], k);
      assert tables[..last][..k] == tables[..k];
      assert Flatten(tables) == Flatten(tables[..last]) + tables[last];
    } else {
      assert tables[..k] == tables;
    }
  }
}
