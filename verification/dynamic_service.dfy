/** DynamicService: the in-memory rule tables of adaptive control (condition
    per program, traffic periods per day type, thresholds per program and
    sub-id), the time-window test, and the per-device plan lookup.

    A LocalTime is a number of seconds since midnight; "now" is always a
    parameter.  Repository reads are parameters (the rows a query
    returns). */
module DynamicService {
  import opened Common

  /** A time of day in seconds. */
  type TimeOfDay = t: int | 0 <= t < 86400

  /** The day-type labels of the rule tables. */
  const Weekday: string := "平日"
  const Holiday: string := "假日"

  /** A rule condition over sub-ids, as the program evaluates it once the
      sub-ids are bound to their thresholds' match flags. */
  datatype Cond =
    | Var(subId: string)
    | Lit(b: bool)
    | Not(c: Cond)
    | And(left: Cond, right: Cond)
    | Or(left: Cond, right: Cond)

  /** A stored condition rule (DynamicCondition). */
  datatype ConditionRow = ConditionRow(programId: string, conditionExpression: Cond, consecutiveMatches: int)

  /** ConditionDto: the rule with its running count of consecutive matches. */
  datatype Condition = Condition(conditionExpression: Cond, consecutiveMatches: int, consecutiveCounts: int)

  datatype ThresholdId = ThresholdId(programId: string, subId: int)

  /** A stored threshold rule (DynamicThreshold). */
  datatype ThresholdRow = ThresholdRow(
    id: ThresholdId,
    timeLabel: string,
    cctvId: string,
    timeInterval: int,
    carflowDirection: string,
    comparisonOperator: string,
    thresholdValue: int,
    logTime: int)

  /** ThresholdDto. */
  datatype Threshold = Threshold(
    cctvList: seq<string>,
    timeInterval: int,
    carflowDirectionList: seq<string>,
    comparisonOperator: string,
    thresholdValue: int,
    isMatch: bool)

  /** TrafficPeriodDto. */
  datatype TrafficPeriod = TrafficPeriod(programId: string, subId: int, startTime: TimeOfDay, endTime: TimeOfDay, inSchedule: bool)

  /** A stored plan choice (DynamicPlanid). */
  datatype PlanRow = PlanRow(programId: string, tcId: string, day: string, time: string, planId: int)

  // ---------------------------------------------------------------------
  // Times of day
  // ---------------------------------------------------------------------

  /** isInTrafficPeriod: inclusive window when start is before end,
      otherwise a window through midnight. */
  predicate InTrafficPeriod(start: TimeOfDay, end: TimeOfDay, now: TimeOfDay) {
    if start < end then start <= now && now <= end
    else now >= start || now <= end
  }

  /** A window through midnight holds everything except the open gap
      between its end and its start; a window whose ends are equal holds
      the whole day. */
  lemma InTrafficPeriodMeaning(start: TimeOfDay, end: TimeOfDay, now: TimeOfDay)
    ensures start < end ==> (InTrafficPeriod(start, end, now) <==> start <= now <= end)
    ensures start >= end ==> (InTrafficPeriod(start, end, now) <==> !(end < now < start))
    ensures start == end ==> InTrafficPeriod(start, end, now)
  {
  }

  predicate IsDigit(c: char) {
    '0' <= c <= '9'
  }

  function DigitOf(c: char): int {
    c as int - '0' as int
  }

  /** LocalTime.parse with pattern "HHmm": exactly four digits, hour 0-23
      and minute 0-59; the smart resolver also takes "2400" as midnight.
      Anything else is a DateTimeParseException (None). */
  function ParseHHmm(s: string): Option<TimeOfDay> {
    if |s| != 4 || !(IsDigit(s[0]) && IsDigit(s[1]) && IsDigit(s[2]) && IsDigit(s[3])) then None
    else
      var h := DigitOf(s[0]) * 10 + DigitOf(s[1]);
      var m := DigitOf(s[2]) * 10 + DigitOf(s[3]);
      if m > 59 then None
      else if h < 24 then Some((h * 60 + m) * 60)
      else if h == 24 && m == 0 then Some(0)
      else None
  }

  /** An hour and minute written as "HHmm". */
  function HHmm(h: int, m: int): string
    requires 0 <= h < 24 && 0 <= m < 60
  {
    [(h / 10 + '0' as int) as char, (h % 10 + '0' as int) as char, (m / 10 + '0' as int) as char, (m % 10 + '0' as int) as char]
  }

  /** Every hour and minute read back from its "HHmm" text. */
  lemma ParseHHmmRoundTrip(h: int, m: int)
    requires 0 <= h < 24 && 0 <= m < 60
    ensures ParseHHmm(HHmm(h, m)) == Some((h * 60 + m) * 60)
  {
  }

  /** Only 4-digit texts parse, and a parsed time is a whole minute. */
  lemma ParseHHmmShape(s: string)
    ensures ParseHHmm(s).Some? ==> |s| == 4 && ParseHHmm(s).value % 60 == 0
    ensures |s| == 4 && IsDigit(s[0]) && IsDigit(s[1]) && IsDigit(s[2]) && IsDigit(s[3])
            && DigitOf(s[0]) * 10 + DigitOf(s[1]) < 24 && DigitOf(s[2]) * 10 + DigitOf(s[3]) < 60
            ==> ParseHHmm(s).Some?
  {
  }

  // ---------------------------------------------------------------------
  // Condition map
  // ---------------------------------------------------------------------

  /** The condition map after putIfAbsent of the first n rows, null rows
      skipped. */
  function ConditionsFrom(rows: seq<Option<ConditionRow>>, n: nat): map<string, Condition>
    requires n <= |rows|
  {
    if n == 0 then map[]
    else
      var m := ConditionsFrom(rows, n - 1);
      var r := rows[n - 1];
      if r.None? || r.value.programId in m then m
      else m[r.value.programId := Condition(r.value.conditionExpression, r.value.consecutiveMatches, 0)]
  }

  /** A program has a condition iff some non-null row names it; it is the
      first such row's, with its count at zero. */
  lemma {:induction false} ConditionsFromMeaning(rows: seq<Option<ConditionRow>>, n: nat, id: string)
    requires n <= |rows|
    ensures id in ConditionsFrom(rows, n) <==> exists i :: 0 <= i < n && rows[i].Some? && rows[i].value.programId == id
    ensures id in ConditionsFrom(rows, n) ==>
      exists i :: 0 <= i < n && rows[i].Some? && rows[i].value.programId == id
        && ConditionsFrom(rows, n)[id] == Condition(rows[i].value.conditionExpression, rows[i].value.consecutiveMatches, 0)
        && forall j :: 0 <= j < i ==> rows[j].None? || rows[j].value.programId != id
  {
    if n > 0 {
      ConditionsFromMeaning(rows, n - 1, id);
    }
  }

  // ---------------------------------------------------------------------
  // Period and threshold maps
  // ---------------------------------------------------------------------

  /** The threshold map key "programId-subId". */
  function ThresholdKey(id: ThresholdId): string {
    id.programId + "-" + DecString(id.subId)
  }

  /** Each comma-separated piece, stripped. */
  function StrippedList(parts: seq<string>): (r: seq<string>)
    ensures |r| == |parts| && forall i :: 0 <= i < |parts| ==> r[i] == Strip(parts[i])
  {
    seq(|parts|, i requires 0 <= i < |parts| => Strip(parts[i]))
  }

  function ThresholdOf(row: ThresholdRow): Threshold {
    Threshold(StrippedList(JavaSplit(row.cctvId, ',')), row.timeInterval,
              StrippedList(JavaSplit(row.carflowDirection, ',')), row.comparisonOperator, row.thresholdValue, false)
  }

  /** A period label read: weekday or not, start and end. */
  datatype Span = Span(weekday: bool, start: TimeOfDay, end: TimeOfDay)

  /** One time label: the day type from its first two characters, then
      "HHmm-HHmm".  None where the source throws (a label shorter than two
      characters, no second time, a time that does not parse). */
  function LabelSpan(text: string): Option<Span> {
    if |text| < 2 then None
    else
      var range := JavaSplit(text[2..], '-');
      if |range| < 2 then None
      else
        var start := ParseHHmm(range[0]);
        var end := ParseHHmm(range[1]);
        if start.None? || end.None? then None
        else Some(Span(StartsWith(text, Weekday), start.value, end.value))
  }

  /** A label written as two characters and two "HHmm" times yields the
      window between them, on weekdays iff it starts with "平日". */
  lemma LabelSpanOfText(day: string, h1: int, m1: int, h2: int, m2: int)
    requires |day| == 2 && '-' !in day
    requires 0 <= h1 < 24 && 0 <= m1 < 60 && 0 <= h2 < 24 && 0 <= m2 < 60
    ensures LabelSpan(day + HHmm(h1, m1) + "-" + HHmm(h2, m2))
         == Some(Span(day == Weekday, (h1 * 60 + m1) * 60, (h2 * 60 + m2) * 60))
  {
    var text := day + HHmm(h1, m1) + "-" + HHmm(h2, m2);
    var rest := HHmm(h1, m1) + "-" + HHmm(h2, m2);
    assert text[2..] == rest;
    assert text[..2] == day;
    assert SplitAll(rest, '-') == [HHmm(h1, m1)] + SplitAll(HHmm(h2, m2), '-') by {
      assert IndexOf(rest, '-') == 4;
      assert rest[..4] == HHmm(h1, m1) && rest[5..] == HHmm(h2, m2);
    }
    assert JavaSplit(rest, '-') == [HHmm(h1, m1), HHmm(h2, m2)];
    ParseHHmmRoundTrip(h1, m1);
    ParseHHmmRoundTrip(h2, m2);
  }

  function AddPeriod(periods: map<bool, seq<TrafficPeriod>>, weekday: bool, p: TrafficPeriod): map<bool, seq<TrafficPeriod>> {
    periods[weekday := (if weekday in periods then periods[weekday] else []) + [p]]
  }

  /** The period a label span yields for a threshold row, not in schedule. */
  function PeriodOf(id: ThresholdId, sp: Span): TrafficPeriod {
    TrafficPeriod(id.programId, id.subId, sp.start, sp.end, false)
  }

  /** What one threshold row contributes, read ahead: its key, its
      threshold and its time labels in order. */
  datatype RowPlan = RowPlan(id: ThresholdId, key: string, threshold: Threshold, labels: seq<string>)

  function Prepare(row: ThresholdRow): RowPlan {
    RowPlan(row.id, ThresholdKey(row.id), ThresholdOf(row), JavaSplit(row.timeLabel, ','))
  }

  function Prepared(rows: seq<ThresholdRow>): (r: seq<RowPlan>)
    ensures |r| == |rows| && forall i :: 0 <= i < |rows| ==> r[i] == Prepare(rows[i])
  {
    seq(|rows|, i requires 0 <= i < |rows| => Prepare(rows[i]))
  }

  datatype PeriodsLoaded = PeriodsLoaded(periods: map<bool, seq<TrafficPeriod>>, failed: bool)

  /** The period map after the first n labels of one row, each label read
      by parse (LabelSpan in the service); the first label that does not
      parse stops the load, leaving what was added so far. */
  function LoadLabels(periods: map<bool, seq<TrafficPeriod>>, id: ThresholdId, labels: seq<string>,
                      parse: string -> Option<Span>, n: nat): PeriodsLoaded
    requires n <= |labels|
  {
    if n == 0 then PeriodsLoaded(periods, false)
    else
      var prev := LoadLabels(periods, id, labels, parse, n - 1);
      var span := parse(labels[n - 1]);
      if prev.failed then prev
      else if span.None? then PeriodsLoaded(prev.periods, true)
      else PeriodsLoaded(AddPeriod(prev.periods, span.value.weekday, PeriodOf(id, span.value)), false)
  }

  /** `Map.putIfAbsent`. */
  function PutIfAbsent<K, V>(m: map<K, V>, k: K, v: V): map<K, V> {
    if k in m then m else m[k := v]
  }

  datatype Loaded = Loaded(periods: map<bool, seq<TrafficPeriod>>, thresholds: map<string, Threshold>, failed: bool)

  /** createTrafficAndThresholdMap over the first n rows, both maps
      starting empty.  An exception leaves the maps as far as they got. */
  function LoadRows(plans: seq<RowPlan>, parse: string -> Option<Span>, n: nat): Loaded
    requires n <= |plans|
  {
    if n == 0 then Loaded(map[], map[], false)
    else
      var prev := LoadRows(plans, parse, n - 1);
      if prev.failed then prev
      else
        var plan := plans[n - 1];
        var lp := LoadLabels(prev.periods, plan.id, plan.labels, parse, |plan.labels|);
        if lp.failed then Loaded(lp.periods, prev.thresholds, true)
        else Loaded(lp.periods, PutIfAbsent(prev.thresholds, plan.key, plan.threshold), false)
  }

  predicate NoneInSchedule(periods: map<bool, seq<TrafficPeriod>>) {
    forall w, i :: w in periods && 0 <= i < |periods[w]| ==> !periods[w][i].inSchedule
  }

  lemma AddPeriodFresh(periods: map<bool, seq<TrafficPeriod>>, weekday: bool, p: TrafficPeriod)
    requires NoneInSchedule(periods) && !p.inSchedule
    ensures NoneInSchedule(AddPeriod(periods, weekday, p))
  {
  }

  lemma {:induction false} LoadLabelsFresh(periods: map<bool, seq<TrafficPeriod>>, id: ThresholdId, labels: seq<string>,
                                           parse: string -> Option<Span>, n: nat)
    requires n <= |labels| && NoneInSchedule(periods)
    ensures NoneInSchedule(LoadLabels(periods, id, labels, parse, n).periods)
  {
    if n > 0 {
      LoadLabelsFresh(periods, id, labels, parse, n - 1);
      var prev := LoadLabels(periods, id, labels, parse, n - 1);
      var span := parse(labels[n - 1]);
      if !prev.failed && span.Some? {
        AddPeriodFresh(prev.periods, span.value.weekday, PeriodOf(id, span.value));
      }
    }
  }

  lemma {:induction false} LoadLabelsSucceeds(periods: map<bool, seq<TrafficPeriod>>, id: ThresholdId, labels: seq<string>,
                                              parse: string -> Option<Span>, n: nat)
    requires n <= |labels|
    ensures !LoadLabels(periods, id, labels, parse, n).failed <==> forall j :: 0 <= j < n ==> parse(labels[j]).Some?
  {
    if n > 0 {
      LoadLabelsSucceeds(periods, id, labels, parse, n - 1);
    }
  }

  predicate AllParse(labels: seq<string>, parse: string -> Option<Span>) {
    forall j :: 0 <= j < |labels| ==> parse(labels[j]).Some?
  }

  /** Every period loaded starts out of schedule. */
  lemma {:induction false} LoadRowsFresh(plans: seq<RowPlan>, parse: string -> Option<Span>, n: nat)
    requires n <= |plans|
    ensures NoneInSchedule(LoadRows(plans, parse, n).periods)
  {
    if n > 0 {
      LoadRowsFresh(plans, parse, n - 1);
      var prev := LoadRows(plans, parse, n - 1);
      if !prev.failed {
        var plan := plans[n - 1];
        LoadLabelsFresh(prev.periods, plan.id, plan.labels, parse, |plan.labels|);
      }
    }
  }

  /** Loading succeeds iff every label of every row parses. */
  lemma {:induction false} LoadRowsSucceeds(plans: seq<RowPlan>, parse: string -> Option<Span>, n: nat)
    requires n <= |plans|
    ensures !LoadRows(plans, parse, n).failed <==> forall i :: 0 <= i < n ==> AllParse(plans[i].labels, parse)
  {
    if n > 0 {
      LoadRowsSucceeds(plans, parse, n - 1);
      var prev := LoadRows(plans, parse, n - 1);
      if !prev.failed {
        var plan := plans[n - 1];
        LoadLabelsSucceeds(prev.periods, plan.id, plan.labels, parse, |plan.labels|);
      }
    }
  }

  /** Over read-ahead rows: a key is present iff some row has it, and it
      holds the threshold of the first such row. */
  lemma {:induction false} LoadRowsKeys(plans: seq<RowPlan>, parse: string -> Option<Span>, n: nat, key: string)
    requires n <= |plans| && !LoadRows(plans, parse, n).failed
    ensures key in LoadRows(plans, parse, n).thresholds <==> exists i :: 0 <= i < n && plans[i].key == key
    ensures key in LoadRows(plans, parse, n).thresholds ==>
      exists i :: 0 <= i < n && plans[i].key == key
        && LoadRows(plans, parse, n).thresholds[key] == plans[i].threshold
        && (forall j :: 0 <= j < i ==> plans[j].key != key)
  {
    if n > 0 {
      LoadRowsKeys(plans, parse, n - 1, key);
    }
  }

  /** Plans read ahead from rows, as far as keys and thresholds go. */
  predicate ReadAhead(plans: seq<RowPlan>, rows: seq<ThresholdRow>) {
    |plans| == |rows| &&
    forall i :: 0 <= i < |rows| ==> plans[i].key == ThresholdKey(rows[i].id) && plans[i].threshold == ThresholdOf(rows[i])
  }

  lemma PreparedReadAhead(rows: seq<ThresholdRow>)
    ensures ReadAhead(Prepared(rows), rows)
  {
    forall i | 0 <= i < |rows|
      ensures Prepared(rows)[i].key == ThresholdKey(rows[i].id) && Prepared(rows)[i].threshold == ThresholdOf(rows[i])
    {
      assert Prepared(rows)[i] == Prepare(rows[i]);
    }
  }

  /** Thresholds are keyed "programId-subId", the first row of a key wins,
      and every threshold starts unmatched. */
  lemma LoadRowsThresholds(plans: seq<RowPlan>, rows: seq<ThresholdRow>, parse: string -> Option<Span>, key: string)
    requires ReadAhead(plans, rows) && !LoadRows(plans, parse, |plans|).failed
    ensures key in LoadRows(plans, parse, |plans|).thresholds <==> exists i :: 0 <= i < |rows| && ThresholdKey(rows[i].id) == key
    ensures key in LoadRows(plans, parse, |plans|).thresholds ==>
      exists i :: 0 <= i < |rows| && ThresholdKey(rows[i].id) == key
        && LoadRows(plans, parse, |plans|).thresholds[key] == ThresholdOf(rows[i])
        && (forall j :: 0 <= j < i ==> ThresholdKey(rows[j].id) != key)
    ensures key in LoadRows(plans, parse, |plans|).thresholds ==> !LoadRows(plans, parse, |plans|).thresholds[key].isMatch
  {
    LoadRowsKeys(plans, parse, |plans|, key);
    forall i | 0 <= i < |plans|
      ensures !plans[i].threshold.isMatch
    {
      assert plans[i].threshold == ThresholdOf(rows[i]);
    }
  }

  /** Once a row's labels have failed, later labels change nothing. */
  lemma {:induction false} LoadLabelsFailedStays(periods: map<bool, seq<TrafficPeriod>>, id: ThresholdId, labels: seq<string>,
                                                 parse: string -> Option<Span>, n: nat, m: nat)
    requires n <= m <= |labels| && LoadLabels(periods, id, labels, parse, n).failed
    ensures LoadLabels(periods, id, labels, parse, m) == LoadLabels(periods, id, labels, parse, n)
    decreases m - n
  {
    if n < m {
      LoadLabelsFailedStays(periods, id, labels, parse, n, m - 1);
    }
  }

  /** One row more: its labels loaded onto the periods so far, then, if
      they all parsed, its threshold unless its key is present. */
  lemma LoadRowsNext(plans: seq<RowPlan>, parse: string -> Option<Span>, i: nat,
                     periods: map<bool, seq<TrafficPeriod>>, thresholds: map<string, Threshold>,
                     after: map<bool, seq<TrafficPeriod>>, labelsOk: bool)
    requires i < |plans| && LoadRows(plans, parse, i) == Loaded(periods, thresholds, false)
    requires PeriodsLoaded(after, !labelsOk) == LoadLabels(periods, plans[i].id, plans[i].labels, parse, |plans[i].labels|)
    ensures LoadRows(plans, parse, i + 1) ==
      if !labelsOk then Loaded(after, thresholds, true)
      else Loaded(after, PutIfAbsent(thresholds, plans[i].key, plans[i].threshold), false)
  {
  }

  /** Once a load has failed, later rows change nothing. */
  lemma {:induction false} LoadRowsFailedStays(plans: seq<RowPlan>, parse: string -> Option<Span>, n: nat, m: nat)
    requires n <= m <= |plans| && LoadRows(plans, parse, n).failed
    ensures LoadRows(plans, parse, m) == LoadRows(plans, parse, n)
    decreases m - n
  {
    if n < m {
      LoadRowsFailedStays(plans, parse, n, m - 1);
    }
  }

  // ---------------------------------------------------------------------
  // Plan lookup
  // ---------------------------------------------------------------------

  function DayLabel(isWeekday: bool): string {
    if isWeekday then Weekday else Holiday
  }

  /** findByProgramIdAndDay: the rows of the program for the day text, in
      stored order. */
  function Query(rows: seq<PlanRow>, programId: string, day: string, n: nat): (r: seq<PlanRow>)
    requires n <= |rows|
    ensures forall i :: 0 <= i < |r| ==> r[i].programId == programId && r[i].day == day
    ensures forall i :: 0 <= i < |r| ==> r[i] in rows[..n]
    ensures forall j :: 0 <= j < n && rows[j].programId == programId && rows[j].day == day ==> rows[j] in r
    ensures |r| <= n
  {
    if n == 0 then []
    else
      var prev := Query(rows, programId, day, n - 1);
      if rows[n - 1].programId == programId && rows[n - 1].day == day then prev + [rows[n - 1]] else prev
  }

  /** Stored order is kept: the answer over a shorter prefix of the rows
      is a prefix of the answer over a longer one. */
  lemma {:induction false} QueryKeepsOrder(rows: seq<PlanRow>, programId: string, day: string, m: nat, n: nat)
    requires m <= n <= |rows|
    ensures Query(rows, programId, day, m) <= Query(rows, programId, day, n)
    decreases n - m
  {
    if m < n {
      QueryKeepsOrder(rows, programId, day, m, n - 1);
    }
  }

  /** The window of a plan row, "HHmm-HHmm" with each side stripped. */
  function RowWindow(row: PlanRow): Window {
    var times := JavaSplit(row.time, '-');
    if |times| < 2 then None
    else
      var start := ParseHHmm(Strip(times[0]));
      var end := ParseHHmm(Strip(times[1]));
      if start.None? || end.None? then None else Some((start.value, end.value))
  }

  type Window = Option<(TimeOfDay, TimeOfDay)>

  /** getAllDynamicPlanIds over the first n entries, each entry's time read
      by window (RowWindow in the service): device -> plan for every entry
      whose window holds now, a later entry overwriting an earlier one.
      None where a time does not parse. */
  function PlanIds(entries: seq<PlanRow>, window: PlanRow -> Window, n: nat, now: TimeOfDay): Option<map<string, int>>
    requires n <= |entries|
  {
    if n == 0 then Some(map[])
    else
      var prev := PlanIds(entries, window, n - 1, now);
      var w := window(entries[n - 1]);
      if prev.None? || w.None? then None
      else if InTrafficPeriod(w.value.0, w.value.1, now) then Some(prev.value[entries[n - 1].tcId := entries[n - 1].planId])
      else prev
  }

  predicate Active(w: Window, now: TimeOfDay) {
    w.Some? && InTrafficPeriod(w.value.0, w.value.1, now)
  }

  /** The lookup succeeds iff every entry's time parses; then a device gets
      a plan iff one of its entries is active now, and the plan is that of
      its last active entry. */
  lemma {:induction false} PlanIdsMeaning(entries: seq<PlanRow>, window: PlanRow -> Window, n: nat, now: TimeOfDay, tc: string)
    requires n <= |entries|
    ensures PlanIds(entries, window, n, now).Some? <==> forall i :: 0 <= i < n ==> window(entries[i]).Some?
    ensures PlanIds(entries, window, n, now).Some? ==>
      (tc in PlanIds(entries, window, n, now).value <==>
        exists i :: 0 <= i < n && entries[i].tcId == tc && Active(window(entries[i]), now))
    ensures PlanIds(entries, window, n, now).Some? && tc in PlanIds(entries, window, n, now).value ==>
      exists i :: 0 <= i < n && entries[i].tcId == tc && Active(window(entries[i]), now)
        && PlanIds(entries, window, n, now).value[tc] == entries[i].planId
        && forall j :: i < j < n ==> !(entries[j].tcId == tc && Active(window(entries[j]), now))
  {
    if n > 0 {
      PlanIdsMeaning(entries, window, n - 1, now, tc);
    }
  }

  /** A time that does not parse makes the lookup fail, whatever comes
      after it. */
  lemma {:induction false} PlanIdsFailedStays(entries: seq<PlanRow>, window: PlanRow -> Window, n: nat, m: nat, now: TimeOfDay)
    requires n <= m <= |entries| && PlanIds(entries, window, n, now).None?
    ensures PlanIds(entries, window, m, now).None?
    decreases m - n
  {
    if n < m {
      PlanIdsFailedStays(entries, window, n, m - 1, now);
    }
  }

  // ---------------------------------------------------------------------
  // Threshold update
  // ---------------------------------------------------------------------

  datatype Updated = Updated(result: Result<Option<ThresholdRow>, string>, store: map<ThresholdId, ThresholdRow>)

  const DataNotFound: string := "Data not found."

  /** updateDynamicThreshold against the stored rows: null in, null out;
      an unknown id raises "Data not found."; otherwise the six editable
      fields are copied onto the stored row, which is saved and returned. */
  function UpdateDynamicThreshold(arg: Option<(Option<ThresholdId>, ThresholdRow)>, store: map<ThresholdId, ThresholdRow>): Updated {
    if arg.None? || arg.value.0.None? then Updated(Ok(None), store)
    else
      var id := arg.value.0.value;
      var given := arg.value.1;
      if id !in store then Updated(Err(DataNotFound), store)
      else
        var row := store[id].(timeLabel := given.timeLabel, cctvId := given.cctvId, carflowDirection := given.carflowDirection,
                              timeInterval := given.timeInterval, comparisonOperator := given.comparisonOperator,
                              thresholdValue := given.thresholdValue);
        Updated(Ok(Some(row)), store[id := row])
  }

  /** Exactly the six editable fields change: the stored id and log time
      stay, and no other row is touched. */
  lemma UpdateCopiesSixFields(arg: Option<(Option<ThresholdId>, ThresholdRow)>, store: map<ThresholdId, ThresholdRow>)
    ensures arg.None? || arg.value.0.None? ==> UpdateDynamicThreshold(arg, store) == Updated(Ok(None), store)
    ensures arg.Some? && arg.value.0.Some? && arg.value.0.value !in store ==>
      UpdateDynamicThreshold(arg, store) == Updated(Err(DataNotFound), store)
    ensures arg.Some? && arg.value.0.Some? && arg.value.0.value in store ==>
      var id := arg.value.0.value;
      var u := UpdateDynamicThreshold(arg, store);
      && u.result.Ok? && u.result.value.Some?
      && u.store.Keys == store.Keys
      && (forall k :: k in store && k != id ==> u.store[k] == store[k])
      && u.store[id] == u.result.value.value
      && u.store[id].id == store[id].id && u.store[id].logTime == store[id].logTime
      && u.store[id].timeLabel == arg.value.1.timeLabel && u.store[id].cctvId == arg.value.1.cctvId
      && u.store[id].carflowDirection == arg.value.1.carflowDirection && u.store[id].timeInterval == arg.value.1.timeInterval
      && u.store[id].comparisonOperator == arg.value.1.comparisonOperator && u.store[id].thresholdValue == arg.value.1.thresholdValue
  {
  }

  // ---------------------------------------------------------------------
  // The service
  // ---------------------------------------------------------------------

  /** The label loop of createTrafficAndThresholdMap for one row: each
      label's period appended to its day type's list; false at the first
      label that parse rejects, the periods added before it kept. */
  method AddLabelPeriods(start: map<bool, seq<TrafficPeriod>>, id: ThresholdId, labels: seq<string>, parse: string -> Option<Span>)
    returns (periods: map<bool, seq<TrafficPeriod>>, ok: bool)
    ensures PeriodsLoaded(periods, !ok) == LoadLabels(start, id, labels, parse, |labels|)
  {
    periods := start;
    var j := 0;
    while j < |labels|
      invariant 0 <= j <= |labels|
      invariant PeriodsLoaded(periods, false) == LoadLabels(start, id, labels, parse, j)
    {
      var span := parse(labels[j]);
      if span.None? {
        LoadLabelsFailedStays(start, id, labels, parse, j + 1, |labels|);
        return periods, false;
      }
      periods := AddPeriod(periods, span.value.weekday, PeriodOf(id, span.value));
      j := j + 1;
    }
    ok := true;
  }

  /** The row loop of createTrafficAndThresholdMap over rows already read,
      both maps starting empty: each row's periods are added, then its
      threshold unless its key is present; false at the first label that
      parse rejects. */
  method LoadPlans(plans: seq<RowPlan>, parse: string -> Option<Span>)
    returns (periods: map<bool, seq<TrafficPeriod>>, thresholds: map<string, Threshold>, ok: bool)
    ensures Loaded(periods, thresholds, !ok) == LoadRows(plans, parse, |plans|)
  {
    periods := map[];
    thresholds := map[];
    var i := 0;
    while i < |plans|
      invariant 0 <= i <= |plans|
      invariant !LoadRows(plans, parse, i).failed
      invariant LoadRows(plans, parse, i).periods == periods
      invariant LoadRows(plans, parse, i).thresholds == thresholds
    {
      var plan := plans[i];
      var after, labelsOk := AddLabelPeriods(periods, plan.id, plan.labels, parse);
      LoadRowsNext(plans, parse, i, periods, thresholds, after, labelsOk);
      if !labelsOk {
        LoadRowsFailedStays(plans, parse, i + 1, |plans|);
        return after, thresholds, false;
      }
      periods, thresholds := after, PutIfAbsent(thresholds, plan.key, plan.threshold);
      i := i + 1;
    }
    ok := true;
  }

  /** The loop of getAllDynamicPlanIds over the queried entries, each
      entry's time read by window. */
  method CollectPlanIds(entries: seq<PlanRow>, window: PlanRow -> Window, now: TimeOfDay) returns (r: Option<map<string, int>>)
    ensures r == PlanIds(entries, window, |entries|, now)
  {
    var tcPlanIdMap := map[];
    var i := 0;
    while i < |entries|
      invariant 0 <= i <= |entries|
      invariant PlanIds(entries, window, i, now) == Some(tcPlanIdMap)
    {
      var w := window(entries[i]);
      if w.None? {
        PlanIdsFailedStays(entries, window, i + 1, |entries|, now);
        return None;
      }
      if InTrafficPeriod(w.value.0, w.value.1, now) {
        tcPlanIdMap := tcPlanIdMap[entries[i].tcId := entries[i].planId];
      }
      i := i + 1;
    }
    r := Some(tcPlanIdMap);
  }

  class DynamicService {
    var conditionMap: map<string, Condition>
    var trafficPeriodsMap: map<bool, seq<TrafficPeriod>>
    var thresholdMap: map<string, Threshold>

    constructor()
      ensures conditionMap == map[] && trafficPeriodsMap == map[] && thresholdMap == map[]
    {
      conditionMap := map[];
      trafficPeriodsMap := map[];
      thresholdMap := map[];
    }

    /** createConditionMap: a null list changes nothing. */
    method CreateConditionMap(conditions: Option<seq<Option<ConditionRow>>>)
      modifies this`conditionMap
      ensures conditionMap == (if conditions.None? then old(conditionMap) else ConditionsFrom(conditions.value, |conditions.value|))
    {
      if conditions.None? {
        return;
      }
      var rows := conditions.value;
      conditionMap := map[];
      var i := 0;
      while i < |rows|
        invariant 0 <= i <= |rows|
        invariant conditionMap == ConditionsFrom(rows, i)
      {
        var entry := rows[i];
        if entry.Some? && entry.value.programId !in conditionMap {
          conditionMap := conditionMap[entry.value.programId := Condition(entry.value.conditionExpression, entry.value.consecutiveMatches, 0)];
        }
        i := i + 1;
      }
    }

    /** createTrafficAndThresholdMap: both maps cleared, then each row
        read (labels split on ',', key "programId-subId", lists stripped)
        and loaded; ok is false where the source throws, with the maps left
        as far as the load got. */
    method CreateTrafficAndThresholdMap(rows: seq<ThresholdRow>) returns (ok: bool)
      modifies this`trafficPeriodsMap, this`thresholdMap
      ensures Loaded(trafficPeriodsMap, thresholdMap, !ok) == LoadRows(Prepared(rows), LabelSpan, |rows|)
    {
      var periods, thresholds;
      periods, thresholds, ok := LoadPlans(Prepared(rows), LabelSpan);
      trafficPeriodsMap := periods;
      thresholdMap := thresholds;
    }

    /** getAllDynamicPlanIds; None where the source throws. */
    method GetAllDynamicPlanIds(rows: seq<PlanRow>, programId: string, isWeekday: bool, now: TimeOfDay)
      returns (r: Option<map<string, int>>)
      ensures var entries := Query(rows, programId, DayLabel(isWeekday), |rows|);
        r == PlanIds(entries, RowWindow, |entries|, now)
    {
      var entries := Query(rows, programId, DayLabel(isWeekday), |rows|);
      r := CollectPlanIds(entries, RowWindow, now);
    }
  }
}
