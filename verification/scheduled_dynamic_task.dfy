/** ScheduledDynamicTask: every ten minutes, start an evaluation for each
    period of today's day type that is not already running and whose
    window contains the current time; at midnight, rebuild the service's
    maps from the stored rules.

    The clock is a parameter (the day of the week and the time of day),
    and the evaluations run one after the other where the source starts
    them asynchronously. */
module ScheduledDynamicTask {
  import opened Common
  import opened DynamicService
  import opened DynamicControl

  /** java.time.DayOfWeek. */
  datatype DayOfWeek = Monday | Tuesday | Wednesday | Thursday | Friday | Saturday | Sunday

  /** The day type whose periods are scanned. */
  predicate IsWeekday(day: DayOfWeek) {
    day != Saturday && day != Sunday
  }

  /** Whether the scan starts the evaluation of a period: it is not
      already in schedule and the time is inside its window. */
  predicate Starts(p: TrafficPeriod, now: TimeOfDay) {
    !p.inSchedule && InTrafficPeriod(p.startTime, p.endTime, now)
  }

  /** The indices of the first n periods the scan starts, in order. */
  function Started(list: seq<TrafficPeriod>, now: TimeOfDay, n: nat): (r: seq<nat>)
    requires n <= |list|
    ensures forall k :: 0 <= k < |r| ==> r[k] < n
  {
    if n == 0 then []
    else Started(list, now, n - 1) + if Starts(list[n - 1], now) then [n - 1] else []
  }

  /** A period is started iff it was not in schedule and is running now,
      and each at most once, in list order. */
  lemma {:induction false} StartedMeaning(list: seq<TrafficPeriod>, now: TimeOfDay, n: nat)
    requires n <= |list|
    ensures forall i :: 0 <= i < n ==> (i in Started(list, now, n) <==> Starts(list[i], now))
    ensures forall a, b :: 0 <= a < b < |Started(list, now, n)| ==> Started(list, now, n)[a] < Started(list, now, n)[b]
  {
    if n > 0 {
      StartedMeaning(list, now, n - 1);
    }
  }

  /** A period after the scan: in schedule if it was or if it is running. */
  function Mark(p: TrafficPeriod, now: TimeOfDay): TrafficPeriod {
    p.(inSchedule := p.inSchedule || InTrafficPeriod(p.startTime, p.endTime, now))
  }

  /** The list once the scan has passed its first n periods. */
  function MarkedUpTo(list: seq<TrafficPeriod>, now: TimeOfDay, n: nat): (r: seq<TrafficPeriod>)
    ensures |r| == |list|
  {
    seq(|list|, j requires 0 <= j < |list| => if j < n then Mark(list[j], now) else list[j])
  }

  /** The list after the scan: every started period is in schedule, and
      nothing else changes. */
  function Marked(list: seq<TrafficPeriod>, now: TimeOfDay): (r: seq<TrafficPeriod>)
    ensures |r| == |list|
    ensures forall i :: 0 <= i < |list| ==>
      r[i] == list[i].(inSchedule := list[i].inSchedule || InTrafficPeriod(list[i].startTime, list[i].endTime, now))
  {
    MarkedUpTo(list, now, |list|)
  }

  lemma MarkStep(list: seq<TrafficPeriod>, now: TimeOfDay, i: nat)
    requires i < |list|
    ensures MarkedUpTo(list, now, i + 1) == MarkedUpTo(list, now, i)[i := Mark(list[i], now)]
  {
  }

  /** A second scan at the same time starts nothing: the first one left
      every running period in schedule. */
  lemma ScanSettles(list: seq<TrafficPeriod>, now: TimeOfDay)
    ensures Started(Marked(list, now), now, |list|) == []
  {
    StartedNone(Marked(list, now), now, |list|);
  }

  lemma {:induction false} StartedNone(list: seq<TrafficPeriod>, now: TimeOfDay, n: nat)
    requires n <= |list| && forall i :: 0 <= i < n ==> !Starts(list[i], now)
    ensures Started(list, now, n) == []
  {
    if n > 0 {
      StartedNone(list, now, n - 1);
    }
  }

  /** Whether trace holds the states of a run of evaluations, one for
      each index of started in turn: the k-th evaluation takes trace[k]
      to trace[k + 1]. */
  ghost predicate Chain(trace: seq<Calc>, started: seq<nat>, isWeekday: bool, flow: Threshold -> Option<bool>,
                        now: TimeOfDay, keyOrder: seq<string>, rows: seq<PlanRow>, w: World)
  {
    |trace| == |started| + 1
    && forall k :: 0 <= k < |started| ==>
         Calculated(trace[k], trace[k + 1], isWeekday, started[k], flow, now, keyOrder, rows, w)
  }

  /** One more evaluation extends a run. */
  lemma ChainSnoc(trace: seq<Calc>, started: seq<nat>, isWeekday: bool, flow: Threshold -> Option<bool>,
                  now: TimeOfDay, keyOrder: seq<string>, rows: seq<PlanRow>, w: World, next: Calc, i: nat)
    requires Chain(trace, started, isWeekday, flow, now, keyOrder, rows, w)
    requires Calculated(trace[|trace| - 1], next, isWeekday, i, flow, now, keyOrder, rows, w)
    ensures Chain(trace + [next], started + [i], isWeekday, flow, now, keyOrder, rows, w)
  {
    var t, st := trace + [next], started + [i];
    forall k | 0 <= k < |st|
      ensures Calculated(t[k], t[k + 1], isWeekday, st[k], flow, now, keyOrder, rows, w)
    {
      if k < |started| {
        assert t[k] == trace[k] && t[k + 1] == trace[k + 1] && st[k] == started[k];
      } else {
        assert t[k] == trace[|trace| - 1] && t[k + 1] == next && st[k] == i;
      }
    }
  }

  /** Over any run of evaluations, as a scan makes them, the threshold
      map keeps its keys and a threshold changes at most by its match
      flag going up: nothing in the scan resets a flag. */
  lemma {:induction false} MatchFlagsOnlyRise(trace: seq<Calc>, started: seq<nat>, isWeekday: bool, flow: Threshold -> Option<bool>,
                                              now: TimeOfDay, keyOrder: seq<string>, rows: seq<PlanRow>, w: World, n: nat)
    requires Chain(trace, started, isWeekday, flow, now, keyOrder, rows, w) && n <= |started|
    ensures trace[n].thresholds.Keys == trace[0].thresholds.Keys
    ensures forall key :: key in trace[0].thresholds ==> Raised(trace[0].thresholds[key], trace[n].thresholds[key])
  {
    if n > 0 {
      MatchFlagsOnlyRise(trace, started, isWeekday, flow, now, keyOrder, rows, w, n - 1);
      CalculatedKeepsKeys(trace[n - 1], trace[n], isWeekday, started[n - 1], flow, now, keyOrder, rows, w);
      CalculatedRaises(trace[n - 1], trace[n], isWeekday, started[n - 1], flow, now, keyOrder, rows, w);
    }
  }

  class ScheduledDynamicTask {
    const svc: DynamicService
    const manager: DynamicControlManager

    /** The manager works on the same service. */
    ghost predicate Valid()
      reads this
    {
      manager.svc == svc
    }

    constructor(svc: DynamicService, manager: DynamicControlManager)
      requires manager.svc == svc
      ensures this.svc == svc && this.manager == manager && Valid()
    {
      this.svc := svc;
      this.manager := manager;
    }

    /** checkTrafficPeriods: scan today's periods and start the evaluation
      of each that is not in schedule and is running; the periods of the
      other day type are untouched.  flow, keyOrder, rows and w are what
      the evaluations learn from outside.  A day type without a list
      throws before the scan.  The ghost trace holds the state before
      the scan and after each evaluation: the k-th evaluation takes
      trace[k] to trace[k + 1], and the last state is the new one. */
    method CheckTrafficPeriods(day: DayOfWeek, now: TimeOfDay, flow: Threshold -> Option<bool>,
                               keyOrder: seq<string>, rows: seq<PlanRow>, w: World)
      returns (started: seq<nat>, ghost trace: seq<Calc>)
      requires Valid() && OrdersKeys(keyOrder, svc.thresholdMap.Keys)
      modifies svc`trafficPeriodsMap, svc`thresholdMap, svc`conditionMap, manager`sent, manager`logs, manager`notices
      ensures var isWeekday := IsWeekday(day);
        if isWeekday !in old(svc.trafficPeriodsMap) then started == [] && svc.trafficPeriodsMap == old(svc.trafficPeriodsMap)
        else
          var list := old(svc.trafficPeriodsMap[isWeekday]);
          started == Started(list, now, |list|)
          && svc.trafficPeriodsMap == old(svc.trafficPeriodsMap)[isWeekday := Marked(list, now)]
      ensures Chain(trace, started, IsWeekday(day), flow, now, keyOrder, rows, w)
      ensures trace[0] == old(manager.State()) && trace[|started|] == manager.State()
    {
      var isWeekday := IsWeekday(day);
      started := [];
      trace := [manager.State()];
      if isWeekday !in svc.trafficPeriodsMap {
        return;
      }
      ghost var list := svc.trafficPeriodsMap[isWeekday];
      ghost var before := svc.trafficPeriodsMap;
      ghost var keys := svc.thresholdMap.Keys;
      var i := 0;
      assert MarkedUpTo(list, now, 0) == list;
      while i < |svc.trafficPeriodsMap[isWeekday]|
        invariant 0 <= i <= |list|
        invariant started == Started(list, now, i)
        invariant svc.trafficPeriodsMap == before[isWeekday := MarkedUpTo(list, now, i)]
        invariant svc.thresholdMap.Keys == keys
        invariant Chain(trace, started, isWeekday, flow, now, keyOrder, rows, w)
        invariant trace[0] == old(manager.State()) && trace[|started|] == manager.State()
      {
        var period := svc.trafficPeriodsMap[isWeekday][i];
        assert period == list[i];
        MarkStep(list, now, i);
        if !period.inSchedule && InTrafficPeriod(period.startTime, period.endTime, now) {
          started, trace := ScanStart(isWeekday, i, flow, now, keyOrder, rows, w, list, before, keys, started, trace);
        } else {
          assert Mark(list[i], now) == list[i];
          assert MarkedUpTo(list, now, i)[i := Mark(list[i], now)] == MarkedUpTo(list, now, i);
        }
        i := i + 1;
      }
    }

    /** The scan's step on a period i it starts: its evaluation runs, and
      the state after it is appended to the run. */
    method ScanStart(isWeekday: bool, i: nat, flow: Threshold -> Option<bool>, now: TimeOfDay,
                     keyOrder: seq<string>, rows: seq<PlanRow>, w: World,
                     ghost list: seq<TrafficPeriod>, ghost before: map<bool, seq<TrafficPeriod>>, ghost keys: set<string>,
                     started: seq<nat>, ghost trace: seq<Calc>)
      returns (started': seq<nat>, ghost trace': seq<Calc>)
      requires Valid() && i < |list| && OrdersKeys(keyOrder, keys) && Starts(list[i], now)
      requires started == Started(list, now, i)
      requires svc.trafficPeriodsMap == before[isWeekday := MarkedUpTo(list, now, i)]
      requires svc.thresholdMap.Keys == keys
      requires Chain(trace, started, isWeekday, flow, now, keyOrder, rows, w) && trace[|started|] == manager.State()
      modifies svc`trafficPeriodsMap, svc`thresholdMap, svc`conditionMap, manager`sent, manager`logs, manager`notices
      ensures started' == started + [i]
      ensures svc.trafficPeriodsMap == before[isWeekday := MarkedUpTo(list, now, i)[i := Mark(list[i], now)]]
      ensures svc.thresholdMap.Keys == keys
      ensures Chain(trace', started', isWeekday, flow, now, keyOrder, rows, w)
      ensures trace'[0] == trace[0] && trace'[|started'|] == manager.State()
    {
      trace' := Evaluate(isWeekday, i, flow, now, keyOrder, rows, w, trace, started);
      started' := started + [i];
    }

    /** One evaluation of the scan, with its state appended to the run. */
    method Evaluate(isWeekday: bool, i: nat, flow: Threshold -> Option<bool>, now: TimeOfDay,
                    keyOrder: seq<string>, rows: seq<PlanRow>, w: World, ghost trace: seq<Calc>, ghost started: seq<nat>)
      returns (ghost trace': seq<Calc>)
      requires Valid() && isWeekday in svc.trafficPeriodsMap && i < |svc.trafficPeriodsMap[isWeekday]|
      requires OrdersKeys(keyOrder, svc.thresholdMap.Keys)
      requires Chain(trace, started, isWeekday, flow, now, keyOrder, rows, w) && trace[|trace| - 1] == manager.State()
      modifies svc`trafficPeriodsMap, svc`thresholdMap, svc`conditionMap, manager`sent, manager`logs, manager`notices
      ensures Chain(trace', started + [i], isWeekday, flow, now, keyOrder, rows, w)
      ensures trace' == trace + [manager.State()]
      ensures var list := old(svc.trafficPeriodsMap[isWeekday]);
        svc.trafficPeriodsMap == old(svc.trafficPeriodsMap)[isWeekday := list[i := list[i].(inSchedule := true)]]
      ensures svc.thresholdMap.Keys == old(svc.thresholdMap.Keys)
    {
      ghost var pre := manager.State();
      manager.StartTrafficCalculation(isWeekday, i, flow, now, keyOrder, rows, w);
      CalculatedKeepsKeys(pre, manager.State(), isWeekday, i, flow, now, keyOrder, rows, w);
      ChainSnoc(trace, started, isWeekday, flow, now, keyOrder, rows, w, manager.State(), i);
      trace' := trace + [manager.State()];
    }

    /** readDynamicInfo: rebuild the condition map, then the period and
      threshold maps, from every stored rule. */
    method ReadDynamicInfo(conditions: seq<Option<ConditionRow>>, thresholds: seq<ThresholdRow>)
      modifies svc`conditionMap, svc`trafficPeriodsMap, svc`thresholdMap
      ensures svc.conditionMap == ConditionsFrom(conditions, |conditions|)
      ensures svc.trafficPeriodsMap == LoadRows(Prepared(thresholds), LabelSpan, |thresholds|).periods
      ensures svc.thresholdMap == LoadRows(Prepared(thresholds), LabelSpan, |thresholds|).thresholds
    {
      svc.CreateConditionMap(Some(conditions));
      var _ := svc.CreateTrafficAndThresholdMap(thresholds);
    }
  }
}
