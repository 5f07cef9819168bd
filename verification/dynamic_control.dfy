/** DynamicControlManager: one evaluation of a traffic period (flow test,
    condition count, trigger), the per-device handshake that switches a
    controller to the dynamic plan, and the echo check of 5FC4/5FC5.

    Everything the manager learns from outside is a parameter: the car-flow
    comparison of each threshold, the verdict of each send handler, the
    5FC0/5FC4/5FC5 values the receiver records, the stored parameters, the
    device table, the socket state and the clock text of a notice.  The
    requests handed to the send manager, the dynamic-log rows and the
    notices are appended to logs. */
module DynamicControl {
  import opened Common
  import opened Json
  import opened Messages
  import opened DynamicService
  import MessageBuilder

  /** ControlStrategy codes. */
  const TodCode: int := 5
  const DynamicCode: int := 6

  /** The effect time every 5F10 carries, and the one 5FC0 must echo. */
  const EffectTime: int := 5

  /** Handshake attempts per device. */
  const MaxRetry: nat := 3

  /** DynamicStatus codes. */
  const SuccessCode: string := "Y"
  const FailureCode: string := "N"

  /** A stored row of dynamic parameters (one sub-phase of a plan). */
  datatype DynamicParameters = DynamicParameters(
    subphaseId: int,
    phaseOrder: string,
    cycleTime: int,
    offset: int,
    green: int,
    pedGreenFlash: int,
    pedRed: int,
    yellow: int,
    allRed: int,
    minGreen: int,
    maxGreen: int,
    direct: int)

  /** A row saved by saveDynamicLog: its status and message follow from
      the event it records. */
  datatype DynamicLog = DynamicLog(programId: string, tcId: string, planId: int, note: Note) {
    function Status(): string {
      if note.Applying? || note.Applied? || note.Closed? then SuccessCode else FailureCode
    }

    function Text(): string {
      match note
      case Applying => "apply dynamic control for TC"
      case Applied => "apply dynamic control success"
      case ApplyFailed(f) => "apply dynamic control failed: " + Message(f)
      case Closed => "5F10 disable dynamic control success"
      case CloseFailed => "5F10 disable dynamic control failed: " + Message(Rejected5F10)
      case NotConnected => "socket is not connected"
      case NotEnabled => "dynamic control not enabled for TC"
    }
  }

  /** The events the trigger pass records. */
  datatype Note =
    | Applying
    | Applied
    | ApplyFailed(failure: Failure)
    | Closed
    | CloseFailed
    | NotConnected
    | NotEnabled

  /** A notice sent after a successful switch, with the clock's text. */
  datatype Notice = Notice(tc: string, at: string) {
    function Text(): string {
      "Dynamic control applied successfully for TC " + tc + " at " + at
    }
  }

  // ---------------------------------------------------------------------
  // Requests handed to the send manager
  // ---------------------------------------------------------------------

  function Num(n: int): Json {
    JNumber(n)
  }

  /** send5F10: {"value": {deviceId, controlStrategy, effectTime}}. */
  function Request5F10(tc: string, controlStrategy: int): Json {
    MessageBuilder.Request(map["deviceId" := JText(tc), "controlStrategy" := Num(controlStrategy), "effectTime" := Num(EffectTime)])
  }

  /** send5F40: {"value": {deviceId}}. */
  function Request5F40(tc: string): Json {
    MessageBuilder.Request(map["deviceId" := JText(tc)])
  }

  /** One subPhases entry of send5F15. */
  function SubPhaseEntry(p: DynamicParameters): Json {
    JObject(map[
      "subPhaseId" := Num(p.subphaseId), "green" := Num(p.green), "yellow" := Num(p.yellow),
      "allRed" := Num(p.allRed), "pedGreenFlash" := Num(p.pedGreenFlash), "pedRed" := Num(p.pedRed),
      "minGreen" := Num(p.minGreen), "maxGreen" := Num(p.maxGreen)])
  }

  /** send5F15: the plan fields of the first row, the row count, and one
      entry per row in order. */
  function Request5F15(tc: string, planId: int, data: seq<DynamicParameters>): Json
    requires |data| > 0
  {
    var first := data[0];
    MessageBuilder.Request(map[
      "deviceId" := JText(tc), "planId" := Num(planId), "direct" := Num(first.direct),
      "phaseOrder" := JText(first.phaseOrder), "subPhaseCount" := Num(|data|),
      "cycleTime" := Num(first.cycleTime), "offset" := Num(first.offset),
      "subPhases" := JArray(seq(|data|, i requires 0 <= i < |data| => SubPhaseEntry(data[i])))])
  }

  /** send5F45: {"value": {deviceId, planId}}. */
  function Request5F45(tc: string, planId: int): Json {
    MessageBuilder.Request(map["deviceId" := JText(tc), "planId" := Num(planId)])
  }

  /** send5F18: {"value": {deviceId, planId}}. */
  function Request5F18(tc: string, planId: int): Json {
    MessageBuilder.Request(map["deviceId" := JText(tc), "planId" := Num(planId)])
  }

  /** The device a request is for, as the send handlers read it. */
  function DeviceOf(req: Json): Option<string> {
    var v := MessageBuilder.Value(req);
    if v.None? then None else GetString(v.value, "deviceId")
  }

  /** A request of the handshake, before it is written as JSON. */
  datatype Request =
    | Set5F10(tc: string, controlStrategy: int)
    | Check5F40(tc: string)
    | Set5F15(tc: string, planId: int, data: seq<DynamicParameters>)
    | Check5F45(tc: string, planId: int)
    | Enable5F18(tc: string, planId: int)

  /** 5F15 needs a first row to copy the plan fields from. */
  predicate Writable(q: Request) {
    q.Set5F15? ==> |q.data| > 0
  }

  /** The JSON object handed to the send manager for a request. */
  function Encode(q: Request): Json
    requires Writable(q)
  {
    match q
    case Set5F10(tc, cs) => Request5F10(tc, cs)
    case Check5F40(tc) => Request5F40(tc)
    case Set5F15(tc, planId, data) => Request5F15(tc, planId, data)
    case Check5F45(tc, planId) => Request5F45(tc, planId)
    case Enable5F18(tc, planId) => Request5F18(tc, planId)
  }

  function Greens(data: seq<DynamicParameters>): (r: seq<int>)
    ensures |r| == |data| && forall i :: 0 <= i < |data| ==> r[i] == data[i].green
  {
    seq(|data|, i requires 0 <= i < |data| => data[i].green)
  }

  function SubPhases(data: seq<DynamicParameters>): (r: seq<SubPhase>)
    ensures |r| == |data|
    ensures forall i :: 0 <= i < |data| ==>
      r[i] == SubPhase(data[i].minGreen, data[i].maxGreen, data[i].yellow, data[i].allRed, data[i].pedGreenFlash, data[i].pedRed)
  {
    seq(|data|, i requires 0 <= i < |data| =>
      SubPhase(data[i].minGreen, data[i].maxGreen, data[i].yellow, data[i].allRed, data[i].pedGreenFlash, data[i].pedRed))
  }

  /** The requests carry what the handshake means: the request builders
      read back the strategy, the effect time and the plan id, and every
      request names its device. */
  lemma RequestsDecode(tc: string, strategy: int, planId: int)
    ensures MessageBuilder.Build5F10(Request5F10(tc, strategy)) == Some(Message5F10(strategy, EffectTime))
    ensures MessageBuilder.Build5F45(Request5F45(tc, planId)) == Some(Message5F45(planId))
    ensures MessageBuilder.Build5F18(Request5F18(tc, planId)) == Some(Message5F18(planId))
    ensures DeviceOf(Request5F10(tc, strategy)) == Some(tc) && DeviceOf(Request5F40(tc)) == Some(tc)
    ensures DeviceOf(Request5F45(tc, planId)) == Some(tc) && DeviceOf(Request5F18(tc, planId)) == Some(tc)
  {
  }

  /** A subPhases entry holds the row's timings under the names the
      builders read. */
  lemma SubPhaseEntryReads(p: DynamicParameters)
    ensures MessageBuilder.SubPhaseOf(SubPhaseEntry(p)) ==
      Some(SubPhase(p.minGreen, p.maxGreen, p.yellow, p.allRed, p.pedGreenFlash, p.pedRed))
    ensures MessageBuilder.GreenOf(SubPhaseEntry(p)) == Some(p.green)
  {
    MessageBuilder.SubPhaseOfFields(SubPhaseEntry(p));
  }

  /** The plan fields of a 5F15 request, as the builders read them. */
  lemma Request5F15Fields(tc: string, planId: int, data: seq<DynamicParameters>)
    requires |data| > 0
    ensures var v := MessageBuilder.Value(Request5F15(tc, planId, data)).value;
      && MessageBuilder.Value(Request5F15(tc, planId, data)).Some?
      && GetString(v, "deviceId") == Some(tc)
      && GetInt(v, "planId") == Some(planId)
      && GetInt(v, "direct") == Some(data[0].direct)
      && GetString(v, "phaseOrder") == Some(data[0].phaseOrder)
      && GetInt(v, "subPhaseCount") == Some(|data|)
      && GetInt(v, "cycleTime") == Some(data[0].cycleTime)
      && GetInt(v, "offset") == Some(data[0].offset)
      && GetArray(v, "subPhases") == Some(seq(|data|, i requires 0 <= i < |data| => SubPhaseEntry(data[i])))
  {
  }

  /** Every written request names the device it is for. */
  lemma EncodeTargets(q: Request)
    requires Writable(q)
    ensures DeviceOf(Encode(q)) == Some(q.tc)
  {
    match q
    case Set5F15(tc, planId, data) => Request5F15Fields(tc, planId, data);
    case _ => RequestsDecode(q.tc, 0, 0);
  }

  /** The 5F15 request reads back, as the first half of the chain (5F14),
      one sub-phase record per stored row, in order. */
  lemma Request5F15DecodesAs5F14(tc: string, planId: int, data: seq<DynamicParameters>)
    requires |data| > 0
    ensures MessageBuilder.Build5F14(Request5F15(tc, planId, data)) == Some(Message5F14(planId, |data|, SubPhases(data)))
  {
    Request5F15Fields(tc, planId, data);
    var items := seq(|data|, i requires 0 <= i < |data| => SubPhaseEntry(data[i]));
    forall i | 0 <= i < |data|
      ensures MessageBuilder.SubPhaseOf(items[i]) == Some(SubPhases(data)[i])
    {
      SubPhaseEntryReads(data[i]);
    }
    MessageBuilder.CollectDefined(MessageBuilder.SubPhaseOf, items, |data|);
    MessageBuilder.CollectValues(MessageBuilder.SubPhaseOf, items, |data|);
    assert MessageBuilder.Collect(MessageBuilder.SubPhaseOf, items, |data|).value == SubPhases(data);
  }

  /** The 5F15 request reads back, as the second half of the chain, the
      plan fields of the first row and the greens of all rows in order. */
  lemma Request5F15DecodesAs5F15(tc: string, planId: int, data: seq<DynamicParameters>)
    requires |data| > 0
    ensures MessageBuilder.Build5F15(Request5F15(tc, planId, data)) ==
      Some(Message5F15(planId, data[0].direct, data[0].phaseOrder, |data|, Greens(data), data[0].cycleTime, data[0].offset))
  {
    Request5F15Fields(tc, planId, data);
    var items := seq(|data|, i requires 0 <= i < |data| => SubPhaseEntry(data[i]));
    forall i | 0 <= i < |data|
      ensures MessageBuilder.GreenOf(items[i]) == Some(data[i].green)
    {
      SubPhaseEntryReads(data[i]);
    }
    MessageBuilder.CollectDefined(MessageBuilder.GreenOf, items, |data|);
    MessageBuilder.CollectValues(MessageBuilder.GreenOf, items, |data|);
    assert MessageBuilder.Collect(MessageBuilder.GreenOf, items, |data|).value == Greens(data);
  }

  // ---------------------------------------------------------------------
  // check5FC5: the echo of the plan just written
  // ---------------------------------------------------------------------

  /** A value compared by compareInt, compareString or compareList. */
  datatype Value = IntV(i: int) | TextV(s: string) | ListV(l: seq<int>)

  /** One comparison: what the stored rows say, and what the getter
      returned or the message of the JSONException it threw. */
  datatype Field = Field(name: string, expected: Value, actual: Result<Value, string>)

  /** compareString ignores case; the other two compare exactly. */
  predicate Agrees(expected: Value, actual: Value) {
    if expected.TextV? then actual.TextV? && EqualsIgnoreCase(expected.s, actual.s) else expected == actual
  }

  function JoinInts(l: seq<int>): string {
    if |l| == 0 then "" else if |l| == 1 then DecString(l[0]) else JoinInts(l[..|l| - 1]) + ", " + DecString(l[|l| - 1])
  }

  /** The text a value prints as (`%d`, `%s`, or a list's "[a, b]"). */
  function Show(v: Value): string {
    match v
    case IntV(i) => DecString(i)
    case TextV(s) => s
    case ListV(l) => "[" + JoinInts(l) + "]"
  }

  /** The line a failed comparison appends to the error log. */
  function MismatchLine(f: Field): string
    requires f.actual.Ok?
  {
    f.name + (if f.expected.ListV? then " list" else "") + " mismatch: expected=" + Show(f.expected)
      + ", actual=" + Show(f.actual.value) + "\n"
  }

  /** The line the handler of check5FC5 appends for a thrown exception. */
  function ExceptionLine(message: string): string {
    "Exception: " + message + "\n"
  }

  /** Whether a field is logged as a mismatch: it was read, and differs. */
  predicate Mismatch(f: Field) {
    f.actual.Ok? && !Agrees(f.expected, f.actual.value)
  }

  /** The mismatch lines of a run of comparisons, in order. */
  function MismatchLines(fields: seq<Field>): seq<string> {
    if |fields| == 0 then [] else
      (if Mismatch(fields[0]) then [MismatchLine(fields[0])] else []) + MismatchLines(fields[1..])
  }

  lemma {:induction false} MismatchLinesAppend(fields: seq<Field>, f: Field)
    ensures MismatchLines(fields + [f]) == MismatchLines(fields) + (if Mismatch(f) then [MismatchLine(f)] else [])
  {
    if |fields| > 0 {
      assert (fields + [f])[1..] == fields[1..] + [f];
      MismatchLinesAppend(fields[1..], f);
    }
  }

  /** The comparisons so far: whether all matched, the error-log lines,
      and whether a getter threw (which skips the rest). */
  datatype Tally = Tally(ok: bool, lines: seq<string>, thrown: bool)

  /** `match &= compareX(...)` over the first n fields: every field is
      compared, mismatch or not, until a getter throws. */
  function Compare(fields: seq<Field>, n: nat): Tally
    requires n <= |fields|
  {
    if n == 0 then Tally(true, [], false)
    else
      var prev := Compare(fields, n - 1);
      var f := fields[n - 1];
      if prev.thrown then prev
      else if f.actual.Err? then Tally(false, prev.lines + [ExceptionLine(f.actual.error)], true)
      else if Agrees(f.expected, f.actual.value) then prev
      else Tally(false, prev.lines + [MismatchLine(f)], false)
  }

  /** A getter throws in the comparisons iff some field's read fails. */
  lemma {:induction false} CompareThrows(fields: seq<Field>, n: nat)
    requires n <= |fields|
    ensures !Compare(fields, n).thrown <==> forall i :: 0 <= i < n ==> fields[i].actual.Ok?
  {
    if n > 0 {
      CompareThrows(fields, n - 1);
    }
  }

  /** Without a throw, the result is true iff every field agrees, and the
      log holds one line per mismatch, in order. */
  lemma {:induction false} CompareMatches(fields: seq<Field>, n: nat)
    requires n <= |fields| && forall i :: 0 <= i < n ==> fields[i].actual.Ok?
    ensures Compare(fields, n).ok <==> forall i :: 0 <= i < n ==> Agrees(fields[i].expected, fields[i].actual.value)
    ensures Compare(fields, n).lines == MismatchLines(fields[..n])
  {
    if n > 0 {
      CompareMatches(fields, n - 1);
      CompareThrows(fields, n - 1);
      assert fields[..n] == fields[..n - 1] + [fields[n - 1]];
      MismatchLinesAppend(fields[..n - 1], fields[n - 1]);
    }
  }

  /** With a throw, the log holds the mismatches before the first field
      whose read fails, then that exception's line, and the result is
      false. */
  lemma {:induction false} CompareStopsAtThrow(fields: seq<Field>, j: nat, n: nat)
    requires j < n <= |fields| && fields[j].actual.Err? && forall i :: 0 <= i < j ==> fields[i].actual.Ok?
    ensures Compare(fields, n) == Tally(false, MismatchLines(fields[..j]) + [ExceptionLine(fields[j].actual.error)], true)
  {
    if n == j + 1 {
      CompareThrows(fields, j);
      CompareMatches(fields, j);
    } else {
      CompareStopsAtThrow(fields, j, n - 1);
    }
  }

  /** getInt, getString and getJSONArray with the exception's message. */
  function NotFound(key: string): string {
    "JSONObject[\"" + key + "\"] not found."
  }

  function ReadInt(v: Json, key: string): Result<Value, string> {
    var x := GetInt(v, key);
    if x.None? then Err(NotFound(key)) else Ok(IntV(x.value))
  }

  function ReadText(v: Json, key: string): Result<Value, string> {
    var x := GetString(v, key);
    if x.None? then Err(NotFound(key)) else Ok(TextV(x.value))
  }

  /** jsonArrayToList over the first n elements: getInt of each in turn. */
  function IntsUpTo(items: seq<Json>, n: nat): Result<seq<int>, string>
    requires n <= |items|
  {
    if n == 0 then Ok([])
    else
      var prev := IntsUpTo(items, n - 1);
      var x := AsInt(items[n - 1]);
      if prev.Err? then prev
      else if x.None? then Err("JSONArray[" + DecString(n - 1) + "] is not a number.")
      else Ok(prev.value + [x.value])
  }

  function ReadList(v: Json, key: string): Result<Value, string> {
    var arr := GetArray(v, key);
    if arr.None? then Err(NotFound(key))
    else
      var l := IntsUpTo(arr.value, |arr.value|);
      if l.Err? then Err(l.error) else Ok(ListV(l.value))
  }

  /** The array under key, when it is one whose every element is an int. */
  function IntList(v: Json, key: string): Option<seq<int>> {
    var arr := GetArray(v, key);
    if arr.Some? && forall i :: 0 <= i < |arr.value| ==> AsInt(arr.value[i]).Some?
    then Some(seq(|arr.value|, i requires 0 <= i < |arr.value| && AsInt(arr.value[i]).Some? => AsInt(arr.value[i]).value))
    else None
  }

  lemma {:induction false} IntsUpToMeaning(items: seq<Json>, n: nat)
    requires n <= |items|
    ensures IntsUpTo(items, n).Ok? <==> forall i :: 0 <= i < n ==> AsInt(items[i]).Some?
    ensures IntsUpTo(items, n).Ok? ==>
      |IntsUpTo(items, n).value| == n && forall i :: 0 <= i < n ==> Some(IntsUpTo(items, n).value[i]) == AsInt(items[i])
  {
    if n > 0 {
      IntsUpToMeaning(items, n - 1);
    }
  }

  /** jsonArrayToList reads exactly the array's elements as ints, and
      throws when one of them is not an int. */
  lemma ReadListMeaning(v: Json, key: string)
    ensures ReadList(v, key).Ok? <==> IntList(v, key).Some?
    ensures ReadList(v, key).Ok? ==> ReadList(v, key).value == ListV(IntList(v, key).value)
  {
    var arr := GetArray(v, key);
    if arr.Some? {
      IntsUpToMeaning(arr.value, |arr.value|);
    }
  }

  /** The eight scalar comparisons of check5FC5, in order. */
  function ScalarFields(data: seq<DynamicParameters>, v4: Json, v5: Json, planId: int): seq<Field>
    requires |data| > 0
  {
    var first := data[0];
    [ Field("planId (5fc4)", IntV(planId), ReadInt(v4, "planId")),
      Field("planId (5fc5)", IntV(planId), ReadInt(v5, "planId")),
      Field("cycleTime", IntV(first.cycleTime), ReadInt(v5, "cycleTime")),
      Field("direct", IntV(first.direct), ReadInt(v5, "direct")),
      Field("phaseOrder", TextV(first.phaseOrder), ReadText(v5, "phaseOrder")),
      Field("subPhaseCount (5fc4)", IntV(|data|), ReadInt(v4, "subPhaseCount")),
      Field("subPhaseCount (5fc5)", IntV(|data|), ReadInt(v5, "subPhaseCount")),
      Field("offset", IntV(first.offset), ReadInt(v5, "offset")) ]
  }

  /** The per-row timings compared as lists. */
  datatype Timing = GreenT | MinGreenT | MaxGreenT | YellowT | AllRedT | PedGreenFlashT | PedRedT

  function TimingOf(p: DynamicParameters, t: Timing): int {
    match t
    case GreenT => p.green
    case MinGreenT => p.minGreen
    case MaxGreenT => p.maxGreen
    case YellowT => p.yellow
    case AllRedT => p.allRed
    case PedGreenFlashT => p.pedGreenFlash
    case PedRedT => p.pedRed
  }

  /** One timing of every row, in row order. */
  function Column(data: seq<DynamicParameters>, t: Timing): (r: seq<int>)
    ensures |r| == |data| && forall i :: 0 <= i < |data| ==> r[i] == TimingOf(data[i], t)
  {
    seq(|data|, i requires 0 <= i < |data| => TimingOf(data[i], t))
  }

  /** The seven list comparisons of check5FC5, in order. */
  function ListFields(data: seq<DynamicParameters>, v4: Json, v5: Json): seq<Field> {
    [ Field("green", ListV(Column(data, GreenT)), ReadList(v5, "green")),
      Field("minGreen", ListV(Column(data, MinGreenT)), ReadList(v4, "minGreen")),
      Field("maxGreen", ListV(Column(data, MaxGreenT)), ReadList(v4, "maxGreen")),
      Field("yellow", ListV(Column(data, YellowT)), ReadList(v4, "yellow")),
      Field("allRed", ListV(Column(data, AllRedT)), ReadList(v4, "allRed")),
      Field("pedGreenFlash", ListV(Column(data, PedGreenFlashT)), ReadList(v4, "pedGreenFlash")),
      Field("pedRed", ListV(Column(data, PedRedT)), ReadList(v4, "pedRed")) ]
  }

  function Concat(lines: seq<string>): string {
    if |lines| == 0 then "" else Concat(lines[..|lines| - 1]) + lines[|lines| - 1]
  }

  /** The verdict of check5FC5 and what it wrote to errorLog. */
  datatype Echo = Echo(matched: bool, errorLog: string)

  /** check5FC5: the scalars are all compared; the lists only when every
      scalar matched; an exception (an empty list has no first row, a
      getter throws) is logged and gives false. */
  function Check5FC5(data: seq<DynamicParameters>, v4: Json, v5: Json, planId: int): Echo {
    if |data| == 0 then Echo(false, ExceptionLine("null"))
    else
      var basic := Compare(ScalarFields(data, v4, v5, planId), 8);
      if basic.thrown || !basic.ok then Echo(false, Concat(basic.lines))
      else
        var lists := Compare(ListFields(data, v4, v5), 7);
        Echo(lists.ok && !lists.thrown, Concat(basic.lines + lists.lines))
  }

  /** What the device must echo for the check to pass: the plan id in
      both replies, the first row's cycle time, direction, phase order
      (in any case) and offset, the row count in both replies, and each
      timing column in row order. */
  predicate EchoesPlan(data: seq<DynamicParameters>, v4: Json, v5: Json, planId: int)
    requires |data| > 0
  {
    && GetInt(v4, "planId") == Some(planId) && GetInt(v5, "planId") == Some(planId)
    && GetInt(v5, "cycleTime") == Some(data[0].cycleTime) && GetInt(v5, "direct") == Some(data[0].direct)
    && GetString(v5, "phaseOrder").Some? && EqualsIgnoreCase(data[0].phaseOrder, GetString(v5, "phaseOrder").value)
    && GetInt(v4, "subPhaseCount") == Some(|data|) && GetInt(v5, "subPhaseCount") == Some(|data|)
    && GetInt(v5, "offset") == Some(data[0].offset)
    && IntList(v5, "green") == Some(Column(data, GreenT))
    && IntList(v4, "minGreen") == Some(Column(data, MinGreenT))
    && IntList(v4, "maxGreen") == Some(Column(data, MaxGreenT))
    && IntList(v4, "yellow") == Some(Column(data, YellowT))
    && IntList(v4, "allRed") == Some(Column(data, AllRedT))
    && IntList(v4, "pedGreenFlash") == Some(Column(data, PedGreenFlashT))
    && IntList(v4, "pedRed") == Some(Column(data, PedRedT))
  }

  /** A field is read and agrees. */
  predicate Passes(f: Field) {
    f.actual.Ok? && Agrees(f.expected, f.actual.value)
  }

  /** Whether the comparisons so far all passed without a throw. */
  predicate AllPassed(t: Tally) {
    t.ok && !t.thrown
  }

  lemma CompareStep(fields: seq<Field>, n: nat)
    requires n < |fields|
    ensures AllPassed(Compare(fields, n + 1)) <==> AllPassed(Compare(fields, n)) && Passes(fields[n])
  {
  }

  lemma {:induction false} ComparePasses(fields: seq<Field>, n: nat)
    requires n <= |fields|
    ensures AllPassed(Compare(fields, n)) <==> forall i :: 0 <= i < n ==> Passes(fields[i])
  {
    if n > 0 {
      ComparePasses(fields, n - 1);
      CompareStep(fields, n - 1);
    }
  }

  lemma IntFieldPasses(name: string, expected: int, v: Json, key: string)
    ensures Passes(Field(name, IntV(expected), ReadInt(v, key))) <==> GetInt(v, key) == Some(expected)
  {
  }

  lemma TextFieldPasses(name: string, expected: string, v: Json, key: string)
    ensures Passes(Field(name, TextV(expected), ReadText(v, key))) <==>
      GetString(v, key).Some? && EqualsIgnoreCase(expected, GetString(v, key).value)
  {
  }

  lemma ListFieldPasses(name: string, data: seq<DynamicParameters>, t: Timing, v: Json, key: string)
    ensures Passes(Field(name, ListV(Column(data, t)), ReadList(v, key))) <==> IntList(v, key) == Some(Column(data, t))
  {
    ReadListMeaning(v, key);
  }

  lemma ScalarsPass(data: seq<DynamicParameters>, v4: Json, v5: Json, planId: int)
    requires |data| > 0
    ensures AllPassed(Compare(ScalarFields(data, v4, v5, planId), 8)) <==>
      && GetInt(v4, "planId") == Some(planId) && GetInt(v5, "planId") == Some(planId)
      && GetInt(v5, "cycleTime") == Some(data[0].cycleTime) && GetInt(v5, "direct") == Some(data[0].direct)
      && GetString(v5, "phaseOrder").Some? && EqualsIgnoreCase(data[0].phaseOrder, GetString(v5, "phaseOrder").value)
      && GetInt(v4, "subPhaseCount") == Some(|data|) && GetInt(v5, "subPhaseCount") == Some(|data|)
      && GetInt(v5, "offset") == Some(data[0].offset)
  {
    var fs := ScalarFields(data, v4, v5, planId);
    ComparePasses(fs, 8);
    IntFieldPasses(fs[0].name, planId, v4, "planId");
    IntFieldPasses(fs[1].name, planId, v5, "planId");
    IntFieldPasses(fs[2].name, data[0].cycleTime, v5, "cycleTime");
    IntFieldPasses(fs[3].name, data[0].direct, v5, "direct");
    TextFieldPasses(fs[4].name, data[0].phaseOrder, v5, "phaseOrder");
    IntFieldPasses(fs[5].name, |data|, v4, "subPhaseCount");
    IntFieldPasses(fs[6].name, |data|, v5, "subPhaseCount");
    IntFieldPasses(fs[7].name, data[0].offset, v5, "offset");
  }

  lemma ListsPass(data: seq<DynamicParameters>, v4: Json, v5: Json)
    ensures AllPassed(Compare(ListFields(data, v4, v5), 7)) <==>
      && IntList(v5, "green") == Some(Column(data, GreenT))
      && IntList(v4, "minGreen") == Some(Column(data, MinGreenT))
      && IntList(v4, "maxGreen") == Some(Column(data, MaxGreenT))
      && IntList(v4, "yellow") == Some(Column(data, YellowT))
      && IntList(v4, "allRed") == Some(Column(data, AllRedT))
      && IntList(v4, "pedGreenFlash") == Some(Column(data, PedGreenFlashT))
      && IntList(v4, "pedRed") == Some(Column(data, PedRedT))
  {
    var fs := ListFields(data, v4, v5);
    ComparePasses(fs, 7);
    ListFieldPasses(fs[0].name, data, GreenT, v5, "green");
    ListFieldPasses(fs[1].name, data, MinGreenT, v4, "minGreen");
    ListFieldPasses(fs[2].name, data, MaxGreenT, v4, "maxGreen");
    ListFieldPasses(fs[3].name, data, YellowT, v4, "yellow");
    ListFieldPasses(fs[4].name, data, AllRedT, v4, "allRed");
    ListFieldPasses(fs[5].name, data, PedGreenFlashT, v4, "pedGreenFlash");
    ListFieldPasses(fs[6].name, data, PedRedT, v4, "pedRed");
  }

  /** check5FC5 passes exactly when the device echoes the plan. */
  lemma Check5FC5Meaning(data: seq<DynamicParameters>, v4: Json, v5: Json, planId: int)
    ensures Check5FC5(data, v4, v5, planId).matched <==> |data| > 0 && EchoesPlan(data, v4, v5, planId)
  {
    if |data| > 0 {
      ScalarsPass(data, v4, v5, planId);
      ListsPass(data, v4, v5);
    }
  }

  /** When every scalar is read and one differs, the log holds one line
      per differing scalar, in order, and nothing about the lists. */
  lemma ScalarMismatchSkipsLists(data: seq<DynamicParameters>, v4: Json, v5: Json, planId: int)
    requires |data| > 0
    requires forall i :: 0 <= i < 8 ==> ScalarFields(data, v4, v5, planId)[i].actual.Ok?
    requires exists i :: 0 <= i < 8 && Mismatch(ScalarFields(data, v4, v5, planId)[i])
    ensures Check5FC5(data, v4, v5, planId) == Echo(false, Concat(MismatchLines(ScalarFields(data, v4, v5, planId))))
  {
    var fs := ScalarFields(data, v4, v5, planId);
    CompareThrows(fs, 8);
    CompareMatches(fs, 8);
    assert fs[..8] == fs;
  }

  // ---------------------------------------------------------------------
  // checkConditionMatch: binding, evaluation and counting
  // ---------------------------------------------------------------------

  /** `key.split("-")[1]`; None where the index is out of bounds. */
  function SubIdOf(key: string): Option<string> {
    var parts := JavaSplit(key, '-');
    if |parts| >= 2 then Some(parts[1]) else None
  }

  /** Whether a threshold entry takes part in a program's condition: its
      key starts with the program id (so "2100" also takes "21001-1"). */
  predicate Selected(thresholds: map<string, Threshold>, programId: string, key: string) {
    key in thresholds && StartsWith(key, programId)
  }

  /** The sub-id replacements of checkConditionMatch over the first n
      keys of the entry set, in its iteration order: each selected key
      binds its sub-id to its match flag, unless an earlier key already
      replaced that sub-id.  None where a key has no sub-id. */
  function Bindings(thresholds: map<string, Threshold>, programId: string, order: seq<string>, n: nat): Option<map<string, bool>>
    requires n <= |order|
  {
    if n == 0 then Some(map[])
    else
      var prev := Bindings(thresholds, programId, order, n - 1);
      var key := order[n - 1];
      if prev.None? || !Selected(thresholds, programId, key) then prev
      else
        var sub := SubIdOf(key);
        if sub.None? then None
        else if sub.value in prev.value then prev
        else Some(prev.value[sub.value := thresholds[key].isMatch])
  }

  /** The key at index i carries sub-id sub and takes part. */
  predicate Carries(thresholds: map<string, Threshold>, programId: string, order: seq<string>, i: nat, sub: string)
    requires i < |order|
  {
    Selected(thresholds, programId, order[i]) && SubIdOf(order[i]) == Some(sub)
  }

  /** A sub-id is bound iff some selected key among the first n carries it. */
  lemma {:induction false} BindingsDomain(thresholds: map<string, Threshold>, programId: string, order: seq<string>, n: nat, sub: string)
    requires n <= |order| && Bindings(thresholds, programId, order, n).Some?
    ensures sub in Bindings(thresholds, programId, order, n).value <==>
      exists i :: 0 <= i < n && Carries(thresholds, programId, order, i, sub)
  {
    if n > 0 {
      BindingsDomain(thresholds, programId, order, n - 1, sub);
      if Carries(thresholds, programId, order, n - 1, sub) {
        assert sub in Bindings(thresholds, programId, order, n).value;
      }
    }
  }

  /** The first key carrying a sub-id decides its binding: later keys
      with the same sub-id do not replace it. */
  lemma {:induction false} BindingsFirstWins(thresholds: map<string, Threshold>, programId: string, order: seq<string>, n: nat, i: nat, sub: string)
    requires i < n <= |order| && Bindings(thresholds, programId, order, n).Some?
    requires Carries(thresholds, programId, order, i, sub)
    requires forall j :: 0 <= j < i ==> !Carries(thresholds, programId, order, j, sub)
    ensures sub in Bindings(thresholds, programId, order, n).value
    ensures Bindings(thresholds, programId, order, n).value[sub] == thresholds[order[i]].isMatch
  {
    if n == i + 1 {
      BindingsDomain(thresholds, programId, order, i, sub);
    } else {
      BindingsFirstWins(thresholds, programId, order, n - 1, i, sub);
    }
  }

  /** The SpEL evaluation of the rewritten condition: `and`/`or` skip
      their right side once the left decides; a sub-id left unreplaced
      is a number, which does not convert to a boolean (None). */
  function Eval(c: Cond, env: map<string, bool>): Option<bool> {
    match c
    case Var(s) => if s in env then Some(env[s]) else None
    case Lit(b) => Some(b)
    case Not(x) => var v := Eval(x, env); if v.None? then None else Some(!v.value)
    case And(l, r) =>
      var v := Eval(l, env);
      if v.None? then None else if !v.value then Some(false) else Eval(r, env)
    case Or(l, r) =>
      var v := Eval(l, env);
      if v.None? then None else if v.value then Some(true) else Eval(r, env)
  }

  /** The sub-ids a condition mentions. */
  function Vars(c: Cond): set<string> {
    match c
    case Var(s) => {s}
    case Lit(_) => {}
    case Not(x) => Vars(x)
    case And(l, r) => Vars(l) + Vars(r)
    case Or(l, r) => Vars(l) + Vars(r)
  }

  /** The boolean meaning of a condition under a total binding. */
  predicate Holds(c: Cond, env: map<string, bool>)
    requires Vars(c) <= env.Keys
  {
    match c
    case Var(s) => env[s]
    case Lit(b) => b
    case Not(x) => !Holds(x, env)
    case And(l, r) => Holds(l, env) && Holds(r, env)
    case Or(l, r) => Holds(l, env) || Holds(r, env)
  }

  /** Once every sub-id of the condition is bound, the evaluation never
      throws and gives the condition's boolean meaning. */
  lemma {:induction false} EvalMeaning(c: Cond, env: map<string, bool>)
    requires Vars(c) <= env.Keys
    ensures Eval(c, env) == Some(Holds(c, env))
  {
    match c
    case Var(s) =>
    case Lit(b) =>
    case Not(x) => EvalMeaning(x, env);
    case And(l, r) => EvalMeaning(l, env); EvalMeaning(r, env);
    case Or(l, r) => EvalMeaning(l, env); EvalMeaning(r, env);
  }

  /** The verdict checkConditionMatch acts on; None where it throws. */
  function Verdict(cond: Cond, thresholds: map<string, Threshold>, programId: string, order: seq<string>): Option<bool> {
    var env := Bindings(thresholds, programId, order, |order|);
    if env.None? then None else Eval(cond, env.value)
  }

  /** A condition after one verdict, and whether dynamicTrigger ran. */
  datatype Counted = Counted(condition: Condition, fired: bool)

  /** The counting of checkConditionMatch: a true verdict counts one more
      match and, on reaching consecutiveMatches, triggers and resets the
      count; a false one resets it; a thrown evaluation changes nothing. */
  function CountMatch(c: Condition, verdict: Option<bool>): Counted {
    if verdict.None? then Counted(c, false)
    else if !verdict.value then Counted(c.(consecutiveCounts := 0), false)
    else if c.consecutiveCounts + 1 == c.consecutiveMatches then Counted(c.(consecutiveCounts := 0), true)
    else Counted(c.(consecutiveCounts := c.consecutiveCounts + 1), false)
  }

  /** A count below the goal stays below it, and only the expression and
      the goal are kept. */
  lemma CountStaysBelow(c: Condition, verdict: Option<bool>)
    requires 0 <= c.consecutiveCounts < c.consecutiveMatches
    ensures var r := CountMatch(c, verdict).condition;
      0 <= r.consecutiveCounts < r.consecutiveMatches
      && r.conditionExpression == c.conditionExpression && r.consecutiveMatches == c.consecutiveMatches
  {
  }

  /** k true verdicts in a row. */
  function TrueRun(c: Condition, k: nat): Condition {
    if k == 0 then c else CountMatch(TrueRun(c, k - 1), Some(true)).condition
  }

  /** A run of a + b true verdicts is a run of a followed by a run of b. */
  lemma {:induction false} TrueRunSplit(c: Condition, a: nat, b: nat)
    ensures TrueRun(c, a + b) == TrueRun(TrueRun(c, a), b)
  {
    if b > 0 {
      TrueRunSplit(c, a, b - 1);
    }
  }

  /** From a count of zero, the first consecutiveMatches - 1 true
      verdicts count up without triggering. */
  lemma {:induction false} TrueRunCounts(c: Condition, k: nat)
    requires c.consecutiveCounts == 0 && k < c.consecutiveMatches
    ensures TrueRun(c, k) == c.(consecutiveCounts := k)
  {
    if k > 0 {
      TrueRunCounts(c, k - 1);
    }
  }

  /** From a count of zero, the true verdicts trigger exactly at every
      consecutiveMatches-th one: the count after k of them is the count
      after k - consecutiveMatches, and below the goal it is k itself;
      the k-th triggers iff the count falls back to zero. */
  lemma TrueRunFires(c: Condition, k: nat)
    requires c.consecutiveCounts == 0 && c.consecutiveMatches >= 1
    ensures k < c.consecutiveMatches ==> TrueRun(c, k).consecutiveCounts == k
    ensures TrueRun(c, k + c.consecutiveMatches) == TrueRun(c, k)
    ensures k >= 1 ==> (CountMatch(TrueRun(c, k - 1), Some(true)).fired <==> TrueRun(c, k).consecutiveCounts == 0)
  {
    var m := c.consecutiveMatches;
    TrueRunCounts(c, m - 1);
    assert TrueRun(c, m) == c;
    TrueRunSplit(c, m, k);
    if k < m {
      TrueRunCounts(c, k);
    }
    if k >= 1 {
      TrueRunInRange(c, k - 1);
      assert TrueRun(c, k) == CountMatch(TrueRun(c, k - 1), Some(true)).condition;
    }
  }

  /** A run from zero keeps the count in range and the goal unchanged. */
  lemma {:induction false} TrueRunInRange(c: Condition, k: nat)
    requires c.consecutiveCounts == 0 && c.consecutiveMatches >= 1
    ensures 0 <= TrueRun(c, k).consecutiveCounts < c.consecutiveMatches
    ensures TrueRun(c, k).consecutiveMatches == c.consecutiveMatches
  {
    if k > 0 {
      TrueRunInRange(c, k - 1);
    }
  }

  /** A count already at or past the goal (a goal of zero or less, say)
      never triggers: the count only grows. */
  lemma NeverFiresPastGoal(c: Condition)
    requires c.consecutiveCounts >= c.consecutiveMatches
    ensures !CountMatch(c, Some(true)).fired
    ensures CountMatch(c, Some(true)).condition.consecutiveCounts == c.consecutiveCounts + 1
  {
  }

  // ---------------------------------------------------------------------
  // triggerDynamicControl: the handshake with one controller
  // ---------------------------------------------------------------------

  /** What the world answers during one handshake attempt: the verdict of
      each send handler, the 5FC0/5FC4/5FC5 values recorded within the
      16-second wait (None when none arrived), and the stored parameters. */
  datatype Replies = Replies(
    ack5F10: bool,
    ack5F40: bool,
    value5FC0: Option<Json>,
    params: seq<DynamicParameters>,
    ack5F15: bool,
    ack5F45: bool,
    value5FC4: Option<Json>,
    value5FC5: Option<Json>,
    ack5F18: bool)

  /** Why an attempt failed: the DynamicException of each step. */
  datatype Failure =
    | Rejected5F10
    | Rejected5F40
    | Missing5FC0
    | Unreadable5FC0(key: string)
    | Mismatched5FC0
    | NoParameters(programId: string, tc: string, planId: int)
    | Rejected5F15
    | Rejected5F45
    | Missing5FC5
    | Mismatched5FC5(errorLog: string)
    | Rejected5F18

  /** The exception's message; a JSON exception keeps org.json's text. */
  function Message(f: Failure): string {
    match f
    case Rejected5F10 => "5F10 dynamic control setting failed"
    case Rejected5F40 => "5F40 dynamic control check failed"
    case Missing5FC0 => "5FC0 null failed"
    case Unreadable5FC0(key) => NotFound(key)
    case Mismatched5FC0 => "5FC0 parameter mismatch failed"
    case NoParameters(programId, tc, planId) =>
      "Dynamic parameters not found for programId: " + programId + ", tcId: " + tc + ", targetPlanId: " + DecString(planId)
    case Rejected5F15 => "5F15 dynamic parameters setting failed"
    case Rejected5F45 => "5F45 dynamic parameters check failed"
    case Missing5FC5 => "5FC5 null failed"
    case Mismatched5FC5(errorLog) => "5FC5 parameter mismatch failed, " + errorLog
    case Rejected5F18 => "5F18 enable target plan ID failed"
  }

  /** The requests of one attempt, and how it ended. */
  datatype Attempt = Attempt(sent: seq<Request>, outcome: Result<(), Failure>)

  /** The check of send5F40: ControlStrategy first, EffectTime only when
      the strategy agrees; a missing or non-numeric member throws. */
  function Check5FC0(v: Json, controlStrategy: int): Result<(), Failure> {
    var cs := GetInt(v, "ControlStrategy");
    if cs.None? then Err(Unreadable5FC0("ControlStrategy"))
    else if cs.value != controlStrategy then Err(Mismatched5FC0)
    else
      var et := GetInt(v, "EffectTime");
      if et.None? then Err(Unreadable5FC0("EffectTime"))
      else if et.value != EffectTime then Err(Mismatched5FC0)
      else Ok(())
  }

  /** 5FC0 passes iff it echoes the strategy and the effect time. */
  lemma Check5FC0Meaning(v: Json, controlStrategy: int)
    ensures Check5FC0(v, controlStrategy).Ok? <==>
      GetInt(v, "ControlStrategy") == Some(controlStrategy) && GetInt(v, "EffectTime") == Some(EffectTime)
  {
  }

  /** The plan every dynamic switch goes to. */
  const DynamicPlan: int := 0

  /** The second half of an attempt, once parameters exist: 5F15, 5F45
      and its 5FC4/5FC5 echo, and 5F18, all for plan 0. */
  function Configure(tc: string, r: Replies): Attempt {
    var s3 := [Set5F15(tc, DynamicPlan, r.params)];
    if !r.ack5F15 then Attempt(s3, Err(Rejected5F15))
    else
      var s4 := s3 + [Check5F45(tc, DynamicPlan)];
      if !r.ack5F45 then Attempt(s4, Err(Rejected5F45))
      else if r.value5FC4.None? || r.value5FC5.None? then Attempt(s4, Err(Missing5FC5))
      else
        var echo := Check5FC5(r.params, r.value5FC4.value, r.value5FC5.value, DynamicPlan);
        if !echo.matched then Attempt(s4, Err(Mismatched5FC5(echo.errorLog)))
        else
          var s5 := s4 + [Enable5F18(tc, DynamicPlan)];
          if !r.ack5F18 then Attempt(s5, Err(Rejected5F18))
          else Attempt(s5, Ok(()))
  }

  /** One attempt: 5F10 with the dynamic strategy, 5F40 and its 5FC0 echo,
      the stored parameters, then the second half; the first step that
      fails ends the attempt with its message. */
  function Handshake(programId: string, tc: string, planId: int, r: Replies): Attempt {
    var s1 := [Set5F10(tc, DynamicCode)];
    if !r.ack5F10 then Attempt(s1, Err(Rejected5F10))
    else
      var s2 := s1 + [Check5F40(tc)];
      if !r.ack5F40 then Attempt(s2, Err(Rejected5F40))
      else if r.value5FC0.None? then Attempt(s2, Err(Missing5FC0))
      else if Check5FC0(r.value5FC0.value, DynamicCode).Err? then Attempt(s2, Err(Check5FC0(r.value5FC0.value, DynamicCode).error))
      else if |r.params| == 0 then Attempt(s2, Err(NoParameters(programId, tc, planId)))
      else
        var rest := Configure(tc, r);
        Attempt(s2 + rest.sent, rest.outcome)
  }

  /** Every request of a complete handshake, in order. */
  function Planned(tc: string, params: seq<DynamicParameters>): seq<Request> {
    [Set5F10(tc, DynamicCode), Check5F40(tc)]
      + if |params| == 0 then [] else [Set5F15(tc, DynamicPlan, params), Check5F45(tc, DynamicPlan), Enable5F18(tc, DynamicPlan)]
  }

  /** Whether the controller's replies carry the handshake through: every
      handler accepts, 5FC0 echoes the dynamic strategy, parameters exist
      and 5FC4/5FC5 echo them for plan 0. */
  predicate Accepts(r: Replies) {
    r.ack5F10 && r.ack5F40 && r.value5FC0.Some?
    && GetInt(r.value5FC0.value, "ControlStrategy") == Some(DynamicCode)
    && GetInt(r.value5FC0.value, "EffectTime") == Some(EffectTime)
    && |r.params| > 0 && r.ack5F15 && r.ack5F45 && r.value5FC4.Some? && r.value5FC5.Some?
    && EchoesPlan(r.params, r.value5FC4.value, r.value5FC5.value, DynamicPlan)
    && r.ack5F18
  }

  /** An attempt succeeds iff the replies carry it through. */
  lemma HandshakeSucceeds(programId: string, tc: string, planId: int, r: Replies)
    ensures Handshake(programId, tc, planId, r).outcome.Ok? <==> Accepts(r)
  {
    if r.value5FC0.Some? {
      Check5FC0Meaning(r.value5FC0.value, DynamicCode);
    }
    if r.value5FC4.Some? && r.value5FC5.Some? {
      Check5FC5Meaning(r.params, r.value5FC4.value, r.value5FC5.value, DynamicPlan);
    }
  }

  /** The requests of the second half are a prefix of 5F15, 5F45, 5F18,
      and all three once it succeeds. */
  lemma ConfigureSendsPlanned(tc: string, r: Replies)
    ensures Configure(tc, r).sent <= [Set5F15(tc, DynamicPlan, r.params), Check5F45(tc, DynamicPlan), Enable5F18(tc, DynamicPlan)]
    ensures Configure(tc, r).outcome.Ok? ==> Configure(tc, r).sent == [Set5F15(tc, DynamicPlan, r.params), Check5F45(tc, DynamicPlan), Enable5F18(tc, DynamicPlan)]
  {
  }

  /** The requests of an attempt are a prefix of the planned ones: the
      steps run in order and the first failure aborts the rest; a success
      sends them all. */
  lemma HandshakeSendsPlanned(programId: string, tc: string, planId: int, r: Replies)
    ensures Handshake(programId, tc, planId, r).sent <= Planned(tc, r.params)
    ensures |Handshake(programId, tc, planId, r).sent| >= 1
    ensures Handshake(programId, tc, planId, r).outcome.Ok? ==> Handshake(programId, tc, planId, r).sent == Planned(tc, r.params)
  {
    ConfigureSendsPlanned(tc, r);
  }

  /** Every planned request goes to the device being switched and can be
      written. */
  lemma PlannedTargets(tc: string, params: seq<DynamicParameters>)
    ensures forall q :: q in Planned(tc, params) ==> q.tc == tc && Writable(q)
  {
  }

  // ---------------------------------------------------------------------
  // dynamicTrigger: retries, fallback and the pass over devices
  // ---------------------------------------------------------------------

  /** What the trigger pass learns from outside: the device table (ip by
      tc id, enable flag by id), the socket state of each host, the
      replies of each attempt on each device, the verdict on the closing
      5F10, and the clock's text for notices. */
  datatype World = World(
    ipOf: map<string, string>,
    enableOf: map<string, int>,
    connected: string -> bool,
    replies: string -> nat -> Replies,
    closeAck: string -> bool,
    now: string)

  /** What a stretch of the pass has done. */
  datatype Outcome = Outcome(sent: seq<Request>, logs: seq<DynamicLog>, notices: seq<Notice>, success: bool)

  /** The attempts on one device, numbered from 0. */
  function AttemptsOf(programId: string, tc: string, planId: int, w: World): nat -> Attempt {
    (j: nat) => Handshake(programId, tc, planId, w.replies(tc)(j))
  }

  /** The retry loop over its first n attempts: each attempt logs its
      start and then its success (with a notice) or its failure; the loop
      stops at the first success. */
  function Tries(programId: string, tc: string, planId: int, attempts: nat -> Attempt, now: string, n: nat): Outcome
    requires n <= MaxRetry
  {
    if n == 0 then Outcome([], [], [], false)
    else
      var prev := Tries(programId, tc, planId, attempts, now, n - 1);
      if prev.success then prev
      else
        var a := attempts(n - 1);
        var start := DynamicLog(programId, tc, planId, Applying);
        if a.outcome.Ok? then
          Outcome(prev.sent + a.sent, prev.logs + [start, DynamicLog(programId, tc, planId, Applied)], prev.notices + [Notice(tc, now)], true)
        else
          Outcome(prev.sent + a.sent, prev.logs + [start, DynamicLog(programId, tc, planId, ApplyFailed(a.outcome.error))], prev.notices, false)
  }

  /** Once an attempt has succeeded, no further attempt is made. */
  lemma {:induction false} TriesSettled(programId: string, tc: string, planId: int, attempts: nat -> Attempt, now: string, n: nat, k: nat)
    requires n <= k <= MaxRetry && Tries(programId, tc, planId, attempts, now, n).success
    ensures Tries(programId, tc, planId, attempts, now, k) == Tries(programId, tc, planId, attempts, now, n)
  {
    if k > n {
      TriesSettled(programId, tc, planId, attempts, now, n, k - 1);
    }
  }

  /** The loop succeeds iff one of its attempts does. */
  lemma {:induction false} TriesSucceed(programId: string, tc: string, planId: int, attempts: nat -> Attempt, now: string, n: nat)
    requires n <= MaxRetry
    ensures Tries(programId, tc, planId, attempts, now, n).success <==> exists j :: 0 <= j < n && attempts(j).outcome.Ok?
  {
    if n > 0 {
      TriesSucceed(programId, tc, planId, attempts, now, n - 1);
    }
  }

  /** A loop that never succeeds logs a start and a failure, with the
      attempt's own reason, for each of its attempts, and notifies no one. */
  lemma {:induction false} TriesFailing(programId: string, tc: string, planId: int, attempts: nat -> Attempt, now: string, n: nat)
    requires n <= MaxRetry && !Tries(programId, tc, planId, attempts, now, n).success
    ensures var t := Tries(programId, tc, planId, attempts, now, n);
      |t.logs| == 2 * n && t.notices == []
      && forall j :: 0 <= j < n ==>
        attempts(j).outcome.Err?
        && t.logs[2 * j] == DynamicLog(programId, tc, planId, Applying)
        && t.logs[2 * j + 1] == DynamicLog(programId, tc, planId, ApplyFailed(attempts(j).outcome.error))
  {
    if n > 0 {
      TriesFailing(programId, tc, planId, attempts, now, n - 1);
    }
  }

  /** The first successful attempt ends the loop: its success is logged
      after the failures before it, and exactly one notice goes out. */
  lemma {:induction false} TriesFirstSuccess(programId: string, tc: string, planId: int, attempts: nat -> Attempt, now: string, n: nat, j: nat)
    requires j < n <= MaxRetry
    requires attempts(j).outcome.Ok? && forall i :: 0 <= i < j ==> attempts(i).outcome.Err?
    ensures var t := Tries(programId, tc, planId, attempts, now, n);
      t.success && |t.logs| == 2 * (j + 1) && t.logs[2 * j + 1] == DynamicLog(programId, tc, planId, Applied)
      && t.notices == [Notice(tc, now)]
  {
    TriesSucceed(programId, tc, planId, attempts, now, j);
    TriesFailing(programId, tc, planId, attempts, now, j);
    TriesSettled(programId, tc, planId, attempts, now, j + 1, n);
  }

  /** Whatever holds of every request of every attempt holds of the loop's
      requests. */
  predicate SentAll(attempts: nat -> Attempt, n: nat, tc: string) {
    forall j, q :: 0 <= j < n && q in attempts(j).sent ==> q.tc == tc && Writable(q) && q != Set5F10(tc, TodCode)
  }

  lemma {:induction false} TriesTargets(programId: string, tc: string, planId: int, attempts: nat -> Attempt, now: string, n: nat)
    requires n <= MaxRetry && SentAll(attempts, n, tc)
    ensures forall q :: q in Tries(programId, tc, planId, attempts, now, n).sent ==> q.tc == tc && Writable(q) && q != Set5F10(tc, TodCode)
  {
    if n > 0 {
      TriesTargets(programId, tc, planId, attempts, now, n - 1);
    }
  }

  /** Later attempts only append to what earlier ones sent. */
  lemma {:induction false} TriesPrefix(programId: string, tc: string, planId: int, attempts: nat -> Attempt, now: string, n: nat, k: nat)
    requires n <= k <= MaxRetry
    ensures Tries(programId, tc, planId, attempts, now, n).sent <= Tries(programId, tc, planId, attempts, now, k).sent
  {
    if k > n {
      TriesPrefix(programId, tc, planId, attempts, now, n, k - 1);
    }
  }

  /** The retries, then, when all three failed, the 5F10 that returns the
      device to the TOD strategy, logged as its verdict closeAck says. */
  function ApplyWith(programId: string, tc: string, planId: int, attempts: nat -> Attempt, now: string, closeAck: bool): Outcome {
    var t := Tries(programId, tc, planId, attempts, now, MaxRetry);
    if t.success then t
    else
      var closing := if closeAck then Closed else CloseFailed;
      Outcome(t.sent + [Set5F10(tc, TodCode)], t.logs + [DynamicLog(programId, tc, planId, closing)], t.notices, false)
  }

  /** The switch of one device, its attempts being handshakes with the
      world's replies. */
  function Apply(programId: string, tc: string, planId: int, w: World): Outcome {
    ApplyWith(programId, tc, planId, AttemptsOf(programId, tc, planId, w), w.now, w.closeAck(tc))
  }

  /** Every attempt on a device sends only to it, never the TOD 5F10. */
  lemma AttemptsTarget(programId: string, tc: string, planId: int, w: World)
    ensures SentAll(AttemptsOf(programId, tc, planId, w), MaxRetry, tc)
  {
    forall j, q | 0 <= j < MaxRetry && q in AttemptsOf(programId, tc, planId, w)(j).sent
      ensures q.tc == tc && Writable(q) && q != Set5F10(tc, TodCode)
    {
      var r := w.replies(tc)(j);
      HandshakeSendsPlanned(programId, tc, planId, r);
      PlannedTargets(tc, r.params);
    }
  }

  /** The switch succeeds iff one of the three attempts is accepted. */
  lemma ApplySucceeds(programId: string, tc: string, planId: int, w: World)
    ensures Apply(programId, tc, planId, w).success <==> exists j :: 0 <= j < MaxRetry && Accepts(w.replies(tc)(j))
  {
    var attempts := AttemptsOf(programId, tc, planId, w);
    TriesSucceed(programId, tc, planId, attempts, w.now, MaxRetry);
    forall j | 0 <= j < MaxRetry
      ensures attempts(j).outcome.Ok? <==> Accepts(w.replies(tc)(j))
    {
      HandshakeSucceeds(programId, tc, planId, w.replies(tc)(j));
    }
  }

  /** The fallback 5F10 with the TOD strategy is sent exactly once when
      no attempt succeeded, and never otherwise; every request goes to the
      device. */
  lemma ApplyFallback(programId: string, tc: string, planId: int, w: World)
    ensures var a := Apply(programId, tc, planId, w);
      multiset(a.sent)[Set5F10(tc, TodCode)] == (if a.success then 0 else 1)
      && forall q :: q in a.sent ==> q.tc == tc && Writable(q)
  {
    var attempts := AttemptsOf(programId, tc, planId, w);
    AttemptsTarget(programId, tc, planId, w);
    TriesTargets(programId, tc, planId, attempts, w.now, MaxRetry);
    var t := Tries(programId, tc, planId, attempts, w.now, MaxRetry);
    assert multiset(t.sent)[Set5F10(tc, TodCode)] == 0;
  }

  /** Every switch opens with the 5F10 that selects the dynamic strategy. */
  lemma ApplyOpens(programId: string, tc: string, planId: int, w: World)
    ensures |Apply(programId, tc, planId, w).sent| > 0 && Apply(programId, tc, planId, w).sent[0] == Set5F10(tc, DynamicCode)
  {
    var attempts := AttemptsOf(programId, tc, planId, w);
    assert Tries(programId, tc, planId, attempts, w.now, 0).sent == [];
    var first := Tries(programId, tc, planId, attempts, w.now, 1);
    assert first.sent == [] + attempts(0).sent;
    HandshakeSendsPlanned(programId, tc, planId, w.replies(tc)(0));
    TriesPrefix(programId, tc, planId, attempts, w.now, 1, MaxRetry);
  }

  /** Whether the pass goes on to the handshake for a device: it is in the
      table, its host is connected and it is enabled. */
  predicate Ready(tc: string, w: World) {
    tc in w.ipOf && w.connected(w.ipOf[tc]) && tc in w.enableOf && w.enableOf[tc] != 0
  }

  /** One device of the pass; None where the lookup of its address throws,
      which ends the whole pass. */
  function Visit(programId: string, tc: string, planId: int, w: World): Option<Outcome> {
    if tc !in w.ipOf then None
    else if !w.connected(w.ipOf[tc]) then Some(Outcome([], [DynamicLog(programId, tc, planId, NotConnected)], [], false))
    else if tc !in w.enableOf || w.enableOf[tc] == 0 then Some(Outcome([], [DynamicLog(programId, tc, planId, NotEnabled)], [], false))
    else Some(Apply(programId, tc, planId, w))
  }

  /** A device is skipped with a FAILURE row unless it is ready, and a
      ready one gets the full switch; only a device missing from the table
      throws. */
  lemma VisitMeaning(programId: string, tc: string, planId: int, w: World)
    ensures Visit(programId, tc, planId, w).None? <==> tc !in w.ipOf
    ensures Visit(programId, tc, planId, w).Some? && !Ready(tc, w) ==>
      Visit(programId, tc, planId, w).value.sent == []
      && |Visit(programId, tc, planId, w).value.logs| == 1
      && Visit(programId, tc, planId, w).value.logs[0].Status() == FailureCode
    ensures Ready(tc, w) ==> Visit(programId, tc, planId, w) == Some(Apply(programId, tc, planId, w))
  {
  }

  function VisitOf(programId: string, w: World): (string, int) -> Option<Outcome> {
    (tc, planId) => Visit(programId, tc, planId, w)
  }

  /** What the pass has done, and whether it was cut short. */
  datatype PassState = PassState(sent: seq<Request>, logs: seq<DynamicLog>, notices: seq<Notice>, aborted: bool)

  /** Whether order lists keys of plans, as an iteration of its key set
      does. */
  predicate Lists(order: seq<string>, plans: map<string, int>) {
    forall k :: 0 <= k < |order| ==> order[k] in plans
  }

  /** The pass over the first n devices in iteration order, each visited
      by visit (Visit in the manager). */
  function Pass(plans: map<string, int>, order: seq<string>, visit: (string, int) -> Option<Outcome>, n: nat): PassState
    requires n <= |order| && Lists(order, plans)
  {
    if n == 0 then PassState([], [], [], false)
    else
      var prev := Pass(plans, order, visit, n - 1);
      var v := visit(order[n - 1], plans[order[n - 1]]);
      if prev.aborted then prev
      else if v.None? then prev.(aborted := true)
      else PassState(prev.sent + v.value.sent, prev.logs + v.value.logs, prev.notices + v.value.notices, false)
  }

  /** The pass is cut short iff a visit throws. */
  lemma {:induction false} PassAborts(plans: map<string, int>, order: seq<string>, visit: (string, int) -> Option<Outcome>, n: nat)
    requires n <= |order| && Lists(order, plans)
    ensures Pass(plans, order, visit, n).aborted <==> exists k :: 0 <= k < n && visit(order[k], plans[order[k]]).None?
  {
    if n > 0 {
      PassAborts(plans, order, visit, n - 1);
    }
  }

  /** Every request of the pass comes from the visit of some device. */
  lemma {:induction false} PassSends(plans: map<string, int>, order: seq<string>, visit: (string, int) -> Option<Outcome>, n: nat, q: Request)
    requires n <= |order| && Lists(order, plans)
    requires q in Pass(plans, order, visit, n).sent
    ensures exists k :: 0 <= k < n && visit(order[k], plans[order[k]]).Some? && q in visit(order[k], plans[order[k]]).value.sent
  {
    var prev := Pass(plans, order, visit, n - 1);
    if q in prev.sent {
      PassSends(plans, order, visit, n - 1, q);
    }
  }

  /** A visit that does not throw does not stop the pass: unless it is cut
      short, every visited device's requests are sent. */
  lemma {:induction false} PassKeeps(plans: map<string, int>, order: seq<string>, visit: (string, int) -> Option<Outcome>, n: nat, k: nat)
    requires k < n <= |order| && Lists(order, plans)
    requires !Pass(plans, order, visit, n).aborted
    ensures visit(order[k], plans[order[k]]).Some?
    ensures forall q :: q in visit(order[k], plans[order[k]]).value.sent ==> q in Pass(plans, order, visit, n).sent
  {
    if n > k + 1 {
      PassKeeps(plans, order, visit, n - 1, k);
    }
  }

  /** The trigger pass: it is cut short iff it meets a device missing from
      the table; requests go only to ready devices of the plan map, and
      unless cut short every ready device gets the opening 5F10. */
  lemma TriggerPassMeaning(programId: string, plans: map<string, int>, order: seq<string>, w: World)
    requires Lists(order, plans)
    ensures var p := Pass(plans, order, VisitOf(programId, w), |order|);
      (p.aborted <==> exists k :: 0 <= k < |order| && order[k] !in w.ipOf)
      && (forall q :: q in p.sent ==> q.tc in plans && Ready(q.tc, w) && Writable(q))
      && (!p.aborted ==> forall k :: 0 <= k < |order| && Ready(order[k], w) ==> Set5F10(order[k], DynamicCode) in p.sent)
  {
    var visit := VisitOf(programId, w);
    var p := Pass(plans, order, visit, |order|);
    PassAborts(plans, order, visit, |order|);
    forall k | 0 <= k < |order|
      ensures visit(order[k], plans[order[k]]).None? <==> order[k] !in w.ipOf
    {
      VisitMeaning(programId, order[k], plans[order[k]], w);
    }
    forall q | q in p.sent
      ensures q.tc in plans && Ready(q.tc, w) && Writable(q)
    {
      PassSends(plans, order, visit, |order|, q);
      var k :| 0 <= k < |order| && visit(order[k], plans[order[k]]).Some? && q in visit(order[k], plans[order[k]]).value.sent;
      VisitMeaning(programId, order[k], plans[order[k]], w);
      ApplyFallback(programId, order[k], plans[order[k]], w);
    }
    if !p.aborted {
      forall k | 0 <= k < |order| && Ready(order[k], w)
        ensures Set5F10(order[k], DynamicCode) in p.sent
      {
        PassKeeps(plans, order, visit, |order|, k);
        VisitMeaning(programId, order[k], plans[order[k]], w);
        ApplyOpens(programId, order[k], plans[order[k]], w);
      }
    }
  }

  // ---------------------------------------------------------------------
  // The manager
  // ---------------------------------------------------------------------

  /** Whether order lists every key of m exactly once, as an iteration
      over its key set does (in an order the hash map decides). */
  predicate Enumerates(order: seq<string>, m: map<string, int>) {
    Lists(order, m)
    && (forall key :: key in m ==> key in order)
    && (forall i, j :: 0 <= i < j < |order| ==> order[i] != order[j])
  }

  /** The key set of m in some order. */
  method EnumerateKeys(m: map<string, int>) returns (order: seq<string>)
    ensures Enumerates(order, m)
  {
    var rest := m.Keys;
    order := [];
    while rest != {}
      invariant rest <= m.Keys && Lists(order, m)
      invariant forall key :: key in m ==> key in rest || key in order
      invariant forall k :: 0 <= k < |order| ==> order[k] !in rest
      invariant forall i, j :: 0 <= i < j < |order| ==> order[i] != order[j]
      decreases |rest|
    {
      var key :| key in rest;
      order := order + [key];
      rest := rest - {key};
    }
  }

  /** Whether order lists every key of a key set exactly once, as an
      iteration over a map's entry set does. */
  predicate OrdersKeys(order: seq<string>, keys: set<string>) {
    (forall k :: 0 <= k < |order| ==> order[k] in keys)
    && (forall key :: key in keys ==> key in order)
    && (forall i, j :: 0 <= i < j < |order| ==> order[i] != order[j])
  }

  /** The plan map the trigger pass works through; None where reading it
      throws. */
  function PlanMap(rows: seq<PlanRow>, programId: string, isWeekday: bool, now: TimeOfDay): Option<map<string, int>> {
    var entries := Query(rows, programId, DayLabel(isWeekday), |rows|);
    PlanIds(entries, RowWindow, |entries|, now)
  }

  /** What the manager has handed out: requests, log rows and notices. */
  datatype Effects = Effects(sent: seq<Request>, logs: seq<DynamicLog>, notices: seq<Notice>)

  /** Whether `after` is `before` followed by one trigger pass over the
      plan map, in some iteration order of its keys; a plan map that
      could not be read does nothing. */
  ghost predicate TriggerDid(plans: Option<map<string, int>>, programId: string, w: World, before: Effects, after: Effects) {
    if plans.None? then after == before
    else exists order ::
      Enumerates(order, plans.value)
      && after == After(before, Pass(plans.value, order, VisitOf(programId, w), |order|))
  }

  /** The effects after a stretch of the pass. */
  function After(base: Effects, p: PassState): Effects {
    Effects(base.sent + p.sent, base.logs + p.logs, base.notices + p.notices)
  }

  /** A whole pass in an enumeration of the keys is a trigger pass. */
  lemma TriggerDidBy(plans: map<string, int>, order: seq<string>, programId: string, w: World, before: Effects, after: Effects)
    requires Enumerates(order, plans)
    requires after == After(before, Pass(plans, order, VisitOf(programId, w), |order|))
    ensures TriggerDid(Some(plans), programId, w, before, after)
  {
  }

  /** The condition map after one verdict on a program, and whether the
      trigger ran; an unknown program changes nothing. */
  function ConditionStep(conditions: map<string, Condition>, thresholds: map<string, Threshold>, programId: string, order: seq<string>): (map<string, Condition>, bool) {
    if programId !in conditions then (conditions, false)
    else
      var c := conditions[programId];
      var counted := CountMatch(c, Verdict(c.conditionExpression, thresholds, programId, order));
      (conditions[programId := counted.condition], counted.fired)
  }

  /** The retry loop of dynamicTrigger for one device, each attempt being
      attempts(retryCnt) (one triggerDynamicControl, logged at its start),
      then tryCloseDynamic when every attempt failed. */
  method ApplyDynamic(programId: string, tc: string, planId: int, attempts: nat -> Attempt, now: string, closeAck: bool)
    returns (o: Outcome)
    ensures o == ApplyWith(programId, tc, planId, attempts, now, closeAck)
  {
    var sent, logs, notices := [], [], [];
    var retryCnt := 0;
    var success := false;
    while !success && retryCnt < MaxRetry
      invariant 0 <= retryCnt <= MaxRetry && !success
      invariant Tries(programId, tc, planId, attempts, now, retryCnt) == Outcome(sent, logs, notices, false)
    {
      var a := attempts(retryCnt);
      logs := logs + [DynamicLog(programId, tc, planId, Applying)];
      sent := sent + a.sent;
      if a.outcome.Ok? {
        logs := logs + [DynamicLog(programId, tc, planId, Applied)];
        notices := notices + [Notice(tc, now)];
        success := true;
        TriesSettled(programId, tc, planId, attempts, now, retryCnt + 1, MaxRetry);
        break;
      }
      logs := logs + [DynamicLog(programId, tc, planId, ApplyFailed(a.outcome.error))];
      retryCnt := retryCnt + 1;
    }
    if !success {
      sent := sent + [Set5F10(tc, TodCode)];
      logs := logs + [DynamicLog(programId, tc, planId, if closeAck then Closed else CloseFailed)];
    }
    o := Outcome(sent, logs, notices, success);
  }

  // ---------------------------------------------------------------------
  // startTrafficCalculation: the car-flow test
  // ---------------------------------------------------------------------

  /** Whether the car-flow loop can read a direction: "ALL" in any case is
      used whole; any other is split on '-' and its second part read, so
      it needs one. */
  predicate DirectionReads(direction: string) {
    EqualsIgnoreCase(direction, "ALL") || |JavaSplit(direction, '-')| >= 2
  }

  /** The car-flow test of a threshold: the sum over its cameras and
      directions compared with its threshold value, which is the given
      flow (None where calculateCarFlow or the comparison throws).  A
      direction that does not read throws as soon as one camera is
      listed, whatever flow says. */
  function FlowVerdict(t: Threshold, flow: Threshold -> Option<bool>): Option<bool> {
    if t.cctvList != [] && exists d :: d in t.carflowDirectionList && !DirectionReads(d) then None
    else flow(t)
  }

  /** A direction without '-' (such as "AB") that is not "ALL" makes the
      test throw once a camera is listed, and a test that throws never
      sets the match flag. */
  lemma FlowThrowsWithoutDash(t: Threshold, flow: Threshold -> Option<bool>, d: string)
    requires t.cctvList != [] && d in t.carflowDirectionList
    requires '-' !in d && !EqualsIgnoreCase(d, "ALL")
    ensures FlowVerdict(t, flow).None?
  {
    assert JavaSplit(d, '-') == [d];
    assert !DirectionReads(d);
  }

  /** The state startTrafficCalculation works on: the service's three maps
      and what the manager has handed out. */
  datatype Calc = Calc(periods: map<bool, seq<TrafficPeriod>>, thresholds: map<string, Threshold>,
                       conditions: map<string, Condition>, done: Effects)

  /** Whether t is s after startTrafficCalculation of the period at index
      of the day type's list.  The period is marked in schedule; then,
      when its threshold exists and the period is running, the car-flow
      test runs; where it throws nothing else changes; otherwise a true
      test sets the threshold's match flag and checkConditionMatch runs
      with the keys in keyOrder. */
  ghost predicate Calculated(s: Calc, t: Calc, isWeekday: bool, index: nat, flow: Threshold -> Option<bool>,
                             now: TimeOfDay, keyOrder: seq<string>, rows: seq<PlanRow>, w: World)
  {
    isWeekday in s.periods && index < |s.periods[isWeekday]|
    && var list := s.periods[isWeekday];
    var period := list[index];
    var key := ThresholdKey(ThresholdId(period.programId, period.subId));
    t.periods == s.periods[isWeekday := list[index := period.(inSchedule := true)]]
    && if key !in s.thresholds || !InTrafficPeriod(period.startTime, period.endTime, now)
          || FlowVerdict(s.thresholds[key], flow).None? then
         t.thresholds == s.thresholds && t.conditions == s.conditions && t.done == s.done
       else
         var th := s.thresholds[key];
         var step := ConditionStep(s.conditions, t.thresholds, period.programId, keyOrder);
         t.thresholds == (if FlowVerdict(th, flow).value then s.thresholds[key := th.(isMatch := true)] else s.thresholds)
         && t.conditions == step.0
         && if step.1 then TriggerDid(PlanMap(rows, period.programId, isWeekday, now), period.programId, w, s.done, t.done)
            else t.done == s.done
  }

  /** An evaluation keeps the key set of the threshold map: it only sets
      a match flag. */
  lemma CalculatedKeepsKeys(s: Calc, t: Calc, isWeekday: bool, index: nat, flow: Threshold -> Option<bool>,
                            now: TimeOfDay, keyOrder: seq<string>, rows: seq<PlanRow>, w: World)
    requires Calculated(s, t, isWeekday, index, flow, now, keyOrder, rows, w)
    ensures t.thresholds.Keys == s.thresholds.Keys
    ensures var list := s.periods[isWeekday];
      t.periods == s.periods[isWeekday := list[index := list[index].(inSchedule := true)]]
  {
  }

  /** An evaluation changes a threshold at most by raising its flag. */
  lemma CalculatedRaises(s: Calc, t: Calc, isWeekday: bool, index: nat, flow: Threshold -> Option<bool>,
                         now: TimeOfDay, keyOrder: seq<string>, rows: seq<PlanRow>, w: World)
    requires Calculated(s, t, isWeekday, index, flow, now, keyOrder, rows, w)
    ensures forall key :: key in s.thresholds ==> key in t.thresholds && Raised(s.thresholds[key], t.thresholds[key])
  {
  }

  /** b is a with at most its match flag raised: nothing resets a flag. */
  predicate Raised(a: Threshold, b: Threshold) {
    b == a.(isMatch := a.isMatch || b.isMatch)
  }

  class DynamicControlManager {
    const svc: DynamicService
    var sent: seq<Request>
    var logs: seq<DynamicLog>
    var notices: seq<Notice>

    function Done(): Effects
      reads this
    {
      Effects(sent, logs, notices)
    }

    /** The service's maps and the effects so far. */
    ghost function State(): Calc
      reads this, svc
    {
      Calc(svc.trafficPeriodsMap, svc.thresholdMap, svc.conditionMap, Done())
    }

    constructor(svc: DynamicService)
      ensures this.svc == svc && Done() == Effects([], [], [])
    {
      this.svc := svc;
      sent, logs, notices := [], [], [];
    }

    /** Hand out what a stretch of the pass did. */
    method Record(o: Outcome)
      modifies this`sent, this`logs, this`notices
      ensures Done() == Effects(old(sent) + o.sent, old(logs) + o.logs, old(notices) + o.notices)
    {
      sent, logs, notices := sent + o.sent, logs + o.logs, notices + o.notices;
    }

    /** One device of dynamicTrigger; aborted where the lookup of its
      address throws. */
    method VisitDevice(programId: string, tc: string, planId: int, w: World) returns (aborted: bool)
      modifies this`sent, this`logs, this`notices
      ensures var v := Visit(programId, tc, planId, w);
        aborted == v.None?
        && Done() == if v.None? then old(Done()) else Effects(old(sent) + v.value.sent, old(logs) + v.value.logs, old(notices) + v.value.notices)
    {
      if tc !in w.ipOf {
        return true;
      }
      aborted := false;
      if !w.connected(w.ipOf[tc]) {
        logs := logs + [DynamicLog(programId, tc, planId, NotConnected)];
      } else if tc !in w.enableOf || w.enableOf[tc] == 0 {
        logs := logs + [DynamicLog(programId, tc, planId, NotEnabled)];
      } else {
        var o := ApplyDynamic(programId, tc, planId, AttemptsOf(programId, tc, planId, w), w.now, w.closeAck(tc));
        Record(o);
      }
    }

    /** The pass's step on device i of the iteration order: on from the
      state after the first i devices to the state after i + 1, or, when
      the device is missing from the table, to the end of the pass. */
    method PassStep(programId: string, plans: map<string, int>, order: seq<string>, w: World, ghost base: Effects, i: nat)
      returns (aborted: bool)
      requires i < |order| && Lists(order, plans)
      requires Done() == After(base, Pass(plans, order, VisitOf(programId, w), i))
      requires !Pass(plans, order, VisitOf(programId, w), i).aborted
      modifies this`sent, this`logs, this`notices
      ensures aborted ==> Done() == After(base, Pass(plans, order, VisitOf(programId, w), |order|))
      ensures !aborted ==> Done() == After(base, Pass(plans, order, VisitOf(programId, w), i + 1))
      ensures !aborted ==> !Pass(plans, order, VisitOf(programId, w), i + 1).aborted
    {
      ghost var visit := VisitOf(programId, w);
      var tc := order[i];
      ghost var p := Pass(plans, order, visit, i);
      ghost var v := Visit(programId, tc, plans[tc], w);
      assert visit(tc, plans[tc]) == v;
      aborted := VisitDevice(programId, tc, plans[tc], w);
      if aborted {
        PassSettled(plans, order, visit, i + 1, |order|);
      } else {
        assert Pass(plans, order, visit, i + 1) == PassState(p.sent + v.value.sent, p.logs + v.value.logs, p.notices + v.value.notices, false);
        assert sent == base.sent + (p.sent + v.value.sent);
        assert logs == base.logs + (p.logs + v.value.logs);
        assert notices == base.notices + (p.notices + v.value.notices);
      }
    }

    /** dynamicTrigger: one pass over the devices of the plan map, in the
      map's iteration order; a device missing from the table ends it. */
    method DynamicTrigger(programId: string, isWeekday: bool, rows: seq<PlanRow>, now: TimeOfDay, w: World)
      modifies this`sent, this`logs, this`notices
      ensures TriggerDid(PlanMap(rows, programId, isWeekday, now), programId, w, old(Done()), Done())
    {
      var plans := svc.GetAllDynamicPlanIds(rows, programId, isWeekday, now);
      if plans.None? {
        return;
      }
      var order := EnumerateKeys(plans.value);
      ghost var base := Done();
      var i := 0;
      while i < |order|
        invariant 0 <= i <= |order|
        invariant Done() == After(base, Pass(plans.value, order, VisitOf(programId, w), i))
        invariant !Pass(plans.value, order, VisitOf(programId, w), i).aborted
      {
        var aborted := PassStep(programId, plans.value, order, w, base, i);
        if aborted {
          break;
        }
        i := i + 1;
      }
      TriggerDidBy(plans.value, order, programId, w, base, Done());
    }

    /** startTrafficCalculation for the period at index of the day type's
      list (see Calculated); keyOrder is the iteration order of the
      threshold map's entry set. */
    method StartTrafficCalculation(isWeekday: bool, index: nat, flow: Threshold -> Option<bool>, now: TimeOfDay,
                                   keyOrder: seq<string>, rows: seq<PlanRow>, w: World)
      requires isWeekday in svc.trafficPeriodsMap && index < |svc.trafficPeriodsMap[isWeekday]|
      requires OrdersKeys(keyOrder, svc.thresholdMap.Keys)
      modifies svc`trafficPeriodsMap, svc`thresholdMap, svc`conditionMap, this`sent, this`logs, this`notices
      ensures Calculated(old(State()), State(), isWeekday, index, flow, now, keyOrder, rows, w)
    {
      var list := svc.trafficPeriodsMap[isWeekday];
      var period := list[index];
      svc.trafficPeriodsMap := svc.trafficPeriodsMap[isWeekday := list[index := period.(inSchedule := true)]];
      var key := ThresholdKey(ThresholdId(period.programId, period.subId));
      if key !in svc.thresholdMap {
        return;
      }
      if InTrafficPeriod(period.startTime, period.endTime, now) {
        var threshold := svc.thresholdMap[key];
        var verdict := FlowVerdict(threshold, flow);
        if verdict.None? {
          return;
        }
        if verdict.value {
          svc.thresholdMap := svc.thresholdMap[key := threshold.(isMatch := true)];
          assert svc.thresholdMap.Keys == old(svc.thresholdMap.Keys);
        }
        CheckConditionMatch(period.programId, isWeekday, keyOrder, rows, now, w);
      }
    }

    /** checkConditionMatch: bind, evaluate and count; trigger when the
      count reaches its goal. */
    method CheckConditionMatch(programId: string, isWeekday: bool, keyOrder: seq<string>, rows: seq<PlanRow>, now: TimeOfDay, w: World)
      requires OrdersKeys(keyOrder, svc.thresholdMap.Keys)
      modifies svc`conditionMap, this`sent, this`logs, this`notices
      ensures var step := ConditionStep(old(svc.conditionMap), svc.thresholdMap, programId, keyOrder);
        svc.conditionMap == step.0
        && if step.1 then TriggerDid(PlanMap(rows, programId, isWeekday, now), programId, w, old(Done()), Done())
           else Done() == old(Done())
    {
      if programId !in svc.conditionMap {
        return;
      }
      var condition := svc.conditionMap[programId];
      var counted := CountMatch(condition, Verdict(condition.conditionExpression, svc.thresholdMap, programId, keyOrder));
      if counted.fired {
        DynamicTrigger(programId, isWeekday, rows, now, w);
      }
      svc.conditionMap := svc.conditionMap[programId := counted.condition];
    }
  }

  /** A pass cut short stays as it was. */
  lemma {:induction false} PassSettled(plans: map<string, int>, order: seq<string>, visit: (string, int) -> Option<Outcome>, n: nat, k: nat)
    requires n <= k <= |order| && Lists(order, plans)
    requires Pass(plans, order, visit, n).aborted
    ensures Pass(plans, order, visit, k) == Pass(plans, order, visit, n)
  {
    if k > n {
      PassSettled(plans, order, visit, n, k - 1);
    }
  }
}
