/** MessageBuilder: turns a request object {"value": {...}} into the command
    record an encoder takes.  Every getter throws on a missing or mistyped
    member; a throw is None here. */
module MessageBuilder {
  import opened Common
  import opened Json
  import opened Messages
  import MessageGenerator

  /** `obj.getJSONObject("value")`. */
  function Value(obj: Json): Option<Json> {
    GetObject(obj, "value")
  }

  // ---------------------------------------------------------------------
  // Single-field records
  // ---------------------------------------------------------------------

  /** buildMessage5F10: the request's effectTime goes into the record's
      effecTime field. */
  function Build5F10(obj: Json): Option<Message5F10> {
    if Value(obj).None? then None
    else
      var v := Value(obj).value;
      var cs := GetInt(v, "controlStrategy");
      var et := GetInt(v, "effectTime");
      if cs.None? || et.None? then None else Some(Message5F10(cs.value, et.value))
  }

  /** The plan id of a request, as 5F18, 5F44 and 5F45 read it. */
  function PlanIdOf(obj: Json): Option<int> {
    if Value(obj).None? then None else GetInt(Value(obj).value, "planId")
  }

  function Build5F18(obj: Json): Option<Message5F18> {
    if PlanIdOf(obj).None? then None else Some(Message5F18(PlanIdOf(obj).value))
  }

  /** buildMessage5F40 reads nothing from the request. */
  function Build5F40(obj: Json): Message5F40 {
    Message5F40
  }

  function Build5F44(obj: Json): Option<Message5F44> {
    if PlanIdOf(obj).None? then None else Some(Message5F44(PlanIdOf(obj).value))
  }

  function Build5F45(obj: Json): Option<Message5F45> {
    if PlanIdOf(obj).None? then None else Some(Message5F45(PlanIdOf(obj).value))
  }

  /** A request whose "value" object holds exactly the given members. */
  function Request(members: map<string, Json>): Json {
    JObject(map["value" := JObject(members)])
  }

  /** 5F10 copies controlStrategy and effectTime unchanged. */
  lemma Build5F10Copies(controlStrategy: int, effectTime: int, extra: map<string, Json>)
    ensures Build5F10(Request(extra["controlStrategy" := JNumber(controlStrategy)]["effectTime" := JNumber(effectTime)]))
         == Some(Message5F10(controlStrategy, effectTime))
  {
  }

  /** 5F10 fails exactly when a field is missing or not an int. */
  lemma Build5F10Defined(obj: Json)
    ensures Build5F10(obj).Some? <==>
      Value(obj).Some? && GetInt(Value(obj).value, "controlStrategy").Some?
      && GetInt(Value(obj).value, "effectTime").Some?
  {
  }

  /** 5F18, 5F44 and 5F45 carry the request's plan id and nothing else. */
  lemma PlanIdCommandsCopy(planId: int, extra: map<string, Json>)
    ensures var req := Request(extra["planId" := JNumber(planId)]);
      && Build5F18(req) == Some(Message5F18(planId))
      && Build5F44(req) == Some(Message5F44(planId))
      && Build5F45(req) == Some(Message5F45(planId))
  {
  }

  // ---------------------------------------------------------------------
  // Per-entry lists
  // ---------------------------------------------------------------------

  /** The loop both list builders run: convert the first n entries in
      order, failing (a thrown JSONException) if an entry is missing or
      does not convert. */
  function Collect<T>(conv: Json -> Option<T>, items: seq<Json>, n: nat): Option<seq<T>> {
    if n == 0 then Some([])
    else
      var prefix := Collect(conv, items, n - 1);
      if prefix.None? || n - 1 >= |items| || conv(items[n - 1]).None? then None
      else Some(prefix.value + [conv(items[n - 1]).value])
  }

  /** Collect fails exactly when an entry below n is absent or does not
      convert. */
  lemma {:induction false} CollectDefined<T>(conv: Json -> Option<T>, items: seq<Json>, n: nat)
    ensures Collect(conv, items, n).Some? <==>
      n <= |items| && forall i :: 0 <= i < n ==> conv(items[i]).Some?
  {
    if n > 0 {
      CollectDefined(conv, items, n - 1);
    }
  }

  /** On success Collect holds n values, value i converted from entry i. */
  lemma {:induction false} CollectValues<T>(conv: Json -> Option<T>, items: seq<Json>, n: nat)
    requires Collect(conv, items, n).Some?
    ensures |Collect(conv, items, n).value| == n
    ensures forall i :: 0 <= i < n ==> Some(Collect(conv, items, n).value[i]) == conv(items[i])
  {
    if n > 0 {
      CollectValues(conv, items, n - 1);
    }
  }

  /** Once the first n entries fail, so does any longer prefix. */
  lemma {:induction false} CollectNoneStaysNone<T>(conv: Json -> Option<T>, items: seq<Json>, n: nat, m: nat)
    requires n <= m && Collect(conv, items, n).None?
    ensures Collect(conv, items, m).None?
    decreases m - n
  {
    if n < m {
      CollectNoneStaysNone(conv, items, n + 1, m);
    }
  }

  // ---------------------------------------------------------------------
  // 5F14: sub-phase records
  // ---------------------------------------------------------------------

  /** The members of a sub-phase entry, in the order the source reads them. */
  const SubPhaseKeys: seq<string> := ["minGreen", "maxGreen", "yellow", "allRed", "pedGreenFlash", "pedRed"]

  /** getInt of the first n keys, in order; None once one throws. */
  function IntsOf(e: Json, keys: seq<string>, n: nat): Option<seq<int>>
    requires n <= |keys|
  {
    if n == 0 then Some([])
    else
      var prefix := IntsOf(e, keys, n - 1);
      var x := GetInt(e, keys[n - 1]);
      if prefix.None? || x.None? then None else Some(prefix.value + [x.value])
  }

  lemma {:induction false} IntsOfMeaning(e: Json, keys: seq<string>, n: nat)
    requires n <= |keys|
    ensures IntsOf(e, keys, n).Some? <==> forall j :: 0 <= j < n ==> GetInt(e, keys[j]).Some?
    ensures IntsOf(e, keys, n).Some? ==>
      |IntsOf(e, keys, n).value| == n
      && forall j :: 0 <= j < n ==> Some(IntsOf(e, keys, n).value[j]) == GetInt(e, keys[j])
  {
    if n > 0 {
      IntsOfMeaning(e, keys, n - 1);
    }
  }

  /** One subPhases entry as a record: the entry must be an object with the
      six int members. */
  function SubPhaseOf(e: Json): Option<SubPhase> {
    var f := IntsOf(e, SubPhaseKeys, 6);
    if f.None? || |f.value| != 6 then None
    else Some(SubPhase(f.value[0], f.value[1], f.value[2], f.value[3], f.value[4], f.value[5]))
  }

  /** An entry converts exactly when it has all six int members, and each
      record field is its member. */
  lemma SubPhaseOfFields(e: Json)
    ensures SubPhaseOf(e).Some? <==>
      GetInt(e, "minGreen").Some? && GetInt(e, "maxGreen").Some? && GetInt(e, "yellow").Some?
      && GetInt(e, "allRed").Some? && GetInt(e, "pedGreenFlash").Some? && GetInt(e, "pedRed").Some?
    ensures SubPhaseOf(e).Some? ==>
      var p := SubPhaseOf(e).value;
      && Some(p.minGreen) == GetInt(e, "minGreen") && Some(p.maxGreen) == GetInt(e, "maxGreen")
      && Some(p.yellow) == GetInt(e, "yellow") && Some(p.allRed) == GetInt(e, "allRed")
      && Some(p.pedGreenFlash) == GetInt(e, "pedGreenFlash") && Some(p.pedRed) == GetInt(e, "pedRed")
  {
    IntsOfMeaning(e, SubPhaseKeys, 6);
    assert SubPhaseKeys[0] == "minGreen" && SubPhaseKeys[1] == "maxGreen" && SubPhaseKeys[2] == "yellow";
    assert SubPhaseKeys[3] == "allRed" && SubPhaseKeys[4] == "pedGreenFlash" && SubPhaseKeys[5] == "pedRed";
  }

  function Build5F14(obj: Json): Option<Message5F14> {
    if Value(obj).None? then None
    else
      var v := Value(obj).value;
      var planId := GetInt(v, "planId");
      var count := GetInt(v, "subPhaseCount");
      var arr := GetArray(v, "subPhases");
      if planId.None? || count.None? || arr.None? then None
      else
        var ps := Collect(SubPhaseOf, arr.value, MessageGenerator.Walked(count.value));
        if ps.None? then None else Some(Message5F14(planId.value, count.value, ps.value))
  }

  /** A built 5F14 holds exactly subPhaseCount records (none for a
      negative count), taken in order from the first entries, with plan id
      and count copied. */
  lemma Build5F14Records(obj: Json)
    requires Build5F14(obj).Some?
    ensures var m := Build5F14(obj).value;
      var v := Value(obj).value;
      var items := GetArray(v, "subPhases").value;
      && m.planId == GetInt(v, "planId").value
      && m.subPhaseCount == GetInt(v, "subPhaseCount").value
      && |m.dynamicArray| == MessageGenerator.Walked(m.subPhaseCount) <= |items|
      && forall i :: 0 <= i < |m.dynamicArray| ==> Some(m.dynamicArray[i]) == SubPhaseOf(items[i])
  {
    var v := Value(obj).value;
    var items := GetArray(v, "subPhases").value;
    var n := MessageGenerator.Walked(GetInt(v, "subPhaseCount").value);
    CollectDefined(SubPhaseOf, items, n);
    CollectValues(SubPhaseOf, items, n);
  }

  method BuildMessage5F14(obj: Json) returns (r: Option<Message5F14>)
    ensures r == Build5F14(obj)
  {
    var value := Value(obj);
    if value.None? {
      return None;
    }
    var planId := GetInt(value.value, "planId");
    var count := GetInt(value.value, "subPhaseCount");
    var arr := GetArray(value.value, "subPhases");
    if planId.None? || count.None? || arr.None? {
      return None;
    }
    ghost var n := MessageGenerator.Walked(count.value);
    assert Build5F14(obj) == if Collect(SubPhaseOf, arr.value, n).None? then None
      else Some(Message5F14(planId.value, count.value, Collect(SubPhaseOf, arr.value, n).value));
    var list: seq<SubPhase> := [];
    var i := 0;
    while i < count.value
      invariant 0 <= i <= MessageGenerator.Walked(count.value)
      invariant Collect(SubPhaseOf, arr.value, i) == Some(list)
    {
      if i >= |arr.value| {
        CollectNoneStaysNone(SubPhaseOf, arr.value, i + 1, MessageGenerator.Walked(count.value));
        return None;
      }
      var entry := SubPhaseOf(arr.value[i]);
      if entry.None? {
        CollectNoneStaysNone(SubPhaseOf, arr.value, i + 1, MessageGenerator.Walked(count.value));
        return None;
      }
      assert Collect(SubPhaseOf, arr.value, i + 1) == Some(list + [entry.value]);
      list := list + [entry.value];
      i := i + 1;
    }
    r := Some(Message5F14(planId.value, count.value, list));
  }

  // ---------------------------------------------------------------------
  // 5F15: greens and plan fields
  // ---------------------------------------------------------------------

  /** The green of one subPhases entry, which must be an object. */
  function GreenOf(e: Json): Option<int> {
    GetInt(e, "green")
  }

  function Build5F15(obj: Json): Option<Message5F15> {
    if Value(obj).None? then None
    else
      var v := Value(obj).value;
      var planId := GetInt(v, "planId");
      var direct := GetInt(v, "direct");
      var phaseOrder := GetString(v, "phaseOrder");
      var count := GetInt(v, "subPhaseCount");
      var cycleTime := GetInt(v, "cycleTime");
      var offset := GetInt(v, "offset");
      var arr := GetArray(v, "subPhases");
      if planId.None? || direct.None? || phaseOrder.None? || count.None?
         || cycleTime.None? || offset.None? || arr.None? then None
      else
        var greens := Collect(GreenOf, arr.value, MessageGenerator.Walked(count.value));
        if greens.None? then None
        else Some(Message5F15(planId.value, direct.value, phaseOrder.value, count.value,
                              greens.value, cycleTime.value, offset.value))
  }

  /** A built 5F15's green list is the green of the first subPhaseCount
      entries in order; the other fields are copied unchanged. */
  lemma Build5F15Fields(obj: Json)
    requires Build5F15(obj).Some?
    ensures var m := Build5F15(obj).value;
      var v := Value(obj).value;
      var items := GetArray(v, "subPhases").value;
      && m.planId == GetInt(v, "planId").value
      && m.direct == GetInt(v, "direct").value
      && m.phaseOrder == GetString(v, "phaseOrder").value
      && m.subPhaseCount == GetInt(v, "subPhaseCount").value
      && m.cycleTime == GetInt(v, "cycleTime").value
      && m.offset == GetInt(v, "offset").value
      && |m.dynamicArray| == MessageGenerator.Walked(m.subPhaseCount) <= |items|
      && forall i :: 0 <= i < |m.dynamicArray| ==> Some(m.dynamicArray[i]) == GreenOf(items[i])
  {
    var v := Value(obj).value;
    var items := GetArray(v, "subPhases").value;
    var n := MessageGenerator.Walked(GetInt(v, "subPhaseCount").value);
    CollectDefined(GreenOf, items, n);
    CollectValues(GreenOf, items, n);
  }

  method BuildMessage5F15(obj: Json) returns (r: Option<Message5F15>)
    ensures r == Build5F15(obj)
  {
    var value := Value(obj);
    if value.None? {
      return None;
    }
    var v := value.value;
    var planId := GetInt(v, "planId");
    var direct := GetInt(v, "direct");
    var phaseOrder := GetString(v, "phaseOrder");
    var count := GetInt(v, "subPhaseCount");
    var cycleTime := GetInt(v, "cycleTime");
    var offset := GetInt(v, "offset");
    var arr := GetArray(v, "subPhases");
    if planId.None? || direct.None? || phaseOrder.None? || count.None?
       || cycleTime.None? || offset.None? || arr.None? {
      return None;
    }
    var list: seq<int> := [];
    var i := 0;
    while i < count.value
      invariant 0 <= i <= MessageGenerator.Walked(count.value)
      invariant Collect(GreenOf, arr.value, i) == Some(list)
    {
      if i >= |arr.value| {
        CollectNoneStaysNone(GreenOf, arr.value, i + 1, MessageGenerator.Walked(count.value));
        return None;
      }
      var green := GreenOf(arr.value[i]);
      if green.None? {
        CollectNoneStaysNone(GreenOf, arr.value, i + 1, MessageGenerator.Walked(count.value));
        return None;
      }
      list := list + [green.value];
      i := i + 1;
    }
    r := Some(Message5F15(planId.value, direct.value, phaseOrder.value, count.value,
                          list, cycleTime.value, offset.value));
  }

  /** What the builders produce never makes an encoder index past the end
      of its list: the count is at most the number of records built. */
  lemma BuiltListsCoverCount(obj: Json)
    ensures Build5F14(obj).Some? ==> Build5F14(obj).value.subPhaseCount <= |Build5F14(obj).value.dynamicArray|
    ensures Build5F15(obj).Some? ==> Build5F15(obj).value.subPhaseCount <= |Build5F15(obj).value.dynamicArray|
  {
    if Build5F14(obj).Some? {
      Build5F14Records(obj);
    }
    if Build5F15(obj).Some? {
      Build5F15Fields(obj);
    }
  }
}
