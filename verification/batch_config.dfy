/** BatchConfig: the item processor of the scenario-rule CSV import, which
    turns one row of text fields into a rule record, skips it, or rejects
    it with a message naming the first bad field.  A field the reader left
    null is None. */
module BatchConfig {
  import opened Common

  /** ScenarioRuleDto: one CSV row, every field as text. */
  datatype RuleRow = RuleRow(
    version: Option<string>, action: Option<string>, scenarioId: Option<string>, ruleId: Option<string>,
    typ: Option<string>, operator: Option<string>, threshold: Option<string>,
    intersectionId: Option<string>, pathId: Option<string>, phaseOrder: Option<string>,
    subPhaseId: Option<string>, statement: Option<string>)

  /** DynamicCsvFile as the processor builds it (the id and log time are
      filled by the database). */
  datatype RuleRecord = RuleRecord(
    version: int, action: string, scenarioId: int, ruleId: int,
    typ: Option<string>, operator: string, threshold: Option<string>,
    intersectionId: Option<string>, pathId: Option<string>, phaseOrder: Option<string>,
    subPhaseId: Option<string>, statement: Option<string>)

  /** A row the processor refuses: the DynamicException it throws with its
      message, or the NullPointerException of asking an immutable list
      whether it contains null. */
  datatype Rejection = Rejected(message: string) | NullPointer

  /** Keep, add, update, delete. */
  const Actions: seq<string> := ["K", "A", "U", "D"]
  const Operators: seq<string> := [">", ">=", "=", "<=", "<", "!="]

  /** How Java writes a possibly-null string into a message. */
  function Show(value: Option<string>): string {
    if value.Some? then value.value else "null"
  }

  /** The message of a field that is not an int. */
  function Invalid(fieldName: string, value: Option<string>): string {
    "Invalid " + fieldName + ": " + Show(value)
  }

  /** parseIntOrThrow: Integer.parseInt, with its failure (null included)
      turned into "Invalid <field>: <value>". */
  function ParseIntOrThrow(value: Option<string>, fieldName: string): (r: Result<int, Rejection>)
    ensures r.Ok? <==> value.Some? && ParseInt(value.value, 10).Some?
    ensures r.Ok? ==> ParseInt(value.value, 10) == Some(r.value) && IsInt32(r.value)
    ensures r.Err? ==> r.error == Rejected(Invalid(fieldName, value))
  {
    if value.None? then Err(Rejected(Invalid(fieldName, value)))
    else match ParseInt(value.value, 10)
      case None => Err(Rejected(Invalid(fieldName, value)))
      case Some(n) => Ok(n)
  }

  /** `List.of(...).contains(x)`, which throws on null. */
  function Contains(list: seq<string>, x: Option<string>): (r: Result<bool, Rejection>)
    ensures r.Err? <==> x.None?
    ensures r.Ok? ==> (r.value <==> x.value in list)
  {
    if x.None? then Err(NullPointer) else Ok(x.value in list)
  }

  predicate Parses(value: Option<string>) {
    value.Some? && ParseInt(value.value, 10).Some?
  }

  predicate IsSkipped(row: RuleRow) {
    row.version.None? || row.version.value == ""
  }

  /** Every check passes: the row is kept. */
  predicate Accepted(row: RuleRow) {
    !IsSkipped(row) && Parses(row.version)
    && row.action.Some? && row.action.value in Actions
    && Parses(row.scenarioId) && Parses(row.ruleId)
    && row.operator.Some? && row.operator.value in Operators
  }

  /** The processor: null for an empty version (the row is skipped), else
      the checks version, action, scenarioId, ruleId, operator in that
      order, the first failure rejecting the row; an accepted row keeps its
      other fields as they are. */
  function Process(row: RuleRow): (r: Result<Option<RuleRecord>, Rejection>)
    ensures r == Ok(None) <==> IsSkipped(row)
    ensures (r.Ok? && r.value.Some?) <==> Accepted(row)
    ensures r.Ok? && r.value.Some? ==>
      var rec := r.value.value;
      Some(rec.version) == ParseInt(row.version.value, 10)
      && Some(rec.scenarioId) == ParseInt(row.scenarioId.value, 10)
      && Some(rec.ruleId) == ParseInt(row.ruleId.value, 10)
      && Some(rec.action) == row.action && Some(rec.operator) == row.operator
      && rec.typ == row.typ && rec.threshold == row.threshold && rec.intersectionId == row.intersectionId
      && rec.pathId == row.pathId && rec.phaseOrder == row.phaseOrder && rec.subPhaseId == row.subPhaseId
      && rec.statement == row.statement
    ensures !IsSkipped(row) && !Parses(row.version) ==> r == Err(Rejected(Invalid("version", row.version)))
    ensures !IsSkipped(row) && Parses(row.version) && row.action.None? ==> r == Err(NullPointer)
    ensures !IsSkipped(row) && Parses(row.version) && row.action.Some? && row.action.value !in Actions ==>
      r == Err(Rejected("Action value error: " + row.action.value))
    ensures !IsSkipped(row) && Parses(row.version) && row.action.Some? && row.action.value in Actions ==>
      (!Parses(row.scenarioId) ==> r == Err(Rejected(Invalid("scenarioId", row.scenarioId))))
      && (Parses(row.scenarioId) && !Parses(row.ruleId) ==> r == Err(Rejected(Invalid("ruleId", row.ruleId))))
      && (Parses(row.scenarioId) && Parses(row.ruleId) && row.operator.Some? && row.operator.value !in Operators ==>
            r == Err(Rejected("Operator value error: " + row.operator.value)))
      && (Parses(row.scenarioId) && Parses(row.ruleId) && row.operator.None? ==> r == Err(NullPointer))
  {
    if IsSkipped(row) then Ok(None)
    else match ParseIntOrThrow(row.version, "version")
      case Err(e) => Err(e)
      case Ok(version) =>
        match Contains(Actions, row.action)
        case Err(e) => Err(e)
        case Ok(false) => Err(Rejected("Action value error: " + row.action.value))
        case Ok(true) =>
          match ParseIntOrThrow(row.scenarioId, "scenarioId")
          case Err(e) => Err(e)
          case Ok(scenarioId) =>
            match ParseIntOrThrow(row.ruleId, "ruleId")
            case Err(e) => Err(e)
            case Ok(ruleId) =>
              match Contains(Operators, row.operator)
              case Err(e) => Err(e)
              case Ok(false) => Err(Rejected("Operator value error: " + row.operator.value))
              case Ok(true) =>
                Ok(Some(RuleRecord(version, row.action.value, scenarioId, ruleId, row.typ, row.operator.value,
                                   row.threshold, row.intersectionId, row.pathId, row.phaseOrder,
                                   row.subPhaseId, row.statement)))
  }

  /** A record the processor can produce. */
  predicate WellFormed(rec: RuleRecord) {
    IsInt32(rec.version) && IsInt32(rec.scenarioId) && IsInt32(rec.ruleId)
    && rec.action in Actions && rec.operator in Operators
  }

  /** The CSV row that writes a record out, numbers in decimal. */
  function RowOf(rec: RuleRecord): RuleRow {
    RuleRow(Some(DecString(rec.version)), Some(rec.action), Some(DecString(rec.scenarioId)), Some(DecString(rec.ruleId)),
            rec.typ, Some(rec.operator), rec.threshold, rec.intersectionId, rec.pathId, rec.phaseOrder,
            rec.subPhaseId, rec.statement)
  }

  /** Every record the processor produces is well formed, and writing a
      well-formed record out as a row and processing it gives it back. */
  lemma ProcessRoundTrip(rec: RuleRecord, row: RuleRow)
    ensures Process(row).Ok? && Process(row).value.Some? ==> WellFormed(Process(row).value.value)
    ensures WellFormed(rec) ==> Process(RowOf(rec)) == Ok(Some(rec))
  {
    if WellFormed(rec) {
      ParseIntOfDecString(rec.version);
      ParseIntOfDecString(rec.scenarioId);
      ParseIntOfDecString(rec.ruleId);
      assert DecString(rec.version) != "" by {
        assert ParseInt(DecString(rec.version), 10).Some?;
      }
    }
  }
}
