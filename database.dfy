/**
 * The parts of the SQLite layer that are not SQL: the clamp on the history
 * limit, the defaults applied to each fetched row, and the key handling and
 * defaults of `save_prediction`. The connection, the SELECT and the INSERT
 * are parameters: whether a connection exists, and functions that answer a
 * query or an insert with rows, an id, or an error.
 */
module Database {
  import opened Wrappers
  import opened Arith

  // ---------------------------------------------------------------------
  // Reading the history

  /** A fetched row; `None` is an SQL NULL. */
  datatype DbRow = DbRow(
    area: Option<string>, item: Option<string>, year: Option<int>,
    yieldHgHa: Option<real>, yieldTHa: Option<real>, riskLevel: Option<string>,
    createdAt: Option<string>)

  /** A normalised history entry. */
  datatype HistoryEntry = HistoryEntry(
    area: string, item: string, year: int, yieldHgHa: real, yieldTHa: real,
    riskLevel: string, createdAt: Option<string>)

  const DefaultYear := 2000
  const DefaultRiskLevel := "Medium"

  /** `min(max(limit, 1), 100)`. */
  function SafeLimit(limit: int): (s: int)
    ensures 1 <= s <= 100
    ensures 1 <= limit <= 100 ==> s == limit
    ensures limit < 1 ==> s == 1
    ensures limit > 100 ==> s == 100
  {
    Min(Max(limit, 1), 100)
  }

  /** Python's `str(v)` of a text column: NULL prints as "None". */
  function PyStr(v: Option<string>): string {
    match v
    case Some(s) => s
    case None => "None"
  }

  /** `v or default` for a column whose falsy values are NULL and `zero`. */
  function OrDefault<T(==)>(v: Option<T>, zero: T, default: T): T {
    match v
    case Some(x) => if x == zero then default else x
    case None => default
  }

  function NormalizeRow(row: DbRow): HistoryEntry {
    HistoryEntry(
      PyStr(row.area), PyStr(row.item),
      OrDefault(row.year, 0, DefaultYear),
      OrDefault(row.yieldHgHa, 0.0, 0.0),
      OrDefault(row.yieldTHa, 0.0, 0.0),
      OrDefault(row.riskLevel, "", DefaultRiskLevel),
      row.createdAt)
  }

  /**
   * Each field keeps its value unless it is NULL or falsy: a year of NULL or
   * 0 becomes 2000, a NULL yield becomes 0.0, a NULL or empty risk level
   * becomes "Medium", and a NULL text column becomes the text "None".
   */
  lemma NormalizeRowDefaults(row: DbRow)
    ensures var e := NormalizeRow(row);
      && (e.year == DefaultYear <==> row.year == None || row.year == Some(0) || row.year == Some(DefaultYear))
      && (row.year.Some? && row.year.value != 0 ==> e.year == row.year.value)
      && (e.yieldHgHa == (if row.yieldHgHa.Some? then row.yieldHgHa.value else 0.0))
      && (e.yieldTHa == (if row.yieldTHa.Some? then row.yieldTHa.value else 0.0))
      && (e.riskLevel == DefaultRiskLevel <==>
            row.riskLevel == None || row.riskLevel == Some("") || row.riskLevel == Some(DefaultRiskLevel))
      && e.riskLevel != ""
      && (row.area.Some? ==> e.area == row.area.value)
      && e.createdAt == row.createdAt
  {
  }

  /**
   * No connection or a failing query gives the empty list; otherwise one
   * normalised entry per fetched row, in the order fetched.
   */
  method GetRecentPredictions(connected: bool, limit: int, query: int -> Option<seq<DbRow>>)
    returns (entries: seq<HistoryEntry>)
    ensures !connected ==> entries == []
    ensures connected && query(SafeLimit(limit)).None? ==> entries == []
    ensures connected && query(SafeLimit(limit)).Some? ==>
      var rows := query(SafeLimit(limit)).value;
      |entries| == |rows| && forall k :: 0 <= k < |rows| ==> entries[k] == NormalizeRow(rows[k])
  {
    if !connected {
      return [];
    }
    var safeLimit := Min(Max(limit, 1), 100);
    var fetched := query(safeLimit);
    if fetched.None? {
      return [];
    }
    var rows := fetched.value;
    entries := [];
    var i := 0;
    while i < |rows|
      invariant 0 <= i <= |rows|
      invariant |entries| == i
      invariant forall k :: 0 <= k < i ==> entries[k] == NormalizeRow(rows[k])
    {
      entries := entries + [NormalizeRow(rows[i])];
      i := i + 1;
    }
  }

  // ---------------------------------------------------------------------
  // Saving a prediction

  /** The keys of the record handed to `save_prediction`. */
  datatype Key =
    | Area | Item | Year | Rainfall | Pesticides | AvgTemp | FarmArea
    | YieldHgHa | YieldTHa | RiskLevel | Warnings | ExpectedProduction
    | FoodSecurityLevel | FoodSecurityNotes | PlantingSchedule | Advisory

  /** A record value; `EmptyDict` is the `{}` default of the planting schedule. */
  datatype Value =
    | Text(s: string)
    | Whole(i: int)
    | Number(r: real)
    | TextList(items: seq<string>)
    | Schedule(window: string, irrigation: string, actions: seq<string>)
    | EmptyDict

  /** The keys read with `record[key]`: a missing one raises KeyError. */
  const RequiredKeys: set<Key> :=
    {Area, Item, Year, Rainfall, Pesticides, AvgTemp, FarmArea, YieldHgHa, YieldTHa, RiskLevel, Advisory}

  /** The parameters of the INSERT statement, in column order. */
  datatype InsertRow = InsertRow(
    area: Value, item: Value, year: Value, rainfall: Value, pesticides: Value, avgTemp: Value,
    farmArea: Value, yieldHgHa: Value, yieldTHa: Value, riskLevel: Value, warnings: Value,
    expectedProduction: Value, foodSecurityLevel: Value, foodSecurityNotes: Value,
    plantingSchedule: Value, advisory: Value, createdAt: string)

  function Get(record: map<Key, Value>, k: Key, default: Value): Value {
    if k in record then record[k] else default
  }

  /** The INSERT parameters; the optional keys get their defaults. */
  function InsertRowOf(record: map<Key, Value>, createdAt: string): InsertRow
    requires RequiredKeys <= record.Keys
  {
    InsertRow(
      record[Area], record[Item], record[Year], record[Rainfall], record[Pesticides], record[AvgTemp],
      record[FarmArea], record[YieldHgHa], record[YieldTHa], record[RiskLevel],
      Get(record, Warnings, TextList([])),
      Get(record, ExpectedProduction, Number(0.0)),
      Get(record, FoodSecurityLevel, Text("Watch")),
      Get(record, FoodSecurityNotes, TextList([])),
      Get(record, PlantingSchedule, EmptyDict),
      record[Advisory], createdAt)
  }

  /**
   * The new row's id, or `None` when there is no connection, a required key
   * is missing (the INSERT is then never issued), or the INSERT fails.
   * `createdAt` is the current UTC time, supplied by the caller.
   */
  function SavePrediction(connected: bool, record: map<Key, Value>, createdAt: string,
                          insert: InsertRow -> Option<int>): (id: Option<int>)
    ensures !connected ==> id == None
    ensures !(RequiredKeys <= record.Keys) ==> id == None
    ensures id.Some? ==> connected && RequiredKeys <= record.Keys && insert(InsertRowOf(record, createdAt)) == id
  {
    if !connected then None
    else if !(RequiredKeys <= record.Keys) then None
    else insert(InsertRowOf(record, createdAt))
  }

  /** A record with only the required keys is stored with the documented defaults. */
  lemma SaveDefaults(record: map<Key, Value>, createdAt: string)
    requires record.Keys == RequiredKeys
    ensures var row := InsertRowOf(record, createdAt);
      && row.expectedProduction == Number(0.0)
      && row.foodSecurityLevel == Text("Watch")
      && row.warnings == TextList([]) && row.foodSecurityNotes == TextList([])
      && row.plantingSchedule == EmptyDict
      && row.advisory == record[Advisory] && row.riskLevel == record[RiskLevel]
  {
  }
}
