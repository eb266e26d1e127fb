/**
 * The derived data of the history panel: records ordered by time (a stable
 * sort of a copy), one chart row per record with a trailing three-point
 * moving average, the first and latest rows, the overall mean, the four most
 * recent rows newest first, and the risk badge classes.
 *
 * Timestamps are the parsed `created_at` values as integers; a yield is a
 * value that `Number()` turns into a finite number or not.
 */
module HistoryChart {
  import opened Wrappers
  import opened StableSort
  import opened Arith
  import opened JsObjects

  /** What `Number(value)` gives: a finite number, or NaN / an infinity. */
  datatype NumberValue = Finite(x: real) | NotFinite

  function ToSafeNumber(v: NumberValue): real {
    match v
    case Finite(x) => x
    case NotFinite => 0.0
  }

  datatype HistoryRecord = HistoryRecord(
    createdAt: int, item: string, area: string, year: int, yieldTHa: NumberValue, riskLevel: string)

  function TimeKey(r: HistoryRecord): real {
    r.createdAt as real
  }

  /** `values.reduce((sum, v) => sum + v, 0)`. */
  function Sum(values: seq<real>): real {
    if values == [] then 0.0 else Sum(values[..|values| - 1]) + values[|values| - 1]
  }

  /** The window of at most `windowSize` values ending at `endIndex`. */
  function WindowStart(endIndex: nat, windowSize: nat): nat {
    if endIndex + 1 >= windowSize then endIndex + 1 - windowSize else 0
  }

  /** Mean of `values[max(0, endIndex - windowSize + 1) .. endIndex]`. */
  function RollingAverage(values: seq<real>, endIndex: nat, windowSize: nat): real
    requires endIndex < |values| && windowSize >= 1
  {
    var segment := values[WindowStart(endIndex, windowSize)..endIndex + 1];
    Sum(segment) / |segment| as real
  }

  const HighBadge := "bg-red-100 text-red-700"
  const MediumBadge := "bg-amber-100 text-amber-700"
  const LowBadge := "bg-emerald-100 text-emerald-700"
  const FallbackBadge := "bg-slate-100 text-slate-700"

  const RiskBadgeStyle: map<string, string> := map["High" := HighBadge, "Medium" := MediumBadge, "Low" := LowBadge]

  /** `riskBadgeStyle[risk] || "bg-slate-100 text-slate-700"`. */
  function RiskBadge(risk: string): ClassValue {
    LookupOr(RiskBadgeStyle, risk, FallbackBadge)
  }

  datatype ChartRow = ChartRow(
    id: nat, yieldTHa: real, movingAverage: real, crop: string, area: string,
    risk: string, year: int, date: int)

  datatype HistoryView = HistoryView(
    data: seq<ChartRow>, first: ChartRow, latest: ChartRow, average: real,
    recentRows: seq<ChartRow>, latestBadge: ClassValue, recentBadges: seq<ClassValue>)

  function Yields(ordered: seq<HistoryRecord>): seq<real> {
    seq(|ordered|, i requires 0 <= i < |ordered| => ToSafeNumber(ordered[i].yieldTHa))
  }

  function RowsOf(ordered: seq<HistoryRecord>): seq<ChartRow> {
    var coerced := Yields(ordered);
    seq(|ordered|, i requires 0 <= i < |ordered| =>
      var r := ordered[i];
      ChartRow(i + 1, ToSafeNumber(r.yieldTHa), RollingAverage(coerced, i, 3), r.item, r.area, r.riskLevel, r.year, r.createdAt))
  }

  /** Reference definition of `[...s].reverse()`. */
  function Reverse<T>(s: seq<T>): seq<T> {
    seq(|s|, k requires 0 <= k < |s| => s[|s| - 1 - k])
  }

  /** The badge classes of the given rows, in order. */
  function BadgesOf(rows: seq<ChartRow>): seq<ClassValue> {
    seq(|rows|, k requires 0 <= k < |rows| => RiskBadge(rows[k].risk))
  }

  /** The panel's values for records already ordered by time. */
  function ViewOf(ordered: seq<HistoryRecord>): HistoryView
    requires ordered != []
  {
    var data := RowsOf(ordered);
    var recent := Reverse(data)[..Min(4, |data|)];
    HistoryView(
      data, data[0], data[|data| - 1], Sum(Yields(ordered)) / |ordered| as real, recent,
      RiskBadge(data[|data| - 1].risk), BadgesOf(recent))
  }

  /** The panel's values, or `None` when the component renders nothing. */
  function HistoryViewOf(history: Option<seq<HistoryRecord>>): Option<HistoryView> {
    if history.None? || history.value == [] then None
    else
      SortByOrdered(history.value, TimeKey);
      Some(ViewOf(SortBy(history.value, TimeKey)))
  }

  /** Reverses an array in place by swapping from both ends. */
  method ReverseInPlace<T>(a: array<T>)
    modifies a
    ensures a[..] == Reverse(old(a[..]))
  {
    var n := a.Length;
    var i := 0;
    while i < n / 2
      invariant 0 <= i <= n / 2
      invariant forall k :: 0 <= k < i ==> a[k] == old(a[n - 1 - k]) && a[n - 1 - k] == old(a[k])
      invariant forall k :: i <= k < n - i ==> a[k] == old(a[k])
    {
      a[i], a[n - 1 - i] := a[n - 1 - i], a[i];
      i := i + 1;
    }
  }

  /**
   * Sorts a copy of the history by time, builds the rows, and takes the
   * newest four from a reversed copy; nothing is rendered for a missing or
   * empty history.
   */
  method RenderHistory(history: Option<seq<HistoryRecord>>) returns (view: Option<HistoryView>)
    ensures view == HistoryViewOf(history)
  {
    if history.None? || history.value == [] {
      return None;
    }
    var h := history.value;
    var copy := new HistoryRecord[|h|](i requires 0 <= i < |h| => h[i]);
    assert copy[..] == h;
    SortInPlace(copy, TimeKey);
    SortByOrdered(h, TimeKey);
    var v := AssembleView(copy[..]);
    view := Some(v);
  }

  /**
   * Builds the rows from the ordered records and takes the newest four from
   * a reversed copy of the rows.
   */
  method AssembleView(ordered: seq<HistoryRecord>) returns (view: HistoryView)
    requires ordered != []
    ensures view == ViewOf(ordered)
  {
    var data := RowsOf(ordered);
    var reversed := new ChartRow[|data|](i requires 0 <= i < |data| => data[i]);
    assert reversed[..] == data;
    ReverseInPlace(reversed);
    var recent := reversed[..Min(4, |data|)];
    var latest := data[|data| - 1];
    var badges := BadgesOf(recent);
    view := HistoryView(data, data[0], latest, Sum(Yields(ordered)) / |ordered| as real, recent,
                        RiskBadge(latest.risk), badges);
  }

  // ---------------------------------------------------------------------
  // Properties

  /** Nothing is rendered exactly for a missing or empty history. */
  lemma NoViewIffEmpty(history: Option<seq<HistoryRecord>>)
    ensures HistoryViewOf(history).None? <==> history.None? || history.value == []
  {
  }

  /**
   * How the panel is assembled: the rows are built from the records sorted
   * by time (a permutation of the input, ties in input order), `first` and
   * `latest` are the end rows, the average is over all coerced yields, and
   * the recent rows are a prefix of the reversed rows.
   */
  lemma ViewShape(h: seq<HistoryRecord>, t: real)
    requires h != []
    ensures var v := HistoryViewOf(Some(h)).value;
      var ordered := SortBy(h, TimeKey);
      && multiset(ordered) == multiset(h)
      && WithKey(ordered, TimeKey, t) == WithKey(h, TimeKey, t)
      && |ordered| == |h|
      && v.data == RowsOf(ordered)
      && v.first == v.data[0] && v.latest == v.data[|h| - 1]
      && v.average == Sum(Yields(ordered)) / |h| as real
      && v.recentRows == Reverse(v.data)[..Min(4, |h|)]
  {
    SortByOrdered(h, TimeKey);
    SortByStable(h, TimeKey, t);
  }

  /**
   * One row per record, numbered from 1 in time order, carrying the record's
   * coerced yield and its timestamp; the first row's moving average is its
   * own yield.
   */
  lemma RowsFacts(ordered: seq<HistoryRecord>)
    requires ordered != []
    requires SortedBy(ordered, TimeKey)
    ensures var data := RowsOf(ordered);
      && |data| == |ordered|
      && (forall i :: 0 <= i < |data| ==>
            data[i].id == i + 1 && data[i].yieldTHa == ToSafeNumber(ordered[i].yieldTHa)
            && data[i].date == ordered[i].createdAt)
      && (forall i, j :: 0 <= i < j < |data| ==> data[i].date <= data[j].date)
      && data[0].movingAverage == data[0].yieldTHa
  {
    var data := RowsOf(ordered);
    forall i, j | 0 <= i < j < |data| ensures data[i].date <= data[j].date {
      assert TimeKey(ordered[i]) <= TimeKey(ordered[j]);
    }
    MovingAverageClosedForm(Yields(ordered), 0);
  }

  /**
   * Edge case of every one-record history: that record is both the first and
   * the latest row, the only recent row, and its yield is the average.
   */
  lemma SingleRecord(r: HistoryRecord)
    ensures var v := HistoryViewOf(Some([r])).value;
      && v.first == v.latest && |v.data| == 1 && v.recentRows == v.data
      && v.average == ToSafeNumber(r.yieldTHa) == v.data[0].yieldTHa
  {
    assert SortBy([r], TimeKey) == [r] by {
      assert [r][..0] == [];
    }
    assert Yields([r]) == [ToSafeNumber(r.yieldTHa)];
    assert Sum([ToSafeNumber(r.yieldTHa)]) == Sum([]) + ToSafeNumber(r.yieldTHa);
  }

  lemma {:induction false} SumAppend(a: seq<real>, b: seq<real>)
    ensures Sum(a + b) == Sum(a) + Sum(b)
  {
    if b == [] {
      assert a + b == a;
    } else {
      SumAppend(a, b[..|b| - 1]);
      assert (a + b)[..|a + b| - 1] == a + b[..|b| - 1];
    }
  }

  /** The moving average over up to three points, in closed form. */
  lemma MovingAverageClosedForm(values: seq<real>, i: nat)
    requires i < |values|
    ensures i == 0 ==> RollingAverage(values, i, 3) == values[0]
    ensures i == 1 ==> RollingAverage(values, i, 3) == (values[0] + values[1]) / 2.0
    ensures i >= 2 ==> RollingAverage(values, i, 3) == (values[i - 2] + values[i - 1] + values[i]) / 3.0
  {
    var start := WindowStart(i, 3);
    var segment := values[start..i + 1];
    if i == 0 {
      SumAppend([], [values[0]]);
      assert segment == [] + [values[0]];
    } else if i == 1 {
      SumAppend([values[0]], [values[1]]);
      SumAppend([], [values[0]]);
      assert segment == [values[0]] + [values[1]];
    } else {
      SumAppend([values[i - 2], values[i - 1]], [values[i]]);
      SumAppend([values[i - 2]], [values[i - 1]]);
      SumAppend([], [values[i - 2]]);
      assert segment == [values[i - 2], values[i - 1]] + [values[i]];
      assert [values[i - 2], values[i - 1]] == [values[i - 2]] + [values[i - 1]];
    }
  }

  /** Worked example: yields 2, 4, 6, 8 give the moving averages 2, 3, 4, 6. */
  lemma MovingAverageExample()
    ensures var y := [2.0, 4.0, 6.0, 8.0];
      RollingAverage(y, 0, 3) == 2.0 && RollingAverage(y, 1, 3) == 3.0
      && RollingAverage(y, 2, 3) == 4.0 && RollingAverage(y, 3, 3) == 6.0
  {
    var y := [2.0, 4.0, 6.0, 8.0];
    MovingAverageClosedForm(y, 0);
    MovingAverageClosedForm(y, 1);
    MovingAverageClosedForm(y, 2);
    MovingAverageClosedForm(y, 3);
  }

  lemma {:induction false} SumBounds(values: seq<real>, lo: real, hi: real)
    requires forall k :: 0 <= k < |values| ==> lo <= values[k] <= hi
    ensures |values| as real * lo <= Sum(values) <= |values| as real * hi
  {
    if values != [] {
      SumBounds(values[..|values| - 1], lo, hi);
    }
  }

  /** The overall mean lies between the smallest and the largest coerced yield. */
  lemma AverageWithinBounds(coerced: seq<real>, lo: real, hi: real)
    requires coerced != []
    requires forall k :: 0 <= k < |coerced| ==> lo <= coerced[k] <= hi
    ensures lo <= Sum(coerced) / |coerced| as real <= hi
  {
    SumBounds(coerced, lo, hi);
    var n := |coerced| as real;
    assert Sum(coerced) / n * n == Sum(coerced);
  }

  /** The recent rows are the last (at most four) rows, newest first. */
  lemma RecentRowsFacts(data: seq<ChartRow>)
    requires forall i, j :: 0 <= i < j < |data| ==> data[i].date <= data[j].date
    ensures var recent := Reverse(data)[..Min(4, |data|)];
      && |recent| == Min(4, |data|)
      && (forall k :: 0 <= k < |recent| ==> recent[k] == data[|data| - 1 - k])
      && (forall k :: 0 <= k < |recent| - 1 ==> recent[k].date >= recent[k + 1].date)
  {
  }

  /**
   * Known risk levels get their own badge; a name `Object.prototype` defines
   * reaches the inherited member; any other label gets the slate fallback.
   */
  lemma RiskBadgeFallback(risk: string)
    ensures risk == "High" ==> RiskBadge(risk) == Class(HighBadge)
    ensures risk == "Medium" ==> RiskBadge(risk) == Class(MediumBadge)
    ensures risk == "Low" ==> RiskBadge(risk) == Class(LowBadge)
    ensures risk in ObjectPrototypeKeys ==> RiskBadge(risk) == InheritedMember(risk)
    ensures RiskBadge(risk) == Class(FallbackBadge) <==>
      risk != "High" && risk != "Medium" && risk != "Low" && risk !in ObjectPrototypeKeys
  {
    PrototypeKeysOutsideRiskTable();
  }

  /** No risk level is an `Object.prototype` member name. */
  lemma PrototypeKeysOutsideRiskTable()
    ensures forall k :: k in ObjectPrototypeKeys ==> k !in RiskBadgeStyle
  {
  }
}
