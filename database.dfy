/**
 * The period store of logic/database.py: a table of rows keyed by a
 * "Month Year" period string, each holding an income dict, an expense dict
 * and a comment. The CSV file becomes the `rows` field of `PeriodStore`,
 * and the `str`/`eval` round trip of the dict columns becomes native dicts.
 */
module Database {
  import opened Wrappers
  import opened PyDict

  /** One row of the store: the `Period`, `Incomes`, `Expenses` and `Comment` columns. */
  datatype Entry = Entry(period: string, incomes: Dict, expenses: Dict, comment: string)

  /** What `get_period` hands back for a stored period. */
  datatype PeriodData = PeriodData(incomes: Dict, expenses: Dict, comment: string)

  /** The `Period` column, in stored order. */
  function Periods(rows: seq<Entry>): seq<string> {
    seq(|rows|, i requires 0 <= i < |rows| => rows[i].period)
  }

  /** No two rows share a period. */
  predicate UniquePeriods(rows: seq<Entry>) {
    forall i, j :: 0 <= i < j < |rows| ==> rows[i].period != rows[j].period
  }

  /** The position of the first row whose period is `period`, if any. */
  function FirstIndex(period: string, rows: seq<Entry>): (r: Option<nat>)
    ensures r.None? <==> forall i :: 0 <= i < |rows| ==> rows[i].period != period
    ensures r.Some? ==> r.value < |rows| && rows[r.value].period == period
    ensures r.Some? ==> forall j :: 0 <= j < r.value ==> rows[j].period != period
    decreases |rows|
  {
    if rows == [] then None
    else if rows[0].period == period then Some(0)
    else match FirstIndex(period, rows[1..])
      case None => None
      case Some(i) => Some(i + 1)
  }

  lemma {:induction false} InPeriods(rows: seq<Entry>, period: string)
    ensures period in Periods(rows) <==> exists i :: 0 <= i < |rows| && rows[i].period == period
  {
    if exists i :: 0 <= i < |rows| && rows[i].period == period {
      var i :| 0 <= i < |rows| && rows[i].period == period;
      assert Periods(rows)[i] == period;
    }
  }

  /** A row holding `period` with none before it is the first match. */
  lemma {:induction false} FirstIndexIs(period: string, rows: seq<Entry>, k: nat)
    requires k < |rows| && rows[k].period == period
    requires forall j :: 0 <= j < k ==> rows[j].period != period
    ensures FirstIndex(period, rows) == Some(k)
  {
    var r := FirstIndex(period, rows);
    assert r.Some?;
    assert r.value <= k;
    assert r.value >= k;
  }

  /** `find_period_in_data`: the first row holding `period`, or None when no row does. */
  function FindPeriodInData(period: string, data: seq<Entry>): (r: Option<Entry>)
    ensures r.None? <==> period !in Periods(data)
    ensures r.Some? ==> exists i :: 0 <= i < |data| && data[i] == r.value && data[i].period == period &&
                                    forall j :: 0 <= j < i ==> data[j].period != period
  {
    InPeriods(data, period);
    match FirstIndex(period, data)
    case None => None
    case Some(i) => Some(data[i])
  }

  /** `get_period`: the dicts and comment of the first row holding `period`. */
  function GetPeriod(rows: seq<Entry>, period: string): (r: Option<PeriodData>)
    ensures r.None? <==> period !in Periods(rows)
    ensures r.Some? ==> exists i :: 0 <= i < |rows| && rows[i].period == period &&
                                    (forall j :: 0 <= j < i ==> rows[j].period != period) &&
                                    r.value == PeriodData(rows[i].incomes, rows[i].expenses, rows[i].comment)
  {
    InPeriods(rows, period);
    match FirstIndex(period, rows)
    case None => None
    case Some(i) => Some(PeriodData(rows[i].incomes, rows[i].expenses, rows[i].comment))
  }

  /**
   * The table after `insert_period(period, incomes, expenses, comment)`.
   * An existing period has its dicts merged key by key (new values win) and
   * its comment replaced, even by ""; a new period is appended as given.
   */
  function Upsert(rows: seq<Entry>, period: string, incomes: Dict, expenses: Dict, comment: string): (r: seq<Entry>)
    ensures period in Periods(rows) ==> |r| == |rows|
    ensures period !in Periods(rows) ==> r == rows + [Entry(period, incomes, expenses, comment)]
    ensures forall j :: 0 <= j < |rows| && rows[j].period != period ==> r[j] == rows[j]
    ensures forall j :: 0 <= j < |rows| ==> r[j].period == rows[j].period
  {
    InPeriods(rows, period);
    match FirstIndex(period, rows)
    case None => rows + [Entry(period, incomes, expenses, comment)]
    case Some(i) => MergeAt(rows, i, incomes, expenses, comment)
  }

  /** Row `i` with the given dicts merged into its own and its comment replaced; every other row as it was. */
  function MergeAt(rows: seq<Entry>, i: nat, incomes: Dict, expenses: Dict, comment: string): (r: seq<Entry>)
    requires i < |rows|
    ensures |r| == |rows|
    ensures r[i] == Entry(rows[i].period, Update(rows[i].incomes, incomes), Update(rows[i].expenses, expenses), comment)
    ensures forall j :: 0 <= j < |rows| && j != i ==> r[j] == rows[j]
  {
    rows[i := Entry(rows[i].period, Update(rows[i].incomes, incomes), Update(rows[i].expenses, expenses), comment)]
  }

  /**
   * Writing then reading a period: `get_period` returns the merged dicts and
   * exactly the comment written. For a period not yet stored the dicts are
   * the ones given.
   */
  lemma {:induction false} InsertThenGet(rows: seq<Entry>, period: string, incomes: Dict, expenses: Dict, comment: string)
    ensures var after := GetPeriod(Upsert(rows, period, incomes, expenses, comment), period);
            after.Some? && after.value.comment == comment &&
            match GetPeriod(rows, period)
            case None => after.value.incomes == incomes && after.value.expenses == expenses
            case Some(before) => after.value.incomes == Update(before.incomes, incomes) &&
                                 after.value.expenses == Update(before.expenses, expenses)
  {
    var r := Upsert(rows, period, incomes, expenses, comment);
    match FirstIndex(period, rows)
    case None =>
      FirstIndexIs(period, r, |rows|);
    case Some(i) =>
      FirstIndexIs(period, r, i);
  }

  /** Writing one period leaves what `get_period` answers for every other period unchanged. */
  lemma {:induction false} InsertKeepsOtherPeriods(rows: seq<Entry>, period: string, incomes: Dict, expenses: Dict, comment: string, other: string)
    requires other != period
    ensures GetPeriod(Upsert(rows, period, incomes, expenses, comment), other) == GetPeriod(rows, other)
  {
    var r := Upsert(rows, period, incomes, expenses, comment);
    match FirstIndex(other, rows)
    case None =>
      assert forall j :: 0 <= j < |r| ==> r[j].period != other by {
        forall j | 0 <= j < |r| ensures r[j].period != other {
          if j >= |rows| { InPeriods(rows, period); }
        }
      }
    case Some(k) =>
      FirstIndexIs(other, r, k);
  }

  /** `get_all_periods` after an insert: an existing period keeps the list as it was, a new one is appended. */
  lemma {:induction false} InsertPeriods(rows: seq<Entry>, period: string, incomes: Dict, expenses: Dict, comment: string)
    ensures Periods(Upsert(rows, period, incomes, expenses, comment)) ==
            if period in Periods(rows) then Periods(rows) else Periods(rows) + [period]
  {
    var r := Upsert(rows, period, incomes, expenses, comment);
    if period in Periods(rows) {
      var i := FirstIndex(period, rows).value;
      assert r == rows[i := r[i]];
      assert r[i].period == rows[i].period;
    }
  }

  /** An insert keeps "no two rows share a period". */
  lemma {:induction false} InsertKeepsUnique(rows: seq<Entry>, period: string, incomes: Dict, expenses: Dict, comment: string)
    requires UniquePeriods(rows)
    ensures UniquePeriods(Upsert(rows, period, incomes, expenses, comment))
  {
    var r := Upsert(rows, period, incomes, expenses, comment);
    InsertPeriods(rows, period, incomes, expenses, comment);
    assert forall j :: 0 <= j < |r| ==> r[j].period == Periods(r)[j];
  }

  /**
   * The CSV store. `rows` is the file's content below the header row; the
   * constructor is the module's start-up, which writes a header-only file
   * when no file exists yet and otherwise keeps the existing one.
   */
  class PeriodStore {
    var rows: seq<Entry>

    /** `existing`: the rows of the file already on disk, None when there is no file. */
    constructor (existing: Option<seq<Entry>>)
      ensures existing.None? ==> rows == []
      ensures existing.Some? ==> rows == existing.value
    {
      match existing
      case None => rows := [];
      case Some(found) => rows := found;
    }

    /**
     * `insert_period`: load the rows, look the period up, merge the
     * argument dicts into the stored ones with the two item loops, then
     * update the found row in place or append a new one, and save.
     */
    method InsertPeriod(period: string, incomes: Dict, expenses: Dict, comment: string)
      modifies this
      ensures rows == Upsert(old(rows), period, incomes, expenses, comment)
      ensures old(UniquePeriods(rows)) ==> UniquePeriods(rows)
    {
      var data := rows;
      var existing := FindPeriodInData(period, data);
      var existingIncomes: Dict := if existing.Some? then existing.value.incomes else [];
      var existingExpenses: Dict := if existing.Some? then existing.value.expenses else [];
      existingIncomes := MergeItems(existingIncomes, incomes);
      existingExpenses := MergeItems(existingExpenses, expenses);
      if existing.Some? {
        // The found row is the first one with this period; it is changed where it stands.
        var i := FirstIndex(period, data).value;
        data := data[i := Entry(data[i].period, existingIncomes, existingExpenses, comment)];
      } else {
        data := data + [Entry(period, incomes, expenses, comment)];
      }
      rows := data;
      if old(UniquePeriods(rows)) {
        InsertKeepsUnique(old(rows), period, incomes, expenses, comment);
      }
    }

    /** `get_all_periods`: the period of every row, one per row, in stored order. */
    method GetAllPeriods() returns (periods: seq<string>)
      ensures |periods| == |rows|
      ensures forall i :: 0 <= i < |rows| ==> periods[i] == rows[i].period
    {
      periods := [];
      var k := 0;
      while k < |rows|
        invariant 0 <= k <= |rows|
        invariant |periods| == k
        invariant forall i :: 0 <= i < k ==> periods[i] == rows[i].period
      {
        periods := periods + [rows[k].period];
        k := k + 1;
      }
    }

    /** `clear_data`: every row goes, the header stays. */
    method ClearData()
      modifies this
      ensures rows == []
    {
      rows := [];
    }
  }

  /**
   * The item loops of `insert_period`: each item of `items` is written into
   * `target` (both branches of the source's `if key in` assign the same).
   */
  method MergeItems(target: Dict, items: Dict) returns (merged: Dict)
    ensures merged == Update(target, items)
    ensures ToMap(merged) == ToMap(target) + ToMap(items)
  {
    merged := target;
    var k := 0;
    while k < |items|
      invariant 0 <= k <= |items|
      invariant merged == Update(target, items[..k])
    {
      assert items[..k + 1][..k] == items[..k];
      merged := Set(merged, items[k].0, items[k].1);
      k := k + 1;
    }
    assert items[..|items|] == items;
  }
}
