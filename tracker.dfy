/**
 * The instalment tracker of logic/tracker.py: a JSON map from widget keys
 * to values, loaded, refreshed for every month and account of the grid
 * from the page's widgets, and saved back.
 */
module Tracker {
  import opened Wrappers
  import opened PyDict
  import opened Text
  import opened Calendar

  /** The JSON values the tracker stores: checkbox states and amounts. */
  datatype Value = Flag(checked: bool) | Amount(amount: int)

  /** The instalments file: absent, holding a JSON object, or unreadable (not JSON, no access). */
  datatype FileState = Missing | Holds(data: map<string, Value>) | Unreadable

  /** `load_data`: the stored map, `{}` when the file is missing; None stands for the exception an unreadable file raises. */
  function LoadData(file: FileState): (r: Option<map<string, Value>>)
    ensures file.Missing? ==> r == Some(map[])
    ensures file.Holds? ==> r == Some(file.data)
    ensures r.None? <==> file.Unreadable?
  {
    match file
    case Missing => Some(map[])
    case Holds(data) => Some(data)
    case Unreadable => None
  }

  /** The account columns of the grid (`table()`). */
  const Accounts: seq<string> := ["ING", "CEC", "Orange"]

  /** One grid cell: a month and an account column. */
  type Cell = (string, string)

  /** `f"{col}_{month}_{kind}"` */
  function Key(account: string, month: string, kind: string): (k: string)
    ensures |k| == |account| + |month| + |kind| + 2
    ensures k[..|account|] == account && k[|account|] == '_'
    ensures k[|account| + 1..|account| + 1 + |month|] == month && k[|account| + 1 + |month|] == '_'
    ensures k[|account| + |month| + 2..] == kind
  {
    account + "_" + month + "_" + kind
  }

  function CheckboxKey(c: Cell): string { Key(c.1, c.0, "checkbox") }

  function InputKey(c: Cell): string { Key(c.1, c.0, "input") }

  /** A checkbox key ends in "checkbox" and an input key in "input", so the two never meet, whatever the names. */
  lemma CheckboxIsNotInput(c: Cell, d: Cell)
    ensures CheckboxKey(c) != InputKey(d)
  {
    var k, l := CheckboxKey(c), InputKey(d);
    assert k[|k| - 1] == 'x' by {
      assert k[|c.1| + |c.0| + 2..] == "checkbox";
    }
    assert l[|l| - 1] == 't' by {
      assert l[|d.1| + |d.0| + 2..] == "input";
    }
  }

  /** Distinct (account, month, kind) triples give distinct keys, as long as account and month contain no '_'. */
  lemma {:induction false} KeyInjective(a1: string, m1: string, k1: string, a2: string, m2: string, k2: string)
    requires '_' !in a1 && '_' !in m1 && '_' !in a2 && '_' !in m2
    requires Key(a1, m1, k1) == Key(a2, m2, k2)
    ensures a1 == a2 && m1 == m2 && k1 == k2
  {
    assert Key(a1, m1, k1) == a1 + ['_'] + (m1 + "_" + k1);
    assert Key(a2, m2, k2) == a2 + ['_'] + (m2 + "_" + k2);
    SplitAtSeparator(a1, m1 + "_" + k1, a2, m2 + "_" + k2, '_');
    assert m1 + "_" + k1 == m1 + ['_'] + k1;
    assert m2 + "_" + k2 == m2 + ['_'] + k2;
    SplitAtSeparator(m1, k1, m2, k2, '_');
  }

  /**
   * A keyed Streamlit widget returns the value the user left in it, kept
   * under its key in the widget state `ui`; an untouched widget returns its
   * `value=` argument.
   */
  function WidgetValue(ui: map<string, Value>, key: string, default: Value): Value {
    GetOr(ui, key, default)
  }

  /** One cell of the loop: both widgets read their defaults from `data`, then both keys are written. */
  function WriteCell(data: map<string, Value>, ui: map<string, Value>, c: Cell): (r: map<string, Value>)
    ensures r.Keys == data.Keys + {CheckboxKey(c), InputKey(c)}
    ensures r[CheckboxKey(c)] == WidgetValue(ui, CheckboxKey(c), GetOr(data, CheckboxKey(c), Flag(false)))
    ensures r[InputKey(c)] == WidgetValue(ui, InputKey(c), GetOr(data, InputKey(c), Amount(0)))
    ensures forall k :: k in data && k != CheckboxKey(c) && k != InputKey(c) ==> r[k] == data[k]
  {
    CheckboxIsNotInput(c, c);
    var checkboxKey, inputKey := CheckboxKey(c), InputKey(c);
    var checkboxValue := WidgetValue(ui, checkboxKey, GetOr(data, checkboxKey, Flag(false)));
    var inputValue := WidgetValue(ui, inputKey, GetOr(data, inputKey, Amount(0)));
    data[checkboxKey := checkboxValue][inputKey := inputValue]
  }

  /** The cells of one month row, in column order. */
  function Row(month: string, accounts: seq<string>): seq<Cell> {
    seq(|accounts|, j requires 0 <= j < |accounts| => (month, accounts[j]))
  }

  /** The cells of the given months, row by row. */
  function CellsOf(months: seq<string>, accounts: seq<string>): seq<Cell> {
    if months == [] then [] else CellsOf(months[..|months| - 1], accounts) + Row(months[|months| - 1], accounts)
  }

  /** The whole grid: twelve months by three accounts, in loop order. */
  function Grid(): (g: seq<Cell>)
    ensures |g| == 36
    ensures forall c :: c in g ==> c.0 in Months && c.1 in Accounts
  {
    CellsOfLength(Months, Accounts);
    CellsOfMembers(Months, Accounts);
    CellsOf(Months, Accounts)
  }

  /** The map after the loop has handled `cells` one by one (the loop's own specification). */
  function Replay(data: map<string, Value>, ui: map<string, Value>, cells: seq<Cell>): map<string, Value> {
    if cells == [] then data else WriteCell(Replay(data, ui, cells[..|cells| - 1]), ui, cells[|cells| - 1])
  }

  /** The keys the loop writes for `cells`. */
  function GridKeys(cells: seq<Cell>): set<string> {
    if cells == [] then {}
    else GridKeys(cells[..|cells| - 1]) + {CheckboxKey(cells[|cells| - 1]), InputKey(cells[|cells| - 1])}
  }

  /**
   * The entries written for `cells`, with defaults taken from the loaded
   * map: a checkbox key missing from it defaults to False, an input key to 0.
   */
  function GridEntries(loaded: map<string, Value>, ui: map<string, Value>, cells: seq<Cell>): map<string, Value> {
    if cells == [] then map[]
    else
      var c := cells[|cells| - 1];
      GridEntries(loaded, ui, cells[..|cells| - 1])
        [CheckboxKey(c) := WidgetValue(ui, CheckboxKey(c), GetOr(loaded, CheckboxKey(c), Flag(false)))]
        [InputKey(c) := WidgetValue(ui, InputKey(c), GetOr(loaded, InputKey(c), Amount(0)))]
  }

  /** No cell twice, and no '_' in a month or account name. */
  predicate WellFormed(cells: seq<Cell>) {
    && (forall i, j :: 0 <= i < j < |cells| ==> cells[i] != cells[j])
    && (forall i :: 0 <= i < |cells| ==> '_' !in cells[i].0 && '_' !in cells[i].1)
  }

  lemma {:induction false} GridKeysMember(cells: seq<Cell>, k: string)
    requires k in GridKeys(cells)
    ensures exists i :: 0 <= i < |cells| && (k == CheckboxKey(cells[i]) || k == InputKey(cells[i]))
  {
    var init := cells[..|cells| - 1];
    if k in GridKeys(init) {
      GridKeysMember(init, k);
      var i :| 0 <= i < |init| && (k == CheckboxKey(init[i]) || k == InputKey(init[i]));
      assert cells[i] == init[i];
    } else {
      assert k == CheckboxKey(cells[|cells| - 1]) || k == InputKey(cells[|cells| - 1]);
    }
  }

  /** The keys of a cell differ from each other and from every key of the cells before it. */
  lemma {:induction false} LastCellKeysAreFresh(cells: seq<Cell>)
    requires cells != [] && WellFormed(cells)
    ensures var c := cells[|cells| - 1];
            CheckboxKey(c) != InputKey(c) &&
            CheckboxKey(c) !in GridKeys(cells[..|cells| - 1]) && InputKey(c) !in GridKeys(cells[..|cells| - 1])
  {
    var init, c := cells[..|cells| - 1], cells[|cells| - 1];
    if CheckboxKey(c) == InputKey(c) {
      KeyInjective(c.1, c.0, "checkbox", c.1, c.0, "input");
    }
    forall k | k in GridKeys(init) ensures k != CheckboxKey(c) && k != InputKey(c) {
      GridKeysMember(init, k);
      var i :| 0 <= i < |init| && (k == CheckboxKey(init[i]) || k == InputKey(init[i]));
      assert init[i] == cells[i] && cells[i] != c;
      var d := init[i];
      if k == CheckboxKey(d) {
        if k == CheckboxKey(c) { KeyInjective(d.1, d.0, "checkbox", c.1, c.0, "checkbox"); }
        if k == InputKey(c) { KeyInjective(d.1, d.0, "checkbox", c.1, c.0, "input"); }
      } else {
        if k == CheckboxKey(c) { KeyInjective(d.1, d.0, "input", c.1, c.0, "checkbox"); }
        if k == InputKey(c) { KeyInjective(d.1, d.0, "input", c.1, c.0, "input"); }
      }
    }
  }

  lemma {:induction false} WellFormedPrefix(cells: seq<Cell>)
    requires cells != [] && WellFormed(cells)
    ensures WellFormed(cells[..|cells| - 1])
  {
  }

  /** The entries for `cells` are keyed by exactly the keys of `cells`. */
  lemma {:induction false} GridEntriesKeys(loaded: map<string, Value>, ui: map<string, Value>, cells: seq<Cell>)
    ensures GridEntries(loaded, ui, cells).Keys == GridKeys(cells)
  {
    if cells != [] {
      GridEntriesKeys(loaded, ui, cells[..|cells| - 1]);
    }
  }

  /**
   * Running the loop over distinct cells is the same as laying the grid
   * entries over the loaded map: since no key is written twice, each widget
   * still sees the loaded value as its default.
   */
  lemma {:induction false} ReplayIsOverlay(loaded: map<string, Value>, ui: map<string, Value>, cells: seq<Cell>)
    requires WellFormed(cells)
    ensures Replay(loaded, ui, cells) == loaded + GridEntries(loaded, ui, cells)
  {
    if cells == [] {
      assert loaded + map[] == loaded;
    } else {
      var init, c := cells[..|cells| - 1], cells[|cells| - 1];
      WellFormedPrefix(cells);
      ReplayIsOverlay(loaded, ui, init);
      LastCellKeysAreFresh(cells);
      GridEntriesKeys(loaded, ui, init);
      OverlayStep(loaded, ui, GridEntries(loaded, ui, init), c);
    }
  }

  /** Writing a cell whose keys the entries do not hold yet, over the loaded map plus those entries. */
  lemma {:induction false} OverlayStep(loaded: map<string, Value>, ui: map<string, Value>, entries: map<string, Value>, c: Cell)
    requires CheckboxKey(c) !in entries && InputKey(c) !in entries
    ensures WriteCell(loaded + entries, ui, c) ==
            loaded + entries[CheckboxKey(c) := WidgetValue(ui, CheckboxKey(c), GetOr(loaded, CheckboxKey(c), Flag(false)))]
                            [InputKey(c) := WidgetValue(ui, InputKey(c), GetOr(loaded, InputKey(c), Amount(0)))]
  {
    var prev := loaded + entries;
    assert GetOr(prev, CheckboxKey(c), Flag(false)) == GetOr(loaded, CheckboxKey(c), Flag(false));
    assert GetOr(prev, InputKey(c), Amount(0)) == GetOr(loaded, InputKey(c), Amount(0));
  }

  /** The cells of `months` × `accounts` number |months| · |accounts|. */
  lemma {:induction false} CellsOfLength(months: seq<string>, accounts: seq<string>)
    ensures |CellsOf(months, accounts)| == |months| * |accounts|
  {
    if months != [] {
      var n, a := |months|, |accounts|;
      CellsOfLength(months[..n - 1], accounts);
      assert |CellsOf(months, accounts)| == (n - 1) * a + a;
      assert (n - 1) * a + a == n * a;
    }
  }

  /** Every cell pairs a listed month with a listed account. */
  lemma {:induction false} CellsOfMembers(months: seq<string>, accounts: seq<string>)
    ensures forall c :: c in CellsOf(months, accounts) ==> c.0 in months && c.1 in accounts
  {
    if months != [] {
      var init, last := months[..|months| - 1], months[|months| - 1];
      CellsOfMembers(init, accounts);
      assert forall m :: m in init ==> m in months;
      assert forall c :: c in Row(last, accounts) ==> c.0 == last && c.1 in accounts;
    }
  }

  /** Distinct months and distinct accounts give distinct cells. */
  lemma {:induction false} CellsOfDistinct(months: seq<string>, accounts: seq<string>)
    requires Distinct(months) && Distinct(accounts)
    ensures forall i, j :: 0 <= i < j < |CellsOf(months, accounts)| ==> CellsOf(months, accounts)[i] != CellsOf(months, accounts)[j]
  {
    if months != [] {
      var init, last := months[..|months| - 1], months[|months| - 1];
      CellsOfDistinct(init, accounts);
      CellsOfMembers(init, accounts);
      var before, row := CellsOf(init, accounts), Row(last, accounts);
      assert last !in init;
      forall i, j | 0 <= i < j < |before + row| ensures (before + row)[i] != (before + row)[j] {
        if j >= |before| {
          assert (before + row)[j] == row[j - |before|];
          if i < |before| {
            assert before[i] in before;
          }
        }
      }
    }
  }

  /** Each (month, account) cell of the grid holds a distinct pair, and the names contain no '_'. */
  lemma {:induction false} CellsOfWellFormed(months: seq<string>, accounts: seq<string>)
    requires Distinct(months) && Distinct(accounts)
    requires forall m :: m in months ==> '_' !in m
    requires forall a :: a in accounts ==> '_' !in a
    ensures WellFormed(CellsOf(months, accounts))
    ensures forall c :: c in CellsOf(months, accounts) ==> c.0 in months && c.1 in accounts
    ensures |CellsOf(months, accounts)| == |months| * |accounts|
  {
    CellsOfLength(months, accounts);
    CellsOfMembers(months, accounts);
    CellsOfDistinct(months, accounts);
    var cells := CellsOf(months, accounts);
    assert forall i :: 0 <= i < |cells| ==> cells[i] in cells;
  }

  lemma GridWellFormed()
    ensures WellFormed(Grid())
    ensures |Grid()| == 36
  {
    MonthsAreDistinct();
    MonthsHaveNoSeparators();
    CellsOfWellFormed(Months, Accounts);
  }

  /** Distinct cells write twice as many distinct keys. */
  lemma {:induction false} GridKeysCount(cells: seq<Cell>)
    requires WellFormed(cells)
    ensures |GridKeys(cells)| == 2 * |cells|
  {
    if cells != [] {
      WellFormedPrefix(cells);
      GridKeysCount(cells[..|cells| - 1]);
      LastCellKeysAreFresh(cells);
    }
  }

  /**
   * What the grid entries hold: a value for the checkbox key and for the
   * input key of every cell — the widget's value, whose default is the loaded
   * value or False / 0 — and nothing else; 72 keys in all.
   */
  lemma {:induction false} GridEntriesDescribed(loaded: map<string, Value>, ui: map<string, Value>)
    ensures var entries := GridEntries(loaded, ui, Grid());
            && entries.Keys == GridKeys(Grid())
            && |entries.Keys| == 72
            && (forall c :: c in Grid() ==>
                  CheckboxKey(c) in entries &&
                  entries[CheckboxKey(c)] == WidgetValue(ui, CheckboxKey(c), GetOr(loaded, CheckboxKey(c), Flag(false))))
            && (forall c :: c in Grid() ==>
                  InputKey(c) in entries &&
                  entries[InputKey(c)] == WidgetValue(ui, InputKey(c), GetOr(loaded, InputKey(c), Amount(0))))
  {
    GridWellFormed();
    GridEntriesKeys(loaded, ui, Grid());
    GridKeysCount(Grid());
    forall c | c in Grid() ensures
      && CheckboxKey(c) in GridEntries(loaded, ui, Grid())
      && GridEntries(loaded, ui, Grid())[CheckboxKey(c)] == WidgetValue(ui, CheckboxKey(c), GetOr(loaded, CheckboxKey(c), Flag(false)))
      && InputKey(c) in GridEntries(loaded, ui, Grid())
      && GridEntries(loaded, ui, Grid())[InputKey(c)] == WidgetValue(ui, InputKey(c), GetOr(loaded, InputKey(c), Amount(0)))
    {
      var i :| 0 <= i < |Grid()| && Grid()[i] == c;
      EntryAt(loaded, ui, Grid(), i);
    }
  }

  /** The entry of cell i survives the later cells. */
  lemma {:induction false} EntryAt(loaded: map<string, Value>, ui: map<string, Value>, cells: seq<Cell>, i: nat)
    requires WellFormed(cells) && i < |cells|
    ensures var c, entries := cells[i], GridEntries(loaded, ui, cells);
            && CheckboxKey(c) in entries
            && entries[CheckboxKey(c)] == WidgetValue(ui, CheckboxKey(c), GetOr(loaded, CheckboxKey(c), Flag(false)))
            && InputKey(c) in entries
            && entries[InputKey(c)] == WidgetValue(ui, InputKey(c), GetOr(loaded, InputKey(c), Amount(0)))
  {
    var init, last := cells[..|cells| - 1], cells[|cells| - 1];
    LastCellKeysAreFresh(cells);
    if i < |cells| - 1 {
      WellFormedPrefix(cells);
      EntryAt(loaded, ui, init, i);
      GridEntriesKeys(loaded, ui, init);
      var c := cells[i];
      assert init[i] == c;
      assert CheckboxKey(c) in GridKeys(init) && InputKey(c) in GridKeys(init);
      EarlierEntryKept(loaded, ui, cells, CheckboxKey(c));
      EarlierEntryKept(loaded, ui, cells, InputKey(c));
    }
  }

  /** A key the last cell does not write keeps the entry the earlier cells gave it. */
  lemma EarlierEntryKept(loaded: map<string, Value>, ui: map<string, Value>, cells: seq<Cell>, k: string)
    requires cells != [] && k != CheckboxKey(cells[|cells| - 1]) && k != InputKey(cells[|cells| - 1])
    ensures var before, entries := GridEntries(loaded, ui, cells[..|cells| - 1]), GridEntries(loaded, ui, cells);
            (k in entries <==> k in before) && (k in before ==> entries[k] == before[k])
  {
  }

  /**
   * The key/default/update loop of `f_instalments`: for every month and
   * account, the checkbox and the amount widget are shown with the current
   * value (or False / 0) as default, and their values are written back.
   */
  method FillCells(loaded: map<string, Value>, ui: map<string, Value>, months: seq<string>, accounts: seq<string>)
    returns (data: map<string, Value>)
    ensures data == Replay(loaded, ui, CellsOf(months, accounts))
  {
    data := loaded;
    var i := 0;
    while i < |months|
      invariant 0 <= i <= |months|
      invariant data == Replay(loaded, ui, CellsOf(months[..i], accounts))
    {
      ghost var done := CellsOf(months[..i], accounts);
      var j := 0;
      assert done + Row(months[i], accounts[..0]) == done;
      while j < |accounts|
        invariant 0 <= j <= |accounts|
        invariant data == Replay(loaded, ui, done + Row(months[i], accounts[..j]))
      {
        var month, col := months[i], accounts[j];
        var checkboxKey := Key(col, month, "checkbox");
        var inputKey := Key(col, month, "input");
        var checkboxValue := WidgetValue(ui, checkboxKey, GetOr(data, checkboxKey, Flag(false)));
        var inputValue := WidgetValue(ui, inputKey, GetOr(data, inputKey, Amount(0)));
        data := data[checkboxKey := checkboxValue];
        data := data[inputKey := inputValue];
        RowExtend(done, month, accounts, j);
        ReplayAppend(loaded, ui, done + Row(month, accounts[..j]), (month, col));
        j := j + 1;
      }
      CellsOfExtend(months, accounts, i);
      i := i + 1;
    }
    assert months[..i] == months;
  }

  /**
   * The loop over the twelve months and three accounts: the result is the
   * loaded map updated with the grid entries; keys outside the grid keep
   * their loaded values.
   */
  method FillGrid(loaded: map<string, Value>, ui: map<string, Value>) returns (data: map<string, Value>)
    ensures data == loaded + GridEntries(loaded, ui, Grid())
    ensures data.Keys == loaded.Keys + GridKeys(Grid())
    ensures forall k :: k in loaded && k !in GridKeys(Grid()) ==> data[k] == loaded[k]
  {
    data := FillCells(loaded, ui, Months, Accounts);
    FillGridDone(loaded, ui, data);
  }

  lemma {:induction false} ReplayAppend(loaded: map<string, Value>, ui: map<string, Value>, cells: seq<Cell>, c: Cell)
    ensures Replay(loaded, ui, cells + [c]) == WriteCell(Replay(loaded, ui, cells), ui, c)
  {
    assert (cells + [c])[..|cells|] == cells;
  }

  lemma {:induction false} RowExtend(done: seq<Cell>, month: string, accounts: seq<string>, j: nat)
    requires j < |accounts|
    ensures done + Row(month, accounts[..j + 1]) == done + Row(month, accounts[..j]) + [(month, accounts[j])]
  {
  }

  lemma {:induction false} CellsOfExtend(months: seq<string>, accounts: seq<string>, i: nat)
    requires i < |months|
    ensures CellsOf(months[..i + 1], accounts) == CellsOf(months[..i], accounts) + Row(months[i], accounts[..|accounts|])
  {
    var prefix := months[..i + 1];
    assert prefix[..i] == months[..i] && prefix[i] == months[i];
    assert CellsOf(prefix, accounts) == CellsOf(prefix[..i], accounts) + Row(prefix[i], accounts);
    assert accounts[..|accounts|] == accounts;
  }

  /** After the last month, the loop's map is the loaded map overlaid with the grid entries. */
  lemma {:induction false} FillGridDone(loaded: map<string, Value>, ui: map<string, Value>, data: map<string, Value>)
    requires data == Replay(loaded, ui, Grid())
    ensures data == loaded + GridEntries(loaded, ui, Grid())
    ensures data.Keys == loaded.Keys + GridKeys(Grid())
    ensures forall k :: k in loaded && k !in GridKeys(Grid()) ==> data[k] == loaded[k]
  {
    GridWellFormed();
    ReplayIsOverlay(loaded, ui, Grid());
    GridEntriesKeys(loaded, ui, Grid());
  }

  /** The instalments JSON file as the page sees it. */
  class InstalmentsFile {
    var state: FileState

    constructor (initial: FileState)
      ensures state == initial
    {
      state := initial;
    }

    /**
     * `f_instalments`: load the map, refresh the grid from the widgets and
     * save. An unreadable file raises inside the `try`, the error is shown
     * and nothing is written.
     */
    method Instalments(ui: map<string, Value>) returns (saved: bool)
      modifies this
      ensures saved <==> !old(state).Unreadable?
      ensures !saved ==> state == old(state)
      ensures saved ==> var loaded := LoadData(old(state)).value;
                        state == Holds(loaded + GridEntries(loaded, ui, Grid()))
    {
      var loaded := LoadData(state);
      if loaded.None? {
        saved := false;
        return;
      }
      var data := FillGrid(loaded.value, ui);
      state := Holds(data);
      saved := true;
    }
  }
}
