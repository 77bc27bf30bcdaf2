/**
 * The three pages of logic/app.py: data entry (period key, amount dicts
 * and the two writes of a save), visualisation (clear button, then the
 * chart) and the instalment tracker behind its username check. Widgets are
 * inputs: the select boxes give the month, the year and the chosen period,
 * the number inputs leave their values in the session map, and buttons are
 * booleans.
 */
module App {
  import opened Wrappers
  import opened PyDict
  import opened Text
  import opened Calendar
  import opened Database
  import opened DataPlug
  import Tracker

  /** `f"{month} {year}"` */
  function PeriodKey(month: string, year: nat): (key: string)
    ensures key == month + [' '] + Decimal(year)
  {
    month + " " + Decimal(year)
  }

  /** Two month/year choices give the same period key only when they are the same choice. */
  lemma {:induction false} PeriodKeyInjective(m1: string, y1: nat, m2: string, y2: nat)
    requires ' ' !in m1 && ' ' !in m2
    requires PeriodKey(m1, y1) == PeriodKey(m2, y2)
    ensures m1 == m2 && y1 == y2
  {
    SplitAtSeparator(m1, Decimal(y1), m2, Decimal(y2), ' ');
    DecimalInjective(y1, y2);
  }

  /** For the month names of the select box, distinct (month, year) choices are distinct periods. */
  lemma {:induction false} CalendarPeriodsDistinct(m1: string, y1: nat, m2: string, y2: nat)
    requires m1 in Months && m2 in Months
    requires m1 != m2 || y1 != y2
    ensures PeriodKey(m1, y1) != PeriodKey(m2, y2)
  {
    MonthsHaveNoSeparators();
    if PeriodKey(m1, y1) == PeriodKey(m2, y2) {
      PeriodKeyInjective(m1, y1, m2, y2);
    }
  }

  /** The income categories listed by logic/income.py. */
  const IncomeCategories: seq<string> := [
    "Salary", "Bonuses", "Interest and Dividends", "Business Income", "Rental Income",
    "Investment Income", "Freelance Income", "Government Benefits", "Other"]

  /** The expense categories listed by logic/expense.py. */
  const ExpenseCategories: seq<string> := [
    "Housing and Utilities", "Transportation", "Food and Health",
    "Education and Entertainment", "Financial and Insurance"]

  const IncomePrefix: string := "income_"

  const ExpensePrefix: string := "expense_"

  /**
   * `{name: st.session_state.get(f"{prefix}{name}", 0) for name in names}`:
   * one key per listed name, valued from the session or 0; a repeated name
   * keeps its first position.
   */
  function Amounts(prefix: string, names: seq<string>, session: map<string, int>): (d: Dict)
    ensures forall k :: k in ToMap(d) <==> k in names
    ensures forall k :: k in ToMap(d) ==> ToMap(d)[k] == GetOr(session, prefix + k, 0)
    ensures Distinct(names) ==> Keys(d) == names
  {
    if names == [] then []
    else
      var init, last := names[..|names| - 1], names[|names| - 1];
      var prev := Amounts(prefix, init, session);
      AmountsStep(prefix, names, session, prev);
      Set(prev, last, GetOr(session, prefix + last, 0))
  }

  /** Writing the last name of the comprehension. */
  lemma {:induction false} AmountsStep(prefix: string, names: seq<string>, session: map<string, int>, prev: Dict)
    requires names != []
    requires forall k :: k in ToMap(prev) <==> k in names[..|names| - 1]
    requires forall k :: k in ToMap(prev) ==> ToMap(prev)[k] == GetOr(session, prefix + k, 0)
    requires Distinct(names[..|names| - 1]) ==> Keys(prev) == names[..|names| - 1]
    ensures var d := Set(prev, names[|names| - 1], GetOr(session, prefix + names[|names| - 1], 0));
            && (forall k :: k in ToMap(d) <==> k in names)
            && (forall k :: k in ToMap(d) ==> ToMap(d)[k] == GetOr(session, prefix + k, 0))
            && (Distinct(names) ==> Keys(d) == names)
  {
    var init, last := names[..|names| - 1], names[|names| - 1];
    assert names == init + [last];
    var d := Set(prev, last, GetOr(session, prefix + last, 0));
    assert ToMap(d) == ToMap(prev)[last := GetOr(session, prefix + last, 0)];
    if Distinct(names) {
      assert Distinct(init);
      assert last !in init;
    }
  }

  lemma CategoriesAreDistinct()
    ensures Distinct(IncomeCategories) && Distinct(ExpenseCategories)
  {
  }

  /** The submitted income dict lists the nine income categories in order, each valued from the session or 0. */
  lemma {:induction false} SubmittedIncomes(session: map<string, int>)
    ensures var d := Amounts(IncomePrefix, IncomeCategories, session);
            && Keys(d) == IncomeCategories
            && forall i :: 0 <= i < |d| ==> d[i].1 == GetOr(session, IncomePrefix + IncomeCategories[i], 0)
  {
    CategoriesAreDistinct();
    var d := Amounts(IncomePrefix, IncomeCategories, session);
    forall i | 0 <= i < |d| ensures d[i].1 == GetOr(session, IncomePrefix + IncomeCategories[i], 0) {
      ToMapAt(d, i);
      assert d[i].0 == Keys(d)[i];
    }
  }

  /** The submitted expense dict lists the five expense categories in order, each valued from the session or 0. */
  lemma {:induction false} SubmittedExpenses(session: map<string, int>)
    ensures var d := Amounts(ExpensePrefix, ExpenseCategories, session);
            && Keys(d) == ExpenseCategories
            && forall i :: 0 <= i < |d| ==> d[i].1 == GetOr(session, ExpensePrefix + ExpenseCategories[i], 0)
  {
    CategoriesAreDistinct();
    var d := Amounts(ExpensePrefix, ExpenseCategories, session);
    forall i | 0 <= i < |d| ensures d[i].1 == GetOr(session, ExpensePrefix + ExpenseCategories[i], 0) {
      ToMapAt(d, i);
      assert d[i].0 == Keys(d)[i];
    }
  }

  /** The comment a save writes: appended to the stored one after a blank line, or alone for a new period. */
  function SavedComment(rows: seq<Entry>, period: string, comment: string): (c: string)
    ensures period !in Periods(rows) ==> c == comment
    ensures period in Periods(rows) ==> c == GetPeriod(rows, period).value.comment + "\n\n" + comment
  {
    match GetPeriod(rows, period)
    case None => comment
    case Some(current) => current.comment + "\n\n" + comment
  }

  /** The table after a save: the incomes written with an empty comment, then the expenses with the saved comment. */
  function SaveRows(rows: seq<Entry>, period: string, incomes: Dict, expenses: Dict, comment: string): (r: seq<Entry>)
    ensures |r| == if period in Periods(rows) then |rows| else |rows| + 1
    ensures forall j :: 0 <= j < |rows| ==> r[j].period == rows[j].period
  {
    var afterIncomes := Upsert(rows, period, incomes, [], "");
    assert period in Periods(afterIncomes) by {
      InsertThenGet(rows, period, incomes, [], "");
    }
    Upsert(afterIncomes, period, [], expenses, SavedComment(rows, period, comment))
  }

  /**
   * After a save the period is stored with the old incomes overridden by the
   * submitted ones, the old expenses overridden likewise (the submitted
   * dicts alone for a new period), and the saved comment; the "" of the
   * first write does not survive.
   */
  lemma {:induction false} SaveOutcome(rows: seq<Entry>, period: string, incomes: Dict, expenses: Dict, comment: string)
    ensures var after := GetPeriod(SaveRows(rows, period, incomes, expenses, comment), period);
            after.Some? && after.value.comment == SavedComment(rows, period, comment) &&
            match GetPeriod(rows, period)
            case None => after.value.incomes == incomes && after.value.expenses == expenses
            case Some(before) => after.value.incomes == Update(before.incomes, incomes) &&
                                 after.value.expenses == Update(before.expenses, expenses)
  {
    var afterIncomes := Upsert(rows, period, incomes, [], "");
    InsertThenGet(rows, period, incomes, [], "");
    InsertThenGet(afterIncomes, period, [], expenses, SavedComment(rows, period, comment));
    var mid := GetPeriod(afterIncomes, period).value;
    assert Update(mid.incomes, []) == mid.incomes;
    match GetPeriod(rows, period)
    case None =>
      UpdateEmpty(expenses);
    case Some(before) =>
      assert Update(before.expenses, []) == before.expenses;
  }

  /** A save leaves every other period as it was. */
  lemma {:induction false} SaveKeepsOtherPeriods(rows: seq<Entry>, period: string, incomes: Dict, expenses: Dict, comment: string, other: string)
    requires other != period
    ensures GetPeriod(SaveRows(rows, period, incomes, expenses, comment), other) == GetPeriod(rows, other)
  {
    InsertKeepsOtherPeriods(rows, period, incomes, [], "", other);
    InsertKeepsOtherPeriods(Upsert(rows, period, incomes, [], ""), period, [], expenses,
                            SavedComment(rows, period, comment), other);
  }

  /** A save lists the period once: the period list is kept, or grows by the new period. */
  lemma {:induction false} SavePeriods(rows: seq<Entry>, period: string, incomes: Dict, expenses: Dict, comment: string)
    ensures Periods(SaveRows(rows, period, incomes, expenses, comment)) ==
            if period in Periods(rows) then Periods(rows) else Periods(rows) + [period]
    ensures UniquePeriods(rows) ==> UniquePeriods(SaveRows(rows, period, incomes, expenses, comment))
  {
    var afterIncomes := Upsert(rows, period, incomes, [], "");
    InsertPeriods(rows, period, incomes, [], "");
    InsertPeriods(afterIncomes, period, [], expenses, SavedComment(rows, period, comment));
    assert period in Periods(afterIncomes) by {
      InsertThenGet(rows, period, incomes, [], "");
    }
    if UniquePeriods(rows) {
      InsertKeepsUnique(rows, period, incomes, [], "");
      InsertKeepsUnique(afterIncomes, period, [], expenses, SavedComment(rows, period, comment));
    }
  }

  /**
   * The submitted branch of the data-entry form: build the period key and
   * the two dicts, extend the comment when the period exists, then write
   * the incomes and the expenses.
   */
  method SaveData(store: PeriodStore, month: string, year: nat, session: map<string, int>, comment: string)
    modifies store
    ensures store.rows == SaveRows(old(store.rows), PeriodKey(month, year),
                                   Amounts(IncomePrefix, IncomeCategories, session),
                                   Amounts(ExpensePrefix, ExpenseCategories, session), comment)
  {
    var period := PeriodKey(month, year);
    var incomes := Amounts(IncomePrefix, IncomeCategories, session);
    var expenses := Amounts(ExpensePrefix, ExpenseCategories, session);
    var currentPeriodData := GetPeriod(store.rows, period);
    var expenseComment := comment;
    if currentPeriodData.Some? {
      expenseComment := currentPeriodData.value.comment + "\n\n" + expenseComment;
    }
    assert expenseComment == SavedComment(store.rows, period, comment);
    store.InsertPeriod(period, incomes, [], "");
    store.InsertPeriod(period, [], expenses, expenseComment);
  }

  /**
   * The visualisation page: "Clear All Data" empties the store first; the
   * select box then offers the stored periods (`pick` is its position, valid
   * whenever there is something to pick), and a submitted form shows the
   * chart or the "No data found" warning. None: the form was not submitted.
   */
  method VisualisationPage(store: PeriodStore, clearClicked: bool, submitted: bool, pick: nat)
    returns (periods: seq<string>, view: Option<PlugView>)
    requires clearClicked || |store.rows| == 0 || pick < |store.rows|
    modifies store
    ensures store.rows == if clearClicked then [] else old(store.rows)
    ensures periods == Periods(store.rows)
    ensures clearClicked ==> periods == []
    ensures !submitted ==> view.None?
    ensures submitted ==> view == Some(Plug(store.rows, if |periods| == 0 then None else Some(periods[pick])))
  {
    if clearClicked {
      store.ClearData();
    }
    periods := store.GetAllPeriods();
    assert periods == Periods(store.rows);
    if submitted {
      var selected := if |periods| == 0 then None else Some(periods[pick]);
      view := Some(Plug(store.rows, selected));
    } else {
      view := None;
    }
  }

  /** The only user the tracker page admits. */
  const TrackerUser: string := "cosmint"

  /** The tracker page: it runs `f_instalments` for the tracker user only; anyone else gets a warning and nothing is written. */
  method TrackerPage(username: Option<string>, file: Tracker.InstalmentsFile, ui: map<string, Tracker.Value>)
    returns (authorised: bool, saved: bool)
    modifies file
    ensures authorised <==> username == Some(TrackerUser)
    ensures !authorised ==> !saved && file.state == old(file.state)
    ensures authorised ==> (saved <==> !old(file.state).Unreadable?)
    ensures saved ==> var loaded := Tracker.LoadData(old(file.state)).value;
                      file.state == Tracker.Holds(loaded + Tracker.GridEntries(loaded, ui, Tracker.Grid()))
    ensures authorised && !saved ==> file.state == old(file.state)
  {
    authorised := username == Some(TrackerUser);
    if authorised {
      saved := file.Instalments(ui);
    } else {
      saved := false;
    }
  }

  /** The three entries of the navigation menu, each with what its widgets hand back. */
  datatype PageInput =
    | DataEntry(month: string, year: nat, session: map<string, int>, comment: string, submitted: bool)
    | DataVisualization(clearClicked: bool, plugSubmitted: bool, pick: nat)
    | DataTracker(ui: map<string, Tracker.Value>)

  /** The stored rows after a page: data entry saves when submitted, visualisation clears on request. */
  function PageRows(rows: seq<Entry>, input: PageInput): (r: seq<Entry>)
    ensures input.DataEntry? ==>
              r == if input.submitted
                   then SaveRows(rows, PeriodKey(input.month, input.year),
                                 Amounts(IncomePrefix, IncomeCategories, input.session),
                                 Amounts(ExpensePrefix, ExpenseCategories, input.session), input.comment)
                   else rows
    ensures input.DataVisualization? ==> r == if input.clearClicked then [] else rows
    ensures input.DataTracker? ==> r == rows
  {
    match input
    case DataEntry(month, year, session, comment, submitted) =>
      if submitted
      then SaveRows(rows, PeriodKey(month, year), Amounts(IncomePrefix, IncomeCategories, session),
                    Amounts(ExpensePrefix, ExpenseCategories, session), comment)
      else rows
    case DataVisualization(clearClicked, _, _) => if clearClicked then [] else rows
    case DataTracker(_) => rows
  }

  /** The instalments file after a page: only the tracker page run by the tracker user on a readable file writes it. */
  function PageFile(state: Tracker.FileState, username: Option<string>, input: PageInput): (s: Tracker.FileState)
    ensures !input.DataTracker? || username != Some(TrackerUser) || state.Unreadable? ==> s == state
    ensures input.DataTracker? && username == Some(TrackerUser) && !state.Unreadable? ==>
              var loaded := Tracker.LoadData(state).value;
              s == Tracker.Holds(loaded + Tracker.GridEntries(loaded, input.ui, Tracker.Grid()))
  {
    if input.DataTracker? && username == Some(TrackerUser) && !state.Unreadable? then
      var loaded := Tracker.LoadData(state).value;
      Tracker.Holds(loaded + Tracker.GridEntries(loaded, input.ui, Tracker.Grid()))
    else state
  }

  /**
   * What a page shows: only a submitted visualisation form shows something,
   * a chart exactly when the store still has rows to pick from.
   */
  function PageView(rows: seq<Entry>, input: PageInput): (v: Option<PlugView>)
    requires input.DataVisualization? ==> input.clearClicked || |rows| == 0 || input.pick < |rows|
    ensures !(input.DataVisualization? && input.plugSubmitted) ==> v.None?
    ensures input.DataVisualization? && input.plugSubmitted ==>
              v.Some? && (v.value.Chart? <==> !input.clearClicked && |rows| > 0)
    ensures input.DataVisualization? && input.plugSubmitted ==>
              var periods := Periods(PageRows(rows, input));
              v == Some(Plug(PageRows(rows, input), if |periods| == 0 then None else Some(periods[input.pick])))
  {
    if input.DataVisualization? && input.plugSubmitted then
      var after := PageRows(rows, input);
      var periods := Periods(after);
      Some(Plug(after, if |periods| == 0 then None else Some(periods[input.pick])))
    else None
  }

  /** `og_app`: dispatch on the menu choice. */
  method OgApp(store: PeriodStore, file: Tracker.InstalmentsFile, username: Option<string>, input: PageInput)
    returns (view: Option<PlugView>)
    requires input.DataVisualization? ==> input.clearClicked || |store.rows| == 0 || input.pick < |store.rows|
    modifies store, file
    ensures store.rows == PageRows(old(store.rows), input)
    ensures file.state == PageFile(old(file.state), username, input)
    ensures view == PageView(old(store.rows), input)
  {
    view := None;
    match input
    case DataEntry(month, year, session, comment, submitted) =>
      if submitted {
        SaveData(store, month, year, session, comment);
      }
    case DataVisualization(clearClicked, plugSubmitted, pick) =>
      var periods;
      periods, view := VisualisationPage(store, clearClicked, plugSubmitted, pick);
    case DataTracker(ui) =>
      var authorised, saved := TrackerPage(username, file, ui);
  }
}
