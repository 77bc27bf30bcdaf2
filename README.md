# Streamlit Expense Tracker — a verified Dafny model

This project models the logic of the Streamlit Expense Tracker: a personal
budget app where a user registers and logs in, enters the incomes, expenses
and a comment of a month ("January 2025"), charts a stored month as totals
and a Sankey diagram, and (for one user) keeps an instalment grid of twelve
months by three accounts.

What is modelled, module by module:

- `PyDict` (pydict.dfy) — Python's insertion-ordered `dict` from names to
  integer amounts, with `d[k] = v` (`Set`) and the merge loop
  `for k, v in e.items(): d[k] = v` (`Update`). Order is kept because the
  Sankey lists follow `keys()` and `values()`.
- `Database` (database.dfy) — the CSV period store of `logic/database.py`
  as the class `PeriodStore` whose `rows` field is the file below its header:
  first-match lookups, the upsert with its two merge loops, the period list
  and clearing.
- `DataPlug` (data_plug.dfy) — the totals and the `label`/`source`/
  `target`/`value` lists of the chart in `logic/data_plug.py`.
- `Tracker` (tracker.dfy) — `load_data` and the nested month × account loop
  of `f_instalments` in `logic/tracker.py`, with the JSON file as the class
  `InstalmentsFile`.
- `App` (app.dfy) — the three pages of `logic/app.py`: the data-entry save
  (period key, amount dicts, comment rule, two upserts), the visualisation
  page with its clear button, and the tracker page behind its username
  check.
- `Authenticator` (authenticator.dfy) — the two regular-expression
  validators, the seven ordered registration checks, `check_login`, and the
  user table as the class `UserTable`.
- `SessionState` (session.dfy) and `MainScript` (main.dfy) — the session's
  `mode`/`username` entries and one run of `main.py`.
- `Text` (text.dfy) and `Calendar` (calendar.dfy) — decimal printing of the
  year, splitting at a separator, and the English month names.

Widgets are inputs: a select box is the value it returns, a button is a
boolean, number inputs leave their values in a session map, and a keyed
widget returns the value kept under its key or else its `value=` default.
Fernet is a `Cipher` pair of functions passed in; its round trip is the
hypothesis `RoundTrips(cipher)` of the lemmas that need it. The join date
(`datetime.now()`) is a parameter.

## Model

| member | source | states |
|---|---|---|
| PyDict.Set | logic/database.py:56-60 | `d[k] = v`: the map view gets `k := v`; an existing key keeps its place, a new key is appended |
| PyDict.Update | logic/database.py:55-60 | the merge loop: the map view is the old map overridden by the argument; old keys keep their order, new keys follow in the argument's order |
| PyDict.UpdateEmpty | logic/database.py:74-81 | merging into an empty dict gives the argument itself, order included (so a new period stores what was passed) |
| Database.FindPeriodInData | logic/database.py:34-40 | None exactly when no row holds the period; otherwise the first row holding it |
| Database.GetPeriod | logic/database.py:100-111 | None exactly when no row holds the period; otherwise the dicts and comment of the first such row |
| Database.Upsert | logic/database.py:42-84 | existing period: same length, rows of other periods untouched; new period: exactly one row appended at the end; no row changes its period |
| Database.InsertThenGet | logic/database.py:69-81 | after an insert the period is found, with the old dicts overridden by the given ones (the given ones for a new period) and exactly the given comment, even "" |
| Database.InsertKeepsOtherPeriods | logic/database.py:69-81 | an insert leaves what is read back for every other period unchanged |
| Database.InsertPeriods | logic/database.py:74-81 | the period list is unchanged for an existing period and gains the period at the end for a new one |
| Database.InsertKeepsUnique | logic/database.py:69-81 | "no two rows share a period" is preserved |
| Database.MergeItems | logic/database.py:54-67 | the item loop computes `Update(target, items)`, i.e. the target overridden by the items |
| Database.PeriodStore.constructor | logic/database.py:9-12 | start-up: with no file yet the store holds no rows (header only); an existing file keeps its rows |
| Database.PeriodStore.InsertPeriod | logic/database.py:42-84 | the rows become `Upsert` of the old rows, and uniqueness of periods is kept |
| Database.PeriodStore.GetAllPeriods | logic/database.py:86-98 | one period per row, in stored order |
| Database.PeriodStore.ClearData | logic/database.py:113-118 | no rows remain |
| DataPlug.ComputeTotals | logic/data_plug.py:41-43 | totals are the sums of the values, and remaining + expense = income |
| DataPlug.Sum | logic/data_plug.py:41-42 | `sum`: the total of non-negative amounts is non-negative and a single amount sums to itself; `SumAppend` makes it additive over concatenation |
| DataPlug.IndexOf | logic/data_plug.py:55 | `list.index`: a position holding the element, with no earlier one |
| DataPlug.NodeLabels | logic/data_plug.py:53 | income names, then "Total Income", then expense names |
| DataPlug.LinkSources | logic/data_plug.py:54 | income link i starts at node i, every expense link at node \|incomes\| |
| DataPlug.LinkTargets | logic/data_plug.py:55 | income links end at node \|incomes\|; expense link j ends at the first node labelled with its name (`label.index`) |
| DataPlug.BuildSankey | logic/data_plug.py:53-56 | label length \|incomes\|+1+\|expenses\| with "Total Income" at \|incomes\|; the three link lists have length \|incomes\|+\|expenses\|; every source and target indexes a label; each expense link ends at the first label with its name; values are income then expense amounts in dict order |
| DataPlug.SankeyValueSum | logic/data_plug.py:56 | the link values add up to total income plus total expense |
| DataPlug.ExpenseTargetsWhenDisjoint | logic/data_plug.py:55 | an expense named like no income and not "Total Income" flows into its own node \|incomes\|+1+j |
| DataPlug.ExpenseNamedLikeIncome | logic/data_plug.py:55 | an expense named like income i flows into node i (first occurrence wins) |
| DataPlug.ExpenseNamedTotalIncome | logic/data_plug.py:55 | an expense named "Total Income", when no income is, flows into the middle node \|incomes\| |
| DataPlug.Plug | logic/data_plug.py:29-70 | a chart exactly when a stored period is selected, built from that period's dicts and comment; otherwise the no-data warning |
| Tracker.LoadData | logic/tracker.py:9-21 | a missing file loads as the empty map, a readable one as its content; an unreadable one is the error path |
| Tracker.Key | logic/tracker.py:78-79 | `f"{col}_{month}_{kind}"`: the account, '_', the month, '_', the kind, each at its position |
| Tracker.CheckboxIsNotInput | logic/tracker.py:78-79 | a checkbox key (ending in "checkbox") never equals an input key (ending in "input"), whatever the names |
| Tracker.KeyInjective | logic/tracker.py:78-79 | distinct (account, month, kind) triples give distinct keys when names have no '_' |
| Tracker.WriteCell | logic/tracker.py:78-87 | one cell: the map gains the cell's checkbox and input keys, each holding the widget value with default loaded-or-False / loaded-or-0; every other key is kept |
| Tracker.Grid | logic/tracker.py:48-50 | the loop's cells: 36 of them, each a listed month with one of ING, CEC, Orange (the columns of `table()`) |
| Tracker.CellsOfWellFormed | logic/tracker.py:63-72 | the month × account cells are pairwise distinct, there are \|months\|·\|accounts\| of them, and each pairs a listed month with a listed account |
| Tracker.GridWellFormed | logic/tracker.py:48-50 | the grid of twelve months by ING, CEC, Orange has 36 distinct cells |
| Tracker.GridKeysCount | logic/tracker.py:78-79 | distinct cells write twice as many distinct keys |
| Tracker.GridEntriesKeys | logic/tracker.py:86-87 | the loop writes exactly the checkbox and input keys of its cells |
| Tracker.ReplayIsOverlay | logic/tracker.py:82-87 | running the loop equals laying the grid entries over the loaded map, since every widget still sees the loaded value as default |
| Tracker.GridEntriesDescribed | logic/tracker.py:82-87 | 72 keys; each checkbox key holds the widget value with default loaded-or-False, each input key the widget value with default loaded-or-0 |
| Tracker.FillCells | logic/tracker.py:63-87 | the nested loop computes the cell-by-cell replay of its writes |
| Tracker.FillGrid | logic/tracker.py:48-87 | the result is the loaded map updated with the grid entries; its keys are the loaded keys plus the 72 grid keys; other keys keep their loaded values |
| Tracker.InstalmentsFile.Instalments | logic/tracker.py:35-97 | an unreadable file is left as it was; otherwise the file holds the loaded map updated with the grid entries |
| Text.Decimal | logic/app.py:33 | `str(year)`: a non-empty string of digits with no leading zero |
| Text.DecimalRoundTrip | logic/app.py:33 | reading the printed year back gives the year |
| App.PeriodKey | logic/app.py:33 | the month, one space, then the year in decimal |
| App.PeriodKeyInjective | logic/app.py:33 | for months without spaces, equal keys mean equal month and year |
| App.CalendarPeriodsDistinct | logic/app.py:32-33 | different (month, year) choices of the form give different periods |
| App.Amounts | logic/app.py:49-50 | the dict has exactly the listed names as keys, each valued from the session or 0; for distinct names the keys are the names in order |
| App.SubmittedIncomes | logic/app.py:49 | the income dict lists the nine income categories in order with session-or-0 values |
| App.SubmittedExpenses | logic/app.py:50 | the expense dict lists the five expense categories in order with session-or-0 values |
| App.SavedComment | logic/app.py:53-57 | stored comment + "\n\n" + new comment for a stored period, the new comment alone otherwise |
| App.SaveRows | logic/app.py:59-63 | the table after the two writes: one row longer exactly when the period is new, and every existing row keeps its period |
| App.SaveOutcome | logic/app.py:59-63 | after a save the period holds the old incomes and expenses overridden by the submitted ones (the submitted ones for a new period) and the saved comment; the "" of the first write does not survive |
| App.SaveKeepsOtherPeriods | logic/app.py:59-63 | a save leaves every other period unchanged |
| App.SavePeriods | logic/app.py:59-63 | a save adds the period to the list only when new, and keeps periods unique |
| App.SaveData | logic/app.py:47-66 | the store becomes the two upserts of the submitted dicts with the saved comment |
| App.VisualisationPage | logic/app.py:69-72 | a clear empties the store before the period list is read (so the list is empty); a submitted form shows `Plug` of the selection |
| App.TrackerPage | logic/app.py:75-81 | the instalment grid runs exactly when the session username is "cosmint"; otherwise nothing is written |
| App.PageRows | logic/app.py:29-71 | the store after a page: data entry writes `SaveRows` when submitted, visualisation empties it when Clear is clicked, the tracker leaves it |
| App.PageFile | logic/app.py:75-81 | the instalments file after a page: only the tracker page run by "cosmint" on a readable file writes it, with the loaded map updated by the grid entries |
| App.PageView | logic/app.py:69-72 | only a submitted visualisation form shows something: `Plug` of the selection from the rows left after a clear, which is a chart exactly when no clear happened and rows exist |
| App.OgApp | logic/app.py:18-81 | the store, the instalments file and the view after the chosen page are exactly `PageRows`, `PageFile` and `PageView` of the old state |
| Authenticator.Emails | logic/authenticator.py:124-138 | one email per user, in table order |
| Authenticator.Usernames | logic/authenticator.py:140-154 | one username per user, in table order |
| Authenticator.ValidateUsername | logic/authenticator.py:175-191 | accepted exactly when every character is an ASCII letter or digit (the empty string included), or that followed by one final "\n" |
| Authenticator.ValidateEmail | logic/authenticator.py:156-173 | accepted exactly when the text (less one final "\n") is local@domain.tld with local of letters, digits, '-', '_', an alphanumeric domain and 1-3 lowercase letters |
| Authenticator.Passes | logic/authenticator.py:218-244 | the condition of each registration check; the two existence checks pass exactly when no user in the table has that email / username |
| Authenticator.EmailPartsComplete | logic/authenticator.py:172-173 | any well-formed split of an email is the one at its first '@' and first '.' |
| Authenticator.AcceptedEmailHasOneAtAndOneDot | logic/authenticator.py:172-173 | an accepted email contains exactly one '@' and exactly one '.' |
| Authenticator.RegistrationCheck | logic/authenticator.py:217-244 | None exactly when all seven checks pass; otherwise the first failing check in source order |
| Authenticator.FirstUser | logic/authenticator.py:279 | None exactly for an unknown username; otherwise the first user with it |
| Authenticator.CheckLogin | logic/authenticator.py:265-288 | True exactly when the first user with that username has a stored password that decrypts to the entry; False for an unknown username |
| Authenticator.NewUser | logic/authenticator.py:246-250 | the new row carries the form's email and username and the join date; its stored password decrypts back to the entry whenever the cipher round-trips |
| Authenticator.RegisterThenLogin | logic/authenticator.py:246-250 | with decrypt ∘ encrypt = id, the password just registered passes `check_login` |
| Authenticator.RegisterKeepsUnique | logic/authenticator.py:217-250 | a registration that passes its checks creates no duplicate email or username |
| Authenticator.UserTable.InsertUser | logic/authenticator.py:69-96 | one row appended with the given fields and join date |
| Authenticator.UserTable.Register | logic/authenticator.py:193-263 | a rejected submit changes nothing and reports the first failing check; a passing one appends the user with the encrypted password and sets the mode to login; the Login button sets the mode to login |
| MainScript.LoginDecision | main.py:36-48 | exactly one outcome, in order: invalid format, unknown username, wrong password, success; success exactly when all three checks hold |
| MainScript.RegisteredUserLogsIn | main.py:36-42 | after a successful registration its username and password log in |
| MainScript.CurrentMode | main.py:18-19 | a missing mode counts as login |
| MainScript.RunMain | main.py:17-63 | login success sets mode 'app' and the username; a failed login leaves mode 'login' and the username; Register sets mode 'register'; the registration form behaves as `UserTable.Register`; in 'app' mode the store and the instalments file become `PageRows` and `PageFile` of the page |

## Left out

- Streamlit rendering (forms, columns, expanders, metrics, warnings, balloons, `time.sleep`) and `st.rerun`: a rerun is modelled as the end of the run.
- CSV and JSON file I/O, the `str`/`eval` round trip of the dict columns, and the undefined path and key constants: the files are the `rows` and `state` fields.
- The MySQL connection and queries: the user table is the `users` field; `fetch_users` is reading it.
- Fernet itself: its randomness, its key and the `InvalidToken` exception of a stored password that does not decrypt.
- The third-party `login()` of logic/authenticator.py:290-330, driven by streamlit_authenticator and a bare `except`.
- Plotly figure construction and layout: only the lists the figure consumes.
- The `StopIteration` branch of `get_all_periods`, which needs a file without a header row.
- logic/settings.py, logic/navigation.py and logic/currency.py: the menu choice is the `PageInput` given to `App.OgApp`, and the currency text is only displayed.
- logic/period.py: the year is a natural number (the select box offers the current year and the seven after it); the month is any string, with `Calendar.Months` for the results about the listed names.
- logic/comments.py: logic/app.py:42 calls `com("Expense")` while `com` takes no argument, so as written the data-entry form raises a `TypeError`; the model takes the comment text as an input, as if the call matched.
- Tracker.LoadData: JSON values other than booleans and integers, and number-input type coercion, are not modelled.
- App.VisualisationPage: the select box's position `pick` is an input assumed valid whenever the list is non-empty.
- Authenticator.RegisterThenLogin: needs the cipher round trip as a hypothesis, since Fernet is outside the model.
