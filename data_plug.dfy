/**
 * The arithmetic and chart data of logic/data_plug.py: the totals of a
 * period and the four lists (`label`, `source`, `target`, `value`) from
 * which the Sankey diagram is drawn. Figure construction and rendering are
 * not modelled; only the lists they consume are.
 */
module DataPlug {
  import opened Wrappers
  import opened PyDict
  import opened Database

  /** `sum(xs)` */
  function Sum(xs: seq<int>): (s: int)
    ensures (forall i :: 0 <= i < |xs| ==> xs[i] >= 0) ==> s >= 0
    ensures |xs| == 1 ==> s == xs[0]
  {
    if xs == [] then 0 else Sum(xs[..|xs| - 1]) + xs[|xs| - 1]
  }

  lemma {:induction false} SumAppend(a: seq<int>, b: seq<int>)
    ensures Sum(a + b) == Sum(a) + Sum(b)
    decreases |b|
  {
    if b == [] {
      assert a + b == a;
    } else {
      SumAppend(a, b[..|b| - 1]);
      assert (a + b)[..|a + b| - 1] == a + b[..|b| - 1];
    }
  }

  /** The three metrics shown above the chart. */
  datatype Totals = Totals(totalIncome: int, totalExpense: int, remainingBudget: int)

  /** The totals of a period and what is left of the income. */
  function ComputeTotals(incomes: Dict, expenses: Dict): (t: Totals)
    ensures t.totalIncome == Sum(Values(incomes))
    ensures t.totalExpense == Sum(Values(expenses))
    ensures t.remainingBudget + t.totalExpense == t.totalIncome
  {
    var totalIncome := Sum(Values(incomes));
    var totalExpense := Sum(Values(expenses));
    Totals(totalIncome, totalExpense, totalIncome - totalExpense)
  }

  /** The label of the middle node of the diagram. */
  const TotalIncomeLabel: string := "Total Income"

  /** The node labels and the parallel link lists of the diagram. */
  datatype Sankey = Sankey(labels: seq<string>, source: seq<int>, target: seq<int>, value: seq<int>)

  /** `xs.index(x)`: the first position holding `x`. */
  function IndexOf(xs: seq<string>, x: string): (r: nat)
    requires x in xs
    ensures r < |xs| && xs[r] == x
    ensures forall j :: 0 <= j < r ==> xs[j] != x
  {
    if xs[0] == x then 0 else 1 + IndexOf(xs[1..], x)
  }

  /**
   * Nodes: the income names, then "Total Income", then the expense names.
   * Links: income i flows from node i into the middle node; expense j flows
   * from the middle node into the first node labelled with its name.
   */
  function BuildSankey(incomes: Dict, expenses: Dict): (s: Sankey)
    ensures |s.labels| == |incomes| + 1 + |expenses|
    ensures s.labels[|incomes|] == TotalIncomeLabel
    ensures s.labels[..|incomes|] == Keys(incomes) && s.labels[|incomes| + 1..] == Keys(expenses)
    ensures |s.source| == |s.target| == |s.value| == |incomes| + |expenses|
    ensures forall i :: 0 <= i < |incomes| ==> s.source[i] == i && s.target[i] == |incomes|
    ensures forall k :: |incomes| <= k < |incomes| + |expenses| ==> s.source[k] == |incomes|
    ensures forall k :: |incomes| <= k < |incomes| + |expenses| ==>
              0 <= s.target[k] <= k + 1 && s.labels[s.target[k]] == expenses[k - |incomes|].0
    ensures forall k, j :: |incomes| <= k < |incomes| + |expenses| && 0 <= j < s.target[k] ==>
              s.labels[j] != expenses[k - |incomes|].0
    ensures forall k :: 0 <= k < |s.source| ==> 0 <= s.source[k] < |s.labels| && 0 <= s.target[k] < |s.labels|
    ensures s.value == Values(incomes) + Values(expenses)
  {
    var n, m := |incomes|, |expenses|;
    var labels := NodeLabels(incomes, expenses);
    var source := LinkSources(n, m);
    var target := LinkTargets(labels, n, expenses);
    LinksInRange(|labels|, source, target, n, m);
    Sankey(labels, source, target, Values(incomes) + Values(expenses))
  }

  /** Every link of the chart starts and ends at one of its nodes. */
  lemma {:induction false} LinksInRange(nodes: nat, source: seq<int>, target: seq<int>, n: nat, m: nat)
    requires nodes == n + 1 + m && |source| == |target| == n + m
    requires forall i :: 0 <= i < n ==> source[i] == i && target[i] == n
    requires forall k :: n <= k < n + m ==> source[k] == n && 0 <= target[k] <= k + 1
    ensures forall k :: 0 <= k < n + m ==> 0 <= source[k] < nodes && 0 <= target[k] < nodes
  {
    forall k | 0 <= k < n + m ensures 0 <= source[k] < nodes && 0 <= target[k] < nodes {
      if k < n {
        assert source[k] == k && target[k] == n;
      } else {
        assert source[k] == n;
      }
    }
  }

  /** `list(incomes.keys()) + ["Total Income"] + list(expenses.keys())` */
  function NodeLabels(incomes: Dict, expenses: Dict): (labels: seq<string>)
    ensures |labels| == |incomes| + 1 + |expenses|
    ensures labels[..|incomes|] == Keys(incomes) && labels[|incomes|] == TotalIncomeLabel
    ensures labels[|incomes| + 1..] == Keys(expenses)
    ensures forall j :: 0 <= j < |expenses| ==> labels[|incomes| + 1 + j] == expenses[j].0
  {
    Keys(incomes) + [TotalIncomeLabel] + Keys(expenses)
  }

  /** `list(range(n)) + [n] * m` */
  function LinkSources(n: nat, m: nat): (source: seq<int>)
    ensures |source| == n + m
    ensures forall i :: 0 <= i < n ==> source[i] == i
    ensures forall k :: n <= k < n + m ==> source[k] == n
  {
    seq(n, i => i) + seq(m, _ => n)
  }

  /** `[n] * n + [labels.index(expense) for expense in expenses]` */
  function LinkTargets(labels: seq<string>, n: nat, expenses: Dict): (target: seq<int>)
    requires |labels| == n + 1 + |expenses|
    requires forall j :: 0 <= j < |expenses| ==> labels[n + 1 + j] == expenses[j].0
    ensures |target| == n + |expenses|
    ensures forall i :: 0 <= i < n ==> target[i] == n
    ensures forall k :: n <= k < n + |expenses| ==>
              0 <= target[k] <= k + 1 && labels[target[k]] == expenses[k - n].0
    ensures forall k, j :: n <= k < n + |expenses| && 0 <= j < target[k] ==> labels[j] != expenses[k - n].0
  {
    var m := |expenses|;
    assert forall j :: 0 <= j < m ==> expenses[j].0 in labels by {
      forall j | 0 <= j < m ensures expenses[j].0 in labels {
        assert labels[n + 1 + j] == expenses[j].0;
      }
    }
    seq(n, _ => n) + seq(m, j requires 0 <= j < m => IndexOf(labels, expenses[j].0))
  }

  /** The link values add up to all income plus all expense. */
  lemma {:induction false} SankeyValueSum(incomes: Dict, expenses: Dict)
    ensures var t := ComputeTotals(incomes, expenses);
            Sum(BuildSankey(incomes, expenses).value) == t.totalIncome + t.totalExpense
  {
    SumAppend(Values(incomes), Values(expenses));
  }

  /**
   * When no expense is named like an income or like the middle node, expense
   * j flows into its own node, |incomes| + 1 + j.
   */
  lemma {:induction false} ExpenseTargetsWhenDisjoint(incomes: Dict, expenses: Dict, j: nat)
    requires j < |expenses|
    requires expenses[j].0 !in Keys(incomes) && expenses[j].0 != TotalIncomeLabel
    ensures BuildSankey(incomes, expenses).target[|incomes| + j] == |incomes| + 1 + j
  {
    var s := BuildSankey(incomes, expenses);
    var n, x := |incomes|, expenses[j].0;
    forall k | 0 <= k < n + 1 + j ensures s.labels[k] != x {
      if k < n {
        assert s.labels[k] == Keys(incomes)[k];
      } else if k > n {
        assert s.labels[k] == expenses[k - n - 1].0;
      }
    }
  }

  /**
   * `label.index` takes the first occurrence: an expense named like income i
   * flows back into node i.
   */
  lemma {:induction false} ExpenseNamedLikeIncome(incomes: Dict, expenses: Dict, i: nat, j: nat)
    requires i < |incomes| && j < |expenses| && expenses[j].0 == incomes[i].0
    ensures BuildSankey(incomes, expenses).target[|incomes| + j] == i
  {
    var s := BuildSankey(incomes, expenses);
    assert s.labels[i] == incomes[i].0;
    forall k | 0 <= k < i ensures s.labels[k] != incomes[i].0 {
      assert s.labels[k] == incomes[k].0;
    }
  }

  /**
   * An expense called "Total Income", when no income is, flows into the
   * middle node and so back into itself.
   */
  lemma {:induction false} ExpenseNamedTotalIncome(incomes: Dict, expenses: Dict, j: nat)
    requires j < |expenses| && expenses[j].0 == TotalIncomeLabel && TotalIncomeLabel !in Keys(incomes)
    ensures BuildSankey(incomes, expenses).target[|incomes| + j] == |incomes|
  {
    var s := BuildSankey(incomes, expenses);
    forall k | 0 <= k < |incomes| ensures s.labels[k] != TotalIncomeLabel {
      assert s.labels[k] == Keys(incomes)[k];
    }
  }

  /** What the visualisation form shows once submitted. */
  datatype PlugView = NoData | Chart(totals: Totals, comment: string, sankey: Sankey)

  /**
   * The submitted branch of `plug`: the selected period is looked up; a
   * stored one yields its totals, comment and diagram, anything else (also
   * no selection, from an empty list) the "No data found" warning.
   */
  function Plug(rows: seq<Entry>, selected: Option<string>): (v: PlugView)
    ensures v.Chart? <==> selected.Some? && selected.value in Periods(rows)
    ensures v.Chart? ==> var data := GetPeriod(rows, selected.value).value;
                         v == Chart(ComputeTotals(data.incomes, data.expenses), data.comment,
                                    BuildSankey(data.incomes, data.expenses))
  {
    match selected
    case None => NoData
    case Some(period) =>
      match GetPeriod(rows, period)
      case None => NoData
      case Some(data) =>
        Chart(ComputeTotals(data.incomes, data.expenses), data.comment, BuildSankey(data.incomes, data.expenses))
  }
}
