/** The finance page's arithmetic: the pie-chart entries built from the
    expense record, the expense total, the amount left to the savings goal,
    and the icon chosen for each tip. */
module Finance {
  import opened Text

  /** The expense record, as `Object.entries` lists it: key and amount, in
      key order. */
  type Expenses = seq<(string, int)>

  datatype Slice = Slice(name: string, value: int, color: string)

  /** The chart palette; entries take their colour cyclically from it. */
  const Colors: seq<string> := [
    "hsl(var(--primary))",
    "hsl(var(--secondary))",
    "hsl(var(--accent))",
    "hsl(var(--community))",
    "hsl(var(--finance))",
    "hsl(var(--career))",
    "hsl(var(--health))"]

  /** `expenseData`: one entry per key, in key order. */
  function ExpenseData(expenses: Expenses): (r: seq<Slice>)
    ensures |r| == |expenses|
    ensures forall i :: 0 <= i < |r| ==>
              r[i].name == Capitalize(expenses[i].0) && r[i].value == expenses[i].1
              && r[i].color == Colors[i % 7]
  {
    seq(|expenses|, i requires 0 <= i < |expenses| =>
      Slice(Capitalize(expenses[i].0), expenses[i].1, Colors[i % |Colors|]))
  }

  /** Two entries share a colour exactly when their positions agree modulo 7. */
  lemma ColorsCycleWithPeriodSeven(expenses: Expenses, i: nat, j: nat)
    requires i < |expenses| && j < |expenses|
    ensures ExpenseData(expenses)[i].color == ExpenseData(expenses)[j].color <==> i % 7 == j % 7
  {
    var d := ExpenseData(expenses);
    if i % 7 != j % 7 {
      assert Colors[i % 7] != Colors[j % 7];
    }
  }

  /** `reduce((a, b) => a + b, 0)`: a left fold over the amounts. Amounts
      that are never negative give a total that is not negative either. */
  function Total(expenses: Expenses): (r: int)
    ensures NoNegative(expenses) ==> r >= 0
  {
    if expenses == [] then 0
    else Total(expenses[..|expenses| - 1]) + expenses[|expenses| - 1].1
  }

  function SliceTotal(slices: seq<Slice>): int {
    if slices == [] then 0
    else SliceTotal(slices[..|slices| - 1]) + slices[|slices| - 1].value
  }

  /** The chart's entries add up to the total shown beside it. */
  lemma {:induction false} ChartAddsUpToTotal(expenses: Expenses)
    ensures SliceTotal(ExpenseData(expenses)) == Total(expenses)
  {
    if expenses != [] {
      var n := |expenses| - 1;
      assert ExpenseData(expenses)[..n] == ExpenseData(expenses[..n]);
      ChartAddsUpToTotal(expenses[..n]);
    }
  }

  predicate NoNegative(expenses: Expenses) {
    forall i :: 0 <= i < |expenses| ==> expenses[i].1 >= 0
  }

  /** With no negative amounts the total is at least every single amount. */
  lemma {:induction false} EachAmountWithinTotal(expenses: Expenses, k: nat)
    requires NoNegative(expenses) && k < |expenses|
    ensures 0 <= expenses[k].1 <= Total(expenses)
  {
    var n := |expenses| - 1;
    if k < n {
      EachAmountWithinTotal(expenses[..n], k);
    }
  }

  datatype SavingsGoal = SavingsGoal(name: string, target: int, current: int)

  /** The amount still "to go" on the savings goal. */
  function ToGo(goal: SavingsGoal): (r: int)
    ensures goal.current + r == goal.target
  {
    goal.target - goal.current
  }

  datatype Icon = PiggyBank | Wallet | TrendingUp | Target

  const IconMap: map<string, Icon> :=
    map["piggy-bank" := PiggyBank, "chart-bar" := Wallet, "trending-up" := TrendingUp, "handshake" := Target]

  /** `iconMap[name] || Wallet`. */
  function IconFor(name: string): (i: Icon)
    ensures name in IconMap ==> i == IconMap[name]
    ensures name !in IconMap ==> i == Wallet
  {
    if name in IconMap then IconMap[name] else Wallet
  }

  /** Every icon name the shipped tips use is in the map: none falls back. */
  lemma TipIconsAreMapped()
    ensures forall name :: name in ["piggy-bank", "chart-bar", "trending-up", "handshake"] ==>
              name in IconMap && IconFor(name) == IconMap[name]
  {
  }

  /** The budget figures the page shows. */
  const BudgetExpenses: Expenses := [
    ("housing", 1500), ("food", 600), ("transport", 300), ("utilities", 200),
    ("entertainment", 150), ("savings", 750), ("other", 500)]

  const EmergencyFund: SavingsGoal := SavingsGoal("Emergency Fund", 10000, 6500)

  /** On the shipped figures: $4000 of expenses, $3500 to go, "Housing" first. */
  lemma BudgetFigures()
    ensures Total(BudgetExpenses) == 4000
    ensures ToGo(EmergencyFund) == 3500
    ensures ExpenseData(BudgetExpenses)[0].name == "Housing"
  {
    var e := BudgetExpenses;
    assert e[..1][..0] == [];
    assert Total(e[..1]) == 1500;
    assert e[..2][..1] == e[..1];
    assert Total(e[..2]) == 2100;
    assert e[..3][..2] == e[..2];
    assert Total(e[..3]) == 2400;
    assert e[..4][..3] == e[..3];
    assert Total(e[..4]) == 2600;
    assert e[..5][..4] == e[..4];
    assert Total(e[..5]) == 2750;
    assert e[..6][..5] == e[..5];
    assert Total(e[..6]) == 3500;
    assert e[..6] == e[..|e| - 1];
  }
}
