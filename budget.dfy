/** The trip budget (client/src/components/ui/trip-budget.tsx): a list of
    expenses with an amount and a category, their total, what is left of the
    budget, the per-category totals and the add and remove handlers. Amounts
    are integers. */
module Budget {
  import opened Common
  import opened Text

  datatype ExpenseCategory = Accommodation | Transport | Food | Activities | Other

  datatype BudgetItem = BudgetItem(id: string, name: string, amount: int, category: ExpenseCategory)

  const DefaultBudget := 2500

  const InitialExpenses: seq<BudgetItem> := [
    BudgetItem("exp1", "Hotel (5 nights)", 750, Accommodation),
    BudgetItem("exp2", "Flight tickets", 900, Transport),
    BudgetItem("exp3", "Local transportation", 150, Transport),
    BudgetItem("exp4", "Food & Dining", 350, Food),
    BudgetItem("exp5", "Tokyo Skytree", 25, Activities),
    BudgetItem("exp6", "Sensō-ji Temple Tour", 30, Activities)
  ]

  /** `expenses.reduce((total, item) => total + item.amount, 0)`, folded from the left. */
  function Total(expenses: seq<BudgetItem>): int
    decreases |expenses|
  {
    if expenses == [] then 0 else Total(expenses[..|expenses| - 1]) + expenses[|expenses| - 1].amount
  }

  /** The total of a concatenation is the sum of the totals. */
  lemma {:induction false} TotalAppend(s: seq<BudgetItem>, t: seq<BudgetItem>)
    ensures Total(s + t) == Total(s) + Total(t)
    decreases |t|
  {
    if t == [] {
      assert s + t == s;
    } else {
      var last := |t| - 1;
      assert (s + t)[..|s + t| - 1] == s + t[..last];
      TotalAppend(s, t[..last]);
    }
  }

  /** `budget - totalExpenses`. */
  function Remaining(budget: int, expenses: seq<BudgetItem>): (r: int)
    ensures r + Total(expenses) == budget
  {
    budget - Total(expenses)
  }

  /** Adding an expense lowers what is left by exactly its amount. */
  lemma RemainingAfterAdd(budget: int, expenses: seq<BudgetItem>, e: BudgetItem)
    ensures Remaining(budget, expenses + [e]) == Remaining(budget, expenses) - e.amount
  {
    assert (expenses + [e])[..|expenses|] == expenses;
  }

  function InCategory(c: ExpenseCategory): BudgetItem -> bool
  {
    (item: BudgetItem) => item.category == c
  }

  /** The sum of the amounts of category `c`. */
  function CategoryTotal(expenses: seq<BudgetItem>, c: ExpenseCategory): int
  {
    Total(Filter(InCategory(c), expenses))
  }

  /** The selected total of a list extended by one expense grows by that
      expense's amount exactly when it is selected. */
  lemma FilteredTotalSnoc(p: BudgetItem -> bool, expenses: seq<BudgetItem>, e: BudgetItem)
    ensures Total(Filter(p, expenses + [e])) == Total(Filter(p, expenses)) + (if p(e) then e.amount else 0)
  {
    FilterAppend(p, expenses, [e]);
    FilterSingleton(p, e);
    TotalAppend(Filter(p, expenses), Filter(p, [e]));
    assert Total([e]) == e.amount by {
      assert [e][..0] == [];
    }
  }

  /** Extending the list by one expense adds its amount to its own category only. */
  lemma CategoryTotalSnoc(expenses: seq<BudgetItem>, e: BudgetItem, c: ExpenseCategory)
    ensures CategoryTotal(expenses + [e], c)
            == CategoryTotal(expenses, c) + (if e.category == c then e.amount else 0)
  {
    FilteredTotalSnoc(InCategory(c), expenses, e);
  }

  /** The category totals add up to the total of all expenses. */
  lemma {:induction false} CategoryTotalsSum(expenses: seq<BudgetItem>)
    ensures CategoryTotal(expenses, Accommodation) + CategoryTotal(expenses, Transport)
            + CategoryTotal(expenses, Food) + CategoryTotal(expenses, Activities)
            + CategoryTotal(expenses, Other) == Total(expenses)
    decreases |expenses|
  {
    if expenses != [] {
      var init, e := expenses[..|expenses| - 1], expenses[|expenses| - 1];
      assert expenses == init + [e];
      CategoryTotalsSum(init);
      CategoryTotalSnoc(init, e, Accommodation);
      CategoryTotalSnoc(init, e, Transport);
      CategoryTotalSnoc(init, e, Food);
      CategoryTotalSnoc(init, e, Activities);
      CategoryTotalSnoc(init, e, Other);
    }
  }

  /** `acc` holds a key exactly for the categories present in `expenses`. */
  predicate KeyedBy(acc: map<ExpenseCategory, int>, expenses: seq<BudgetItem>)
  {
    forall c :: c in acc <==> exists i :: 0 <= i < |expenses| && expenses[i].category == c
  }

  /** Under each of its keys, `acc` holds that category's total. */
  predicate SumsOf(acc: map<ExpenseCategory, int>, expenses: seq<BudgetItem>)
  {
    forall c :: c in acc ==> acc[c] == CategoryTotal(expenses, c)
  }

  /** One pass of the `reduce` callback: a missing or zero running sum is
      (re)set to 0, then the amount is added. */
  function AddToTally(acc: map<ExpenseCategory, int>, item: BudgetItem): map<ExpenseCategory, int>
  {
    var base := if item.category !in acc || acc[item.category] == 0 then acc[item.category := 0] else acc;
    base[item.category := base[item.category] + item.amount]
  }

  /** The callback keeps the tally right when one more expense is visited. */
  lemma TallyStep(acc: map<ExpenseCategory, int>, visited: seq<BudgetItem>, i: nat)
    requires i < |visited| && KeyedBy(acc, visited[..i]) && SumsOf(acc, visited[..i])
    ensures KeyedBy(AddToTally(acc, visited[i]), visited[..i + 1])
    ensures SumsOf(AddToTally(acc, visited[i]), visited[..i + 1])
  {
    assert visited[..i + 1] == visited[..i] + [visited[i]];
    TallyKeys(acc, visited[..i], visited[i]);
    TallySums(acc, visited[..i], visited[i]);
  }

  lemma TallyKeys(acc: map<ExpenseCategory, int>, expenses: seq<BudgetItem>, item: BudgetItem)
    requires KeyedBy(acc, expenses)
    ensures KeyedBy(AddToTally(acc, item), expenses + [item])
  {
    var next, all := AddToTally(acc, item), expenses + [item];
    forall c
      ensures c in next <==> exists j :: 0 <= j < |all| && all[j].category == c
    {
      if c == item.category {
        assert all[|expenses|].category == c;
      } else if c in next {
        var j :| 0 <= j < |expenses| && expenses[j].category == c;
        assert all[j].category == c;
      } else {
        forall j | 0 <= j < |all| ensures all[j].category != c {
          if j < |expenses| { assert all[j] == expenses[j]; }
        }
      }
    }
  }

  lemma TallySums(acc: map<ExpenseCategory, int>, expenses: seq<BudgetItem>, item: BudgetItem)
    requires KeyedBy(acc, expenses) && SumsOf(acc, expenses)
    ensures SumsOf(AddToTally(acc, item), expenses + [item])
  {
    var next := AddToTally(acc, item);
    if item.category !in acc {
      NoneOfCategory(expenses, item.category);
    }
    forall c | c in next
      ensures next[c] == CategoryTotal(expenses + [item], c)
    {
      CategoryTotalSnoc(expenses, item, c);
    }
  }

  /** `categoryTotals`: a record keyed by category, built by one pass over the
      expenses. A key is created (or, when its running sum is 0, reset to 0) by
      the `!acc[category]` test before the amount is added. */
  method CategoryTotals(expenses: seq<BudgetItem>) returns (acc: map<ExpenseCategory, int>)
    ensures forall c :: c in acc <==> exists i :: 0 <= i < |expenses| && expenses[i].category == c
    ensures forall c :: c in acc ==> acc[c] == CategoryTotal(expenses, c)
  {
    acc := map[];
    var i := 0;
    while i < |expenses|
      invariant 0 <= i <= |expenses|
      invariant KeyedBy(acc, expenses[..i]) && SumsOf(acc, expenses[..i])
    {
      TallyStep(acc, expenses, i);
      acc := AddToTally(acc, expenses[i]);
      i := i + 1;
    }
    assert expenses[..i] == expenses;
  }

  /** A category no expense carries totals 0. */
  lemma NoneOfCategory(expenses: seq<BudgetItem>, c: ExpenseCategory)
    requires forall j :: 0 <= j < |expenses| ==> expenses[j].category != c
    ensures CategoryTotal(expenses, c) == 0
  {
    FilterDropsAll(InCategory(c), expenses);
  }

  /** The six starting expenses total 2205, leaving 295 of the default budget. */
  lemma InitialTotal()
    ensures Total(InitialExpenses) == 2205
    ensures Remaining(DefaultBudget, InitialExpenses) == 295
  {
    var e := InitialExpenses;
    assert e[..1][..0] == [] && e[..2][..1] == e[..1] && e[..3][..2] == e[..2];
    assert e[..4][..3] == e[..3] && e[..5][..4] == e[..4] && e[..6][..5] == e[..5];
    assert Total(e[..1]) == 750;
    assert Total(e[..2]) == 1650;
    assert Total(e[..3]) == 1800;
    assert Total(e[..4]) == 2150;
    assert Total(e[..5]) == 2175;
    assert Total(e[..6]) == 2205;
    assert e[..6] == e;
  }

  /** Category `c`'s total over the first `k + 1` expenses, from the one over the
      first `k`. */
  lemma CategoryTotalStep(expenses: seq<BudgetItem>, k: nat, c: ExpenseCategory)
    requires k < |expenses|
    ensures CategoryTotal(expenses[..k + 1], c)
            == CategoryTotal(expenses[..k], c) + (if expenses[k].category == c then expenses[k].amount else 0)
  {
    assert expenses[..k + 1] == expenses[..k] + [expenses[k]];
    CategoryTotalSnoc(expenses[..k], expenses[k], c);
  }

  /** The amount `item` contributes to category `c`. */
  function Share(item: BudgetItem, c: ExpenseCategory): int
  {
    if item.category == c then item.amount else 0
  }

  /** Category `c`'s total over three more expenses. */
  lemma CategoryTotalThreeSteps(e: seq<BudgetItem>, k: nat, c: ExpenseCategory)
    requires k + 3 <= |e|
    ensures CategoryTotal(e[..k + 3], c)
            == CategoryTotal(e[..k], c) + Share(e[k], c) + Share(e[k + 1], c) + Share(e[k + 2], c)
  {
    CategoryTotalStep(e, k, c);
    CategoryTotalStep(e, k + 1, c);
    CategoryTotalStep(e, k + 2, c);
  }

  /** Category `c`'s total over six expenses, spelled out. */
  lemma CategoryTotalOfSix(e: seq<BudgetItem>, c: ExpenseCategory)
    requires |e| == 6
    ensures CategoryTotal(e, c)
            == Share(e[0], c) + Share(e[1], c) + Share(e[2], c) + Share(e[3], c) + Share(e[4], c) + Share(e[5], c)
  {
    assert CategoryTotal(e[..0], c) == 0 by {
      assert e[..0] == [];
    }
    CategoryTotalThreeSteps(e, 0, c);
    CategoryTotalThreeSteps(e, 3, c);
    assert e[..6] == e;
  }

  /** Per category the starting expenses come to 750, 1050, 350 and 55, with
      nothing under other. */
  lemma InitialCategoryTotals(c: ExpenseCategory)
    ensures CategoryTotal(InitialExpenses, c)
            == match c
               case Accommodation => 750
               case Transport => 1050
               case Food => 350
               case Activities => 55
               case Other => 0
  {
    CategoryTotalOfSix(InitialExpenses, c);
  }

  function IdIsNot(id: string): BudgetItem -> bool
  {
    (item: BudgetItem) => item.id != id
  }

  /** Removing by id keeps exactly the expenses whose id differs, and what is
      left of the budget grows by the removed amounts. */
  lemma RemoveKeepsOthers(budget: int, expenses: seq<BudgetItem>, id: string)
    ensures forall x :: x in Filter(IdIsNot(id), expenses) <==> x in expenses && x.id != id
    ensures Remaining(budget, Filter(IdIsNot(id), expenses))
            == Remaining(budget, expenses) + Total(Filter(IsId(id), expenses))
  {
    RemoveSplitsTotal(expenses, id);
  }

  function IsId(id: string): BudgetItem -> bool
  {
    (item: BudgetItem) => item.id == id
  }

  lemma {:induction false} RemoveSplitsTotal(expenses: seq<BudgetItem>, id: string)
    ensures Total(Filter(IdIsNot(id), expenses)) + Total(Filter(IsId(id), expenses)) == Total(expenses)
    decreases |expenses|
  {
    if expenses != [] {
      var init, e := expenses[..|expenses| - 1], expenses[|expenses| - 1];
      assert expenses == init + [e];
      RemoveSplitsTotal(init, id);
      FilteredTotalSnoc(IdIsNot(id), init, e);
      FilteredTotalSnoc(IsId(id), init, e);
    }
  }

  /** The progress bar's value `Math.min(totalExpenses / budget * 100, 100)`, in
      exact arithmetic. The source divides by the budget, so it must not be 0. */
  function ProgressValue(total: int, budget: int): (r: real)
    requires budget != 0
    ensures r <= 100.0
    ensures r == 100.0 || r == total as real / budget as real * 100.0
    ensures total as real / budget as real * 100.0 <= 100.0 ==> r == total as real / budget as real * 100.0
  {
    var percent := total as real / budget as real * 100.0;
    if percent <= 100.0 then percent else 100.0
  }

  /** Within budget the bar is proportional to spending; over budget it is full. */
  lemma ProgressWithinBudget(total: int, budget: int)
    requires 0 <= total && 0 < budget
    ensures 0.0 <= ProgressValue(total, budget)
    ensures total >= budget ==> ProgressValue(total, budget) == 100.0
  {
    var t, b := total as real, budget as real;
    assert t / b >= 0.0;
    if total >= budget {
      assert t / b >= 1.0;
    }
  }

  /** `Number(text)` for the inputs this model accepts: an optional sign followed
      by at least one decimal digit. Anything else is not a number. */
  function ParseAmount(text: string): (r: Option<int>)
    ensures text == "" || text == "-" || text == "+" ==> r == None
    ensures text != "" && IsDigits(text) ==> r == Some(DigitsValue(text))
    ensures |text| > 1 && text[0] == '-' ==> r == (if IsDigits(text[1..]) then Some(-(DigitsValue(text[1..]) as int)) else None)
  {
    if text == [] then None
    else if text[0] == '-' || text[0] == '+' then
      if |text| > 1 && IsDigits(text[1..]) then
        var v: int := DigitsValue(text[1..]);
        Some(if text[0] == '-' then -v else v)
      else None
    else if IsDigits(text) then Some(DigitsValue(text))
    else None
  }

  /** Parsing reads back every integer rendered in decimal. */
  lemma ParseRendered(n: int)
    ensures ParseAmount(IntToString(n)) == Some(n)
  {
    if n < 0 {
      ParseNegative(-n);
    } else {
      ParseDigits(n);
    }
  }

  /** The digits of `n` parse to `n`. */
  lemma ParseDigits(n: nat)
    ensures ParseAmount(NatToString(n)) == Some(n)
  {
    var digits := NatToString(n);
    NatToStringDigits(n);
    DigitsRoundTrip(n);
    assert digits != "" && IsDigits(digits);
  }

  /** A minus sign before the digits of `n` parses to `-n`. */
  lemma ParseNegative(n: nat)
    requires n > 0
    ensures ParseAmount("-" + NatToString(n)) == Some(-(n as int))
  {
    SignedDigits(n);
  }

  /** What follows the minus sign of `"-" + NatToString(n)` reads back as `n`. */
  lemma SignedDigits(n: nat)
    ensures var text := "-" + NatToString(n);
            |text| > 1 && text[0] == '-' && IsDigits(text[1..]) && DigitsValue(text[1..]) == n
  {
    var text := "-" + NatToString(n);
    assert text[1..] == NatToString(n);
    NatToStringDigits(n);
    DigitsRoundTrip(n);
  }

  /** A text with a letter in it, or a bare sign, is not numeric. */
  lemma ParseRejects()
    ensures ParseAmount("12a") == None && ParseAmount("-") == None && ParseAmount("") == None
  {
    assert !IsDigits("12a") by {
      assert !('0' <= "12a"[2] <= '9');
    }
  }

  /** The handlers and inputs of the budget card. */
  class TripBudget {
    var budget: int
    var expenses: seq<BudgetItem>
    var newExpenseName: string
    var newExpenseAmount: string
    var newExpenseCategory: ExpenseCategory

    constructor (totalBudget: int)
      ensures budget == totalBudget && expenses == InitialExpenses
      ensures newExpenseName == "" && newExpenseAmount == "" && newExpenseCategory == Other
    {
      budget := totalBudget;
      expenses := InitialExpenses;
      newExpenseName := "";
      newExpenseAmount := "";
      newExpenseCategory := Other;
    }

    method SetNewExpenseName(name: string)
      modifies this
      ensures newExpenseName == name
      ensures budget == old(budget) && expenses == old(expenses)
      ensures newExpenseAmount == old(newExpenseAmount) && newExpenseCategory == old(newExpenseCategory)
    {
      newExpenseName := name;
    }

    method SetNewExpenseAmount(amount: string)
      modifies this
      ensures newExpenseAmount == amount
      ensures budget == old(budget) && expenses == old(expenses)
      ensures newExpenseName == old(newExpenseName) && newExpenseCategory == old(newExpenseCategory)
    {
      newExpenseAmount := amount;
    }

    method SetNewExpenseCategory(c: ExpenseCategory)
      modifies this
      ensures newExpenseCategory == c
      ensures budget == old(budget) && expenses == old(expenses)
      ensures newExpenseName == old(newExpenseName) && newExpenseAmount == old(newExpenseAmount)
    {
      newExpenseCategory := c;
    }

    /** `handleAddExpense`: with a name and a numeric amount typed in, one expense
        is appended (its id built from the old length and the clock reading
        `now`) and both inputs are cleared; otherwise nothing changes. */
    method AddExpense(now: string)
      modifies this
      ensures var amount := ParseAmount(old(newExpenseAmount));
              if old(newExpenseName) != "" && old(newExpenseAmount) != "" && amount.Some? then
                expenses == old(expenses) + [BudgetItem("exp" + NatToString(|old(expenses)| + 1) + "-" + now,
                                                         old(newExpenseName), amount.value, old(newExpenseCategory))]
                && newExpenseName == "" && newExpenseAmount == ""
              else
                expenses == old(expenses) && newExpenseName == old(newExpenseName)
                && newExpenseAmount == old(newExpenseAmount)
      ensures budget == old(budget) && newExpenseCategory == old(newExpenseCategory)
    {
      var amount := ParseAmount(newExpenseAmount);
      if newExpenseName != "" && newExpenseAmount != "" && amount.Some? {
        var item := BudgetItem("exp" + NatToString(|expenses| + 1) + "-" + now,
                               newExpenseName, amount.value, newExpenseCategory);
        expenses := expenses + [item];
        newExpenseName := "";
        newExpenseAmount := "";
      }
    }

    /** `handleRemoveExpense`: exactly the expenses whose id differs stay, in order. */
    method RemoveExpense(id: string)
      modifies this
      ensures expenses == Filter(IdIsNot(id), old(expenses))
      ensures budget == old(budget) && newExpenseName == old(newExpenseName)
      ensures newExpenseAmount == old(newExpenseAmount) && newExpenseCategory == old(newExpenseCategory)
    {
      expenses := Filter(IdIsNot(id), expenses);
    }
  }
}
