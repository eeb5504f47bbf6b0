/** The state of the `BudgetDashboard` component: three ordered collections,
    three form drafts, and the handlers that replace them. The figures the
    component shows are derived from the collections on every read. */
module Dashboard {
  import opened Entries
  import Categories
  import Summary

  /** The records the component starts with, amounts in cents. */
  const InitialIncome: seq<Entry> := [Income(1, "Salary", 127700)]
  const InitialExpenses: seq<Entry> := [
    Expense(1, "Rent/Mortgage", 37200, "2025-11-27", "Housing"),
    Expense(2, "Telephone", 2000, "2025-11-15", "Utilities"),
    Expense(3, "Internet", 10900, "2025-11-20", "Utilities"),
    Expense(4, "Groceries", 25000, "2025-11-10", "Food"),
    Expense(5, "Transportation", 8500, "2025-11-12", "Transport")]
  const InitialSavings: seq<Entry> := [Saving(1, "Emergency Fund", 15000, "2025-11-01")]

  /** The figures the component shows before any user action, in cents:
      €1277 income, €836 expenses, €150 savings, a €291 balance and a 65%
      spending rate. */
  lemma InitialFigures()
    ensures Total(InitialIncome) == 127700
    ensures Total(InitialExpenses) == 83600
    ensures Total(InitialSavings) == 15000
    ensures Summary.CashBalance(InitialIncome, InitialExpenses, InitialSavings) == 29100
    ensures Summary.SpendingPercentage(Total(InitialIncome), Total(InitialExpenses)) == 65
  {
    var e := InitialExpenses;
    TotalPush([], e[0]);
    assert [e[0]] + [e[1]] == e[..2];
    TotalPush([e[0]], e[1]);
    TotalPush(e[..2], e[2]);
    assert e[..2] + [e[2]] == e[..3];
    TotalPush(e[..3], e[3]);
    assert e[..3] + [e[3]] == e[..4];
    TotalPush(e[..4], e[4]);
    assert e[..4] + [e[4]] == e;
  }

  class BudgetDashboard {
    var income: seq<Entry>
    var expenses: seq<Entry>
    var savings: seq<Entry>
    var newIncome: IncomeDraft
    var newExpense: ExpenseDraft
    var newSaving: SavingDraft

    /** Each collection holds records of its own kind. */
    ghost predicate Valid()
      reads this
    {
      (forall i :: 0 <= i < |income| ==> income[i].Income?) &&
      (forall i :: 0 <= i < |expenses| ==> expenses[i].Expense?) &&
      (forall i :: 0 <= i < |savings| ==> savings[i].Saving?)
    }

    function TotalIncome(): int reads this { Total(income) }
    function TotalExpenses(): int reads this { Total(expenses) }
    function TotalSavings(): int reads this { Total(savings) }

    function CashBalance(): int
      reads this
    {
      Summary.CashBalance(income, expenses, savings)
    }

    function SpendingPercentage(): int
      reads this
    {
      Summary.SpendingPercentage(TotalIncome(), TotalExpenses())
    }

    /** The chart data. Every stored expense has a category field, so a slice
        name is a stored category when that is non-empty and 'Other' when it
        is empty; the fallback for records without the field never applies. */
    function CategoryData(): (r: seq<Categories.CategorySlice>)
      requires Valid()
      reads this
      ensures Categories.Names(r) == set e | e in expenses :: if e.category != "" then e.category else "Other"
    {
      var r := Categories.CategoryData(expenses);
      assert forall e | e in expenses :: e.Expense?;
      r
    }

    /** The state the component starts with: one salary, five expenses, one
        saving, and empty drafts whose expense category is 'Other'. */
    constructor ()
      ensures Valid()
      ensures income == InitialIncome && expenses == InitialExpenses && savings == InitialSavings
      ensures newIncome == IncomeDraft("", "")
      ensures newExpense == ExpenseDraft("", "", "", "Other")
      ensures newSaving == SavingDraft("", "", "")
    {
      income, expenses, savings := InitialIncome, InitialExpenses, InitialSavings;
      newIncome := IncomeDraft("", "");
      newExpense := ExpenseDraft("", "", "", "Other");
      newSaving := SavingDraft("", "", "");
    }

    /** `addIncome`: with a complete draft, append one income built from it,
        with id `now` and the amount `parseAmount` reads from the draft, and
        clear the draft; otherwise change nothing. */
    method AddIncome(now: int, parseAmount: string -> int)
      requires Valid()
      modifies this
      ensures Valid()
      ensures old(newIncome).Complete() ==>
        income == old(income) + [Income(now, old(newIncome).item, parseAmount(old(newIncome).amount))] &&
        newIncome == IncomeDraft("", "")
      ensures !old(newIncome).Complete() ==> income == old(income) && newIncome == old(newIncome)
      ensures TotalIncome() ==
        old(TotalIncome()) + if old(newIncome).Complete() then parseAmount(old(newIncome).amount) else 0
      ensures expenses == old(expenses) && savings == old(savings)
      ensures newExpense == old(newExpense) && newSaving == old(newSaving)
    {
      if newIncome.Complete() {
        var e := Income(now, newIncome.item, parseAmount(newIncome.amount));
        TotalPush(income, e);
        income := income + [e];
        newIncome := IncomeDraft("", "");
      }
    }

    /** `addExpense`: as AddIncome; the new expense takes the draft's due
        date and category, and the draft's category goes back to 'Other'. */
    method AddExpense(now: int, parseAmount: string -> int)
      requires Valid()
      modifies this
      ensures Valid()
      ensures old(newExpense).Complete() ==>
        expenses == old(expenses) + [Expense(now, old(newExpense).item, parseAmount(old(newExpense).amount),
                                             old(newExpense).dueDate, old(newExpense).category)] &&
        newExpense == ExpenseDraft("", "", "", "Other")
      ensures !old(newExpense).Complete() ==> expenses == old(expenses) && newExpense == old(newExpense)
      ensures TotalExpenses() ==
        old(TotalExpenses()) + if old(newExpense).Complete() then parseAmount(old(newExpense).amount) else 0
      ensures income == old(income) && savings == old(savings)
      ensures newIncome == old(newIncome) && newSaving == old(newSaving)
    {
      if newExpense.Complete() {
        var e := Expense(now, newExpense.item, parseAmount(newExpense.amount), newExpense.dueDate, newExpense.category);
        TotalPush(expenses, e);
        expenses := expenses + [e];
        newExpense := ExpenseDraft("", "", "", "Other");
      }
    }

    /** `addSaving`: as AddIncome; the new saving takes the draft's date. */
    method AddSaving(now: int, parseAmount: string -> int)
      requires Valid()
      modifies this
      ensures Valid()
      ensures old(newSaving).Complete() ==>
        savings == old(savings) + [Saving(now, old(newSaving).item, parseAmount(old(newSaving).amount),
                                          old(newSaving).date)] &&
        newSaving == SavingDraft("", "", "")
      ensures !old(newSaving).Complete() ==> savings == old(savings) && newSaving == old(newSaving)
      ensures TotalSavings() ==
        old(TotalSavings()) + if old(newSaving).Complete() then parseAmount(old(newSaving).amount) else 0
      ensures income == old(income) && expenses == old(expenses)
      ensures newIncome == old(newIncome) && newExpense == old(newExpense)
    {
      if newSaving.Complete() {
        var e := Saving(now, newSaving.item, parseAmount(newSaving.amount), newSaving.date);
        TotalPush(savings, e);
        savings := savings + [e];
        newSaving := SavingDraft("", "", "");
      }
    }

    /** `deleteIncome`: keep every income whose id is not `id`. */
    method DeleteIncome(id: int)
      requires Valid()
      modifies this
      ensures Valid()
      ensures income == WithoutId(old(income), id)
      ensures TotalIncome() == old(TotalIncome()) - AmountWithId(old(income), id)
      ensures expenses == old(expenses) && savings == old(savings)
      ensures newIncome == old(newIncome) && newExpense == old(newExpense) && newSaving == old(newSaving)
    {
      TotalWithoutId(income, id);
      income := WithoutId(income, id);
    }

    /** `deleteExpense`: keep every expense whose id is not `id`. */
    method DeleteExpense(id: int)
      requires Valid()
      modifies this
      ensures Valid()
      ensures expenses == WithoutId(old(expenses), id)
      ensures TotalExpenses() == old(TotalExpenses()) - AmountWithId(old(expenses), id)
      ensures income == old(income) && savings == old(savings)
      ensures newIncome == old(newIncome) && newExpense == old(newExpense) && newSaving == old(newSaving)
    {
      TotalWithoutId(expenses, id);
      expenses := WithoutId(expenses, id);
    }

    /** `deleteSaving`: keep every saving whose id is not `id`. */
    method DeleteSaving(id: int)
      requires Valid()
      modifies this
      ensures Valid()
      ensures savings == WithoutId(old(savings), id)
      ensures TotalSavings() == old(TotalSavings()) - AmountWithId(old(savings), id)
      ensures income == old(income) && expenses == old(expenses)
      ensures newIncome == old(newIncome) && newExpense == old(newExpense) && newSaving == old(newSaving)
    {
      TotalWithoutId(savings, id);
      savings := WithoutId(savings, id);
    }

    /** The income form's label input. */
    method EditIncomeItem(text: string)
      requires Valid()
      modifies this
      ensures Valid()
      ensures newIncome == old(newIncome).(item := text)
      ensures income == old(income) && expenses == old(expenses) && savings == old(savings)
      ensures newExpense == old(newExpense) && newSaving == old(newSaving)
    {
      newIncome := newIncome.(item := text);
    }

    /** The income form's amount input. */
    method EditIncomeAmount(text: string)
      requires Valid()
      modifies this
      ensures Valid()
      ensures newIncome == old(newIncome).(amount := text)
      ensures income == old(income) && expenses == old(expenses) && savings == old(savings)
      ensures newExpense == old(newExpense) && newSaving == old(newSaving)
    {
      newIncome := newIncome.(amount := text);
    }

    /** The expense form's label input. */
    method EditExpenseItem(text: string)
      requires Valid()
      modifies this
      ensures Valid()
      ensures newExpense == old(newExpense).(item := text)
      ensures income == old(income) && expenses == old(expenses) && savings == old(savings)
      ensures newIncome == old(newIncome) && newSaving == old(newSaving)
    {
      newExpense := newExpense.(item := text);
    }

    /** The expense form's category selector. */
    method EditExpenseCategory(text: string)
      requires Valid()
      modifies this
      ensures Valid()
      ensures newExpense == old(newExpense).(category := text)
      ensures income == old(income) && expenses == old(expenses) && savings == old(savings)
      ensures newIncome == old(newIncome) && newSaving == old(newSaving)
    {
      newExpense := newExpense.(category := text);
    }

    /** The expense form's amount input. */
    method EditExpenseAmount(text: string)
      requires Valid()
      modifies this
      ensures Valid()
      ensures newExpense == old(newExpense).(amount := text)
      ensures income == old(income) && expenses == old(expenses) && savings == old(savings)
      ensures newIncome == old(newIncome) && newSaving == old(newSaving)
    {
      newExpense := newExpense.(amount := text);
    }

    /** The savings form's label input. */
    method EditSavingItem(text: string)
      requires Valid()
      modifies this
      ensures Valid()
      ensures newSaving == old(newSaving).(item := text)
      ensures income == old(income) && expenses == old(expenses) && savings == old(savings)
      ensures newIncome == old(newIncome) && newExpense == old(newExpense)
    {
      newSaving := newSaving.(item := text);
    }

    /** The savings form's amount input. */
    method EditSavingAmount(text: string)
      requires Valid()
      modifies this
      ensures Valid()
      ensures newSaving == old(newSaving).(amount := text)
      ensures income == old(income) && expenses == old(expenses) && savings == old(savings)
      ensures newIncome == old(newIncome) && newExpense == old(newExpense)
    {
      newSaving := newSaving.(amount := text);
    }
  }
}
