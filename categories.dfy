/** Per-category aggregation of the expenses: `expensesByCategory` folds the
    expenses into an object from category name to summed amount, and
    `categoryData` lists that object's entries. A JavaScript object keeps its
    string keys in order of first insertion, so the object is modelled as a
    list of slices with distinct names. */
module Categories {
  import opened Entries

  /** One entry of the aggregated object: a category and its summed amount. */
  datatype CategorySlice = CategorySlice(name: string, value: int)

  /** `exp.category || 'Other'`: a missing (here: empty) category counts as
      'Other'. Records without a category field count as 'Other' as well. */
  function CategoryOf(e: Entry): (c: string)
    ensures c != ""
    ensures e.Expense? && e.category != "" ==> c == e.category
    ensures c != "Other" ==> e.Expense? && c == e.category
  {
    if e.Expense? && e.category != "" then e.category else "Other"
  }

  /** The categories that occur in `s`, after defaulting. */
  function CategorySet(s: seq<Entry>): set<string> {
    set e | e in s :: CategoryOf(e)
  }

  /** The sum of the amounts of the entries of `s` that fall under `c`. */
  function SpentIn(s: seq<Entry>, c: string): int {
    if s == [] then 0
    else SpentIn(s[..|s| - 1], c) + (if CategoryOf(s[|s| - 1]) == c then s[|s| - 1].amount else 0)
  }

  /** The position of the first entry of `s` that falls under `c`. */
  function FirstIndexOf(s: seq<Entry>, c: string): (k: nat)
    requires c in CategorySet(s)
    ensures k < |s| && CategoryOf(s[k]) == c
    ensures forall j :: 0 <= j < k ==> CategoryOf(s[j]) != c
  {
    if CategoryOf(s[0]) == c then 0
    else
      assert c in CategorySet(s[1..]) by {
        var e :| e in s && CategoryOf(e) == c;
        assert e != s[0];
        assert e in s[1..];
      }
      1 + FirstIndexOf(s[1..], c)
  }

  function Names(acc: seq<CategorySlice>): set<string> {
    set i | 0 <= i < |acc| :: acc[i].name
  }

  predicate DistinctNames(acc: seq<CategorySlice>) {
    forall i, j :: 0 <= i < j < |acc| ==> acc[i].name != acc[j].name
  }

  /** The sum of the values of the slices. */
  function SliceTotal(acc: seq<CategorySlice>): int {
    if acc == [] then 0 else acc[0].value + SliceTotal(acc[1..])
  }

  /** The names of a list are its head's name and its tail's names. */
  lemma NamesCons(x: CategorySlice, t: seq<CategorySlice>)
    ensures Names([x] + t) == {x.name} + Names(t)
  {
    var l := [x] + t;
    forall n | n in Names(l) ensures n in {x.name} + Names(t) {
      var i :| 0 <= i < |l| && l[i].name == n;
      if i > 0 { assert t[i - 1].name == n; }
    }
    forall n | n in {x.name} + Names(t) ensures n in Names(l) {
      if n == x.name {
        assert l[0].name == n;
      } else {
        var i :| 0 <= i < |t| && t[i].name == n;
        assert l[i + 1].name == n;
      }
    }
  }

  /** `acc[cat] = (acc[cat] || 0) + amount` on an insertion-ordered object:
      the keys stay distinct, and `cat` is a key afterwards, added at the end
      exactly when it was not one before. */
  function Bump(acc: seq<CategorySlice>, cat: string, amount: int): (r: seq<CategorySlice>)
    requires DistinctNames(acc)
    ensures DistinctNames(r)
    ensures Names(r) == Names(acc) + {cat}
    ensures |r| == if cat in Names(acc) then |acc| else |acc| + 1
  {
    if acc == [] then
      var r := [CategorySlice(cat, amount)];
      assert r[0].name == cat;
      r
    else
      var rest := acc[1..];
      assert acc == [acc[0]] + rest;
      NamesCons(acc[0], rest);
      if acc[0].name == cat then
        var r := [CategorySlice(cat, acc[0].value + amount)] + rest;
        NamesCons(r[0], rest);
        r
      else
        var tail := Bump(rest, cat, amount);
        var r := [acc[0]] + tail;
        NamesCons(acc[0], tail);
        r
  }

  /** An existing key keeps its place and gains `amount`; every other slice
      is unchanged. */
  lemma {:induction false} BumpAt(acc: seq<CategorySlice>, cat: string, amount: int, i: nat)
    requires DistinctNames(acc) && i < |acc|
    ensures Bump(acc, cat, amount)[i] ==
      if acc[i].name == cat then CategorySlice(cat, acc[i].value + amount) else acc[i]
  {
    var rest := acc[1..];
    assert DistinctNames(rest);
    if i > 0 {
      if acc[0].name == cat {
        assert acc[i].name != cat;
        assert Bump(acc, cat, amount)[i] == rest[i - 1];
      } else {
        BumpAt(rest, cat, amount, i - 1);
        assert Bump(acc, cat, amount)[i] == Bump(rest, cat, amount)[i - 1];
      }
    }
  }

  /** A new key is appended at the end with `amount`. */
  lemma {:induction false} BumpNew(acc: seq<CategorySlice>, cat: string, amount: int)
    requires DistinctNames(acc) && cat !in Names(acc)
    ensures Bump(acc, cat, amount)[|acc|] == CategorySlice(cat, amount)
  {
    if acc != [] {
      var rest := acc[1..];
      assert DistinctNames(rest);
      assert acc == [acc[0]] + rest;
      NamesCons(acc[0], rest);
      BumpNew(rest, cat, amount);
      assert Bump(acc, cat, amount)[|acc|] == Bump(rest, cat, amount)[|rest|];
    }
  }

  /** The values after a bump sum to the old sum plus `amount`. */
  lemma {:induction false} BumpTotal(acc: seq<CategorySlice>, cat: string, amount: int)
    requires DistinctNames(acc)
    ensures SliceTotal(Bump(acc, cat, amount)) == SliceTotal(acc) + amount
  {
    if acc != [] && acc[0].name != cat {
      var rest := acc[1..];
      assert DistinctNames(rest);
      BumpTotal(rest, cat, amount);
      assert Bump(acc, cat, amount)[1..] == Bump(rest, cat, amount);
    } else if acc != [] {
      assert Bump(acc, cat, amount)[1..] == acc[1..];
    }
  }

  /** `expenses.reduce((acc, exp) => { acc[cat] = … }, {})`: the expenses
      folded from the left into the insertion-ordered object. */
  function ExpensesByCategory(s: seq<Entry>): (r: seq<CategorySlice>)
    ensures DistinctNames(r)
  {
    if s == [] then []
    else Bump(ExpensesByCategory(s[..|s| - 1]), CategoryOf(s[|s| - 1]), s[|s| - 1].amount)
  }

  /** The categories of a collection with one more entry are the old ones
      and that entry's. */
  lemma CategorySetPush(s: seq<Entry>, e: Entry)
    ensures CategorySet(s + [e]) == CategorySet(s) + {CategoryOf(e)}
  {
  }

  /** Nothing is spent in a category no entry falls under. */
  lemma {:induction false} SpentInAbsent(s: seq<Entry>, c: string)
    requires c !in CategorySet(s)
    ensures SpentIn(s, c) == 0
  {
    if s != [] {
      var init, last := s[..|s| - 1], s[|s| - 1];
      assert s == init + [last];
      CategorySetPush(init, last);
      SpentInAbsent(init, c);
    }
  }

  /** One more entry adds its amount to what is spent under its own category
      and nothing elsewhere. */
  lemma SpentInPush(s: seq<Entry>, e: Entry, c: string)
    ensures SpentIn(s + [e], c) == SpentIn(s, c) + if CategoryOf(e) == c then e.amount else 0
  {
    assert (s + [e])[..|s + [e]| - 1] == s;
  }

  /** What is spent in a category is additive over concatenation. */
  lemma {:induction false} SpentInAppend(s: seq<Entry>, t: seq<Entry>, c: string)
    ensures SpentIn(s + t, c) == SpentIn(s, c) + SpentIn(t, c)
    decreases |t|
  {
    if t == [] {
      assert s + t == s;
    } else {
      SpentInAppend(s, t[..|t| - 1], c);
      SplitLast(s, t);
    }
  }

  /** What is spent in a category around one entry: before it, the entry's
      own share, and after it. */
  lemma SpentInSplit(pre: seq<Entry>, e: Entry, post: seq<Entry>, c: string)
    ensures SpentIn(pre + [e] + post, c) ==
      SpentIn(pre, c) + (if CategoryOf(e) == c then e.amount else 0) + SpentIn(post, c)
  {
    SpentInAppend(pre + [e], post, c);
    SpentInPush(pre, e, c);
  }

  /** A collection is what precedes position `k`, the entry there, and what
      follows it. */
  lemma SplitAt(s: seq<Entry>, k: nat)
    requires k < |s|
    ensures s == s[..k] + [s[k]] + s[k + 1..]
  {
  }

  /** An expense whose category is missing or empty, or a record with no
      category at all, is counted under 'Other': 'Other' is a category of
      the collection, and its amount is part of what is spent under 'Other'. */
  lemma UncategorisedCountsAsOther(s: seq<Entry>, k: nat)
    requires k < |s| && (!s[k].Expense? || s[k].category == "")
    ensures "Other" in CategorySet(s)
    ensures SpentIn(s, "Other") == SpentIn(s[..k], "Other") + s[k].amount + SpentIn(s[k + 1..], "Other")
  {
    assert "Other" in CategorySet(s) by {
      assert s[k] in s;
    }
    SplitAt(s, k);
    SpentInSplit(s[..k], s[k], s[k + 1..], "Other");
  }

  /** Appending an entry does not move the first occurrence of a category
      that already occurs; a category that did not occur first occurs at the
      new entry's position. */
  lemma FirstIndexPush(s: seq<Entry>, e: Entry, c: string)
    requires c in CategorySet(s) || c == CategoryOf(e)
    ensures c in CategorySet(s + [e])
    ensures FirstIndexOf(s + [e], c) == if c in CategorySet(s) then FirstIndexOf(s, c) else |s|
  {
    var t := s + [e];
    CategorySetPush(s, e);
    var k' := FirstIndexOf(t, c);
    if c in CategorySet(s) {
      var k := FirstIndexOf(s, c);
      assert t[k] == s[k];
      assert forall j :: 0 <= j < |s| ==> t[j] == s[j];
    } else {
      assert forall j :: 0 <= j < |s| ==> s[j] in s;
    }
  }

  /** Every slice name is a category of the expenses and every category of
      the expenses is a slice name. */
  lemma {:induction false} ByCategoryNames(s: seq<Entry>)
    ensures Names(ExpensesByCategory(s)) == CategorySet(s)
  {
    if s != [] {
      var init, last := s[..|s| - 1], s[|s| - 1];
      assert s == init + [last];
      ByCategoryNames(init);
      CategorySetPush(init, last);
    }
  }

  /** The slice values add up to the total of the expenses. */
  lemma {:induction false} ByCategorySum(s: seq<Entry>)
    ensures SliceTotal(ExpensesByCategory(s)) == Total(s)
  {
    if s != [] {
      var init, last := s[..|s| - 1], s[|s| - 1];
      ByCategorySum(init);
      BumpTotal(ExpensesByCategory(init), CategoryOf(last), last.amount);
    }
  }

  /** Each slice holds exactly the amounts of the expenses under its name. */
  lemma {:induction false} ByCategoryValues(s: seq<Entry>, i: nat)
    requires i < |ExpensesByCategory(s)|
    ensures ExpensesByCategory(s)[i].value == SpentIn(s, ExpensesByCategory(s)[i].name)
  {
    var init, last := s[..|s| - 1], s[|s| - 1];
    var c, a := CategoryOf(last), last.amount;
    var r0 := ExpensesByCategory(init);
    if i < |r0| {
      ByCategoryValues(init, i);
      BumpAt(r0, c, a, i);
    } else {
      ByCategoryNames(init);
      BumpNew(r0, c, a);
      SpentInAbsent(init, c);
    }
  }

  /** `x` and `y` both occur in `s`, and `x` first occurs before `y`. */
  predicate FirstBefore(s: seq<Entry>, x: string, y: string) {
    x in CategorySet(s) && y in CategorySet(s) && FirstIndexOf(s, x) < FirstIndexOf(s, y)
  }

  /** Appending an entry keeps the relative order of first occurrences of
      two categories that already occur. */
  lemma OrderKept(s: seq<Entry>, e: Entry, x: string, y: string)
    requires FirstBefore(s, x, y)
    ensures FirstBefore(s + [e], x, y)
  {
    FirstIndexPush(s, e, x);
    FirstIndexPush(s, e, y);
  }

  /** A category first met in the appended entry occurs first after every
      category that already occurs. */
  lemma OrderNew(s: seq<Entry>, e: Entry, x: string)
    requires x in CategorySet(s) && CategoryOf(e) !in CategorySet(s)
    ensures FirstBefore(s + [e], x, CategoryOf(e))
  {
    FirstIndexPush(s, e, x);
    FirstIndexPush(s, e, CategoryOf(e));
  }

  /** One step of the fold keeps the slices in first-occurrence order. */
  lemma OrderStep(s: seq<Entry>, e: Entry, r0: seq<CategorySlice>, i: nat, j: nat)
    requires DistinctNames(r0) && Names(r0) == CategorySet(s)
    requires i < j < |Bump(r0, CategoryOf(e), e.amount)|
    requires j < |r0| ==> FirstBefore(s, r0[i].name, r0[j].name)
    ensures FirstBefore(s + [e], Bump(r0, CategoryOf(e), e.amount)[i].name,
                                 Bump(r0, CategoryOf(e), e.amount)[j].name)
  {
    var c := CategoryOf(e);
    BumpAt(r0, c, e.amount, i);
    var x := r0[i].name;
    assert x in Names(r0);
    if j < |r0| {
      BumpAt(r0, c, e.amount, j);
      OrderKept(s, e, x, r0[j].name);
    } else {
      BumpNew(r0, c, e.amount);
      OrderNew(s, e, x);
    }
  }

  /** Slices appear in the order in which their categories first occur. */
  lemma {:induction false} ByCategoryOrder(s: seq<Entry>, i: nat, j: nat)
    requires i < j < |ExpensesByCategory(s)|
    ensures FirstBefore(s, ExpensesByCategory(s)[i].name, ExpensesByCategory(s)[j].name)
  {
    var init, last := s[..|s| - 1], s[|s| - 1];
    var r0 := ExpensesByCategory(init);
    assert s == init + [last];
    if j < |r0| {
      ByCategoryOrder(init, i, j);
    }
    ByCategoryNames(init);
    OrderStep(init, last, r0, i, j);
  }

  /** Each slice's value is what the expenses spend under its name. */
  predicate ValuesAreSpent(expenses: seq<Entry>, r: seq<CategorySlice>) {
    forall i :: 0 <= i < |r| ==> r[i].value == SpentIn(expenses, r[i].name)
  }

  /** The slices are in the order in which their names first occur among the
      expenses' categories. */
  predicate InFirstOccurrenceOrder(expenses: seq<Entry>, r: seq<CategorySlice>) {
    forall i, j :: 0 <= i < j < |r| ==> FirstBefore(expenses, r[i].name, r[j].name)
  }

  /** `categoryData`: the entries of `expensesByCategory` as name/value
      pairs. One slice per category that occurs, no name twice, each value
      the amount spent under that name, the values summing to the expense
      total, and the slices ordered by first occurrence. */
  function CategoryData(expenses: seq<Entry>): (r: seq<CategorySlice>)
    ensures DistinctNames(r)
    ensures Names(r) == CategorySet(expenses)
    ensures ValuesAreSpent(expenses, r)
    ensures SliceTotal(r) == Total(expenses)
    ensures InFirstOccurrenceOrder(expenses, r)
  {
    ByCategoryNames(expenses);
    ByCategorySum(expenses);
    var r := ExpensesByCategory(expenses);
    assert ValuesAreSpent(expenses, r) by {
      forall i | 0 <= i < |r| ensures r[i].value == SpentIn(expenses, r[i].name) {
        ByCategoryValues(expenses, i);
      }
    }
    assert InFirstOccurrenceOrder(expenses, r) by {
      forall i, j | 0 <= i < j < |r| ensures FirstBefore(expenses, r[i].name, r[j].name) {
        ByCategoryOrder(expenses, i, j);
      }
    }
    r
  }
}
