/** Records of the budget dashboard: the income, expense and saving entries,
    the form drafts they are built from, and the two operations every
    collection shares — summing its amounts and deleting by id. */
module Entries {

  /** One stored record. The three kinds share `id`, `item` and `amount`;
      an expense also has a due date and a category, a saving a date.
      Amounts are exact integers (cents); ids are whatever the caller
      supplied at creation and need not be unique. */
  datatype Entry =
    | Income(id: int, item: string, amount: int)
    | Expense(id: int, item: string, amount: int, dueDate: string, category: string)
    | Saving(id: int, item: string, amount: int, date: string)

  /** A form may be submitted when both its label and its amount text are
      non-empty (JavaScript truthiness of a string). */
  predicate Submittable(item: string, amount: string) {
    item != "" && amount != ""
  }

  /** The in-progress form state of each collection. Every field holds the
      raw text of its input control. */
  datatype IncomeDraft = IncomeDraft(item: string, amount: string) {
    predicate Complete() { Submittable(item, amount) }
  }

  datatype ExpenseDraft = ExpenseDraft(item: string, amount: string, dueDate: string, category: string) {
    predicate Complete() { Submittable(item, amount) }
  }

  datatype SavingDraft = SavingDraft(item: string, amount: string, date: string) {
    predicate Complete() { Submittable(item, amount) }
  }

  /** The sum of the amounts of `s`, accumulated from the left as
      `reduce((sum, item) => sum + item.amount, 0)` does. */
  function Total(s: seq<Entry>): (r: int)
    ensures (forall i :: 0 <= i < |s| ==> s[i].amount >= 0) ==> r >= 0
  {
    if s == [] then 0 else Total(s[..|s| - 1]) + s[|s| - 1].amount
  }

  /** The sum of the amounts of the entries of `s` whose id is `id`. */
  function AmountWithId(s: seq<Entry>, id: int): int {
    if s == [] then 0
    else AmountWithId(s[..|s| - 1], id) + (if s[|s| - 1].id == id then s[|s| - 1].amount else 0)
  }

  /** `s.filter(item => item.id !== id)`: every entry whose id differs from
      `id`, in the order of `s`. */
  function WithoutId(s: seq<Entry>, id: int): (r: seq<Entry>)
    ensures |r| <= |s|
    ensures forall i :: 0 <= i < |r| ==> r[i].id != id && r[i] in s
    ensures (forall i :: 0 <= i < |s| ==> s[i].id != id) ==> r == s
  {
    if s == [] then []
    else
      var rest := WithoutId(s[..|s| - 1], id);
      assert s == s[..|s| - 1] + [s[|s| - 1]];
      if s[|s| - 1].id == id then rest else rest + [s[|s| - 1]]
  }

  /** A delete keeps every copy of each entry with another id and no copy of
      an entry with that id. */
  lemma {:induction false} WithoutIdCounts(s: seq<Entry>, id: int, e: Entry)
    ensures multiset(WithoutId(s, id))[e] == if e.id == id then 0 else multiset(s)[e]
    decreases |s|
  {
    if s != [] {
      var init, last := s[..|s| - 1], s[|s| - 1];
      assert s == init + [last];
      WithoutIdCounts(init, id, e);
      WithoutIdPush(init, last, id);
    }
  }

  /** Sums are additive over concatenation. */
  lemma {:induction false} TotalAppend(s: seq<Entry>, t: seq<Entry>)
    ensures Total(s + t) == Total(s) + Total(t)
    decreases |t|
  {
    if t == [] {
      assert s + t == s;
    } else {
      TotalAppend(s, t[..|t| - 1]);
      assert (s + t)[..|s + t| - 1] == s + t[..|t| - 1];
    }
  }

  /** Appending one entry adds exactly its amount; the empty collection sums to 0. */
  lemma TotalPush(s: seq<Entry>, e: Entry)
    ensures Total(s + [e]) == Total(s) + e.amount
    ensures Total([]) == 0
  {
  }

  /** Deleting by id from a single entry either drops it or keeps it. */
  lemma WithoutIdSingle(e: Entry, id: int)
    ensures WithoutId([e], id) == if e.id == id then [] else [e]
  {
  }

  /** The last entry of a concatenation with a non-empty right part is the
      right part's last entry, and what precedes it is the left part followed
      by the rest of the right part. */
  lemma SplitLast(s: seq<Entry>, t: seq<Entry>)
    requires t != []
    ensures (s + t)[..|s + t| - 1] == s + t[..|t| - 1]
    ensures (s + t)[|s + t| - 1] == t[|t| - 1]
  {
  }

  /** Deleting by id from a collection with one more entry deletes from the
      old collection and then keeps the new entry exactly when its id differs. */
  lemma WithoutIdPush(s: seq<Entry>, e: Entry, id: int)
    ensures WithoutId(s + [e], id) == WithoutId(s, id) + if e.id == id then [] else [e]
  {
    assert (s + [e])[..|s + [e]| - 1] == s;
  }

  /** Deleting by id distributes over concatenation. With WithoutIdSingle
      this pins WithoutId down as the order-preserving filter. */
  lemma {:induction false} WithoutIdAppend(s: seq<Entry>, t: seq<Entry>, id: int)
    ensures WithoutId(s + t, id) == WithoutId(s, id) + WithoutId(t, id)
    decreases |t|
  {
    if t == [] {
      assert s + t == s;
    } else {
      var init, last := t[..|t| - 1], t[|t| - 1];
      assert t == init + [last];
      assert s + t == (s + init) + [last];
      WithoutIdAppend(s, init, id);
      WithoutIdPush(s + init, last, id);
      WithoutIdPush(init, last, id);
    }
  }

  /** The total after a delete is the old total less the amounts of exactly
      the removed entries. */
  lemma {:induction false} TotalWithoutId(s: seq<Entry>, id: int)
    ensures Total(WithoutId(s, id)) == Total(s) - AmountWithId(s, id)
    decreases |s|
  {
    if s != [] {
      var init, last := s[..|s| - 1], s[|s| - 1];
      TotalWithoutId(init, id);
      if last.id != id {
        TotalPush(WithoutId(init, id), last);
      }
    }
  }
}
