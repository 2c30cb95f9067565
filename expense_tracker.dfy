/** The expense ledger (src/pages/ExpenseTracker.tsx). Amounts are integer
    cents instead of JavaScript floats, so the totals are exact. */
module ExpenseTracker {
  import opened Seqs
  import opened Text

  datatype ExpenseType = Income | Outgoing

  /** The string value of the `type` field, as the type filter compares it. */
  function TypeName(k: ExpenseType): (s: string)
    ensures s == "income" <==> k == Income
    ensures s == "expense" <==> k == Outgoing
  {
    match k
    case Income => "income"
    case Outgoing => "expense"
  }

  /** `date` is a "yyyy-MM-dd" string, compared as a string. */
  datatype Expense = Expense(id: string, amount: int, category: string, description: string,
                             date: string, kind: ExpenseType)

  const Categories: seq<string> := [
    "Food & Dining", "Shopping", "Transportation", "Entertainment", "Housing", "Utilities",
    "Healthcare", "Personal", "Travel", "Education", "Income", "Other"]

  /** `initialExpenses`. */
  function InitialExpenses(): seq<Expense>
  {
    [ Expense("1", 4250, "Food & Dining", "Grocery shopping", "2025-04-02", Outgoing),
      Expense("2", 1500, "Transportation", "Uber ride", "2025-04-01", Outgoing),
      Expense("3", 120000, "Income", "Salary deposit", "2025-04-01", Income),
      Expense("4", 3599, "Entertainment", "Movie tickets", "2025-03-30", Outgoing),
      Expense("5", 80000, "Housing", "Rent payment", "2025-03-29", Outgoing) ]
  }

  // ---------------------------------------------------------------------
  // Totals

  /** `reduce((sum, e) => sum + e.amount, 0)`. */
  function Sum(es: seq<Expense>): int
  {
    if es == [] then 0 else es[0].amount + Sum(es[1..])
  }

  lemma {:induction false} SumConcat(a: seq<Expense>, b: seq<Expense>)
    ensures Sum(a + b) == Sum(a) + Sum(b)
  {
    if a != [] {
      assert (a + b)[1..] == a[1..] + b;
      SumConcat(a[1..], b);
    } else {
      assert a + b == b;
    }
  }

  function OfType(k: ExpenseType): Expense -> bool
  {
    (e: Expense) => e.kind == k
  }

  /** What one entry adds to the total of a type. */
  function Share(e: Expense, k: ExpenseType): int
  {
    if e.kind == k then e.amount else 0
  }

  /** The total of a type, entry by entry. */
  function ShareSum(es: seq<Expense>, k: ExpenseType): int
  {
    if es == [] then 0 else Share(es[0], k) + ShareSum(es[1..], k)
  }

  /** Summing the filtered entries is summing every entry's share. */
  lemma {:induction false} FilterSumIsShareSum(es: seq<Expense>, k: ExpenseType)
    ensures Sum(Filter(es, OfType(k))) == ShareSum(es, k)
  {
    if es != [] {
      assert es == [es[0]] + es[1..];
      FilterCons(es[0], es[1..], OfType(k));
      FilterSumIsShareSum(es[1..], k);
      var rest := Filter(es[1..], OfType(k));
      assert ([es[0]] + rest)[1..] == rest;
    }
  }

  /** `totalIncome`: the sum of the income amounts. */
  function TotalIncome(es: seq<Expense>): (r: int)
    ensures r == ShareSum(es, Income)
  {
    FilterSumIsShareSum(es, Income);
    Sum(Filter(es, OfType(Income)))
  }

  /** `totalExpense`: the sum of the outgoing amounts. */
  function TotalExpense(es: seq<Expense>): (r: int)
    ensures r == ShareSum(es, Outgoing)
  {
    FilterSumIsShareSum(es, Outgoing);
    Sum(Filter(es, OfType(Outgoing)))
  }

  /** An entry's effect on the balance: income adds, an expense takes away. */
  function Signed(e: Expense): int
  {
    if e.kind == Income then e.amount else -e.amount
  }

  function SignedSum(es: seq<Expense>): int
  {
    if es == [] then 0 else Signed(es[0]) + SignedSum(es[1..])
  }

  lemma {:induction false} ShareSumsSigned(es: seq<Expense>)
    ensures ShareSum(es, Income) - ShareSum(es, Outgoing) == SignedSum(es)
  {
    if es != [] {
      ShareSumsSigned(es[1..]);
    }
  }

  /** `balance`: every entry counted with its sign. */
  function Balance(es: seq<Expense>): (r: int)
    ensures r == SignedSum(es)
  {
    ShareSumsSigned(es);
    TotalIncome(es) - TotalExpense(es)
  }

  /** Each total takes the amount of a prepended entry exactly when the entry
      has its type. */
  lemma TotalsOfPrepend(e: Expense, es: seq<Expense>)
    ensures TotalIncome([e] + es) == TotalIncome(es) + (if e.kind == Income then e.amount else 0)
    ensures TotalExpense([e] + es) == TotalExpense(es) + (if e.kind == Outgoing then e.amount else 0)
    ensures Balance([e] + es) == Balance(es) + (if e.kind == Income then e.amount else -e.amount)
  {
    FilterConcat([e], es, OfType(Income));
    FilterConcat([e], es, OfType(Outgoing));
    assert [e][1..] == [];
    SumConcat(Filter([e], OfType(Income)), Filter(es, OfType(Income)));
    SumConcat(Filter([e], OfType(Outgoing)), Filter(es, OfType(Outgoing)));
  }

  /** Every entry counts in exactly one of the two totals. */
  lemma {:induction false} TotalsSplitSum(es: seq<Expense>)
    ensures TotalIncome(es) + TotalExpense(es) == Sum(es)
  {
    if es != [] {
      assert es == [es[0]] + es[1..];
      TotalsOfPrepend(es[0], es[1..]);
      TotalsSplitSum(es[1..]);
    }
  }

  // ---------------------------------------------------------------------
  // The filter (ExpenseTracker.tsx:160-179)

  /** A select value that filters nothing: `'all'`, or empty (falsy). */
  predicate Unfiltered(v: string)
  {
    v == "" || v == "all"
  }

  predicate InDateRange(date: string, start: string, end: string)
  {
    (start == "" || StrLe(start, date)) && (end == "" || StrLe(date, end))
  }

  /** The filter's test: each select either filters nothing or admits only
      its value, and an empty bound of the date range admits every date. */
  function Matches(category: string, kind: string, start: string, end: string): (p: Expense -> bool)
    ensures forall e :: p(e) && !Unfiltered(category) ==> e.category == category
    ensures forall e :: p(e) && !Unfiltered(kind) ==> TypeName(e.kind) == kind
    ensures forall e :: p(e) ==> InDateRange(e.date, start, end)
    ensures Unfiltered(category) && Unfiltered(kind) && start == "" && end == "" ==> forall e :: p(e)
  {
    (e: Expense) =>
      && (Unfiltered(category) || e.category == category)
      && (Unfiltered(kind) || TypeName(e.kind) == kind)
      && InDateRange(e.date, start, end)
  }

  /** `filteredExpenses`. */
  function FilteredExpenses(es: seq<Expense>, category: string, kind: string, start: string, end: string): (r: seq<Expense>)
    ensures Selects(r, es, Matches(category, kind, start, end))
  {
    FilterSelects(es, Matches(category, kind, start, end));
    Filter(es, Matches(category, kind, start, end))
  }

  /** With both selects on "all" (or empty) and both dates empty, every
      entry is shown. */
  lemma DefaultFilterShowsAll(es: seq<Expense>, category: string, kind: string)
    requires Unfiltered(category) && Unfiltered(kind)
    ensures FilteredExpenses(es, category, kind, "", "") == es
  {
    FilterKeepsAll(es, Matches(category, kind, "", ""));
  }

  /** The date range is inclusive at both ends, and an empty bound imposes
      nothing. */
  lemma DateRangeInclusive(date: string, start: string, end: string)
    ensures InDateRange(date, date, date)
    ensures InDateRange(date, "", end) <==> end == "" || StrLe(date, end)
    ensures InDateRange(date, start, "") <==> start == "" || StrLe(start, date)
    ensures start != "" && date != start && InDateRange(date, start, "") ==> StrLess(start, date)
  {
    StrLeRefl(date);
    if start != "" && date != start && InDateRange(date, start, "") {
      StrLeTotal(start, date);
      StrLessTotal(start, date);
    }
  }

  /** Two distinct strings are ordered one way or the other. */
  lemma {:induction false} StrLessTotal(a: string, b: string)
    requires a != b
    ensures StrLess(a, b) || StrLess(b, a)
  {
    if a != [] && b != [] && a[0] == b[0] {
      assert a == [a[0]] + a[1..] && b == [b[0]] + b[1..];
      StrLessTotal(a[1..], b[1..]);
    }
  }

  // ---------------------------------------------------------------------
  // Per-category totals (ExpenseTracker.tsx:182-188)

  datatype CategoryTotal = CategoryTotal(category: string, total: int)

  /** The entries counted toward a category: its expenses, never income. */
  function SpentOn(c: string): (p: Expense -> bool)
    ensures forall e :: p(e) ==> e.kind == Outgoing && e.category == c
  {
    (e: Expense) => e.category == c && e.kind == Outgoing
  }

  function SpentIn(es: seq<Expense>, c: string): int
  {
    Sum(Filter(es, SpentOn(c)))
  }

  /** `CATEGORIES.map(...)`, before dropping the empty categories. */
  function AllCategoryTotals(es: seq<Expense>): (r: seq<CategoryTotal>)
    ensures |r| == |Categories|
    ensures forall i :: 0 <= i < |r| ==> r[i] == CategoryTotal(Categories[i], SpentIn(es, Categories[i]))
  {
    seq(|Categories|, i requires 0 <= i < |Categories| => CategoryTotal(Categories[i], SpentIn(es, Categories[i])))
  }

  function Positive(): CategoryTotal -> bool
  {
    (t: CategoryTotal) => t.total > 0
  }

  /** `categoryTotals`. */
  function CategoryTotals(es: seq<Expense>): (r: seq<CategoryTotal>)
    ensures Selects(r, AllCategoryTotals(es), Positive())
  {
    FilterSelects(AllCategoryTotals(es), Positive());
    Filter(AllCategoryTotals(es), Positive())
  }

  /** An entry of the list is a listed category with its own positive sum
      of outgoing amounts, and each listed category with a positive sum has
      an entry; the entries keep the order of `CATEGORIES`. */
  lemma CategoryTotalsSpec(es: seq<Expense>)
    ensures forall t :: t in CategoryTotals(es) ==>
      t.category in Categories && t.total == SpentIn(es, t.category) && t.total > 0
    ensures forall c :: c in Categories && SpentIn(es, c) > 0 ==> CategoryTotal(c, SpentIn(es, c)) in CategoryTotals(es)
    ensures IsSubsequence(CategoryTotals(es), AllCategoryTotals(es))
  {
    var all := AllCategoryTotals(es);
    var r := CategoryTotals(es);
    forall t | t in r ensures t.category in Categories && t.total == SpentIn(es, t.category) {
      var i :| 0 <= i < |all| && all[i] == t;
    }
    forall c | c in Categories && SpentIn(es, c) > 0 ensures CategoryTotal(c, SpentIn(es, c)) in r {
      var i :| 0 <= i < |Categories| && Categories[i] == c;
      assert all[i] in all;
      assert multiset(r)[all[i]] == multiset(all)[all[i]];
    }
  }

  /** An entry whose category is not one of `CATEGORIES` moves no
      category total. */
  lemma UnlistedCategoryIgnored(e: Expense, es: seq<Expense>)
    requires e.category !in Categories
    ensures CategoryTotals([e] + es) == CategoryTotals(es)
  {
    forall c | c in Categories ensures SpentIn([e] + es, c) == SpentIn(es, c) {
      FilterConcat([e], es, SpentOn(c));
      assert [e][1..] == [];
    }
    assert AllCategoryTotals([e] + es) == AllCategoryTotals(es);
  }

  // ---------------------------------------------------------------------
  // Top categories (ExpenseTracker.tsx:443): a stable sort by
  // non-increasing total, then the first five.

  ghost predicate SortedDesc(s: seq<CategoryTotal>)
  {
    forall i, j :: 0 <= i < j < |s| ==> s[i].total >= s[j].total
  }

  /** Inserts `x` in front of the first entry whose total does not exceed
      its own. */
  function Insert(x: CategoryTotal, s: seq<CategoryTotal>): (r: seq<CategoryTotal>)
    ensures multiset(r) == multiset(s) + multiset{x}
    ensures |r| == |s| + 1
  {
    if s == [] || x.total >= s[0].total then [x] + s
    else
      assert s == [s[0]] + s[1..];
      [s[0]] + Insert(x, s[1..])
  }

  lemma {:induction false} InsertSorted(x: CategoryTotal, s: seq<CategoryTotal>)
    requires SortedDesc(s)
    ensures SortedDesc(Insert(x, s))
  {
    if s != [] && x.total < s[0].total {
      InsertSorted(x, s[1..]);
      var r := Insert(x, s[1..]);
      forall k | 0 <= k < |r| ensures s[0].total >= r[k].total {
        assert r[k] in multiset(r);
        assert r[k] in multiset(s[1..]) + multiset{x};
        if r[k] != x {
          assert r[k] in s[1..];
        }
      }
    }
  }

  /** `sort((a, b) => b.total - a.total)`. */
  function SortDesc(s: seq<CategoryTotal>): (r: seq<CategoryTotal>)
    ensures multiset(r) == multiset(s)
  {
    if s == [] then []
    else
      assert s == [s[0]] + s[1..];
      Insert(s[0], SortDesc(s[1..]))
  }

  lemma {:induction false} SortDescSorted(s: seq<CategoryTotal>)
    ensures SortedDesc(SortDesc(s))
  {
    if s != [] {
      SortDescSorted(s[1..]);
      InsertSorted(s[0], SortDesc(s[1..]));
    }
  }

  function TotalIs(v: int): CategoryTotal -> bool
  {
    (t: CategoryTotal) => t.total == v
  }

  lemma {:induction false} InsertStable(x: CategoryTotal, s: seq<CategoryTotal>, v: int)
    ensures Filter(Insert(x, s), TotalIs(v)) == Filter([x], TotalIs(v)) + Filter(s, TotalIs(v))
  {
    if s == [] || x.total >= s[0].total {
      FilterConcat([x], s, TotalIs(v));
    } else {
      InsertStable(x, s[1..], v);
      FilterConcat([s[0]], Insert(x, s[1..]), TotalIs(v));
      FilterConcat([s[0]], s[1..], TotalIs(v));
      assert s == [s[0]] + s[1..];
      assert [s[0]][1..] == [] && [x][1..] == [];
    }
  }

  /** The sort is stable: entries with equal totals keep their order. */
  lemma {:induction false} SortDescStable(s: seq<CategoryTotal>, v: int)
    ensures Filter(SortDesc(s), TotalIs(v)) == Filter(s, TotalIs(v))
  {
    if s != [] {
      SortDescStable(s[1..], v);
      InsertStable(s[0], SortDesc(s[1..]), v);
      FilterConcat([s[0]], s[1..], TotalIs(v));
      assert s == [s[0]] + s[1..];
    }
  }

  /** The "top categories" list: five category totals, or all of them when
      there are fewer. */
  function TopCategories(es: seq<Expense>): (r: seq<CategoryTotal>)
    ensures |r| == if |CategoryTotals(es)| < 5 then |CategoryTotals(es)| else 5
    ensures forall t :: t in r ==> t in CategoryTotals(es)
    ensures r == SortDesc(CategoryTotals(es))[..|r|]
    ensures multiset(r) <= multiset(CategoryTotals(es))
  {
    var sorted := SortDesc(CategoryTotals(es));
    var r := Take(sorted, 5);
    assert |sorted| == |CategoryTotals(es)| by {
      assert |multiset(sorted)| == |multiset(CategoryTotals(es))|;
    }
    assert sorted == r + sorted[|r|..];
    forall t | t in r ensures t in CategoryTotals(es) {
      assert t in sorted;
      assert t in multiset(sorted);
    }
    r
  }

  /** Among categories with equal totals, the list shows the ones that come
      first in `CATEGORIES` order: the shown entries of each total are a
      prefix of that total's category totals. */
  lemma TopCategoriesTies(es: seq<Expense>, v: int)
    ensures Filter(TopCategories(es), TotalIs(v)) <= Filter(CategoryTotals(es), TotalIs(v))
  {
    var sorted := SortDesc(CategoryTotals(es));
    var r := TopCategories(es);
    assert sorted == r + sorted[|r|..];
    FilterConcat(r, sorted[|r|..], TotalIs(v));
    SortDescStable(CategoryTotals(es), v);
  }

  /** A prefix of a sorted list is sorted, and no entry in it is smaller
      than an entry after it. */
  lemma SortedPrefix(s: seq<CategoryTotal>, n: nat)
    requires SortedDesc(s)
    ensures SortedDesc(Take(s, n))
    ensures forall i, j :: 0 <= i < |Take(s, n)| <= j < |s| ==> s[i].total >= s[j].total
  {
  }

  /** At most five entries, by non-increasing total, each a category total;
      all of them when there are at most five. */
  lemma TopCategoriesBounded(es: seq<Expense>)
    ensures |TopCategories(es)| <= 5
    ensures SortedDesc(TopCategories(es))
    ensures forall t :: t in TopCategories(es) ==> t in CategoryTotals(es)
    ensures |CategoryTotals(es)| <= 5 ==> multiset(TopCategories(es)) == multiset(CategoryTotals(es))
  {
    var sorted := SortDesc(CategoryTotals(es));
    SortDescSorted(CategoryTotals(es));
    SortedPrefix(sorted, 5);
  }

  /** No category left off the list has a larger total than one on it. */
  lemma TopCategoriesMaximal(es: seq<Expense>, t: CategoryTotal, u: CategoryTotal)
    requires t in TopCategories(es) && u in CategoryTotals(es) && u !in TopCategories(es)
    ensures t.total >= u.total
  {
    var sorted := SortDesc(CategoryTotals(es));
    SortDescSorted(CategoryTotals(es));
    assert u in multiset(sorted);
    TakeMaximal(sorted, 5, t, u);
  }

  /** In a sorted list, an entry of a prefix is at least any entry after it. */
  lemma TakeMaximal(s: seq<CategoryTotal>, n: nat, t: CategoryTotal, u: CategoryTotal)
    requires SortedDesc(s) && t in Take(s, n) && u in s && u !in Take(s, n)
    ensures t.total >= u.total
  {
    var top := Take(s, n);
    var i :| 0 <= i < |top| && top[i] == t;
    var j :| 0 <= j < |s| && s[j] == u;
    assert forall k :: 0 <= k < |top| ==> top[k] == s[k];
    assert s[i] == t;
  }

  /** The figures of the initial ledger. */
  lemma InitialFigures()
    ensures TotalIncome(InitialExpenses()) == 120000
    ensures TotalExpense(InitialExpenses()) == 89349
    ensures Balance(InitialExpenses()) == 30651
  {
    var es := InitialExpenses();
    assert ShareSum(es[4..], Income) == 0 && ShareSum(es[4..], Outgoing) == 80000;
    assert ShareSum(es[3..], Income) == 0 && ShareSum(es[3..], Outgoing) == 83599 by {
      assert es[3..][1..] == es[4..];
    }
    assert ShareSum(es[2..], Income) == 120000 && ShareSum(es[2..], Outgoing) == 83599 by {
      assert es[2..][1..] == es[3..];
    }
    assert ShareSum(es[1..], Income) == 120000 && ShareSum(es[1..], Outgoing) == 85099 by {
      assert es[1..][1..] == es[2..];
    }
  }

  // ---------------------------------------------------------------------
  // The component's state

  function ExpenseIdIsNot(id: string): Expense -> bool
  {
    (e: Expense) => e.id != id
  }

  class ExpenseLedger {
    var expenses: seq<Expense>
    var filterCategory: string
    var filterType: string
    var startDate: string
    var endDate: string

    constructor ()
      ensures expenses == InitialExpenses()
      ensures filterCategory == "all" && filterType == "all" && startDate == "" && endDate == ""
    {
      expenses := InitialExpenses();
      filterCategory := "all";
      filterType := "all";
      startDate := "";
      endDate := "";
    }

    /** The list on screen. */
    function Shown(): (r: seq<Expense>)
      reads this
      ensures Selects(r, expenses, Matches(filterCategory, filterType, startDate, endDate))
    {
      FilteredExpenses(expenses, filterCategory, filterType, startDate, endDate)
    }

    /** `handleAddExpense`: the new entry goes in front; `id` stands for
        `Date.now().toString()`. */
    method AddExpense(id: string, amount: int, category: string, description: string, date: string, kind: ExpenseType)
      modifies this
      ensures expenses == [Expense(id, amount, category, description, date, kind)] + old(expenses)
      ensures filterCategory == old(filterCategory) && filterType == old(filterType)
      ensures startDate == old(startDate) && endDate == old(endDate)
    {
      expenses := [Expense(id, amount, category, description, date, kind)] + expenses;
    }

    /** `handleDeleteExpense`. */
    method DeleteExpense(id: string)
      modifies this
      ensures expenses == Filter(old(expenses), ExpenseIdIsNot(id))
      ensures Selects(expenses, old(expenses), ExpenseIdIsNot(id))
      ensures filterCategory == old(filterCategory) && filterType == old(filterType)
      ensures startDate == old(startDate) && endDate == old(endDate)
    {
      FilterSelects(expenses, ExpenseIdIsNot(id));
      expenses := Filter(expenses, ExpenseIdIsNot(id));
    }

    /** The filter controls. */
    method SetFilters(category: string, kind: string, start: string, end: string)
      modifies this
      ensures filterCategory == category && filterType == kind && startDate == start && endDate == end
      ensures expenses == old(expenses)
    {
      filterCategory := category;
      filterType := kind;
      startDate := start;
      endDate := end;
    }
  }
}
