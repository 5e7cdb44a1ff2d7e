/**
 * The spending-insight route: one pass over a user's transactions fills twelve
 * monthly totals and a per-category dictionary, counting only transactions
 * dated in 2025, and then picks a remark from the current month's total.
 *
 * A transaction is given by its calendar year, its month (0 to 11, as
 * `getMonth` numbers them), its category and an integer amount; the current
 * month is a parameter.
 */
module Insight {

  const TargetYear: int := 2025
  const BigSpenderRemark: string := "Whoa, big spender this month! \U{1F4B8}"
  const UnderControlRemark: string := "Nice, you're keeping things under control! \U{1F9E0}"

  type Month = m: int | 0 <= m < 12

  datatype Transaction = Transaction(year: int, month: Month, category: string, amount: int)

  predicate Counts(t: Transaction) {
    t.year == TargetYear
  }

  function Last(s: seq<Transaction>): Transaction
    requires s != []
  {
    s[|s| - 1]
  }

  function Init(s: seq<Transaction>): seq<Transaction>
    requires s != []
  {
    s[..|s| - 1]
  }

  /** Total of the counted transactions. */
  function YearTotal(s: seq<Transaction>): int {
    if s == [] then 0 else YearTotal(Init(s)) + (if Counts(Last(s)) then Last(s).amount else 0)
  }

  /** Total of the counted transactions of month `m`. */
  function MonthTotal(s: seq<Transaction>, m: int): int {
    if s == [] then 0
    else MonthTotal(Init(s), m) + (if Counts(Last(s)) && Last(s).month == m then Last(s).amount else 0)
  }

  /** Total of the counted transactions of category `c`. */
  function CategoryTotal(s: seq<Transaction>, c: string): int {
    if s == [] then 0
    else CategoryTotal(Init(s), c) + (if Counts(Last(s)) && Last(s).category == c then Last(s).amount else 0)
  }

  /** The categories of the counted transactions. */
  function Categories(s: seq<Transaction>): set<string> {
    set t | t in s && Counts(t) :: t.category
  }

  /** What `monthlyTotals` should hold. */
  function MonthlyTotals(s: seq<Transaction>): seq<int> {
    seq(12, m => MonthTotal(s, m))
  }

  /**
   * The dictionary built one counted transaction at a time: a new key starts
   * at 0, then the amount is added. `CategoryTotalsMeaning` states what it holds.
   */
  function CategoryTotals(s: seq<Transaction>): map<string, int> {
    if s == [] then map[]
    else
      var before, t := CategoryTotals(Init(s)), Last(s);
      if Counts(t) then before[t.category := (if t.category in before then before[t.category] else 0) + t.amount]
      else before
  }

  function Remark(monthTotal: int): (r: string)
    ensures r == BigSpenderRemark <==> monthTotal > 1000
    ensures r == UnderControlRemark <==> monthTotal <= 1000
  {
    if monthTotal > 1000 then BigSpenderRemark else UnderControlRemark
  }

  lemma AppendOne(s: seq<Transaction>, t: Transaction)
    ensures s + [t] != [] && Init(s + [t]) == s && Last(s + [t]) == t
  {
  }

  lemma CategoriesStep(s: seq<Transaction>, t: Transaction)
    ensures Categories(s + [t]) == Categories(s) + (if Counts(t) then {t.category} else {})
  {
    var l, r := Categories(s + [t]), Categories(s) + (if Counts(t) then {t.category} else {});
    forall c | c in l ensures c in r {
      var u :| u in s + [t] && Counts(u) && u.category == c;
      if u != t {
        assert u in s;
      }
    }
  }

  /** One key per counted category, holding the sum of that category's counted amounts. */
  lemma {:induction false} CategoryTotalsMeaning(s: seq<Transaction>)
    ensures CategoryTotals(s).Keys == Categories(s)
    ensures forall c :: c in CategoryTotals(s) ==> CategoryTotals(s)[c] == CategoryTotal(s, c)
  {
    if s != [] {
      var p, t := Init(s), Last(s);
      assert p + [t] == s;
      CategoryTotalsMeaning(p);
      CategoriesStep(p, t);
      if Counts(t) && t.category !in CategoryTotals(p) {
        CategoryTotalOutside(p, t.category);
      }
    }
  }

  /** A category no counted transaction has totals zero. */
  lemma {:induction false} CategoryTotalOutside(s: seq<Transaction>, c: string)
    requires c !in Categories(s)
    ensures CategoryTotal(s, c) == 0
  {
    if s != [] {
      assert Init(s) + [Last(s)] == s;
      CategoriesStep(Init(s), Last(s));
      CategoryTotalOutside(Init(s), c);
    }
  }

  /** `categoryTotals` after one more transaction, as the loop body updates it. */
  lemma CategoryTotalsStep(s: seq<Transaction>, t: Transaction)
    ensures CategoryTotals(s + [t]) ==
      if !Counts(t) then CategoryTotals(s)
      else CategoryTotals(s)[t.category := (if t.category in CategoryTotals(s) then CategoryTotals(s)[t.category] else 0) + t.amount]
  {
    AppendOne(s, t);
  }

  /** `monthlyTotals` after one more transaction, as the loop body updates it. */
  lemma MonthlyTotalsStep(s: seq<Transaction>, t: Transaction)
    ensures MonthlyTotals(s + [t]) ==
      if !Counts(t) then MonthlyTotals(s)
      else MonthlyTotals(s)[t.month := MonthlyTotals(s)[t.month] + t.amount]
  {
    AppendOne(s, t);
  }

  /** GET `/:userId`, from the fetched transactions on. */
  method Summarize(txns: seq<Transaction>, currentMonth: Month)
    returns (monthlyTotals: array<int>, categoryTotals: map<string, int>, wittyRemark: string)
    ensures fresh(monthlyTotals) && monthlyTotals.Length == 12
    ensures monthlyTotals[..] == MonthlyTotals(txns)
    ensures forall m :: 0 <= m < 12 ==> monthlyTotals[m] == MonthTotal(txns, m)
    ensures categoryTotals == CategoryTotals(txns)
    ensures categoryTotals.Keys == Categories(txns)
    ensures forall c :: c in categoryTotals ==> categoryTotals[c] == CategoryTotal(txns, c)
    ensures wittyRemark == Remark(MonthTotal(txns, currentMonth))
  {
    monthlyTotals := new int[12](_ => 0);
    categoryTotals := map[];
    var i := 0;
    while i < |txns|
      invariant 0 <= i <= |txns|
      invariant monthlyTotals[..] == MonthlyTotals(txns[..i])
      invariant categoryTotals == CategoryTotals(txns[..i])
    {
      var t := txns[i];
      assert txns[..i + 1] == txns[..i] + [t];
      MonthlyTotalsStep(txns[..i], t);
      CategoryTotalsStep(txns[..i], t);
      if t.year == TargetYear {
        ghost var months := monthlyTotals[..];
        monthlyTotals[t.month] := monthlyTotals[t.month] + t.amount;
        assert monthlyTotals[..] == months[t.month := months[t.month] + t.amount];
        ghost var cats := categoryTotals;
        ghost var start := if t.category in cats then cats[t.category] else 0;
        if t.category !in categoryTotals || categoryTotals[t.category] == 0 {
          categoryTotals := categoryTotals[t.category := 0];
        }
        assert categoryTotals[t.category] == start;
        categoryTotals := categoryTotals[t.category := categoryTotals[t.category] + t.amount];
        assert categoryTotals == cats[t.category := start + t.amount];
      }
      i := i + 1;
    }
    assert txns[..i] == txns;
    CategoryTotalsMeaning(txns);
    wittyRemark := Remark(monthlyTotals[currentMonth]);
  }

  /** A transaction outside 2025 leaves both totals unchanged. */
  lemma OtherYearsIgnored(s: seq<Transaction>, t: Transaction)
    requires !Counts(t)
    ensures MonthlyTotals(s + [t]) == MonthlyTotals(s)
    ensures CategoryTotals(s + [t]) == CategoryTotals(s)
  {
    AppendOne(s, t);
  }

  function SumMonths(s: seq<Transaction>, k: nat): int
    requires k <= 12
  {
    if k == 0 then 0 else SumMonths(s, k - 1) + MonthTotal(s, k - 1)
  }

  lemma {:induction false} SumMonthsStep(s: seq<Transaction>, t: Transaction, k: nat)
    requires k <= 12
    ensures SumMonths(s + [t], k) == SumMonths(s, k) + (if Counts(t) && t.month < k then t.amount else 0)
  {
    AppendOne(s, t);
    if k > 0 {
      SumMonthsStep(s, t, k - 1);
    }
  }

  lemma {:induction false} SumMonthsOfNothing(k: nat)
    requires k <= 12
    ensures SumMonths([], k) == 0
  {
    if k > 0 {
      SumMonthsOfNothing(k - 1);
    }
  }

  /** The twelve monthly totals add up to the year's total. */
  lemma {:induction false} MonthlyTotalsSumToYearTotal(s: seq<Transaction>)
    ensures SumMonths(s, 12) == YearTotal(s)
  {
    if s == [] {
      SumMonthsOfNothing(12);
    } else {
      var p, t := Init(s), Last(s);
      assert p + [t] == s;
      MonthlyTotalsSumToYearTotal(p);
      SumMonthsStep(p, t, 12);
      assert t.month < 12;
      assert YearTotal(s) == YearTotal(p) + (if Counts(t) then t.amount else 0);
    }
  }

  function SumCategories(s: seq<Transaction>, cs: seq<string>): int {
    if cs == [] then 0 else CategoryTotal(s, cs[0]) + SumCategories(s, cs[1..])
  }

  ghost predicate Distinct(cs: seq<string>) {
    forall i, j :: 0 <= i < j < |cs| ==> cs[i] != cs[j]
  }

  lemma {:induction false} SumCategoriesStep(s: seq<Transaction>, t: Transaction, cs: seq<string>)
    requires Distinct(cs)
    ensures SumCategories(s + [t], cs) ==
      SumCategories(s, cs) + (if Counts(t) && t.category in cs then t.amount else 0)
  {
    AppendOne(s, t);
    if cs != [] {
      SumCategoriesStep(s, t, cs[1..]);
      assert t.category in cs <==> t.category == cs[0] || t.category in cs[1..] by {
        assert cs == [cs[0]] + cs[1..];
      }
      assert cs[0] !in cs[1..];
    }
  }

  lemma {:induction false} SumCategoriesOfNothing(cs: seq<string>)
    ensures SumCategories([], cs) == 0
  {
    if cs != [] {
      SumCategoriesOfNothing(cs[1..]);
    }
  }

  /** Over any list of distinct categories covering the counted ones, the category totals add up to the year's total. */
  lemma {:induction false} CategoryTotalsSumToYearTotal(s: seq<Transaction>, cs: seq<string>)
    requires Distinct(cs) && Categories(s) <= set c | c in cs
    ensures SumCategories(s, cs) == YearTotal(s)
  {
    if s == [] {
      SumCategoriesOfNothing(cs);
    } else {
      var p, t := Init(s), Last(s);
      assert p + [t] == s;
      CategoriesStep(p, t);
      CategoryTotalsSumToYearTotal(p, cs);
      SumCategoriesStep(p, t, cs);
    }
  }

  /** The sum of `monthlyTotals` equals the sum of the `categoryTotals` values, over any listing of its keys. */
  lemma MonthlyAndCategoryTotalsAgree(s: seq<Transaction>, keys: seq<string>)
    requires Distinct(keys) && (set c | c in keys) == CategoryTotals(s).Keys
    ensures SumMonths(s, 12) == SumCategories(s, keys)
  {
    CategoryTotalsMeaning(s);
    MonthlyTotalsSumToYearTotal(s);
    CategoryTotalsSumToYearTotal(s, keys);
  }

  // ---------------------------------------------------------------------------
  // `categoryTotals` as written is a plain object literal `{}`, so a lookup of a
  // category named after an Object.prototype member finds the inherited member.

  /** The members every plain object inherits from Object.prototype. */
  const InheritedMembers: set<string> := {
    "constructor", "hasOwnProperty", "isPrototypeOf", "propertyIsEnumerable",
    "toLocaleString", "toString", "valueOf", "__defineGetter__", "__defineSetter__",
    "__lookupGetter__", "__lookupSetter__", "__proto__"
  }

  /** An own property of the dictionary: a number, or the string `+=` makes of an inherited function. */
  datatype Slot = Number(n: int) | Concatenated

  /** One counted transaction applied to the dictionary exactly as the route's code does it. */
  function CategoryStepAsWritten(totals: map<string, Slot>, c: string, amount: int): map<string, Slot> {
    if c in totals then
      match totals[c]
      case Number(n) => totals[c := Number(n + amount)]
      case Concatenated => totals
    else if c == "__proto__" then
      // reads Object.prototype (truthy); assigning a string to `__proto__` is ignored
      totals
    else if c in InheritedMembers then
      // reads an inherited function (truthy); function + number is string concatenation
      totals[c := Concatenated]
    else
      totals[c := Number(amount)]
  }

  /**
   * A 2025 transaction in category "toString" makes that total a string
   * instead of the amount; one in category "__proto__" is lost altogether,
   * while the corrected dictionary holds the amount for both.
   */
  lemma PrototypeCategoriesCorrupted()
    ensures CategoryStepAsWritten(map[], "toString", 250)["toString"] == Concatenated
    ensures "__proto__" !in CategoryStepAsWritten(map[], "__proto__", 250)
    ensures CategoryTotals([Transaction(2025, 5, "toString", 250)]) == map["toString" := 250]
    ensures CategoryTotals([Transaction(2025, 5, "__proto__", 250)]) == map["__proto__" := 250]
  {
    var s1, s2 := [Transaction(2025, 5, "toString", 250)], [Transaction(2025, 5, "__proto__", 250)];
    assert Init(s1) == [] && Init(s2) == [];
  }
}
