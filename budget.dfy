/** BudgetPlanner: the percentage split of an income into needs, wants and
    savings, and the classifier that buckets expenses into essential and
    discretionary spending. */
module Budget {
  import opened Country

  datatype BudgetSplit = BudgetSplit(
    monthlyIncome: real, needs: real, wants: real, savings: real, percentages: BudgetTemplate)

  /** `income * (pct / 100)`: `pct` hundredths of the income, so a
      percentage in [0, 100] of a non-negative income lies in [0, income]. */
  function Share(income: real, pct: int): (s: real)
    ensures s * 100.0 == income * pct as real
    ensures 0.0 <= income && 0 <= pct <= 100 ==> 0.0 <= s <= income
  {
    var f := pct as real / 100.0;
    assert 0 <= pct <= 100 ==> 0.0 <= f <= 1.0;
    assert income * 1.0 - income * f == income * (1.0 - f);
    income * f
  }

  /** create_budget for a looked-up template: each field is its percentage's
      share of the income, the three shares of a sound template add back up
      to the income, and for a non-negative income each share with a
      percentage in [0, 100] lies between zero and the income. */
  function BudgetFor(income: real, t: BudgetTemplate): (b: BudgetSplit)
    ensures b.monthlyIncome == income && b.percentages == t
    ensures b.needs == Share(income, t.needsPct) && b.wants == Share(income, t.wantsPct)
         && b.savings == Share(income, t.savingsPct)
    ensures SplitsWhole(t) ==> b.needs + b.wants + b.savings == income
    ensures 0.0 <= income && 0 <= t.needsPct <= 100 ==> 0.0 <= b.needs <= income
    ensures 0.0 <= income && 0 <= t.wantsPct <= 100 ==> 0.0 <= b.wants <= income
    ensures 0.0 <= income && 0 <= t.savingsPct <= 100 ==> 0.0 <= b.savings <= income
  {
    var n, w, s := t.needsPct as real, t.wantsPct as real, t.savingsPct as real;
    assert income * (n / 100.0) + income * (w / 100.0) + income * (s / 100.0)
        == income * ((n + w + s) / 100.0);
    BudgetSplit(income, Share(income, t.needsPct), Share(income, t.wantsPct),
                Share(income, t.savingsPct), t)
  }

  /** Every country's budget, looked up by any key, shares out the whole
      income. */
  lemma BudgetAddsUp(income: real, key: string)
    ensures var b := BudgetFor(income, Lookup(BudgetTemplates(), key));
      b.needs + b.wants + b.savings == income
  {
    BudgetTemplatesSplitWhole(key);
  }

  // ---------------------------------------------------------------- expense analysis

  /** The keywords that make a category essential. */
  const EssentialKeywords: seq<string> := ["rent", "food", "utilities", "transport", "health"]

  /** The discretionary keywords the source lists; the classifier never
      consults them: whatever is not essential is discretionary. */
  const DiscretionaryKeywords: seq<string> := ["entertainment", "dining", "shopping", "travel"]

  /** Python's `needle in hay` on strings: the needle starts the haystack
      or occurs in what follows its first character. */
  predicate IsSubstring(needle: string, hay: string): (b: bool)
    ensures needle == [] ==> b
    ensures b ==> |needle| <= |hay|
    decreases |hay|
  {
    needle <= hay || (hay != [] && IsSubstring(needle, hay[1..]))
  }

  /** The substring test finds exactly the needles that start at some
      position of the haystack. */
  lemma SubstringAt(needle: string, hay: string)
    ensures IsSubstring(needle, hay) <==>
      exists i :: 0 <= i <= |hay| && needle <= hay[i..]
  {
    if IsSubstring(needle, hay) {
      var i := SubstringWitness(needle, hay);
    }
    if exists i :: 0 <= i <= |hay| && needle <= hay[i..] {
      var i :| 0 <= i <= |hay| && needle <= hay[i..];
      SubstringFromWitness(needle, hay, i);
    }
  }

  lemma {:induction false} SubstringWitness(needle: string, hay: string) returns (i: nat)
    requires IsSubstring(needle, hay)
    ensures i <= |hay| && needle <= hay[i..]
    decreases |hay|
  {
    if needle <= hay {
      i := 0;
    } else {
      var j := SubstringWitness(needle, hay[1..]);
      assert hay[1..][j..] == hay[j + 1..];
      i := j + 1;
    }
  }

  lemma {:induction false} SubstringFromWitness(needle: string, hay: string, i: nat)
    requires i <= |hay| && needle <= hay[i..]
    ensures IsSubstring(needle, hay)
    decreases i
  {
    if i > 0 {
      assert hay[1..][i - 1..] == hay[i..];
      SubstringFromWitness(needle, hay[1..], i - 1);
    }
  }

  /** A needle with a character the haystack lacks is not in it. */
  lemma {:induction false} MissingCharNotSubstring(needle: string, hay: string, j: nat)
    requires j < |needle| && needle[j] !in hay
    ensures !IsSubstring(needle, hay)
    decreases |hay|
  {
    if hay != [] {
      assert forall c :: c in hay[1..] ==> c in hay;
      MissingCharNotSubstring(needle, hay[1..], j);
    }
  }

  /** `any(keyword in text for keyword in keywords)`: true exactly when
      some keyword of the list is in the text. */
  predicate AnyKeywordIn(keywords: seq<string>, text: string): (b: bool)
    ensures b <==> exists k :: k in keywords && IsSubstring(k, text)
  {
    if keywords == [] then false
    else
      assert keywords[0] in keywords;
      assert forall k :: k in keywords[1..] ==> k in keywords;
      assert forall k :: k in keywords ==> k == keywords[0] || k in keywords[1..];
      IsSubstring(keywords[0], text) || AnyKeywordIn(keywords[1..], text)
  }

  /** A category is essential when its lowercased name contains one of the
      essential keywords. */
  predicate IsEssential(category: string): (b: bool)
    ensures b <==> exists k :: k in EssentialKeywords && IsSubstring(k, Lower(category))
  {
    AnyKeywordIn(EssentialKeywords, Lower(category))
  }

  /** The items of the `expenses` dictionary, in insertion order. */
  type Expenses = seq<(string, real)>

  /** No amount is negative. */
  predicate NonNegativeAmounts(e: Expenses) {
    forall i :: 0 <= i < |e| ==> 0.0 <= e[i].1
  }

  /** `sum(expenses.values())`: never negative when no amount is. */
  function Total(e: Expenses): (s: real)
    ensures NonNegativeAmounts(e) ==> 0.0 <= s
  {
    assert NonNegativeAmounts(e) && e != [] ==> NonNegativeAmounts(e[..|e| - 1]);
    if e == [] then 0.0 else Total(e[..|e| - 1]) + e[|e| - 1].1
  }

  /** What the loop adds to the essential bucket: for non-negative amounts,
      from nothing up to the whole total. */
  function EssentialTotal(e: Expenses): (s: real)
    ensures NonNegativeAmounts(e) ==> 0.0 <= s <= Total(e)
  {
    assert NonNegativeAmounts(e) && e != [] ==> NonNegativeAmounts(e[..|e| - 1]);
    if e == [] then 0.0
    else EssentialTotal(e[..|e| - 1]) + (if IsEssential(e[|e| - 1].0) then e[|e| - 1].1 else 0.0)
  }

  /** What the loop adds to the discretionary bucket: for non-negative
      amounts, from nothing up to the whole total. */
  function DiscretionaryTotal(e: Expenses): (s: real)
    ensures NonNegativeAmounts(e) ==> 0.0 <= s <= Total(e)
  {
    assert NonNegativeAmounts(e) && e != [] ==> NonNegativeAmounts(e[..|e| - 1]);
    if e == [] then 0.0
    else DiscretionaryTotal(e[..|e| - 1]) + (if IsEssential(e[|e| - 1].0) then 0.0 else e[|e| - 1].1)
  }

  /** The two buckets partition the total. */
  lemma {:induction false} BucketsPartitionTotal(e: Expenses)
    ensures EssentialTotal(e) + DiscretionaryTotal(e) == Total(e)
  {
    if e != [] {
      BucketsPartitionTotal(e[..|e| - 1]);
    }
  }

  /** The entries whose category is essential, in order. */
  function Essentials(e: Expenses): (r: Expenses)
    ensures forall x :: x in r <==> x in e && IsEssential(x.0)
    ensures |r| <= |e|
  {
    assert forall x :: x in e <==> (e != [] && (x in e[..|e| - 1] || x == e[|e| - 1]));
    if e == [] then []
    else Essentials(e[..|e| - 1]) + (if IsEssential(e[|e| - 1].0) then [e[|e| - 1]] else [])
  }

  /** The entries whose category is not essential, in order. */
  function Discretionaries(e: Expenses): (r: Expenses)
    ensures forall x :: x in r <==> x in e && !IsEssential(x.0)
    ensures |r| <= |e|
  {
    assert forall x :: x in e <==> (e != [] && (x in e[..|e| - 1] || x == e[|e| - 1]));
    if e == [] then []
    else Discretionaries(e[..|e| - 1]) + (if IsEssential(e[|e| - 1].0) then [] else [e[|e| - 1]])
  }

  /** Every entry lands in exactly one of the two filtered lists, as often
      as it occurs. */
  lemma {:induction false} FiltersPartitionEntries(e: Expenses)
    ensures multiset(Essentials(e)) + multiset(Discretionaries(e)) == multiset(e)
  {
    if e != [] {
      var init, last := e[..|e| - 1], e[|e| - 1];
      FiltersPartitionEntries(init);
      assert e == init + [last];
    }
  }

  lemma {:induction false} TotalAppend(a: Expenses, b: Expenses)
    ensures Total(a + b) == Total(a) + Total(b)
    decreases |b|
  {
    if b == [] {
      assert a + b == a;
    } else {
      assert (a + b)[..|a + b| - 1] == a + b[..|b| - 1];
      TotalAppend(a, b[..|b| - 1]);
    }
  }

  /** Each bucket is the plain sum of the entries it classifies into it. */
  lemma BucketsAreFilteredSums(e: Expenses)
    ensures EssentialTotal(e) == Total(Essentials(e))
    ensures DiscretionaryTotal(e) == Total(Discretionaries(e))
  {
    EssentialBucketIsFilteredSum(e);
    DiscretionaryBucketIsFilteredSum(e);
  }

  lemma TotalSingle(x: (string, real))
    ensures Total([x]) == x.1
  {
    assert [x][..0] == [];
  }

  lemma {:induction false} EssentialBucketIsFilteredSum(e: Expenses)
    ensures EssentialTotal(e) == Total(Essentials(e))
  {
    if e != [] {
      var init, last := e[..|e| - 1], e[|e| - 1];
      EssentialBucketIsFilteredSum(init);
      var kept := if IsEssential(last.0) then [last] else [];
      assert Essentials(e) == Essentials(init) + kept;
      TotalSingle(last);
      assert Total(kept) == (if IsEssential(last.0) then last.1 else 0.0);
      TotalAppend(Essentials(init), kept);
    }
  }

  lemma {:induction false} DiscretionaryBucketIsFilteredSum(e: Expenses)
    ensures DiscretionaryTotal(e) == Total(Discretionaries(e))
  {
    if e != [] {
      var init, last := e[..|e| - 1], e[|e| - 1];
      DiscretionaryBucketIsFilteredSum(init);
      var kept := if IsEssential(last.0) then [] else [last];
      assert Discretionaries(e) == Discretionaries(init) + kept;
      TotalSingle(last);
      assert Total(kept) == (if IsEssential(last.0) then 0.0 else last.1);
      TotalAppend(Discretionaries(init), kept);
    }
  }

  datatype ExpenseAnalysis = ExpenseAnalysis(
    income: real, totalExpenses: real, savings: real, savingsRate: real,
    essentialSpending: real, discretionarySpending: real,
    essentialPct: real, discretionaryPct: real)

  /** `(part / whole) * 100`, or 0 when the whole is not positive: the part
      per hundred of a positive whole. */
  function Percent(part: real, whole: real): (p: real)
    ensures whole > 0.0 ==> p * whole == part * 100.0
    ensures whole <= 0.0 ==> p == 0.0
  {
    if whole > 0.0 then (part / whole) * 100.0 else 0.0
  }

  /** analyze_expenses as a function of its inputs: the buckets are the
      classified sums and make up the total, savings are what the income
      leaves, the savings rate is savings per hundred of the income and each
      breakdown percentage is its bucket per hundred of the total (each 0
      when the whole is not positive, as Percent says), so the two breakdown
      percentages of a positive total make up 100. */
  function Analysis(income: real, e: Expenses): (a: ExpenseAnalysis)
    ensures a.income == income && a.totalExpenses == Total(e)
    ensures a.essentialSpending == EssentialTotal(e)
    ensures a.discretionarySpending == DiscretionaryTotal(e)
    ensures a.essentialSpending + a.discretionarySpending == a.totalExpenses
    ensures a.savings + a.totalExpenses == income
    ensures a.savingsRate == Percent(a.savings, income)
    ensures a.essentialPct == Percent(a.essentialSpending, a.totalExpenses)
    ensures a.discretionaryPct == Percent(a.discretionarySpending, a.totalExpenses)
    ensures a.totalExpenses > 0.0 ==> a.essentialPct + a.discretionaryPct == 100.0
  {
    var total := Total(e);
    var savings := income - total;
    var essential, discretionary := EssentialTotal(e), DiscretionaryTotal(e);
    BucketsPartitionTotal(e);
    PercentsAddUp(essential, discretionary);
    ExpenseAnalysis(income, total, savings, Percent(savings, income), essential, discretionary,
                    Percent(essential, total), Percent(discretionary, total))
  }

  lemma PercentsAddUp(x: real, y: real)
    ensures x + y > 0.0 ==> Percent(x, x + y) + Percent(y, x + y) == 100.0
  {
    if x + y > 0.0 {
      var t := x + y;
      assert (x / t) * 100.0 + (y / t) * 100.0 == ((x + y) / t) * 100.0;
    }
  }

  // ---------------------------------------------------------------- the planner object

  /** A planner bound to one country (kept exactly as given) and its
      templates table. */
  class BudgetPlanner {
    var country: string
    var templates: map<string, BudgetTemplate>

    ghost predicate Valid()
      reads this
    {
      GlobalKey in templates
    }

    /** The template in force: the country's entry, or the global one. */
    function CurrentTemplate(): BudgetTemplate
      reads this
      requires Valid()
    {
      Lookup(templates, country)
    }

    /** `__init__`: keeps the country as given (no lowercasing), then sets
        up the templates table. */
    constructor (country: string)
      ensures Valid()
      ensures this.country == country && templates == BudgetTemplates()
    {
      this.country := country;
      new;
      SetupDefaultBudgets();
    }

    method SetupDefaultBudgets()
      modifies this`templates
      ensures templates == BudgetTemplates() && Valid()
    {
      templates := BudgetTemplates();
    }

    method CreateBudget(monthlyIncome: real) returns (b: BudgetSplit)
      requires Valid()
      ensures b == BudgetFor(monthlyIncome, CurrentTemplate())
    {
      b := BudgetFor(monthlyIncome, Lookup(templates, country));
    }

    /** The classifying loop: each entry goes to exactly one bucket. */
    method AnalyzeExpenses(income: real, expenses: Expenses) returns (a: ExpenseAnalysis)
      ensures a == Analysis(income, expenses)
    {
      var totalExpenses := Total(expenses);
      var savings := income - totalExpenses;
      var savingsRate := if income > 0.0 then (savings / income) * 100.0 else 0.0;
      var essentialTotal := 0.0;
      var discretionaryTotal := 0.0;
      for i := 0 to |expenses|
        invariant essentialTotal == EssentialTotal(expenses[..i])
        invariant discretionaryTotal == DiscretionaryTotal(expenses[..i])
      {
        var (category, amount) := expenses[i];
        assert expenses[..i + 1][..i] == expenses[..i];
        if IsEssential(category) {
          essentialTotal := essentialTotal + amount;
        } else {
          discretionaryTotal := discretionaryTotal + amount;
        }
      }
      assert expenses[..|expenses|] == expenses;
      a := ExpenseAnalysis(income, totalExpenses, savings, savingsRate,
                           essentialTotal, discretionaryTotal,
                           if totalExpenses > 0.0 then (essentialTotal / totalExpenses) * 100.0 else 0.0,
                           if totalExpenses > 0.0 then (discretionaryTotal / totalExpenses) * 100.0 else 0.0);
    }
  }

  /** The planner does not lowercase the country: "Italy" is not a key, so it
      gets the global 50/30/20 template, not Italy's 40/30/30. */
  lemma PlannerIsCaseSensitive()
    ensures Lookup(BudgetTemplates(), "Italy") == BudgetTemplate(50, 30, 20)
    ensures Lookup(BudgetTemplates(), "italy") == BudgetTemplate(40, 30, 30)
    ensures Lookup(BudgetTemplates(), "Pakistan") == BudgetTemplates()[GlobalKey]
  {
  }

  /** The substring test is literal: "Parenting" holds "rent" and counts as
      essential. */
  lemma ParentingIsEssential()
    ensures IsEssential("Parenting")
  {
    var s := Lower("Parenting");
    assert s == "parenting";
    assert "rent" <= s[1..][1..];
    assert IsSubstring("rent", s);
  }

  /** Case does not matter to the classifier: "House Rent" is lowercased
      before the keywords are searched for. */
  lemma HouseRentIsEssential()
    ensures IsEssential("House Rent")
  {
    var s := Lower("House Rent");
    assert s == "house rent";
    assert "rent" <= s[6..];
    SubstringFromWitness("rent", s, 6);
    assert EssentialKeywords[0] == "rent";
  }

  /** "shopping" is listed among the discretionary keywords, but "Shopping"
      is discretionary only because no essential keyword occurs in it: the
      classifier never consults that list. */
  lemma ShoppingIsDiscretionary()
    ensures "shopping" in DiscretionaryKeywords && !IsEssential("Shopping")
  {
    assert Lower("Shopping") == "shopping";
    NoEssentialKeywordInShopping();
  }

  /** "rent", "food", "utilities" and "transport" start with a letter
      "shopping" lacks, and it has no 'e' for "health". */
  lemma NoEssentialKeywordInShopping()
    ensures !AnyKeywordIn(EssentialKeywords, "shopping")
  {
    var s := "shopping";
    assert 'r' !in s && 'f' !in s && 'u' !in s && 't' !in s && 'e' !in s;
    forall k | k in EssentialKeywords
      ensures !IsSubstring(k, s)
    {
      MissingCharNotSubstring(k, s, if k == "health" then 1 else 0);
    }
  }
}
