# Finlit calculation core in Dafny

A model of the calculation core of `Finlit.py`, a small educational
finance tool. The tool has two country-keyed parameter tables: the
calculator's rules (emergency-fund months, inflation rate) and the planner's
budget templates (needs/wants/savings percentages). A lookup in either table
falls back to the `"global"` entry when the country is not listed. The model
covers:

- **FinanceCalculator** (`finance.dfy`, module `Finance`). It covers four
  calculations:
  - the emergency-fund target;
  - the savings-goal projection, with ceilings and an inflation factor;
  - the month-by-month debt payoff loop, with its "payment too small" early
    exit and its 600-month cap;
  - the month-by-month compound-interest loop.

  The calculator is a class whose constructor lowercases the country and
  then sets up the rules table. Each loop is a method proved equal to a
  recursive specification function (`Amortize`, `FutureValue`). The
  properties are lemmas about those functions.
- **BudgetPlanner** (`budget.dfy`, module `Budget`). It covers the
  percentage split of an income and the expense classifier. The classifier
  puts a category in the essential bucket when its lowercased name contains
  one of the essential keywords as a substring, and in the discretionary
  bucket otherwise. The planner is a class that keeps the country exactly as
  given. Its expense loop is proved against the bucket sums.
- **The tables and the lookup** (`country.dfy`, module `Country`): `Lookup`,
  ASCII `Lower`, and both tables.
- **FinancialEducator's country tip** (`educator.dfy`, module `Educator`): a
  two-level lookup, by country and then by topic, with one default sentence.
- **The demonstration figures** (`scenarios.dfy`, module `Scenarios`), worked
  through the model. The module adds two worked cases of the debt payoff loop,
  which neither demonstration runs: one that stalls and one that pays off.

All arithmetic is over exact `real`. Each value is the one before the final
`round(x, 2)` or `round(x, 1)` the source applies when it returns.

Three facts about `Finlit.py` shape the model:
- Only FinanceCalculator lowercases the country (`Finlit.py:16`).
  BudgetPlanner and FinancialEducator store it as given (`Finlit.py:136`,
  `Finlit.py:217`) and look it up that way, so `"Italy"` gets the global
  budget template and no Italian tip.
- The calculator's error results are `{"error": ...}` dictionaries
  (`Finlit.py:61`, `Finlit.py:84`, `Finlit.py:96`). The model names them
  `NonPositiveSaving`, `NonPositivePayment` and `PaymentTooSmall`.
- The growth multiple divides by the total contributions with no guard
  (`Finlit.py:129`), so a zero total raises `ZeroDivisionError`. The model
  returns `Err(DivisionByZero)` there.

## Model

| member | source | states |
|---|---|---|
| Country.Lookup | Finlit.py:44 | the entry for a listed key, the global entry for any other key |
| Country.LookupYieldsEntry | Finlit.py:161 | a lookup always yields an entry of the table: the key's own, or the global one |
| Country.FinanceRules | Finlit.py:21-40 | the table lists "pakistan", "italy" and "global"; every rule asks for 3 to 6 months and has an inflation rate in [0, 1) |
| Country.BudgetTemplates | Finlit.py:141-157 | the table lists "pakistan", "italy" and "global"; every template's percentages sum to 100 |
| Country.FinanceRulesInRange | Finlit.py:21-40 | every looked-up rule asks for 3 to 6 months and has an inflation rate in [0, 1) |
| Country.BudgetTemplatesSplitWhole | Finlit.py:141-157 | every looked-up template's percentages sum to 100 |
| Country.LowerChar | Finlit.py:16 | ASCII capitals move up by 32, every other character is kept |
| Country.Lower | Finlit.py:16 | the length is kept and every character is lowered |
| Finance.EmergencyFund | Finlit.py:42-51 | target months are the rule's months; the target amount is expenses times those months |
| Finance.EmergencyFundCoversExpenses | Finlit.py:44-45 | for non-negative expenses and any country key, the target lies between 3 and 6 months of expenses |
| Finance.FinanceCalculator.CalculateEmergencyFund | Finlit.py:42-51 | the result is the emergency fund for the rules in force |
| Finance.Ceil | Finlit.py:71 | the least integer not below its argument |
| Finance.CeilUnique | Finlit.py:73 | any integer with the ceiling property is the ceiling |
| Finance.CeilMonotone | Finlit.py:73 | the ceiling is monotone |
| Finance.SavingsGoal | Finlit.py:53-76 | error exactly when the monthly saving is not positive; otherwise the months needed are the fewest whole months whose savings cover what remains, the years times 12 months of saving cover exactly what remains, and total_saved equals the target |
| Finance.SavingsGoalMonths | Finlit.py:63-73 | months_needed and adjusted_months are the ceilings of the raw months before and after the (1 + inflation) factor; years_needed is raw months / 12 |
| Finance.InflationNeverShortens | Finlit.py:66-73 | with inflation >= 0 and the goal not met, adjusted_months >= months_needed |
| Finance.GoalAlreadyMet | Finlit.py:58-73 | a goal already met is not clamped: both month counts and the years are <= 0 |
| Finance.FinanceCalculator.CalculateSavingsGoal | Finlit.py:53-76 | the result is the savings goal at the inflation rate in force |
| Finance.Amortize | Finlit.py:91-100 | the loop ends within the 600-month cap, either at the cap or with the balance at or below zero; a loop that does not start leaves the state as it was |
| Finance.DebtPayoff | Finlit.py:78-107 | "payment must be positive" exactly when the payment is <= 0; the only other error is "payment too small"; a result has at most 600 months, years = months / 12, and total_paid = debt + total_interest |
| Finance.Payments | Finlit.py:98-100 | k monthly payments total k times the payment |
| Finance.AmortizeLedger | Finlit.py:91-100 | balance plus payments made equals debt plus interest charged, at every month and where the loop ends |
| Finance.AmortizeMonotone | Finlit.py:91-100 | with rate >= 0, the loop charges non-negative interest in total and leaves the balance no higher, and strictly lower once any month has run |
| Finance.StallsOnlyAtFirstStep | Finlit.py:92-96 | with rate >= 0, the loop stalls exactly when the payment does not exceed the first month's interest |
| Finance.NextInterestCovered | Finlit.py:92-99 | with rate >= 0, a payment that exceeds this month's interest exceeds next month's too |
| Finance.DebtPayoffTooSmall | Finlit.py:92-96 | for a positive payment and rate >= 0: "payment too small" exactly when the debt is positive and the payment <= debt * rate / 12 |
| Finance.DebtPayoffNothingOwed | Finlit.py:87-91 | a debt <= 0 with a positive payment gives 0 months and 0 interest |
| Finance.DebtPayoffInterestNonNegative | Finlit.py:92-99 | with rate >= 0, total_interest >= 0 |
| Finance.PaidOffCovers | Finlit.py:91-100 | a run that stopped before the cap has payments covering the debt plus the interest |
| Finance.FutureValue | Finlit.py:118-120 | nothing invested gives nothing, for every month count |
| Finance.FutureValueStep | Finlit.py:119-120 | each month multiplies the value by 1 + rate/12 and adds the contribution |
| Finance.DebtPayoffPaymentsCover | Finlit.py:98-106 | for a payoff under 600 months, months times payment >= total_paid |
| Finance.FinanceCalculator.CalculateDebtPayoff | Finlit.py:78-107 | the loop with its early return equals DebtPayoff |
| Finance.FutureValueClosedForm | Finlit.py:118-120 | the loop agrees with the annuity closed form FV*m = (P*m + c)(1 + m)^n - c, where m = rate/12 |
| Finance.FutureValueWithoutReturn | Finlit.py:115-120 | at a zero rate, the future value is principal + contribution * months |
| Finance.FutureValueCoversContributions | Finlit.py:118-122 | with non-negative inputs and rate, the future value >= principal + contribution * months |
| Finance.Steps | Finlit.py:116-119 | `range(years * 12)` runs years*12 months for positive years and none otherwise |
| Finance.CompoundInterest | Finlit.py:109-130 | an error exactly when total contributions are zero; future_value is the value after Steps(years) months of compounding; total_contributions = principal + contribution * years*12; interest_earned = future_value - contributions; growth_multiple * contributions = future_value |
| Finance.CompoundInterestGains | Finlit.py:122-129 | with non-negative inputs, rate and years: interest_earned >= 0 and growth_multiple >= 1 |
| Finance.CompoundInterestOfNothing | Finlit.py:122-129 | zero principal and contribution give a division by zero, whatever the years and rate |
| Finance.FinanceCalculator.CalculateCompoundInterest | Finlit.py:109-130 | the loop of years*12 steps equals CompoundInterest |
| Finance.FinanceCalculator.constructor | Finlit.py:15-17 | the country is lowercased and the rules table is the calculator's table |
| Finance.FinanceCalculator.SetupCountryRules | Finlit.py:19-40 | sets the rules table and nothing else |
| Finance.CalculatorIgnoresCase | Finlit.py:16 | "Pakistan" and "ITALY" find their own rules after lowercasing |
| Budget.BudgetFor | Finlit.py:159-174 | needs, wants and savings are each their percentage's Share of the income; the shares of a template whose percentages sum to 100 add up to the income; for a non-negative income, each share with a percentage in [0, 100] lies between 0 and the income |
| Budget.Share | Finlit.py:163-165 | a share is pct hundredths of the income; a percentage in [0, 100] of a non-negative income gives a share between 0 and the income |
| Budget.BudgetAddsUp | Finlit.py:161-165 | for every country key, needs + wants + savings = income |
| Budget.BudgetPlanner.CreateBudget | Finlit.py:159-174 | the result is BudgetFor the template in force |
| Budget.BudgetPlanner.constructor | Finlit.py:135-137 | the country is kept as given and the templates table is the planner's table |
| Budget.BudgetPlanner.SetupDefaultBudgets | Finlit.py:139-157 | sets the templates table and nothing else |
| Budget.PlannerIsCaseSensitive | Finlit.py:136 | "Italy" and "Pakistan" get the global template; "italy" gets Italy's |
| Budget.IsSubstring | Finlit.py:195 | `keyword in cat_lower`: the empty needle is always found, and a needle found is no longer than the text |
| Budget.SubstringAt | Finlit.py:195 | the substring test holds exactly when the needle starts at some position of the text |
| Budget.MissingCharNotSubstring | Finlit.py:195 | a needle with a character the text lacks is not a substring of it |
| Budget.AnyKeywordIn | Finlit.py:195 | `any(...)` holds exactly when some keyword of the list is a substring of the text |
| Budget.IsEssential | Finlit.py:186-195 | a category is essential exactly when some essential keyword is a substring of its lowercased name |
| Budget.Total | Finlit.py:180 | `sum(expenses.values())` is not negative when no amount is |
| Budget.EssentialTotal | Finlit.py:192-196 | for non-negative amounts the essential bucket lies between 0 and the total |
| Budget.DiscretionaryTotal | Finlit.py:192-198 | for non-negative amounts the discretionary bucket lies between 0 and the total |
| Budget.BucketsPartitionTotal | Finlit.py:190-198 | essential + discretionary = total |
| Budget.Essentials | Finlit.py:195-196 | an entry is kept exactly when it is an entry of the expenses whose category is essential |
| Budget.Discretionaries | Finlit.py:197-198 | an entry is kept exactly when it is an entry of the expenses whose category is not essential |
| Budget.FiltersPartitionEntries | Finlit.py:193-198 | every entry lands in exactly one of the two buckets, as often as it occurs (a multiset partition) |
| Budget.TotalAppend | Finlit.py:180 | the sum over a concatenation is the sum of the two sums |
| Budget.BucketsAreFilteredSums | Finlit.py:193-198 | each bucket is the sum of exactly the entries classified into it |
| Budget.EssentialBucketIsFilteredSum | Finlit.py:193-196 | the essential bucket is the sum of exactly the entries classified as essential |
| Budget.DiscretionaryBucketIsFilteredSum | Finlit.py:193-198 | the discretionary bucket is the sum of exactly the entries not classified as essential |
| Budget.PercentsAddUp | Finlit.py:207-210 | for a positive total, the two breakdown percentages add up to 100 |
| Budget.Percent | Finlit.py:182 | for a positive whole the result is the part per hundred of it; otherwise it is 0 |
| Budget.Analysis | Finlit.py:176-211 | the buckets are the classified sums and make up the total; savings + total = income; the savings rate is Percent(savings, income) and each breakdown percentage is Percent(bucket, total); the two percentages of a positive total sum to 100 |
| Budget.BudgetPlanner.AnalyzeExpenses | Finlit.py:176-211 | the classifying loop equals Analysis |
| Budget.ParentingIsEssential | Finlit.py:195 | "Parenting" contains "rent" and is essential |
| Budget.HouseRentIsEssential | Finlit.py:194-195 | "House Rent" is essential after lowercasing |
| Budget.ShoppingIsDiscretionary | Finlit.py:185-198 | "shopping" is a listed discretionary keyword, yet "Shopping" is discretionary only because IsEssential is false; the discretionary list is never consulted |
| Budget.NoEssentialKeywordInShopping | Finlit.py:186-195 | no essential keyword occurs in "shopping" |
| Educator.TipFor | Finlit.py:258-275 | the listed tip when both the country and the topic are present, otherwise the default |
| Educator.CountryTips | Finlit.py:259-273 | the table lists "pakistan" and "italy" (no "global"), each with the topics budgeting, emergency, debt and investing |
| Educator.FinancialEducator.GetCountryTip | Finlit.py:258-275 | the result is TipFor on the tips table and this educator's country |
| Educator.FinancialEducator.constructor | Finlit.py:216-217 | the country is kept as given |
| Educator.TipComesFromTable | Finlit.py:260-275 | a tip is the default or one of the country's listed sentences |
| Educator.TipFallbacks | Finlit.py:275 | the lookup is case-sensitive, there is no global entry, and an unknown topic gets the default |
| Scenarios.PakistaniEmergencyFund | Finlit.py:330-333 | 60000 of expenses in Pakistan: 6 months, 360000 |
| Scenarios.PakistaniBudget | Finlit.py:335-340 | 80000 split 50/30/20 gives 40000/24000/16000 |
| Scenarios.PakistaniHouseDeposit | Finlit.py:342-351 | 2000000 goal, 20000 a month, 150000 saved: 93 months, years 92.5/12, 111 months adjusted |
| Scenarios.ItalianEmergencyFund | Finlit.py:382-385 | 700 of expenses in Italy: 3 months, 2100 |
| Scenarios.ItalianBudget | Finlit.py:387-392 | 800 split 40/30/30 gives 320/240/240 |
| Scenarios.ItalianDegreeFund | Finlit.py:394-403 | 15000 goal, 200 a month, 3000 saved: 60 months, 5 years, 62 months adjusted |
| Scenarios.PaymentBelowInterest | Finlit.py:91-96 | a further worked case of the payoff loop (no demonstration runs it): 100000 at 12% with a 500 payment is "payment too small" |
| Scenarios.InterestFreePayoff | Finlit.py:91-106 | a further worked case of the payoff loop (no demonstration runs it): 600 at 0% paid at 250 a month takes 3 months and costs no interest |
| Scenarios.PakistaniScenario | Finlit.py:313-364 | the calculator and planner for "pakistan" return a 360000 fund over 6 months, a 40000/24000/16000 budget and a 93-month house-deposit goal |

## Left out

- `round(x, 2)` and `round(x, 1)` on returned fields, and IEEE float behaviour: the model gives the exact unrounded reals.
- Country.Lower: models `str.lower()` for ASCII letters only; non-ASCII case mappings are not modelled.
- The `explanation` string of the emergency fund and the `budget_rule` string of the budget are presentation text and are not modelled. create_budget's `percentages` field is the template itself.
- The unused table fields `common_investments` and `family_support`: nothing reads them.
- The `expenses` dictionary is modelled as its items in insertion order. Key uniqueness is not imposed, because the sums do not depend on it.
- The default arguments (`current_savings=0`, `interest_rate=0.12`, `annual_return=0.08`, `country="global"`): callers pass every argument. The debt rate default is the constant `DefaultDebtRate`, which the "payment too small" scenario uses.
- Finance.DebtPayoff: like the source, the result does not say whether the loop paid the debt off or hit the 600-month cap. Only the specification function `Amortize` keeps the final balance that tells the two apart.
- Finance.CompoundInterest: the `ZeroDivisionError` the source raises is returned as `Err(DivisionByZero)`, with no partial result.
- `FinancialEducator.get_lessons`: static lesson text with no logic.
- `FinancialDashboard.display_summary`: console output only.
- `demonstrate_pakistani_scenario`, `demonstrate_italian_scenario` and `main`: console printing and the `finlit_demo.json` export. Their figures appear as lemmas in `Scenarios`, except the 120-step compound-interest example, whose exact value is not worked out.
