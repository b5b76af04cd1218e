/** FinanceCalculator: emergency fund, savings goal, debt payoff and compound
    interest, over exact reals. The values are those before the final
    `round(..)` the calculator applies to each returned field. */
module Finance {
  import opened Country

  /** The error results of the calculator. The first three are the
      `{"error": ...}` dictionaries it returns; DivisionByZero is the
      ZeroDivisionError that compound interest raises. */
  datatype Error = NonPositiveSaving | NonPositivePayment | PaymentTooSmall | DivisionByZero

  datatype Result<T> = Ok(value: T) | Err(error: Error)

  /** The month cap of the debt payoff loop (50 years). */
  const MaxMonths: nat := 600

  /** The default yearly rate of calculate_debt_payoff. */
  const DefaultDebtRate: real := 0.12

  datatype EmergencyFundResult = EmergencyFundResult(targetMonths: nat, targetAmount: real)

  datatype SavingsGoalResult = SavingsGoalResult(
    monthsNeeded: int, yearsNeeded: real, adjustedMonths: int,
    monthlySaving: real, totalSaved: real)

  datatype DebtPayoffResult = DebtPayoffResult(
    monthsToPayoff: nat, yearsToPayoff: real, totalInterest: real, totalPaid: real)

  datatype CompoundResult = CompoundResult(
    futureValue: real, totalContributions: real, interestEarned: real, growthMultiple: real)

  // ---------------------------------------------------------------- emergency fund

  /** The target is `monthlyExpenses` times the country's month count. */
  function EmergencyFund(monthlyExpenses: real, rules: Rules): (r: EmergencyFundResult)
    ensures r.targetMonths == rules.emergencyMonths
    ensures r.targetAmount == monthlyExpenses * rules.emergencyMonths as real
  {
    EmergencyFundResult(rules.emergencyMonths, monthlyExpenses * rules.emergencyMonths as real)
  }

  /** For non-negative expenses, whatever the country key, the target covers
      between three and six months of expenses. */
  lemma EmergencyFundCoversExpenses(monthlyExpenses: real, key: string)
    requires 0.0 <= monthlyExpenses
    ensures var r := EmergencyFund(monthlyExpenses, Lookup(FinanceRules(), key));
      monthlyExpenses * 3.0 <= r.targetAmount <= monthlyExpenses * 6.0
  {
    FinanceRulesInRange(key);
    var m := Lookup(FinanceRules(), key).emergencyMonths as real;
    assert monthlyExpenses * 3.0 <= monthlyExpenses * m <= monthlyExpenses * 6.0 by {
      assert monthlyExpenses * (m - 3.0) >= 0.0;
      assert monthlyExpenses * (6.0 - m) >= 0.0;
    }
  }

  // ---------------------------------------------------------------- savings goal

  /** `math.ceil`: the least integer not below `x`. */
  function Ceil(x: real): (n: int)
    ensures n as real - 1.0 < x <= n as real
  {
    -((-x).Floor)
  }

  /** Any integer with the ceiling property is the ceiling. */
  lemma CeilUnique(x: real, n: int)
    requires n as real - 1.0 < x <= n as real
    ensures Ceil(x) == n
  {
  }

  lemma CeilMonotone(x: real, y: real)
    requires x <= y
    ensures Ceil(x) <= Ceil(y)
  {
  }

  /** calculate_savings_goal: fails exactly when the monthly saving is not
      positive; otherwise the month count is the ceiling of the raw month
      count, i.e. the fewest whole months whose savings cover what remains,
      and the raw month count of savings lands exactly on the target. */
  function SavingsGoal(target: real, monthlySaving: real, current: real, inflationRate: real)
    : (r: Result<SavingsGoalResult>)
    ensures r.Err? <==> monthlySaving <= 0.0
    ensures r.Err? ==> r.error == NonPositiveSaving
    ensures r.Ok? ==> r.value.monthlySaving == monthlySaving
    ensures r.Ok? ==>
      (r.value.monthsNeeded - 1) as real * monthlySaving < target - current
      <= r.value.monthsNeeded as real * monthlySaving
    ensures r.Ok? ==> r.value.yearsNeeded * 12.0 * monthlySaving == target - current
    ensures r.Ok? ==> r.value.totalSaved == target
  {
    var remaining := target - current;
    if monthlySaving <= 0.0 then Err(NonPositiveSaving)
    else
      var months := remaining / monthlySaving;
      var years := months / 12.0;
      var realMonths := months * (1.0 + inflationRate);
      var n := Ceil(months);
      CeilScaled(remaining, monthlySaving, n);
      Ok(SavingsGoalResult(n, years, Ceil(realMonths), monthlySaving,
                           current + monthlySaving * months))
  }

  /** Multiplying the ceiling property of `remaining / saving` through by the
      positive saving. */
  lemma CeilScaled(remaining: real, saving: real, n: int)
    requires 0.0 < saving
    requires n as real - 1.0 < remaining / saving <= n as real
    ensures (n - 1) as real * saving < remaining <= n as real * saving
  {
    CeilScaledBelow(remaining, saving, n);
    CeilScaledAbove(remaining, saving, n);
  }

  lemma CeilScaledBelow(remaining: real, saving: real, n: int)
    requires 0.0 < saving && n as real - 1.0 < remaining / saving
    ensures (n - 1) as real * saving < remaining
  {
    var q := remaining / saving;
    assert q * saving == remaining;
    assert (n - 1) as real == n as real - 1.0;
    MulStrict((n - 1) as real, q, saving);
  }

  lemma CeilScaledAbove(remaining: real, saving: real, n: int)
    requires 0.0 < saving && remaining / saving <= n as real
    ensures remaining <= n as real * saving
  {
    var q := remaining / saving;
    assert q * saving == remaining;
    MulMono(q, n as real, saving);
  }

  // Helpers: the ordered-field facts the proofs below lean on.

  lemma MulStrict(a: real, b: real, c: real)
    requires a < b && 0.0 < c
    ensures a * c < b * c
  {
    assert b * c - a * c == (b - a) * c;
  }

  lemma MulMono(a: real, b: real, c: real)
    requires a <= b && 0.0 <= c
    ensures a * c <= b * c
  {
    assert b * c - a * c == (b - a) * c;
  }

  lemma QuotientAtLeastOne(a: real, b: real)
    requires 0.0 < b <= a
    ensures a / b >= 1.0
  {
    var q := a / b;
    assert q * b == a;
    assert (q - 1.0) * b == a - b;
  }

  lemma MulSucc(k: nat, p: real)
    ensures (k + 1) as real * p == k as real * p + p
  {
  }

  /** The raw (unrounded) month count the savings goal works from. */
  function RawMonths(target: real, monthlySaving: real, current: real): real
    requires monthlySaving != 0.0
  {
    (target - current) / monthlySaving
  }

  /** Both month counts are ceilings of the raw month count, before and after
      the inflation factor. */
  lemma SavingsGoalMonths(target: real, monthlySaving: real, current: real, inflationRate: real)
    requires 0.0 < monthlySaving
    ensures var r := SavingsGoal(target, monthlySaving, current, inflationRate);
      var raw := RawMonths(target, monthlySaving, current);
      r.Ok? && r.value.monthsNeeded == Ceil(raw)
      && r.value.adjustedMonths == Ceil(raw * (1.0 + inflationRate))
      && r.value.yearsNeeded == raw / 12.0
  {
  }

  /** With a non-negative inflation rate and a goal not yet met, inflation
      can only lengthen the plan. */
  lemma {:induction false} InflationNeverShortens(target: real, monthlySaving: real, current: real, inflationRate: real)
    requires 0.0 < monthlySaving && current <= target && 0.0 <= inflationRate
    ensures var r := SavingsGoal(target, monthlySaving, current, inflationRate);
      r.Ok? && r.value.adjustedMonths >= r.value.monthsNeeded
  {
    var raw := RawMonths(target, monthlySaving, current);
    assert raw >= 0.0;
    assert raw * (1.0 + inflationRate) == raw + raw * inflationRate;
    assert raw * inflationRate >= 0.0;
    CeilMonotone(raw, raw * (1.0 + inflationRate));
    SavingsGoalMonths(target, monthlySaving, current, inflationRate);
  }

  /** A goal already met is not clamped: the month counts come out zero or
      negative. */
  lemma GoalAlreadyMet(target: real, monthlySaving: real, current: real, inflationRate: real)
    requires 0.0 < monthlySaving && target <= current && -1.0 <= inflationRate
    ensures var r := SavingsGoal(target, monthlySaving, current, inflationRate);
      r.Ok? && r.value.monthsNeeded <= 0 && r.value.adjustedMonths <= 0
      && r.value.yearsNeeded <= 0.0
  {
    var raw := RawMonths(target, monthlySaving, current);
    assert raw <= 0.0;
    assert raw * (1.0 + inflationRate) <= 0.0;
    SavingsGoalMonths(target, monthlySaving, current, inflationRate);
  }

  // ---------------------------------------------------------------- debt payoff

  /** Where the payoff loop ends: it ran out (balance at or below zero, or the
      month cap reached) after `months` months, or a payment stopped covering
      the month's interest. */
  datatype Schedule = Ran(months: nat, totalInterest: real, balance: real) | Stalled

  /** The payoff loop from a given state: while a balance is left and the cap
      is not reached, charge `interest = remaining * rate/12`, fail when the
      payment does not exceed it, and otherwise pay off the difference. */
  function Amortize(remaining: real, payment: real, rate: real, months: nat, totalInterest: real)
    : (s: Schedule)
    requires months <= MaxMonths
    ensures s.Ran? ==> months <= s.months <= MaxMonths
    ensures s.Ran? ==> s.months == MaxMonths || s.balance <= 0.0
    ensures s.Ran? && s.months == months ==> s.balance == remaining && s.totalInterest == totalInterest
    decreases MaxMonths - months
  {
    if !(remaining > 0.0 && months < MaxMonths) then Ran(months, totalInterest, remaining)
    else
      var interest := remaining * (rate / 12.0);
      var principalPayment := payment - interest;
      if principalPayment <= 0.0 then Stalled
      else Amortize(remaining - principalPayment, payment, rate, months + 1, totalInterest + interest)
  }

  /** calculate_debt_payoff as a function of its inputs. */
  function DebtPayoff(debt: real, payment: real, rate: real): (r: Result<DebtPayoffResult>)
    ensures r == Err(NonPositivePayment) <==> payment <= 0.0
    ensures r.Err? ==> r.error == NonPositivePayment || r.error == PaymentTooSmall
    ensures r.Ok? ==> r.value.monthsToPayoff <= MaxMonths
    ensures r.Ok? ==> r.value.yearsToPayoff * 12.0 == r.value.monthsToPayoff as real
    ensures r.Ok? ==> r.value.totalPaid == debt + r.value.totalInterest
  {
    if payment <= 0.0 then Err(NonPositivePayment)
    else
      match Amortize(debt, payment, rate, 0, 0.0)
      case Stalled => Err(PaymentTooSmall)
      case Ran(m, interest, _) =>
        Ok(DebtPayoffResult(m, m as real / 12.0, interest, debt + interest))
  }

  /** The total of `k` monthly payments of `payment`. */
  function Payments(payment: real, k: nat): (total: real)
    ensures total == k as real * payment
  {
    if k == 0 then 0.0 else (MulSucc(k - 1, payment); Payments(payment, k - 1) + payment)
  }

  /** The ledger the loop keeps: at every month, the balance plus the
      payments made equals the debt plus the interest charged, so it still
      holds where the loop ends. */
  lemma {:induction false} AmortizeLedger(remaining: real, payment: real, rate: real, months: nat, totalInterest: real, debt: real)
    requires months <= MaxMonths
    requires remaining + Payments(payment, months) == debt + totalInterest
    ensures var s := Amortize(remaining, payment, rate, months, totalInterest);
      s.Ran? ==> s.balance + Payments(payment, s.months) == debt + s.totalInterest
    decreases MaxMonths - months
  {
    if remaining > 0.0 && months < MaxMonths {
      var interest := remaining * (rate / 12.0);
      var principalPayment := payment - interest;
      if principalPayment > 0.0 {
        assert Payments(payment, months + 1) == Payments(payment, months) + payment;
        AmortizeLedger(remaining - principalPayment, payment, rate, months + 1, totalInterest + interest, debt);
      }
    }
  }

  /** With a non-negative rate, every month charges non-negative interest and
      strictly lowers the balance. */
  lemma {:induction false} AmortizeMonotone(remaining: real, payment: real, rate: real, months: nat, totalInterest: real)
    requires months <= MaxMonths && 0.0 <= rate
    ensures var s := Amortize(remaining, payment, rate, months, totalInterest);
      s.Ran? ==> s.totalInterest >= totalInterest && s.balance <= remaining
                 && (s.months > months ==> s.balance < remaining)
    decreases MaxMonths - months
  {
    if remaining > 0.0 && months < MaxMonths {
      var interest := remaining * (rate / 12.0);
      MulMono(0.0, remaining, rate / 12.0);
      var principalPayment := payment - interest;
      if principalPayment > 0.0 {
        AmortizeMonotone(remaining - principalPayment, payment, rate, months + 1, totalInterest + interest);
      }
    }
  }

  /** With a non-negative rate the loop stalls exactly when the first step
      does: once a payment covers the interest, the balance only falls,
      so every later month's interest is covered too. */
  lemma {:induction false} StallsOnlyAtFirstStep(remaining: real, payment: real, rate: real, months: nat, totalInterest: real)
    requires months <= MaxMonths && 0.0 <= rate
    ensures Amortize(remaining, payment, rate, months, totalInterest).Stalled?
      <==> remaining > 0.0 && months < MaxMonths && payment <= remaining * (rate / 12.0)
    decreases MaxMonths - months
  {
    if remaining > 0.0 && months < MaxMonths {
      var interest := remaining * (rate / 12.0);
      var principalPayment := payment - interest;
      if principalPayment > 0.0 {
        var next := remaining - principalPayment;
        NextInterestCovered(remaining, next, payment, rate / 12.0);
        StallsOnlyAtFirstStep(next, payment, rate, months + 1, totalInterest + interest);
        assert Amortize(remaining, payment, rate, months, totalInterest)
            == Amortize(next, payment, rate, months + 1, totalInterest + interest);
      }
    }
  }

  /** A payment that covers this month's interest covers next month's, which
      is charged on a lower balance. */
  lemma NextInterestCovered(remaining: real, next: real, payment: real, m: real)
    requires 0.0 <= m && remaining * m < payment
    requires next == remaining - (payment - remaining * m)
    ensures next * m < payment
  {
    MulMono(next, remaining, m);
  }

  /** The "payment too small" error of calculate_debt_payoff, in terms of the
      inputs: a positive payment with a non-negative rate fails exactly when
      it does not exceed the first month's interest on a positive debt. */
  lemma DebtPayoffTooSmall(debt: real, payment: real, rate: real)
    requires 0.0 < payment && 0.0 <= rate
    ensures DebtPayoff(debt, payment, rate) == Err(PaymentTooSmall)
      <==> 0.0 < debt && payment <= debt * (rate / 12.0)
  {
    StallsOnlyAtFirstStep(debt, payment, rate, 0, 0.0);
  }

  /** Nothing owed: no months, no interest. */
  lemma DebtPayoffNothingOwed(debt: real, payment: real, rate: real)
    requires 0.0 < payment && debt <= 0.0
    ensures DebtPayoff(debt, payment, rate) == Ok(DebtPayoffResult(0, 0.0, 0.0, debt))
  {
  }

  /** A successful payoff with a non-negative rate charges non-negative
      interest. */
  lemma DebtPayoffInterestNonNegative(debt: real, payment: real, rate: real)
    requires 0.0 < payment && 0.0 <= rate
    ensures DebtPayoff(debt, payment, rate).Ok? ==>
      DebtPayoff(debt, payment, rate).value.totalInterest >= 0.0
  {
    AmortizeMonotone(debt, payment, rate, 0, 0.0);
  }

  /** Unless the 600-month cap cut it short, a successful payoff's payments
      cover everything paid: the debt plus the interest. */
  lemma DebtPayoffPaymentsCover(debt: real, payment: real, rate: real)
    requires 0.0 < payment
    ensures var r := DebtPayoff(debt, payment, rate);
      r.Ok? && r.value.monthsToPayoff < MaxMonths ==>
        Payments(payment, r.value.monthsToPayoff) >= r.value.totalPaid
  {
    var s := Amortize(debt, payment, rate, 0, 0.0);
    if s.Ran? && s.months < MaxMonths {
      PaidOffCovers(debt, payment, rate, s);
      assert DebtPayoff(debt, payment, rate)
          == Ok(DebtPayoffResult(s.months, s.months as real / 12.0, s.totalInterest, debt + s.totalInterest));
    }
  }

  lemma PaidOffCovers(debt: real, payment: real, rate: real, s: Schedule)
    requires s == Amortize(debt, payment, rate, 0, 0.0)
    requires s.Ran? && s.months < MaxMonths
    ensures Payments(payment, s.months) >= debt + s.totalInterest
  {
    assert Payments(payment, 0) == 0.0;
    AmortizeLedger(debt, payment, rate, 0, 0.0, debt);
  }

  // ---------------------------------------------------------------- compound interest

  /** The value after `n` monthly steps `v := v * (1 + rate/12) + contribution`
      starting from `principal`. Nothing put in gives nothing out. */
  function FutureValue(principal: real, contribution: real, rate: real, n: nat): (v: real)
    ensures principal == 0.0 && contribution == 0.0 ==> v == 0.0
  {
    if n == 0 then principal
    else FutureValue(principal, contribution, rate, n - 1) * (1.0 + rate / 12.0) + contribution
  }

  function Pow(b: real, n: nat): real {
    if n == 0 then 1.0 else Pow(b, n - 1) * b
  }

  /** One step of the closed form, as plain field algebra: if `v` satisfies
      it against the power `p`, the next value satisfies it against the next
      power. */
  lemma ClosedFormStep(v: real, next: real, p: real, nextP: real, m: real, c: real, a: real)
    requires v * m == a * p - c
    requires next == v * (1.0 + m) + c && nextP == p * (1.0 + m)
    ensures next * m == a * nextP - c
  {
    assert (v * (1.0 + m) + c) * m == (v * m) * (1.0 + m) + c * m;
    assert (a * p - c) * (1.0 + m) == a * (p * (1.0 + m)) - c - c * m;
  }

  /** One month of the loop. */
  lemma FutureValueStep(principal: real, contribution: real, rate: real, n: nat)
    requires 0 < n
    ensures FutureValue(principal, contribution, rate, n)
         == FutureValue(principal, contribution, rate, n - 1) * (1.0 + rate / 12.0) + contribution
  {
  }

  /** The loop agrees with the closed form of an annuity:
      FV * m == (principal * m + c) * (1 + m)^n - c, for m the monthly rate. */
  lemma {:induction false} FutureValueClosedForm(principal: real, contribution: real, rate: real, n: nat)
    ensures FutureValue(principal, contribution, rate, n) * (rate / 12.0)
      == (principal * (rate / 12.0) + contribution) * Pow(1.0 + rate / 12.0, n) - contribution
  {
    if principal == 0.0 && contribution == 0.0 {
      // Both sides are zero.
    } else if n > 0 {
      FutureValueClosedForm(principal, contribution, rate, n - 1);
      FutureValueStep(principal, contribution, rate, n);
      ClosedFormStep(FutureValue(principal, contribution, rate, n - 1),
                     FutureValue(principal, contribution, rate, n),
                     Pow(1.0 + rate / 12.0, n - 1), Pow(1.0 + rate / 12.0, n),
                     rate / 12.0, contribution, principal * (rate / 12.0) + contribution);
    }
  }

  /** With a zero rate the value is just what was put in. */
  lemma {:induction false} FutureValueWithoutReturn(principal: real, contribution: real, n: nat)
    ensures FutureValue(principal, contribution, 0.0, n) == principal + contribution * n as real
  {
    if n > 0 {
      FutureValueWithoutReturn(principal, contribution, n - 1);
      MulSucc(n - 1, contribution);
    }
  }

  /** With non-negative inputs and rate, the growth is at least the
      contributions. */
  lemma {:induction false} FutureValueCoversContributions(principal: real, contribution: real, rate: real, n: nat)
    requires 0.0 <= principal && 0.0 <= contribution && 0.0 <= rate
    ensures FutureValue(principal, contribution, rate, n) >= principal + contribution * n as real
  {
    if n > 0 {
      FutureValueCoversContributions(principal, contribution, rate, n - 1);
      FutureValueStep(principal, contribution, rate, n);
      var v := FutureValue(principal, contribution, rate, n - 1);
      var before := principal + contribution * (n - 1) as real;
      MulMono(0.0, contribution, (n - 1) as real);
      assert 0.0 <= before <= v;
      MulMono(1.0, 1.0 + rate / 12.0, v);
      assert v <= v * (1.0 + rate / 12.0);
      MulSucc(n - 1, contribution);
      assert before + contribution == principal + contribution * n as real;
    }
  }

  /** The number of monthly steps `range(years * 12)` runs: `years * 12`
      for a positive number of years, none otherwise. */
  function Steps(years: int): (n: nat)
    ensures 0 < years ==> n == years * 12
    ensures years <= 0 ==> n == 0
  {
    if years * 12 > 0 then years * 12 else 0
  }

  /** calculate_compound_interest as a function of its inputs: `years * 12`
      steps from the principal; the contributions count `years * 12` months
      even when that is negative; the growth multiple divides by them. */
  function CompoundInterest(principal: real, contribution: real, years: int, rate: real)
    : (r: Result<CompoundResult>)
    ensures r.Err? <==> principal + contribution * (years * 12) as real == 0.0
    ensures r.Err? ==> r.error == DivisionByZero
    ensures r.Ok? ==> r.value.futureValue == FutureValue(principal, contribution, rate, Steps(years))
    ensures r.Ok? ==> r.value.totalContributions == principal + contribution * (years * 12) as real
    ensures r.Ok? ==> r.value.interestEarned == r.value.futureValue - r.value.totalContributions
    ensures r.Ok? ==> r.value.growthMultiple * r.value.totalContributions == r.value.futureValue
  {
    var fv := FutureValue(principal, contribution, rate, Steps(years));
    var total := principal + contribution * (years * 12) as real;
    if total == 0.0 then Err(DivisionByZero)
    else Ok(CompoundResult(fv, total, fv - total, fv / total))
  }

  /** With non-negative inputs, rate and years, nothing is lost: the interest
      earned is non-negative and the growth multiple is at least one. */
  lemma CompoundInterestGains(principal: real, contribution: real, years: int, rate: real)
    requires 0.0 <= principal && 0.0 <= contribution && 0.0 <= rate && 0 <= years
    ensures var r := CompoundInterest(principal, contribution, years, rate);
      r.Ok? ==> r.value.interestEarned >= 0.0 && r.value.growthMultiple >= 1.0
  {
    assert Steps(years) == years * 12;
    FutureValueCoversContributions(principal, contribution, rate, Steps(years));
    var r := CompoundInterest(principal, contribution, years, rate);
    if r.Ok? {
      var t := r.value.totalContributions;
      MulMono(0.0, contribution, (years * 12) as real);
      assert 0.0 < t <= r.value.futureValue;
      assert r.value.growthMultiple == r.value.futureValue / t;
      QuotientAtLeastOne(r.value.futureValue, t);
    }
  }

  /** Without principal or contribution the growth multiple is undefined:
      the source divides by zero. */
  lemma CompoundInterestOfNothing(years: int, rate: real)
    ensures CompoundInterest(0.0, 0.0, years, rate) == Err(DivisionByZero)
  {
  }

  // ---------------------------------------------------------------- the calculator object

  /** A calculator bound to one (lowercased) country and its rules table. */
  class FinanceCalculator {
    var country: string
    var rules: map<string, Rules>

    ghost predicate Valid()
      reads this
    {
      GlobalKey in rules
    }

    /** The rules in force: the country's entry, or the global one. */
    function CurrentRules(): Rules
      reads this
      requires Valid()
    {
      Lookup(rules, country)
    }

    /** `__init__`: lowercases the country, then sets up the rules table. */
    constructor (country: string)
      ensures Valid()
      ensures this.country == Lower(country) && rules == FinanceRules()
    {
      this.country := Lower(country);
      new;
      SetupCountryRules();
    }

    method SetupCountryRules()
      modifies this`rules
      ensures rules == FinanceRules() && Valid()
    {
      rules := FinanceRules();
    }

    method CalculateEmergencyFund(monthlyExpenses: real) returns (r: EmergencyFundResult)
      requires Valid()
      ensures r == EmergencyFund(monthlyExpenses, CurrentRules())
    {
      r := EmergencyFund(monthlyExpenses, Lookup(rules, country));
    }

    method CalculateSavingsGoal(target: real, monthlySaving: real, current: real)
      returns (r: Result<SavingsGoalResult>)
      requires Valid()
      ensures r == SavingsGoal(target, monthlySaving, current, CurrentRules().inflationRate)
    {
      r := SavingsGoal(target, monthlySaving, current, Lookup(rules, country).inflationRate);
    }

    /** The payoff loop, with its early error return and its 600-month cap. */
    method CalculateDebtPayoff(debt: real, payment: real, rate: real)
      returns (r: Result<DebtPayoffResult>)
      ensures r == DebtPayoff(debt, payment, rate)
    {
      if payment <= 0.0 {
        return Err(NonPositivePayment);
      }
      var months: nat := 0;
      var remaining := debt;
      var totalInterest := 0.0;
      while remaining > 0.0 && months < MaxMonths
        invariant months <= MaxMonths
        invariant Amortize(remaining, payment, rate, months, totalInterest)
               == Amortize(debt, payment, rate, 0, 0.0)
        decreases MaxMonths - months
      {
        var interest := remaining * (rate / 12.0);
        var principalPayment := payment - interest;
        if principalPayment <= 0.0 {
          return Err(PaymentTooSmall);
        }
        remaining := remaining - principalPayment;
        totalInterest := totalInterest + interest;
        months := months + 1;
      }
      return Ok(DebtPayoffResult(months, months as real / 12.0, totalInterest, debt + totalInterest));
    }

    /** The compounding loop: `years * 12` monthly steps. */
    method CalculateCompoundInterest(principal: real, contribution: real, years: int, rate: real)
      returns (r: Result<CompoundResult>)
      ensures r == CompoundInterest(principal, contribution, years, rate)
    {
      var monthlyRate := rate / 12.0;
      var months := years * 12;
      var futureValue := principal;
      var month := 0;
      while month < months
        invariant 0 <= month <= Steps(years)
        invariant futureValue == FutureValue(principal, contribution, rate, month)
      {
        futureValue := futureValue * (1.0 + monthlyRate) + contribution;
        month := month + 1;
      }
      assert month == Steps(years);
      assert futureValue == FutureValue(principal, contribution, rate, Steps(years));
      var totalContributions := principal + contribution * months as real;
      assert totalContributions == principal + contribution * (years * 12) as real;
      var interestEarned := futureValue - totalContributions;
      if totalContributions == 0.0 {
        return Err(DivisionByZero);
      }
      return Ok(CompoundResult(futureValue, totalContributions, interestEarned,
                               futureValue / totalContributions));
    }
  }

  /** The calculator lowercases the country first, so "Pakistan" finds the
      Pakistan rules. */
  lemma CalculatorIgnoresCase()
    ensures Lookup(FinanceRules(), Lower("Pakistan")) == Rules(6, 0.20)
    ensures Lookup(FinanceRules(), Lower("ITALY")) == Rules(3, 0.03)
  {
    assert Lower("Pakistan") == "pakistan";
    assert Lower("ITALY") == "italy";
  }
}
