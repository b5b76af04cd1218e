/** The figures of the two demonstration scenarios, worked through the
    model: a Pakistani family (income 80000, expenses 60000) and an Italian
    student (income 800, expenses 700). Neither demonstration runs the debt
    payoff, so PaymentBelowInterest and InterestFreePayoff are two further
    worked cases of that loop: one that stalls and one that pays off. */
module Scenarios {
  import opened Country
  import opened Finance
  import opened Budget

  lemma PakistaniEmergencyFund()
    ensures EmergencyFund(60000.0, Lookup(FinanceRules(), Lower("pakistan")))
         == EmergencyFundResult(6, 360000.0)
  {
    assert Lower("pakistan") == "pakistan";
  }

  lemma PakistaniBudget()
    ensures BudgetFor(80000.0, Lookup(BudgetTemplates(), "pakistan"))
         == BudgetSplit(80000.0, 40000.0, 24000.0, 16000.0, BudgetTemplate(50, 30, 20))
  {
  }

  /** 1850000 left at 20000 a month: 92.5 months, so 93 whole months, and
      111 once Pakistan's 20% inflation is applied. */
  lemma PakistaniHouseDeposit()
    ensures SavingsGoal(2000000.0, 20000.0, 150000.0, 0.20)
         == Ok(SavingsGoalResult(93, 92.5 / 12.0, 111, 20000.0, 2000000.0))
  {
    CeilUnique(92.5, 93);
    CeilUnique(92.5 * 1.20, 111);
  }

  lemma ItalianEmergencyFund()
    ensures EmergencyFund(700.0, Lookup(FinanceRules(), Lower("italy")))
         == EmergencyFundResult(3, 2100.0)
  {
    assert Lower("italy") == "italy";
  }

  lemma ItalianBudget()
    ensures BudgetFor(800.0, Lookup(BudgetTemplates(), "italy"))
         == BudgetSplit(800.0, 320.0, 240.0, 240.0, BudgetTemplate(40, 30, 30))
  {
  }

  /** 12000 left at 200 a month: 60 months (5 years), 62 after Italy's 3%
      inflation (61.8 rounded up). */
  lemma ItalianDegreeFund()
    ensures SavingsGoal(15000.0, 200.0, 3000.0, 0.03)
         == Ok(SavingsGoalResult(60, 5.0, 62, 200.0, 15000.0))
  {
    CeilUnique(60.0, 60);
    CeilUnique(60.0 * 1.03, 62);
  }

  /** 100000 at 12% accrues 1000 in the first month, more than the 500
      payment, so the payoff fails. */
  lemma PaymentBelowInterest()
    ensures DebtPayoff(100000.0, 500.0, DefaultDebtRate) == Err(PaymentTooSmall)
  {
  }

  /** A 600 debt at 0% paid at 250 a month: 250, 250, then the last 100,
      so three months and no interest. */
  lemma InterestFreePayoff()
    ensures DebtPayoff(600.0, 250.0, 0.0) == Ok(DebtPayoffResult(3, 0.25, 0.0, 600.0))
  {
    assert Amortize(100.0, 250.0, 0.0, 2, 0.0) == Ran(3, 0.0, -150.0);
    assert Amortize(350.0, 250.0, 0.0, 1, 0.0) == Ran(3, 0.0, -150.0);
  }

  /** demonstrate_pakistani_scenario: the three results it returns, worked
      out from the objects' contracts. */
  method PakistaniScenario()
    returns (fund: EmergencyFundResult, budget: BudgetSplit, goal: Result<SavingsGoalResult>)
    ensures fund == EmergencyFundResult(6, 360000.0)
    ensures budget == BudgetSplit(80000.0, 40000.0, 24000.0, 16000.0, BudgetTemplate(50, 30, 20))
    ensures goal == Ok(SavingsGoalResult(93, 92.5 / 12.0, 111, 20000.0, 2000000.0))
  {
    var calculator := new FinanceCalculator("pakistan");
    var planner := new BudgetPlanner("pakistan");
    assert Lower("pakistan") == "pakistan";
    fund := calculator.CalculateEmergencyFund(60000.0);
    PakistaniEmergencyFund();
    budget := planner.CreateBudget(80000.0);
    PakistaniBudget();
    goal := calculator.CalculateSavingsGoal(2000000.0, 20000.0, 150000.0);
    PakistaniHouseDeposit();
  }
}
