/** The country-keyed parameter tables of Finlit and the lookup that falls back
    to the "global" entry when a country is not listed. */
module Country {

  /** The key every table carries and every lookup falls back to. */
  const GlobalKey: string := "global"

  /** The calculator's per-country rules (the fields the formulas use). */
  datatype Rules = Rules(emergencyMonths: nat, inflationRate: real)

  /** The planner's per-country budget split, in whole percentages. */
  datatype BudgetTemplate = BudgetTemplate(needsPct: int, wantsPct: int, savingsPct: int)

  /** The percentages of a sound template share out the whole income. */
  predicate SplitsWhole(t: BudgetTemplate) {
    t.needsPct + t.wantsPct + t.savingsPct == 100
  }

  /** The table FinanceCalculator builds in setup_country_rules. */
  function FinanceRules(): (table: map<string, Rules>)
    ensures table.Keys == {"pakistan", "italy", GlobalKey}
    ensures forall k :: k in table ==>
      3 <= table[k].emergencyMonths <= 6 && 0.0 <= table[k].inflationRate < 1.0
  {
    map["pakistan" := Rules(6, 0.20),
        "italy" := Rules(3, 0.03),
        GlobalKey := Rules(3, 0.05)]
  }

  /** The table BudgetPlanner builds in setup_default_budgets. */
  function BudgetTemplates(): (table: map<string, BudgetTemplate>)
    ensures table.Keys == {"pakistan", "italy", GlobalKey}
    ensures forall k :: k in table ==> SplitsWhole(table[k])
  {
    map["pakistan" := BudgetTemplate(50, 30, 20),
        "italy" := BudgetTemplate(40, 30, 30),
        GlobalKey := BudgetTemplate(50, 30, 20)]
  }

  /** `table.get(key, table["global"])`: the entry for `key`, or the global
      entry when `key` is absent. Missing keys are never an error. */
  function Lookup<V>(table: map<string, V>, key: string): (r: V)
    requires GlobalKey in table
    ensures key in table ==> r == table[key]
    ensures key !in table ==> r == table[GlobalKey]
  {
    if key in table then table[key] else table[GlobalKey]
  }

  /** A lookup can only yield an entry of the table. */
  lemma LookupYieldsEntry<V>(table: map<string, V>, key: string)
    requires GlobalKey in table
    ensures Lookup(table, key) in table.Values
    ensures Lookup(table, key) == table[if key in table then key else GlobalKey]
  {
    var k := if key in table then key else GlobalKey;
    assert k in table && table[k] == Lookup(table, key);
  }

  /** Every entry of the budget table splits the whole income. */
  lemma BudgetTemplatesSplitWhole(key: string)
    ensures SplitsWhole(Lookup(BudgetTemplates(), key))
  {
  }

  /** Every looked-up calculator rule asks for three to six months and has
      an inflation rate in [0, 1). */
  lemma FinanceRulesInRange(key: string)
    ensures 3 <= Lookup(FinanceRules(), key).emergencyMonths <= 6
    ensures 0.0 <= Lookup(FinanceRules(), key).inflationRate < 1.0
  {
  }

  /** Python's `str.lower()` on one character, for the ASCII letters. */
  function LowerChar(c: char): (d: char)
    ensures 'A' <= c <= 'Z' ==> d as int == c as int + 32
    ensures !('A' <= c <= 'Z') ==> d == c
  {
    if 'A' <= c <= 'Z' then (c as int + 32) as char else c
  }

  /** Python's `str.lower()`: every character lowered, the length kept. */
  function Lower(s: string): (r: string)
    ensures |r| == |s|
    ensures forall i :: 0 <= i < |s| ==> r[i] == LowerChar(s[i])
  {
    if s == [] then [] else [LowerChar(s[0])] + Lower(s[1..])
  }
}
