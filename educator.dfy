/** FinancialEducator's country tip: a two-level lookup, by country and then
    by topic, that falls back to one default sentence at either level. */
module Educator {

  const DefaultTip: string := "Start with basic principles"

  /** The tips table built in _get_country_tip: two countries, the same four
      topics each, and no "global" entry. */
  function CountryTips(): (tips: map<string, map<string, string>>)
    ensures tips.Keys == {"pakistan", "italy"}
    ensures forall c :: c in tips ==> tips[c].Keys == {"budgeting", "emergency", "debt", "investing"}
  {
    map["pakistan" := map["budgeting" := "Include family obligations in your budget",
                          "emergency" := "Aim for 6 months due to job market volatility",
                          "debt" := "Avoid high-interest informal loans",
                          "investing" := "Start with National Savings Schemes for safety"],
        "italy" := map["budgeting" := "Factor in healthcare costs differently than in Pakistan",
                       "emergency" := "3 months is sufficient due to social safety nets",
                       "debt" := "Student loans have special conditions in Italy",
                       "investing" := "Consider BTP bonds for government-backed returns"]]
  }

  /** `tips.get(country, {}).get(topic, DefaultTip)`: the listed tip when both
      keys are present, the default as soon as either is missing. */
  function TipFor(tips: map<string, map<string, string>>, country: string, topic: string)
    : (tip: string)
    ensures country in tips && topic in tips[country] ==> tip == tips[country][topic]
    ensures !(country in tips && topic in tips[country]) ==> tip == DefaultTip
  {
    var topics := if country in tips then tips[country] else map[];
    if topic in topics then topics[topic] else DefaultTip
  }

  /** An educator bound to one country, kept exactly as given. */
  class FinancialEducator {
    var country: string

    constructor (country: string)
      ensures this.country == country
    {
      this.country := country;
    }

    method GetCountryTip(topic: string) returns (tip: string)
      ensures tip == TipFor(CountryTips(), country, topic)
    {
      tip := TipFor(CountryTips(), country, topic);
    }
  }

  /** A tip is the default or one of the sentences listed for the country. */
  lemma TipComesFromTable(country: string, topic: string)
    ensures var tip := TipFor(CountryTips(), country, topic);
      tip == DefaultTip || (country in CountryTips() && tip in CountryTips()[country].Values)
  {
    var tips := CountryTips();
    if country in tips && topic in tips[country] {
      assert tips[country][topic] in tips[country].Values;
    }
  }

  /** The lookup is case-sensitive and has no global entry: "Pakistan" and
      "global" get the default, "pakistan" gets its own tip, and an unknown
      topic gets the default even for a listed country. */
  lemma TipFallbacks()
    ensures TipFor(CountryTips(), "pakistan", "debt") == "Avoid high-interest informal loans"
    ensures TipFor(CountryTips(), "Pakistan", "debt") == DefaultTip
    ensures TipFor(CountryTips(), "global", "debt") == DefaultTip
    ensures TipFor(CountryTips(), "italy", "taxes") == DefaultTip
  {
  }
}
