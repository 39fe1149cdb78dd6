/** Pricing of one component's cutting list against a rate table: every
    section's length is rounded to market feet and multiplied by the rate for
    that section name, and the amounts are summed. */
module Pricing {
  import opened Rounding

  /** How a shape reacts to a section that has no rate. Most shapes look the
      rate up with a throwing lookup, so a missing rate ends the pricing; the
      fixed, random-fixed and openable windows skip that line instead. */
  datatype RatePolicy = EveryRateRequired | SkipMissingRate

  /** The result of pricing one component: either a total together with the
      names that had no rate and were skipped, or the name of a section whose
      missing rate stopped the pricing. */
  datatype PriceOutcome =
    | Priced(total: real, unpriced: set<string>)
    | MissingRate(section: string)

  /** The amount one section contributes: its rounded length times its rate,
      or nothing when the rate table has no entry for it. */
  function LineAmount(sections: map<string, real>, rates: map<string, real>,
                      rule: RoundingRule, name: string): (amount: real)
    requires name in sections
    ensures name !in rates ==> amount == 0.0
    ensures name in rates && rates[name] >= 0.0 && sections[name] >= 0.0 ==> amount >= 0.0
  {
    if name in rates then Round(rule, sections[name]) * rates[name] else 0.0
  }

  /** The sum of the line amounts of the sections in `names`, in no
      particular order. */
  ghost function LineSum(sections: map<string, real>, rates: map<string, real>,
                         rule: RoundingRule, names: set<string>): real
    requires names <= sections.Keys
    decreases names
  {
    if names == {} then 0.0
    else
      var name :| name in names;
      LineAmount(sections, rates, rule, name) + LineSum(sections, rates, rule, names - {name})
  }

  /** The sum does not depend on which section is taken first: any one of
      them can be split off. */
  lemma {:induction false} LineSumSplit(sections: map<string, real>, rates: map<string, real>,
                                        rule: RoundingRule, names: set<string>, name: string)
    requires names <= sections.Keys && name in names
    ensures LineSum(sections, rates, rule, names)
         == LineAmount(sections, rates, rule, name) + LineSum(sections, rates, rule, names - {name})
    decreases names
  {
    var first :| first in names && LineSum(sections, rates, rule, names)
      == LineAmount(sections, rates, rule, first) + LineSum(sections, rates, rule, names - {first});
    if first != name {
      LineSumSplit(sections, rates, rule, names - {first}, name);
      LineSumSplit(sections, rates, rule, names - {name}, first);
      assert names - {first} - {name} == names - {name} - {first};
    }
  }

  /** Two rate tables hold the same rates for every name in `names`. */
  ghost predicate RatesAgreeOn(rates: map<string, real>, other: map<string, real>, names: set<string>)
  {
    forall n :: n in names ==> (n in rates <==> n in other) && (n in rates ==> rates[n] == other[n])
  }

  /** A section's amount depends only on its own rate. */
  lemma LineAmountAgree(sections: map<string, real>, rates: map<string, real>,
                        other: map<string, real>, rule: RoundingRule, name: string)
    requires name in sections
    requires name in rates <==> name in other
    requires name in rates ==> rates[name] == other[name]
    ensures LineAmount(sections, rates, rule, name) == LineAmount(sections, other, rule, name)
  {
  }

  /** Two rate tables that agree on the names summed give the same sum. */
  lemma {:induction false} LineSumRatesAgree(sections: map<string, real>, rates: map<string, real>,
                                             other: map<string, real>, rule: RoundingRule,
                                             names: set<string>)
    requires names <= sections.Keys
    requires RatesAgreeOn(rates, other, names)
    ensures LineSum(sections, rates, rule, names) == LineSum(sections, other, rule, names)
    decreases names
  {
    if names != {} {
      var name :| name in names;
      LineSumSplit(sections, rates, rule, names, name);
      LineSumSplit(sections, other, rule, names, name);
      LineAmountAgree(sections, rates, other, rule, name);
      assert RatesAgreeOn(rates, other, names - {name});
      LineSumRatesAgree(sections, rates, other, rule, names - {name});
    }
  }

  /** Taking one section's rate out of the table lowers the sum by exactly
      that section's amount and leaves every other line as it was. */
  lemma DroppingARate(sections: map<string, real>, rates: map<string, real>,
                      rule: RoundingRule, name: string)
    requires name in sections && name in rates
    ensures LineSum(sections, rates - {name}, rule, sections.Keys)
         == LineSum(sections, rates, rule, sections.Keys) - Round(rule, sections[name]) * rates[name]
  {
    var rest := sections.Keys - {name};
    LineSumSplit(sections, rates, rule, sections.Keys, name);
    LineSumSplit(sections, rates - {name}, rule, sections.Keys, name);
    LineSumRatesAgree(sections, rates, rates - {name}, rule, rest);
  }

  /** With non-negative lengths and rates, no total is negative. */
  lemma {:induction false} LineSumNonNegative(sections: map<string, real>, rates: map<string, real>,
                                              rule: RoundingRule, names: set<string>)
    requires names <= sections.Keys
    requires forall n :: n in names ==> sections[n] >= 0.0
    requires forall n :: n in names && n in rates ==> rates[n] >= 0.0
    ensures LineSum(sections, rates, rule, names) >= 0.0
    decreases names
  {
    if names != {} {
      var name :| name in names;
      LineSumSplit(sections, rates, rule, names, name);
      LineSumNonNegative(sections, rates, rule, names - {name});
    }
  }

  /** The pricing loop shared by every shape: walk the sections, skip or
      stop at a section without a rate according to the policy, and add up
      rounded length times rate. */
  method PriceSections(sections: map<string, real>, rates: map<string, real>,
                       rule: RoundingRule, policy: RatePolicy)
    returns (outcome: PriceOutcome)
    ensures outcome.MissingRate? <==> policy == EveryRateRequired && !(sections.Keys <= rates.Keys)
    ensures outcome.MissingRate? ==> outcome.section in sections && outcome.section !in rates
    ensures outcome.Priced? ==> outcome.total == LineSum(sections, rates, rule, sections.Keys)
    ensures outcome.Priced? ==> outcome.unpriced == sections.Keys - rates.Keys
  {
    var total := 0.0;
    var unpriced: set<string> := {};
    var remaining := sections.Keys;
    while remaining != {}
      invariant remaining <= sections.Keys
      invariant total + LineSum(sections, rates, rule, remaining)
             == LineSum(sections, rates, rule, sections.Keys)
      invariant unpriced == (sections.Keys - remaining) - rates.Keys
      invariant policy == EveryRateRequired ==> unpriced == {}
      decreases remaining
    {
      var name :| name in remaining;
      LineSumSplit(sections, rates, rule, remaining, name);
      if name !in rates {
        if policy == EveryRateRequired {
          return MissingRate(name);
        }
        unpriced := unpriced + {name};
      } else {
        total := total + Round(rule, sections[name]) * rates[name];
      }
      remaining := remaining - {name};
    }
    if policy == EveryRateRequired {
      forall n | n in sections ensures n in rates {
        assert n !in unpriced;
      }
    }
    outcome := Priced(total, unpriced);
  }
}
