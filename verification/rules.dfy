/**
  Post-processing of the association rules the miner returns: ranking by
  lift, the top-20 slice, how often each item occurs as an antecedent or a
  consequent, and the cross-sell lookup `recommend_for_product`.
  The miner itself is not modelled; its rules are the input.
*/
module Rules {
  import opened Ranking

  /** One mined rule, with the five columns the script reports. */
  datatype Rule = Rule(
    antecedents: set<string>,
    consequents: set<string>,
    support: real,
    confidence: real,
    lift: real)

  /** Which side of a rule an item count looks at. */
  datatype Side = Antecedents | Consequents

  /** Size of the slice of best rules the script reports. */
  const TopRuleCount: int := 20

  /** Number of most common items the script reports per side. */
  const TopItemCount: int := 20

  /** Default number of recommendations. */
  const DefaultTopN: int := 5

  function LiftOf(r: Rule): real { r.lift }

  function ItemsOn(r: Rule, side: Side): set<string>
  {
    match side
    case Antecedents => r.antecedents
    case Consequents => r.consequents
  }

  /** `rules.sort_values("lift", ascending=False)`. */
  function RankRules(rules: seq<Rule>): (r: seq<Rule>)
    ensures SortedDesc(r, LiftOf)
    ensures multiset(r) == multiset(rules)
    ensures |r| == |rules|
  {
    var r := SortDesc(rules, LiftOf);
    assert |r| == |multiset(r)| == |multiset(rules)| == |rules|;
    r
  }

  /**
    `rules.head(k)` after the lift sort: a prefix of the ranked list, and no
    rule left out has a higher lift than a rule kept.
  */
  function TopRules(rules: seq<Rule>, k: int := TopRuleCount): (r: seq<Rule>)
    ensures SortedDesc(r, LiftOf)
    ensures multiset(r) <= multiset(rules)
    ensures k >= 0 ==> |r| == Min(k, |rules|)
    ensures forall x, y | x in multiset(rules) - multiset(r) && y in r :: x.lift <= y.lift
  {
    TopN(rules, k, LiftOf)
  }

  /** The rules whose antecedent set contains `product`, exactly and case-sensitively, in input order. */
  function Matching(rules: seq<Rule>, product: string): (r: seq<Rule>)
    ensures forall x :: multiset(r)[x] == if product in x.antecedents then multiset(rules)[x] else 0
  {
    if rules == [] then []
    else
      var rest := Matching(rules[1..], product);
      assert rules == [rules[0]] + rules[1..];
      if product in rules[0].antecedents then [rules[0]] + rest else rest
  }

  /**
    `recommend_for_product(product, rules, top_n)`: an empty result when no
    antecedent contains `product`, else the matching rules ranked by lift
    and cut by `head(top_n)`.
  */
  function Recommend(product: string, rules: seq<Rule>, topN: int := DefaultTopN): (r: seq<Rule>)
    ensures forall x | x in r :: product in x.antecedents
    ensures SortedDesc(r, LiftOf)
    ensures multiset(r) <= multiset(rules)
    ensures topN >= 0 ==> |r| == Min(topN, |Matching(rules, product)|)
    ensures (forall x | x in rules :: product !in x.antecedents) ==> r == []
    ensures forall x, y | x in multiset(Matching(rules, product)) - multiset(r) && y in r :: x.lift <= y.lift
  {
    var subset := Matching(rules, product);
    if |subset| == 0 then []
    else
      var r := TopN(subset, topN, LiftOf);
      MatchingFacts(rules, product, r);
      r
  }

  /** What a sub-multiset of the matching rules inherits from them. */
  lemma MatchingFacts(rules: seq<Rule>, product: string, r: seq<Rule>)
    requires multiset(r) <= multiset(Matching(rules, product))
    ensures forall x | x in r :: product in x.antecedents
    ensures multiset(r) <= multiset(rules)
    ensures (forall x | x in rules :: product !in x.antecedents) ==> Matching(rules, product) == []
  {
  }

  /**
    The items on one side of every rule, flattened: each rule contributes
    each member once, so an item occurs once per rule whose set contains it.
  */
  function Flatten(rules: seq<Rule>, side: Side): (r: multiset<string>)
    ensures forall x :: r[x] == RulesContaining(rules, side, x)
  {
    if rules == [] then multiset{} else multiset(ItemsOn(rules[0], side)) + Flatten(rules[1..], side)
  }

  /** The number of rules whose `side` set contains `item`. */
  function RulesContaining(rules: seq<Rule>, side: Side, item: string): nat
  {
    if rules == [] then 0
    else (if item in ItemsOn(rules[0], side) then 1 else 0) + RulesContaining(rules[1..], side, item)
  }

  /** The distinct elements of a multiset. */
  function Distinct(bag: multiset<string>): set<string>
  {
    set x | x in bag
  }

  /** The elements of a set in some order. */
  ghost function Enumerate(s: set<string>): (r: seq<string>)
    ensures multiset(r) == multiset(s)
  {
    if s == {} then []
    else
      var x :| x in s;
      var r := [x] + Enumerate(s - {x});
      assert multiset(s) == multiset{x} + multiset(s - {x});
      r
  }

  /** A sequence that fits inside a set, counting multiplicity, repeats no element. */
  lemma NoRepeats(r: seq<string>, s: set<string>)
    requires multiset(r) <= multiset(s)
    ensures forall i, j | 0 <= i < j < |r| :: r[i] != r[j]
  {
    forall i, j | 0 <= i < j < |r|
      ensures r[i] != r[j]
    {
      assert r == r[..j] + [r[j]] + r[j+1..];
      assert r[i] in r[..j];
      assert multiset(r)[r[j]] >= multiset(r[..j])[r[j]] + 1;
      assert multiset(r)[r[j]] <= 1;
    }
  }

  /**
    `pd.Series(items).value_counts().head(n)`: distinct items of the bag,
    most frequent first; no item left out occurs more often than one listed.
  */
  ghost function MostCommon(bag: multiset<string>, n: int): (r: seq<string>)
    ensures multiset(r) <= multiset(Distinct(bag))
    ensures forall i, j | 0 <= i < j < |r| :: bag[r[i]] >= bag[r[j]]
    ensures n >= 0 ==> |r| == Min(n, |Distinct(bag)|)
    ensures forall x, y | x in bag && x !in r && y in r :: bag[x] <= bag[y]
  {
    var count := (x: string) => bag[x] as real;
    var all := Enumerate(Distinct(bag));
    assert |all| == |multiset(all)| == |multiset(Distinct(bag))| == |Distinct(bag)|;
    var r := TopN(all, n, count);
    assert forall i, j | 0 <= i < j < |r| :: count(r[i]) >= count(r[j]);
    forall x, y | x in bag && x !in r && y in r
      ensures bag[x] <= bag[y]
    {
      assert x in Distinct(bag);
      assert x in multiset(all) - multiset(r);
      assert count(x) <= count(y);
    }
    r
  }

  /** `ant_freq` and `cons_freq`: the most common items on one side of the rules. */
  ghost function ItemFrequencies(rules: seq<Rule>, side: Side, n: int := TopItemCount): (r: seq<string>)
    ensures n >= 0 ==> |r| == Min(n, |Distinct(Flatten(rules, side))|)
    ensures multiset(r) <= multiset(Distinct(Flatten(rules, side)))
    ensures forall i, j | 0 <= i < j < |r| :: r[i] != r[j]
    ensures forall x | x in r :: RulesContaining(rules, side, x) > 0
    ensures forall i, j | 0 <= i < j < |r| :: RulesContaining(rules, side, r[i]) >= RulesContaining(rules, side, r[j])
    ensures forall x, y | x !in r && y in r :: RulesContaining(rules, side, x) <= RulesContaining(rules, side, y)
  {
    var bag := Flatten(rules, side);
    var r := MostCommon(bag, n);
    NoRepeats(r, Distinct(bag));
    forall x | x in r ensures x in bag
    {
      assert x in multiset(Distinct(bag));
    }
    r
  }
}
