/**
 * SHAP post-processing: per-feature impacts, their ranking by magnitude, and the
 * rule-based retention recommendations derived from the strongest risk factors.
 */
module Explanations {
  import opened Wrappers
  import opened Strings
  import opened Ranking

  /**
   * The SHAP explainer built for a model. `values` is the positive-class SHAP row
   * for a feature vector (None when the library raises); `expected` is its
   * `expected_value` attribute when it has one.
   */
  datatype ShapEngine = ShapEngine(values: seq<real> -> Option<seq<real>>, expected: Option<real>)

  datatype FeatureImpact = FeatureImpact(feature: string, value: real, shapValue: real, impact: string)

  datatype Explanation = Explanation(
    baseValue: real,
    shapValues: seq<real>,
    featureImpacts: seq<FeatureImpact>,
    topFeatures: seq<FeatureImpact>,
    recommendations: Option<seq<string>>)

  function ImpactOf(feature: string, value: real, shap: real): (r: FeatureImpact)
    ensures r.impact == "positive" <==> shap > 0.0
    ensures r.impact == "positive" || r.impact == "negative"
    ensures r.feature == feature && r.value == value && r.shapValue == shap
  {
    FeatureImpact(feature, value, shap, if shap > 0.0 then "positive" else "negative")
  }

  /** The impacts of zip(names, shap), in that order; None when a name has no feature value. */
  function Impacts(names: seq<string>, shap: seq<real>, x: seq<real>): (r: Option<seq<FeatureImpact>>)
    ensures r.Some? <==> Min(|names|, |shap|) <= |x|
    ensures r.Some? ==> |r.value| == Min(|names|, |shap|)
    ensures r.Some? ==> forall i :: 0 <= i < |r.value| ==>
      r.value[i] == ImpactOf(names[i], x[i], shap[i])
  {
    var n := Min(|names|, |shap|);
    if n > |x| then None
    else Some(seq(n, i requires 0 <= i < n => ImpactOf(names[i], x[i], shap[i])))
  }

  function Magnitude(f: FeatureImpact): real { Abs(f.shapValue) }

  /** `explain_prediction` as a value: None stands for the empty dictionary. */
  function Explain(engine: Option<ShapEngine>, x: seq<real>, names: seq<string>): Option<Explanation> {
    if engine.None? then None
    else
      match engine.value.values(x)
      case None => None
      case Some(shap) =>
        match Impacts(names, shap, x)
        case None => None
        case Some(impacts) =>
          var ranked := SortDesc(impacts, Magnitude);
          Some(Explanation(engine.value.expected.GetOr(0.0), shap, ranked, SliceTo(ranked, 5), None))
  }

  /**
   * A non-empty explanation ranks every zipped (name, SHAP value) pair by decreasing
   * magnitude, keeps the sign rule, and its top features are the first five.
   */
  lemma ExplainShape(engine: Option<ShapEngine>, x: seq<real>, names: seq<string>)
    ensures Explain(engine, x, names).Some? <==>
      engine.Some? && engine.value.values(x).Some?
      && Min(|names|, |engine.value.values(x).value|) <= |x|
    ensures Explain(engine, x, names).Some? ==>
      var e := Explain(engine, x, names).value;
      var shap := engine.value.values(x).value;
      && e.shapValues == shap
      && e.baseValue == engine.value.expected.GetOr(0.0)
      && multiset(e.featureImpacts) == multiset(Impacts(names, shap, x).value)
      && |e.featureImpacts| == Min(|names|, |shap|)
      && SortedDesc(e.featureImpacts, Magnitude)
      && (forall f :: f in e.featureImpacts ==> (f.impact == "positive" <==> f.shapValue > 0.0))
      && e.topFeatures == e.featureImpacts[..Min(5, |e.featureImpacts|)]
      && e.recommendations.None?
  {
    var e := Explain(engine, x, names);
    if e.Some? {
      var shap := engine.value.values(x).value;
      var impacts := Impacts(names, shap, x).value;
      forall f | f in e.value.featureImpacts
        ensures f.impact == "positive" <==> f.shapValue > 0.0
      {
        assert f in multiset(e.value.featureImpacts);
        assert f in multiset(impacts);
        var i :| 0 <= i < |impacts| && impacts[i] == f;
      }
    }
  }

  /** The fixed retention messages; `Text` gives the wording the API returns. */
  datatype Advice =
    | ContractUpgrade | AutoPayment | TechSupportTrial | SecurityPackage | Loyalty
    | Discount | ValueServices | Urgent | SatisfactionCall | Monitor | Survey

  function Text(a: Advice): string {
    match a
    case ContractUpgrade => "Offer a contract upgrade incentive (annual or 2-year plan)"
    case AutoPayment => "Promote automatic payment methods with discount"
    case TechSupportTrial => "Offer complimentary tech support trial"
    case SecurityPackage => "Provide security service package promotion"
    case Loyalty => "Implement loyalty rewards program for long-term customers"
    case Discount => "Consider offering a personalized discount or price adjustment"
    case ValueServices => "Highlight value-added services to justify pricing"
    case Urgent => "\U{26A0}\U{FE0F} HIGH PRIORITY: Immediate customer retention outreach required"
    case SatisfactionCall => "Schedule proactive customer satisfaction call"
    case Monitor => "Monitor customer engagement and satisfaction metrics"
    case Survey => "Conduct customer feedback survey"
  }

  /** Messages that come from a single feature rather than from the probability alone. */
  predicate FromFactor(a: Advice) {
    a in {ContractUpgrade, AutoPayment, TechSupportTrial, SecurityPackage, Loyalty, Discount, ValueServices}
  }

  /** The keywords whose presence in a lower-cased feature name calls for a factor message. */
  function Keywords(a: Advice): seq<string> {
    match a
    case ContractUpgrade => ["month_to_month", "contract"]
    case AutoPayment => ["electronic_check", "payment"]
    case TechSupportTrial => ["tech_support"]
    case SecurityPackage => ["online_security", "security"]
    case Loyalty => ["tenure"]
    case Discount => ["charges"]
    case ValueServices => ["charges"]
    case _ => []
  }

  /** Where a factor message's keyword test stands in the order the rules are tried. */
  function Rank(a: Advice): nat {
    match a
    case ContractUpgrade => 0
    case AutoPayment => 1
    case TechSupportTrial => 2
    case SecurityPackage => 3
    case Loyalty => 4
    case _ => 5
  }

  /** Some keyword of `keywords` occurs in the lower-cased `feature`. */
  predicate MentionsAny(feature: string, keywords: seq<string>) {
    keywords != [] && (ContainsLower(feature, keywords[0]) || MentionsAny(feature, keywords[1..]))
  }

  predicate Mentions(feature: string, a: Advice) {
    MentionsAny(feature, Keywords(a))
  }

  /** The keyword rules written out, one factor message at a time. */
  lemma MentionsRules(feature: string)
    ensures Mentions(feature, ContractUpgrade) <==>
      ContainsLower(feature, "month_to_month") || ContainsLower(feature, "contract")
    ensures Mentions(feature, AutoPayment) <==>
      ContainsLower(feature, "electronic_check") || ContainsLower(feature, "payment")
    ensures Mentions(feature, TechSupportTrial) <==> ContainsLower(feature, "tech_support")
    ensures Mentions(feature, SecurityPackage) <==>
      ContainsLower(feature, "online_security") || ContainsLower(feature, "security")
    ensures Mentions(feature, Loyalty) <==> ContainsLower(feature, "tenure")
    ensures Mentions(feature, Discount) <==> ContainsLower(feature, "charges")
    ensures Mentions(feature, ValueServices) <==> ContainsLower(feature, "charges")
    ensures forall a :: !FromFactor(a) ==> !Mentions(feature, a)
  {
    MentionsTwo(feature, "month_to_month", "contract");
    MentionsTwo(feature, "electronic_check", "payment");
    MentionsOne(feature, "tech_support");
    MentionsTwo(feature, "online_security", "security");
    MentionsOne(feature, "tenure");
    MentionsOne(feature, "charges");
  }

  lemma MentionsOne(feature: string, k: string)
    ensures MentionsAny(feature, [k]) <==> ContainsLower(feature, k)
  {
    assert [k][1..] == [];
  }

  lemma MentionsTwo(feature: string, k1: string, k2: string)
    ensures MentionsAny(feature, [k1, k2]) <==> ContainsLower(feature, k1) || ContainsLower(feature, k2)
  {
    assert [k1, k2][1..] == [k2];
    MentionsOne(feature, k2);
  }

  /**
   * The message a risk factor yields: the rules are tried in `Rank` order and the
   * first whose keyword occurs in the lower-cased feature name decides; the
   * "charges" rule picks the discount above probability 0.7.
   */
  function FactorAdvice(feature: string, p: real): (r: Option<Advice>)
    ensures r.None? <==> forall a :: FromFactor(a) ==> !Mentions(feature, a)
    ensures r.Some? ==> FromFactor(r.value) && Mentions(feature, r.value)
    ensures r.Some? ==> forall a :: FromFactor(a) && Rank(a) < Rank(r.value) ==> !Mentions(feature, a)
    ensures r.Some? && Rank(r.value) == 5 ==> r.value == (if p > 0.7 then Discount else ValueServices)
  {
    MentionsRules(feature);
    if ContainsLower(feature, "month_to_month") || ContainsLower(feature, "contract") then Some(ContractUpgrade)
    else if ContainsLower(feature, "electronic_check") || ContainsLower(feature, "payment") then Some(AutoPayment)
    else if ContainsLower(feature, "tech_support") then Some(TechSupportTrial)
    else if ContainsLower(feature, "online_security") || ContainsLower(feature, "security") then Some(SecurityPackage)
    else if ContainsLower(feature, "tenure") then Some(Loyalty)
    else if ContainsLower(feature, "charges") then Some(if p > 0.7 then Discount else ValueServices)
    else None
  }

  predicate IsRiskFactor(f: FeatureImpact) { f.shapValue > 0.0 }

  /**
   * The first three impacts that raise the churn risk: the impact at position `k`
   * with positive SHAP value is factor number `CountIf(impacts[..k], IsRiskFactor)`
   * when that is below three, and there are no other factors.
   */
  function RiskFactors(impacts: seq<FeatureImpact>): (r: seq<FeatureImpact>)
    ensures |r| == Min(3, CountIf(impacts, IsRiskFactor))
    ensures forall i :: 0 <= i < |r| ==> r[i] in impacts && r[i].shapValue > 0.0
    ensures forall k ::
      0 <= k < |impacts| && IsRiskFactor(impacts[k]) && CountIf(impacts[..k], IsRiskFactor) < 3 ==>
        CountIf(impacts[..k], IsRiskFactor) < |r| && r[CountIf(impacts[..k], IsRiskFactor)] == impacts[k]
  {
    FilterIndexed(impacts, IsRiskFactor);
    SliceTo(Filter(impacts, IsRiskFactor), 3)
  }

  /** Each factor's message, in factor order; factors without one are skipped. */
  function AdviceOf(factors: seq<FeatureImpact>, p: real): (r: seq<Option<Advice>>)
    ensures |r| == |factors|
    ensures forall i :: 0 <= i < |factors| ==> r[i] == FactorAdvice(factors[i].feature, p)
  {
    seq(|factors|, i requires 0 <= i < |factors| => FactorAdvice(factors[i].feature, p))
  }

  /** The messages of `factors`, in order, at most one per factor. */
  function FactorsAdvice(factors: seq<FeatureImpact>, p: real): (r: seq<Advice>)
    ensures r == Somes(AdviceOf(factors, p))
    ensures |r| <= |factors|
    ensures forall i :: 0 <= i < |r| ==> FromFactor(r[i])
  {
    if factors == [] then []
    else
      var last := factors[|factors| - 1];
      var init := factors[..|factors| - 1];
      SomesSnoc(AdviceOf(init, p), FactorAdvice(last.feature, p));
      assert AdviceOf(factors, p) == AdviceOf(init, p) + [FactorAdvice(last.feature, p)];
      FactorsAdvice(init, p)
        + match FactorAdvice(last.feature, p) case None => [] case Some(m) => [m]
  }

  /** The general message, chosen by the churn probability alone. */
  function GeneralAdvice(p: real): (r: seq<Advice>)
    ensures r == [Urgent] <==> p > 0.8
    ensures r == [SatisfactionCall] <==> 0.6 < p <= 0.8
    ensures r == [] <==> p <= 0.6
  {
    if p > 0.8 then [Urgent]
    else if p > 0.6 then [SatisfactionCall]
    else []
  }

  /**
   * The final list built from the factor messages `fa`: the general message is
   * appended, the two fallback messages replace an empty list, and at most five are kept.
   */
  function Assemble(fa: seq<Advice>, p: real): seq<Advice> {
    var found := fa + GeneralAdvice(p);
    SliceTo(if found == [] then [Monitor, Survey] else found, 5)
  }

  /** The messages `generate_recommendations` returns, before wording. */
  function Recommended(impacts: seq<FeatureImpact>, p: real): seq<Advice> {
    Assemble(FactorsAdvice(RiskFactors(impacts), p), p)
  }

  function Texts(s: seq<Advice>): (r: seq<string>)
    ensures |r| == |s| && forall i :: 0 <= i < |s| ==> r[i] == Text(s[i])
  {
    seq(|s|, i requires 0 <= i < |s| => Text(s[i]))
  }

  /** `generate_recommendations` as a value. */
  function Recommendations(impacts: seq<FeatureImpact>, p: real): seq<string> {
    Texts(Recommended(impacts, p))
  }

  /** At most three factor messages: nothing is cut, and the list holds one to four messages. */
  lemma AssembleBounds(fa: seq<Advice>, p: real)
    requires |fa| <= 3
    ensures Assemble(fa, p) == if fa + GeneralAdvice(p) == [] then [Monitor, Survey] else fa + GeneralAdvice(p)
    ensures 1 <= |Assemble(fa, p)| <= 4
  {
  }

  lemma AssembleFallback(fa: seq<Advice>, p: real)
    requires |fa| <= 3 && forall i :: 0 <= i < |fa| ==> FromFactor(fa[i])
    ensures Assemble(fa, p) == [Monitor, Survey] <==> fa == [] && p <= 0.6
  {
    AssembleBounds(fa, p);
    if fa != [] {
      assert Assemble(fa, p)[0] == fa[0];
    } else if p > 0.6 {
      assert Assemble(fa, p) == GeneralAdvice(p);
    }
  }

  lemma AssembleGeneral(fa: seq<Advice>, p: real)
    requires |fa| <= 3 && forall i :: 0 <= i < |fa| ==> FromFactor(fa[i])
    ensures Urgent in Assemble(fa, p) <==> p > 0.8
    ensures SatisfactionCall in Assemble(fa, p) <==> 0.6 < p <= 0.8
  {
    AssembleBounds(fa, p);
    assert forall a :: a in fa ==> FromFactor(a);
  }

  /** The list is never empty and never longer than five (in fact four). */
  lemma RecommendedBounds(impacts: seq<FeatureImpact>, p: real)
    ensures 1 <= |Recommended(impacts, p)| <= 4
  {
    AssembleBounds(FactorsAdvice(RiskFactors(impacts), p), p);
  }

  /**
   * The two fallback messages appear exactly when no risk factor matched a keyword
   * and the probability is at most 0.6.
   */
  lemma RecommendedFallback(impacts: seq<FeatureImpact>, p: real)
    ensures Recommended(impacts, p) == [Monitor, Survey]
      <==> FactorsAdvice(RiskFactors(impacts), p) == [] && p <= 0.6
  {
    AssembleFallback(FactorsAdvice(RiskFactors(impacts), p), p);
  }

  /**
   * The urgent message is present exactly when p > 0.8, the satisfaction call exactly
   * when 0.6 < p <= 0.8, and above 0.6 the list is the factor messages then the general one.
   */
  lemma RecommendedGeneral(impacts: seq<FeatureImpact>, p: real)
    ensures Urgent in Recommended(impacts, p) <==> p > 0.8
    ensures SatisfactionCall in Recommended(impacts, p) <==> 0.6 < p <= 0.8
    ensures p > 0.6 ==>
      Recommended(impacts, p) == FactorsAdvice(RiskFactors(impacts), p) + GeneralAdvice(p)
  {
    var fa := FactorsAdvice(RiskFactors(impacts), p);
    AssembleBounds(fa, p);
    AssembleGeneral(fa, p);
  }

  class Explainer {
    var engine: Option<ShapEngine>

    /** `engine` is the SHAP explainer built for the model, None when building it failed. */
    constructor (engine: Option<ShapEngine>)
      ensures this.engine == engine
    {
      this.engine := engine;
    }

    method ExplainPrediction(x: seq<real>, names: seq<string>) returns (r: Option<Explanation>)
      ensures r == Explain(engine, x, names)
    {
      if engine.None? {
        return None;
      }
      var values := engine.value.values(x);
      if values.None? {
        return None;
      }
      var shap := values.value;
      var impacts: seq<FeatureImpact> := [];
      var i := 0;
      while i < |names| && i < |shap|
        invariant 0 <= i <= Min(|names|, |shap|)
        invariant i <= |x|
        invariant |impacts| == i
        invariant forall j :: 0 <= j < i ==> impacts[j] == ImpactOf(names[j], x[j], shap[j])
      {
        if i >= |x| {
          return None;
        }
        impacts := impacts + [ImpactOf(names[i], x[i], shap[i])];
        i := i + 1;
      }
      assert i == Min(|names|, |shap|);
      assert Impacts(names, shap, x).value == impacts;
      var ranked := SortDesc(impacts, Magnitude);
      r := Some(Explanation(engine.value.expected.GetOr(0.0), shap, ranked, SliceTo(ranked, 5), None));
    }

    /** The first `topN` ranked impacts (Python slice), or [] for an empty explanation. */
    method GetTopFeatures(x: seq<real>, names: seq<string>, topN: int) returns (r: seq<FeatureImpact>)
      ensures Explain(engine, x, names).None? ==> r == []
      ensures Explain(engine, x, names).Some? ==>
        r == SliceTo(Explain(engine, x, names).value.featureImpacts, topN)
    {
      var e := ExplainPrediction(x, names);
      if e.None? {
        return [];
      }
      r := SliceTo(e.value.featureImpacts, topN);
    }

    method GenerateRecommendations(impacts: seq<FeatureImpact>, p: real) returns (r: seq<string>)
      ensures r == Recommendations(impacts, p)
      ensures 1 <= |r| <= 5
    {
      var factors := RiskFactors(impacts);
      var recs: seq<Advice> := [];
      for i := 0 to |factors|
        invariant recs == FactorsAdvice(factors[..i], p)
      {
        assert factors[..i + 1][..i] == factors[..i];
        var advice := FactorAdvice(factors[i].feature, p);
        if advice.Some? {
          recs := recs + [advice.value];
        }
      }
      assert factors[..|factors|] == factors;
      AssembleBounds(recs, p);
      recs := recs + GeneralAdvice(p);
      if recs == [] {
        recs := [Monitor, Survey];
      }
      r := Texts(SliceTo(recs, 5));
    }

    /** The explanation with its recommendations attached; an empty one stays empty. */
    method ExplainWithRecommendations(x: seq<real>, names: seq<string>, p: real)
      returns (r: Option<Explanation>)
      ensures r.None? <==> Explain(engine, x, names).None?
      ensures r.Some? ==>
        r.value == Explain(engine, x, names).value
          .(recommendations := Some(Recommendations(r.value.featureImpacts, p)))
    {
      var e := ExplainPrediction(x, names);
      if e.None? {
        return None;
      }
      var recs := GenerateRecommendations(e.value.featureImpacts, p);
      r := Some(e.value.(recommendations := Some(recs)));
    }
  }
}
