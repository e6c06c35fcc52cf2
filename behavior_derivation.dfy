/** Role-weighted behaviour derivation (src/lib/behaviorDerivation.ts): each
    function of a stack contributes its profile, weighted by the role it
    holds, to four numeric behaviour dimensions; the temporal focus comes from
    the dominant and auxiliary functions. */
module BehaviorDerivation {
  import opened Types
  import opened Text

  /** ROLE_WEIGHTS. */
  function RoleWeight(role: FunctionRole): (w: real)
    ensures 0.0 < w <= 1.0
  {
    match role
    case Dominant => 1.0
    case Auxiliary => 0.7
    case Tertiary => 0.3
    case Inferior => 0.1
  }

  /** The four numeric dimensions of a profile. */
  datatype Dimension = Abstractness | EmotionalFocus | Structure | RiskTaking

  /** A profile's temporal bias: one of the three definite focuses. */
  type TemporalBias = t: TemporalFocus | t != Mixed witness Present

  datatype FunctionProfile = FunctionProfile(
    abstractness: real,
    emotionalFocus: real,
    structure: real,
    temporalBias: TemporalBias,
    riskTaking: real)
  {
    function Value(d: Dimension): real {
      match d
      case Abstractness => abstractness
      case EmotionalFocus => emotionalFocus
      case Structure => structure
      case RiskTaking => riskTaking
    }
  }

  /** FUNCTION_PROFILES. */
  function Profile(f: CognitiveFunction): FunctionProfile {
    match f
    case Ni => FunctionProfile(1.0, 0.3, 0.6, Future, 0.4)
    case Ne => FunctionProfile(1.0, 0.3, 0.2, Future, 0.8)
    case Si => FunctionProfile(0.1, 0.4, 0.7, Past, 0.2)
    case Se => FunctionProfile(0.2, 0.4, 0.3, Present, 0.9)
    case Ti => FunctionProfile(0.6, 0.1, 0.8, Present, 0.4)
    case Te => FunctionProfile(0.5, 0.2, 0.9, Present, 0.5)
    case Fi => FunctionProfile(0.5, 0.9, 0.4, Present, 0.3)
    case Fe => FunctionProfile(0.4, 1.0, 0.5, Present, 0.5)
  }

  /** Every profile value lies in [0, 1]. */
  lemma ProfileInUnitRange(f: CognitiveFunction, d: Dimension)
    ensures 0.0 <= Profile(f).Value(d) <= 1.0
  {
  }

  /** The weight `func` contributes: its role's weight. */
  function Weight(func: AvatarFunction): real {
    RoleWeight(func.role)
  }

  /** `totalWeight` after the loop has visited all of `stack`. */
  function TotalWeight(stack: seq<AvatarFunction>): (r: real)
    ensures r >= 0.0
    ensures r == 0.0 <==> stack == []
  {
    if stack == [] then 0.0 else TotalWeight(stack[..|stack| - 1]) + Weight(stack[|stack| - 1])
  }

  /** `weightedSum` after the loop has visited all of `stack`. */
  function WeightedSum(stack: seq<AvatarFunction>, d: Dimension): real {
    if stack == [] then 0.0
    else WeightedSum(stack[..|stack| - 1], d) + Contribution(stack[|stack| - 1], d)
  }

  /** What one function adds to the weighted sum. */
  function Contribution(func: AvatarFunction, d: Dimension): real {
    Profile(func.code).Value(d) * Weight(func)
  }

  /** calculateWeightedAverage's result: the weighted mean, or 0.5 when the
      total weight is 0. */
  function WeightedAverage(stack: seq<AvatarFunction>, d: Dimension): real {
    if TotalWeight(stack) > 0.0 then WeightedSum(stack, d) / TotalWeight(stack) else 0.5
  }

  /** calculateWeightedAverage. */
  method CalculateWeightedAverage(functions: seq<AvatarFunction>, dimension: Dimension) returns (r: real)
    ensures r == WeightedAverage(functions, dimension)
  {
    var totalWeight := 0.0;
    var weightedSum := 0.0;
    for i := 0 to |functions|
      invariant totalWeight == TotalWeight(functions[..i])
      invariant weightedSum == WeightedSum(functions[..i], dimension)
    {
      SumsStep(functions, i, dimension);
      // The profile's value in this dimension times the role's weight.
      weightedSum := weightedSum + Contribution(functions[i], dimension);
      totalWeight := totalWeight + Weight(functions[i]);
    }
    assert functions[..|functions|] == functions;
    r := if totalWeight > 0.0 then weightedSum / totalWeight else 0.5;
  }

  /** One more function adds its weight and its weighted value. */
  lemma SumsStep(stack: seq<AvatarFunction>, i: nat, d: Dimension)
    requires i < |stack|
    ensures TotalWeight(stack[..i + 1]) == TotalWeight(stack[..i]) + Weight(stack[i])
    ensures WeightedSum(stack[..i + 1], d) == WeightedSum(stack[..i], d) + Contribution(stack[i], d)
  {
    assert stack[..i + 1][..i] == stack[..i];
  }

  /** An empty stack has no weight, so every dimension is 0.5. */
  lemma EmptyStackAverage(d: Dimension)
    ensures WeightedAverage([], d) == 0.5
  {
  }

  /** A function contributes between 0 and its weight. */
  lemma {:induction false} ContributionBounded(func: AvatarFunction, d: Dimension)
    ensures 0.0 <= Contribution(func, d) <= Weight(func)
  {
    ProfileInUnitRange(func.code, d);
    FractionOfWeight(Profile(func.code).Value(d), Weight(func));
  }

  lemma FractionOfWeight(v: real, w: real)
    requires 0.0 <= v <= 1.0 && w >= 0.0
    ensures 0.0 <= v * w <= w
  {
    assert (1.0 - v) * w >= 0.0;
  }

  /** The weighted sum lies between 0 and the total weight. */
  lemma {:induction false} WeightedSumBounded(stack: seq<AvatarFunction>, d: Dimension)
    ensures 0.0 <= WeightedSum(stack, d) <= TotalWeight(stack)
  {
    if stack != [] {
      var n := |stack| - 1;
      WeightedSumBounded(stack[..n], d);
      ContributionBounded(stack[n], d);
    }
  }

  /** Every dimension of every stack lies in [0, 1]: the weighted mean of
      values in [0, 1], or 0.5 for an empty stack. */
  lemma WeightedAverageInUnitRange(stack: seq<AvatarFunction>, d: Dimension)
    ensures 0.0 <= WeightedAverage(stack, d) <= 1.0
  {
    if stack != [] {
      WeightedSumBounded(stack, d);
      QuotientInUnitRange(WeightedSum(stack, d), TotalWeight(stack));
    }
  }

  lemma QuotientInUnitRange(s: real, t: real)
    requires t > 0.0 && 0.0 <= s <= t
    ensures 0.0 <= s / t <= 1.0
  {
    var q := s / t;
    assert q * t == s;
    assert (1.0 - q) * t == t - s;
  }

  /** determineTemporalFocus. */
  function DetermineTemporalFocus(functions: seq<AvatarFunction>): TemporalFocus {
    var dominant := FindRole(functions, Dominant);
    var auxiliary := FindRole(functions, Auxiliary);
    if dominant.None? then Mixed
    else if auxiliary.Some? && Profile(dominant.value).temporalBias == Profile(auxiliary.value).temporalBias
    then Profile(dominant.value).temporalBias
    else if dominant.value == Ni || dominant.value == Ne then Future
    else if dominant.value == Si then Past
    else if dominant.value == Se then Present
    else Mixed
  }

  /** A judging (thinking or feeling) function. */
  predicate IsJudging(f: CognitiveFunction) {
    f == Te || f == Ti || f == Fe || f == Fi
  }

  /** The temporal focus is always either "mixed" or the dominant's own bias,
      and it is "mixed" exactly when there is no dominant, or the dominant is
      a judging function whose auxiliary is missing or not present-biased. */
  lemma TemporalFocusIsDominantBias(functions: seq<AvatarFunction>)
    ensures DetermineTemporalFocus(functions) == Mixed ||
            (FindRole(functions, Dominant).Some? &&
             DetermineTemporalFocus(functions) == Profile(FindRole(functions, Dominant).value).temporalBias)
    ensures DetermineTemporalFocus(functions) == Mixed <==>
              FindRole(functions, Dominant).None? ||
              (IsJudging(FindRole(functions, Dominant).value) &&
               !(FindRole(functions, Auxiliary).Some? && Profile(FindRole(functions, Auxiliary).value).temporalBias == Present))
  {
  }

  /** The behaviour deriveBehavior computes. */
  function BehaviorOf(functions: seq<AvatarFunction>): AvatarBehavior {
    AvatarBehavior(
      WeightedAverage(functions, Abstractness),
      WeightedAverage(functions, EmotionalFocus),
      WeightedAverage(functions, Structure),
      DetermineTemporalFocus(functions),
      WeightedAverage(functions, RiskTaking))
  }

  predicate InUnitRange(x: real) {
    0.0 <= x <= 1.0
  }

  /** deriveBehavior. */
  method DeriveBehavior(functions: seq<AvatarFunction>) returns (b: AvatarBehavior)
    ensures b == BehaviorOf(functions)
  {
    var abstractness := CalculateWeightedAverage(functions, Abstractness);
    var emotionalFocus := CalculateWeightedAverage(functions, EmotionalFocus);
    var structure := CalculateWeightedAverage(functions, Structure);
    var riskTaking := CalculateWeightedAverage(functions, RiskTaking);
    b := AvatarBehavior(abstractness, emotionalFocus, structure, DetermineTemporalFocus(functions), riskTaking);
  }

  /** Every derived behaviour has its numeric dimensions in [0, 1]. */
  lemma BehaviorInUnitRange(functions: seq<AvatarFunction>)
    ensures InUnitRange(BehaviorOf(functions).abstractness) && InUnitRange(BehaviorOf(functions).emotionalFocus)
    ensures InUnitRange(BehaviorOf(functions).structure) && InUnitRange(BehaviorOf(functions).riskTaking)
  {
    WeightedAverageInUnitRange(functions, Abstractness);
    WeightedAverageInUnitRange(functions, EmotionalFocus);
    WeightedAverageInUnitRange(functions, Structure);
    WeightedAverageInUnitRange(functions, RiskTaking);
  }

  /** The phrases describeBehavior can collect. */
  datatype Trait =
    | HighAbstract | LowAbstract
    | HighEmotional | LowEmotional
    | HighStructure | LowStructure
    | HighRisk | LowRisk
    | FocusOn(focus: TemporalFocus)

  function TraitText(t: Trait): string {
    match t
    case HighAbstract => "highly abstract and conceptual"
    case LowAbstract => "concrete and detail-oriented"
    case HighEmotional => "emotionally attuned"
    case LowEmotional => "logically focused"
    case HighStructure => "systematic and organized"
    case LowStructure => "flexible and adaptive"
    case HighRisk => "bold and spontaneous"
    case LowRisk => "cautious and deliberate"
    case FocusOn(f) => TemporalFocusName(f) + "-focused"
  }

  function Texts(ts: seq<Trait>): (r: seq<string>)
    ensures |r| == |ts|
    ensures forall k :: 0 <= k < |ts| ==> r[k] == TraitText(ts[k])
  {
    seq(|ts|, k requires 0 <= k < |ts| => TraitText(ts[k]))
  }

  /** The phrase a dimension contributes: `high` above 0.7, `low` below 0.3,
      nothing in between. */
  function DimensionTrait(value: real, high: Trait, low: Trait): seq<Trait> {
    if value > 0.7 then [high] else if value < 0.3 then [low] else []
  }

  /** The phrases describeBehavior collects, in order. */
  function DescriptionTraits(b: AvatarBehavior): seq<Trait> {
    DimensionTrait(b.abstractness, HighAbstract, LowAbstract) +
    DimensionTrait(b.emotionalFocus, HighEmotional, LowEmotional) +
    DimensionTrait(b.structure, HighStructure, LowStructure) +
    DimensionTrait(b.riskTaking, HighRisk, LowRisk) +
    [FocusOn(b.temporalFocus)]
  }

  /** Texts distributes over concatenation. */
  lemma TextsAppend(a: seq<Trait>, b: seq<Trait>)
    ensures Texts(a + b) == Texts(a) + Texts(b)
  {
  }

  /** One dimension's step of describeBehavior: push the high phrase above
      0.7, the low phrase below 0.3, nothing otherwise. */
  method PushDimension(parts: seq<string>, value: real, high: Trait, low: Trait) returns (next: seq<string>)
    ensures next == parts + Texts(DimensionTrait(value, high, low))
  {
    next := parts;
    if value > 0.7 {
      next := next + [TraitText(high)];
    } else if value < 0.3 {
      next := next + [TraitText(low)];
    }
  }

  /** describeBehavior: the collected phrases joined by ", ", always ending
      with the temporal-focus phrase. */
  method DescribeBehavior(behavior: AvatarBehavior) returns (r: string)
    ensures r == Join(Texts(DescriptionTraits(behavior)), ", ")
    ensures EndsWith(r, TraitText(FocusOn(behavior.temporalFocus)))
  {
    var parts: seq<string> := [];
    parts := PushDimension(parts, behavior.abstractness, HighAbstract, LowAbstract);
    assert parts == Texts(DimensionTrait(behavior.abstractness, HighAbstract, LowAbstract));
    parts := PushDimension(parts, behavior.emotionalFocus, HighEmotional, LowEmotional);
    parts := PushDimension(parts, behavior.structure, HighStructure, LowStructure);
    parts := PushDimension(parts, behavior.riskTaking, HighRisk, LowRisk);
    parts := parts + [TemporalFocusName(behavior.temporalFocus) + "-focused"];
    DescriptionTextsSplit(behavior);
    DescriptionEndsWithFocus(behavior);
    assert parts == Texts(DescriptionTraits(behavior));
    r := Join(parts, ", ");
  }

  /** The texts of the collected phrases, dimension by dimension. */
  lemma DescriptionTextsSplit(b: AvatarBehavior)
    ensures Texts(DescriptionTraits(b))
            == Texts(DimensionTrait(b.abstractness, HighAbstract, LowAbstract))
               + Texts(DimensionTrait(b.emotionalFocus, HighEmotional, LowEmotional))
               + Texts(DimensionTrait(b.structure, HighStructure, LowStructure))
               + Texts(DimensionTrait(b.riskTaking, HighRisk, LowRisk))
               + [TemporalFocusName(b.temporalFocus) + "-focused"]
  {
    var t1 := DimensionTrait(b.abstractness, HighAbstract, LowAbstract);
    var t2 := DimensionTrait(b.emotionalFocus, HighEmotional, LowEmotional);
    var t3 := DimensionTrait(b.structure, HighStructure, LowStructure);
    var t4 := DimensionTrait(b.riskTaking, HighRisk, LowRisk);
    var t5 := [FocusOn(b.temporalFocus)];
    TextsAppend(t1, t2);
    TextsAppend(t1 + t2, t3);
    TextsAppend(t1 + t2 + t3, t4);
    TextsAppend(t1 + t2 + t3 + t4, t5);
  }

  /** The description always ends with the temporal-focus phrase. */
  lemma DescriptionEndsWithFocus(b: AvatarBehavior)
    ensures EndsWith(Join(Texts(DescriptionTraits(b)), ", "), TraitText(FocusOn(b.temporalFocus)))
  {
    var traits := DescriptionTraits(b);
    assert traits[|traits| - 1] == FocusOn(b.temporalFocus);
    JoinEndsWithLast(Texts(traits), ", ");
  }

  /** How many of the four numeric dimensions are outside [0.3, 0.7]. */
  function Extremes(b: AvatarBehavior): nat {
    (if b.abstractness > 0.7 || b.abstractness < 0.3 then 1 else 0) +
    (if b.emotionalFocus > 0.7 || b.emotionalFocus < 0.3 then 1 else 0) +
    (if b.structure > 0.7 || b.structure < 0.3 then 1 else 0) +
    (if b.riskTaking > 0.7 || b.riskTaking < 0.3 then 1 else 0)
  }

  /** A dimension contributes its high trait exactly above 0.7, its low
      trait exactly below 0.3, and nothing else. */
  lemma DimensionTraitSpec(value: real, high: Trait, low: Trait, x: Trait)
    requires high != low
    ensures x in DimensionTrait(value, high, low) <==> (x == high && value > 0.7) || (x == low && value < 0.3)
    ensures |DimensionTrait(value, high, low)| == if value > 0.7 || value < 0.3 then 1 else 0
  {
  }

  /** One phrase per dimension outside [0.3, 0.7], then the focus phrase,
      which appears only last. */
  lemma DescriptionTraitsShape(b: AvatarBehavior)
    ensures |DescriptionTraits(b)| == Extremes(b) + 1 <= 5
    ensures DescriptionTraits(b)[|DescriptionTraits(b)| - 1] == FocusOn(b.temporalFocus)
    ensures forall k :: 0 <= k < |DescriptionTraits(b)| - 1 ==> !DescriptionTraits(b)[k].FocusOn?
  {
    var t1 := DimensionTrait(b.abstractness, HighAbstract, LowAbstract);
    var t2 := DimensionTrait(b.emotionalFocus, HighEmotional, LowEmotional);
    var t3 := DimensionTrait(b.structure, HighStructure, LowStructure);
    var t4 := DimensionTrait(b.riskTaking, HighRisk, LowRisk);
    var front := t1 + t2 + t3 + t4;
    assert DescriptionTraits(b) == front + [FocusOn(b.temporalFocus)];
    assert forall k :: 0 <= k < |front| ==> front[k] in front;
  }

  /** Each high phrase appears iff its value is above 0.7. */
  lemma HighTraitsMembership(b: AvatarBehavior)
    ensures HighAbstract in DescriptionTraits(b) <==> b.abstractness > 0.7
    ensures HighEmotional in DescriptionTraits(b) <==> b.emotionalFocus > 0.7
    ensures HighStructure in DescriptionTraits(b) <==> b.structure > 0.7
    ensures HighRisk in DescriptionTraits(b) <==> b.riskTaking > 0.7
  {
    DescriptionTraitsParts(b);
  }

  /** Each low phrase appears iff its value is below 0.3. */
  lemma LowTraitsMembership(b: AvatarBehavior)
    ensures LowAbstract in DescriptionTraits(b) <==> b.abstractness < 0.3
    ensures LowEmotional in DescriptionTraits(b) <==> b.emotionalFocus < 0.3
    ensures LowStructure in DescriptionTraits(b) <==> b.structure < 0.3
    ensures LowRisk in DescriptionTraits(b) <==> b.riskTaking < 0.3
  {
    DescriptionTraitsParts(b);
  }

  /** A phrase other than the focus one is collected iff one of the four
      dimensions contributes it. */
  lemma DescriptionTraitsParts(b: AvatarBehavior)
    ensures forall x: Trait :: !x.FocusOn? ==>
              (x in DescriptionTraits(b) <==>
                 x in DimensionTrait(b.abstractness, HighAbstract, LowAbstract)
                 || x in DimensionTrait(b.emotionalFocus, HighEmotional, LowEmotional)
                 || x in DimensionTrait(b.structure, HighStructure, LowStructure)
                 || x in DimensionTrait(b.riskTaking, HighRisk, LowRisk))
  {
    var t1 := DimensionTrait(b.abstractness, HighAbstract, LowAbstract);
    var t2 := DimensionTrait(b.emotionalFocus, HighEmotional, LowEmotional);
    var t3 := DimensionTrait(b.structure, HighStructure, LowStructure);
    var t4 := DimensionTrait(b.riskTaking, HighRisk, LowRisk);
    assert DescriptionTraits(b) == t1 + t2 + t3 + t4 + [FocusOn(b.temporalFocus)];
  }
}
