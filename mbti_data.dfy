/** The static MBTI tables of src/lib/mbtiData.ts: the sixteen type
    configurations (MBTI_TYPES) with their four-function stacks, and the
    one-line description of each cognitive function (FUNCTION_DESCRIPTIONS). */
module MbtiData {
  import opened Types
  import CognitivePhysics

  /** The sixteen keys of MBTI_TYPES, in the record's order. */
  datatype MbtiType =
    INTJ | INTP | ENTJ | ENTP | INFJ | INFP | ENFJ | ENFP | ISTJ | ISFJ | ESTJ | ESFJ | ISTP | ISFP | ESTP | ESFP

  function AllTypes(): (r: seq<MbtiType>)
    ensures |r| == 16
  {
    [INTJ, INTP, ENTJ, ENTP, INFJ, INFP, ENFJ, ENFP, ISTJ, ISFJ, ESTJ, ESFJ, ISTP, ISFP, ESTP, ESFP]
  }

  /** The key, equal to the entry's `type` field. */
  function TypeName(t: MbtiType): string {
    match t
    case INTJ => "INTJ"
    case INTP => "INTP"
    case ENTJ => "ENTJ"
    case ENTP => "ENTP"
    case INFJ => "INFJ"
    case INFP => "INFP"
    case ENFJ => "ENFJ"
    case ENFP => "ENFP"
    case ISTJ => "ISTJ"
    case ISFJ => "ISFJ"
    case ESTJ => "ESTJ"
    case ESFJ => "ESFJ"
    case ISTP => "ISTP"
    case ISFP => "ISFP"
    case ESTP => "ESTP"
    case ESFP => "ESFP"
  }

  /** `MBTI_TYPES[key]`: the entry whose key is `key`, if there is one. */
  function LookupType(key: string): (r: Option<MbtiType>)
    ensures r.Some? ==> TypeName(r.value) == key
  {
    if key == "INTJ" then Some(INTJ)
    else if key == "INTP" then Some(INTP)
    else if key == "ENTJ" then Some(ENTJ)
    else if key == "ENTP" then Some(ENTP)
    else if key == "INFJ" then Some(INFJ)
    else if key == "INFP" then Some(INFP)
    else if key == "ENFJ" then Some(ENFJ)
    else if key == "ENFP" then Some(ENFP)
    else if key == "ISTJ" then Some(ISTJ)
    else if key == "ISFJ" then Some(ISFJ)
    else if key == "ESTJ" then Some(ESTJ)
    else if key == "ESFJ" then Some(ESFJ)
    else if key == "ISTP" then Some(ISTP)
    else if key == "ISFP" then Some(ISFP)
    else if key == "ESTP" then Some(ESTP)
    else if key == "ESFP" then Some(ESFP)
    else None
  }

  /** A stack written dominant, auxiliary, tertiary, inferior. */
  datatype Stack = Stack(dominant: CognitiveFunction, auxiliary: CognitiveFunction,
                         tertiary: CognitiveFunction, inferior: CognitiveFunction)

  function TypeStack(t: MbtiType): Stack {
    match t
    case INTJ => Stack(Ni, Te, Fi, Se)
    case INTP => Stack(Ti, Ne, Si, Fe)
    case ENTJ => Stack(Te, Ni, Se, Fi)
    case ENTP => Stack(Ne, Ti, Fe, Si)
    case INFJ => Stack(Ni, Fe, Ti, Se)
    case INFP => Stack(Fi, Ne, Si, Te)
    case ENFJ => Stack(Fe, Ni, Se, Ti)
    case ENFP => Stack(Ne, Fi, Te, Si)
    case ISTJ => Stack(Si, Te, Fi, Ne)
    case ISFJ => Stack(Si, Fe, Ti, Ne)
    case ESTJ => Stack(Te, Si, Ne, Fi)
    case ESFJ => Stack(Fe, Si, Ne, Ti)
    case ISTP => Stack(Ti, Se, Ni, Fe)
    case ISFP => Stack(Fi, Se, Ni, Te)
    case ESTP => Stack(Se, Ti, Fe, Ni)
    case ESFP => Stack(Se, Fi, Te, Ni)
  }

  /** The entry's `functions` array. */
  function Functions(t: MbtiType): (r: seq<AvatarFunction>)
    ensures RolesInOrder(r)
  {
    var s := TypeStack(t);
    [AvatarFunction(s.dominant, Dominant), AvatarFunction(s.auxiliary, Auxiliary),
     AvatarFunction(s.tertiary, Tertiary), AvatarFunction(s.inferior, Inferior)]
  }

  function TypeDescription(t: MbtiType): string {
    match t
    case INTJ => "Strategic visionary with strong internal framework. Focuses on long-term implications and systematic implementation."
    case INTP => "Analytical theorist who explores logical possibilities. Values precision and conceptual accuracy."
    case ENTJ => "Decisive leader focused on efficient execution. Organizes resources toward strategic goals."
    case ENTP => "Innovative debater who challenges assumptions. Generates novel solutions through logical exploration."
    case INFJ => "Insightful advocate who reads underlying patterns. Seeks harmony while pursuing meaningful vision."
    case INFP => "Idealistic mediator guided by core values. Explores possibilities that align with authentic principles."
    case ENFJ => "Charismatic mentor who inspires collective growth. Facilitates group harmony toward shared vision."
    case ENFP => "Enthusiastic champion of authentic possibilities. Energizes others with passionate exploration."
    case ISTJ => "Reliable administrator who values proven methods. Maintains order through detailed attention and responsibility."
    case ISFJ => "Devoted protector who preserves traditions and care. Supports others through practical attention to needs."
    case ESTJ => "Organized director who enforces standards. Manages systems efficiently based on established best practices."
    case ESFJ => "Caring host who maintains social harmony. Nurtures community through attentive service and tradition."
    case ISTP => "Practical troubleshooter who analyzes mechanics. Adapts efficiently to immediate physical challenges."
    case ISFP => "Gentle artist who experiences authentic beauty. Responds to present moments with personal values."
    case ESTP => "Bold entrepreneur who seizes opportunities. Acts decisively based on logical assessment of current reality."
    case ESFP => "Spontaneous entertainer who celebrates life. Engages others through authentic, present-moment enthusiasm."
  }

  datatype MbtiConfig = MbtiConfig(mbtiType: string, functions: seq<AvatarFunction>, description: string)

  /** The MBTI_TYPES entry for `t`. */
  function Config(t: MbtiType): MbtiConfig {
    MbtiConfig(TypeName(t), Functions(t), TypeDescription(t))
  }

  /** FUNCTION_DESCRIPTIONS. */
  function FunctionDescription(f: CognitiveFunction): string {
    match f
    case Ni => "Introverted Intuition: Synthesizes patterns into singular insights about future implications"
    case Ne => "Extraverted Intuition: Explores multiple possibilities and novel connections"
    case Si => "Introverted Sensing: Recalls detailed personal experiences and compares to present"
    case Se => "Extraverted Sensing: Engages directly with immediate sensory reality"
    case Ti => "Introverted Thinking: Builds precise internal logical frameworks"
    case Te => "Extraverted Thinking: Organizes external systems for efficient outcomes"
    case Fi => "Introverted Feeling: Evaluates based on deeply held personal values"
    case Fe => "Extraverted Feeling: Harmonizes group emotions and social atmosphere"
  }

  datatype Attitude = Extraverted | Introverted
  datatype Kind = Thinking | Feeling | Sensing | Intuition

  function AttitudeOf(f: CognitiveFunction): Attitude {
    match f
    case Te => Extraverted case Fe => Extraverted case Se => Extraverted case Ne => Extraverted
    case Ti => Introverted case Fi => Introverted case Si => Introverted case Ni => Introverted
  }

  function KindOf(f: CognitiveFunction): Kind {
    match f
    case Te => Thinking case Ti => Thinking case Fe => Feeling case Fi => Feeling
    case Se => Sensing case Si => Sensing case Ne => Intuition case Ni => Intuition
  }

  /** Judging (T/F) functions against perceiving (S/N) ones. */
  predicate IsJudging(k: Kind) {
    k == Thinking || k == Feeling
  }

  /** Full opposites: the other attitude and the other function of the same
      axis (T against F, S against N). */
  predicate FullOpposites(f: CognitiveFunction, g: CognitiveFunction) {
    AttitudeOf(f) != AttitudeOf(g) && KindOf(f) != KindOf(g) && IsJudging(KindOf(f)) == IsJudging(KindOf(g))
  }

  /** The stack lists the four roles in order dominant, auxiliary, tertiary,
      inferior. */
  predicate RolesInOrder(stack: seq<AvatarFunction>) {
    |stack| == 4 && stack[0].role == Dominant && stack[1].role == Auxiliary &&
    stack[2].role == Tertiary && stack[3].role == Inferior
  }

  /** The shape the typology prescribes: dominant and auxiliary of opposite
      attitudes, one judging and one perceiving; the inferior the full opposite
      of the dominant, the tertiary the full opposite of the auxiliary. */
  predicate Typological(s: Stack) {
    AttitudeOf(s.dominant) != AttitudeOf(s.auxiliary) &&
    IsJudging(KindOf(s.dominant)) != IsJudging(KindOf(s.auxiliary)) &&
    FullOpposites(s.dominant, s.inferior) && FullOpposites(s.auxiliary, s.tertiary)
  }

  /** The four functions come from four different inverse pairs. */
  predicate DistinctPairs(s: Stack) {
    var p := CognitivePhysics.PairOf;
    p(s.dominant) != p(s.auxiliary) && p(s.dominant) != p(s.tertiary) && p(s.dominant) != p(s.inferior) &&
    p(s.auxiliary) != p(s.tertiary) && p(s.auxiliary) != p(s.inferior) && p(s.tertiary) != p(s.inferior)
  }

  /** The key lookup finds exactly the sixteen types, each under its own name. */
  lemma LookupTypeRoundTrip(t: MbtiType)
    ensures LookupType(TypeName(t)) == Some(t)
  {
  }

  /** Every stack of the table follows the typology. */
  lemma TypeStacksTypological(t: MbtiType)
    ensures Typological(TypeStack(t))
  {
  }

  /** A typological stack always draws from four different inverse pairs. */
  lemma TypologicalHasDistinctPairs(s: Stack)
    requires Typological(s)
    ensures DistinctPairs(s)
  {
  }

  /** Distinct pairs with the roles in order is what the position derivation
      needs for its bijection. */
  lemma DistinctPairsIsValid(t: MbtiType)
    requires DistinctPairs(TypeStack(t))
    ensures CognitivePhysics.ValidStack(Functions(t))
  {
    var s := TypeStack(t);
    assert CognitivePhysics.RolesOf(Functions(t)) ==
      CognitivePhysics.Roles(Some(s.dominant), Some(s.auxiliary), Some(s.tertiary), Some(s.inferior));
  }

  /** Every type's stack derives a one-to-one position map. */
  lemma TypePositionsBijective(t: MbtiType)
    ensures forall f, g :: f != g ==>
              CognitivePhysics.DerivedPosition(Functions(t), f) != CognitivePhysics.DerivedPosition(Functions(t), g)
  {
    TypeStacksTypological(t);
    TypologicalHasDistinctPairs(TypeStack(t));
    DistinctPairsIsValid(t);
    CognitivePhysics.DerivedPositionsBijective(Functions(t));
  }

  /** INTJ: Ni 1, Te 2, Si 3, Fe 4, Se 5, Fi 6, Ne 7, Ti 8. */
  lemma IntjPositions()
    ensures CognitivePhysics.DerivedPosition(Functions(INTJ), Ni) == 1
    ensures CognitivePhysics.DerivedPosition(Functions(INTJ), Te) == 2
    ensures CognitivePhysics.DerivedPosition(Functions(INTJ), Si) == 3
    ensures CognitivePhysics.DerivedPosition(Functions(INTJ), Fe) == 4
    ensures CognitivePhysics.DerivedPosition(Functions(INTJ), Se) == 5
    ensures CognitivePhysics.DerivedPosition(Functions(INTJ), Fi) == 6
    ensures CognitivePhysics.DerivedPosition(Functions(INTJ), Ne) == 7
    ensures CognitivePhysics.DerivedPosition(Functions(INTJ), Ti) == 8
  {
    IntjRoles();
    IntjRulePositions();
  }

  /** The position rules applied to INTJ's roles. */
  lemma IntjRulePositions()
    ensures var r := CognitivePhysics.Roles(Some(Ni), Some(Te), Some(Fi), Some(Se));
            CognitivePhysics.LastRule(8, r, Ni) == 1 && CognitivePhysics.LastRule(8, r, Te) == 2 &&
            CognitivePhysics.LastRule(8, r, Si) == 3 && CognitivePhysics.LastRule(8, r, Fe) == 4 &&
            CognitivePhysics.LastRule(8, r, Se) == 5 && CognitivePhysics.LastRule(8, r, Fi) == 6 &&
            CognitivePhysics.LastRule(8, r, Ne) == 7 && CognitivePhysics.LastRule(8, r, Ti) == 8
  {
  }

  /** INTJ's stack: Ni dominant, Te auxiliary, Fi tertiary, Se inferior. */
  lemma IntjRoles()
    ensures CognitivePhysics.RolesOf(Functions(INTJ)) == CognitivePhysics.Roles(Some(Ni), Some(Te), Some(Fi), Some(Se))
  {
  }
}
