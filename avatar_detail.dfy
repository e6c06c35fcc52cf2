/** The strengths and blind-spot summaries of the avatar detail drawer
    (src/features/avatars/AvatarDetailDrawer.tsx). */
module AvatarDetail {
  import opened Types
  import opened Text

  /** The separator of the shown phrases. */
  const Separator := ", "

  const BalancedApproach := "balanced approach"
  const WellRounded := "well-rounded"

  /** `phrases.slice(0, 3).join(", ") || fallback`. */
  function Summary(phrases: seq<string>, fallback: string): string
  {
    var shown := Join(phrases[..if |phrases| < 3 then |phrases| else 3], Separator);
    if shown == [] then fallback else shown
  }

  /** A join of non-empty parts is empty only when there are no parts. */
  lemma {:induction false} JoinNonEmpty(parts: seq<string>, sep: string)
    requires |parts| > 0 && parts[0] != []
    ensures Join(parts, sep) != []
  {
    JoinStartsWithFirst(parts, sep);
  }

  /** With no phrase the summary is the fallback; otherwise it is the first
      one to three phrases joined, starting with the first phrase and ending
      with the last one shown. */
  lemma SummaryShape(phrases: seq<string>, fallback: string)
    requires forall i :: 0 <= i < |phrases| ==> phrases[i] != []
    ensures phrases == [] ==> Summary(phrases, fallback) == fallback
    ensures phrases != [] ==>
              var n := if |phrases| < 3 then |phrases| else 3;
              Summary(phrases, fallback) == Join(phrases[..n], Separator)
              && StartsWith(Summary(phrases, fallback), phrases[0])
              && EndsWith(Summary(phrases, fallback), phrases[n - 1])
  {
    if phrases != [] {
      var n := if |phrases| < 3 then |phrases| else 3;
      var shown := phrases[..n];
      assert shown[0] == phrases[0] && shown[n - 1] == phrases[n - 1];
      JoinNonEmpty(shown, Separator);
      JoinStartsWithFirst(shown, Separator);
      JoinEndsWithLast(shown, Separator);
    }
  }

  /** A phrase pushed when its condition holds. */
  function When(condition: bool, phrase: string): seq<string>
  {
    if condition then [phrase] else []
  }

  /** The behaviour strengths, each for a trait above 0.7, in the order
      abstractness, emotional focus, structure, risk taking. */
  function TraitStrengths(b: AvatarBehavior): seq<string>
  {
    When(b.abstractness > 0.7, "seeing big picture patterns")
    + When(b.emotionalFocus > 0.7, "reading group dynamics")
    + When(b.structure > 0.7, "organizing ideas systematically")
    + When(b.riskTaking > 0.7, "proposing bold solutions")
  }

  /** The strength of each dominant function. */
  function DominantPhrase(f: CognitiveFunction): string
  {
    match f
    case Ni => "synthesizing insights"
    case Ne => "generating possibilities"
    case Ti => "logical analysis"
    case Te => "efficient execution"
    case Fi => "authentic values"
    case Fe => "harmonizing group"
    case Si => "recalling precedents"
    case Se => "responding to present"
  }

  /** All strength phrases of an avatar: the trait strengths, then the
      dominant function's. */
  function StrengthPhrases(avatar: Avatar): seq<string>
  {
    var dominant := FindRole(avatar.functions, Dominant);
    TraitStrengths(avatar.behavior) + (if dominant.Some? then [DominantPhrase(dominant.value)] else [])
  }

  /** getStrengths. */
  method GetStrengths(avatar: Avatar) returns (r: string)
    ensures r == Summary(StrengthPhrases(avatar), BalancedApproach)
  {
    var strengths: seq<string> := [];
    var behavior := avatar.behavior;
    var dominant := FindRole(avatar.functions, Dominant);

    if behavior.abstractness > 0.7 { strengths := strengths + ["seeing big picture patterns"]; }
    if behavior.emotionalFocus > 0.7 { strengths := strengths + ["reading group dynamics"]; }
    assert strengths == When(behavior.abstractness > 0.7, "seeing big picture patterns")
      + When(behavior.emotionalFocus > 0.7, "reading group dynamics");
    if behavior.structure > 0.7 { strengths := strengths + ["organizing ideas systematically"]; }
    if behavior.riskTaking > 0.7 { strengths := strengths + ["proposing bold solutions"]; }
    assert strengths == TraitStrengths(behavior);

    // One push at most: the eight comparisons with the dominant code are
    // mutually exclusive, so they are a lookup in DominantPhrase.
    if dominant.Some? { strengths := strengths + [DominantPhrase(dominant.value)]; }

    assert strengths == StrengthPhrases(avatar);
    r := Summary(strengths, BalancedApproach);
  }

  /** The trait strengths come before the one dominant-function strength,
      which is present exactly when the avatar has a dominant function; so
      an avatar above 0.7 on three traits or more shows no dominant
      strength. */
  lemma StrengthsOrder(avatar: Avatar)
    ensures var phrases := StrengthPhrases(avatar);
            var traits := TraitStrengths(avatar.behavior);
            var dominant := FindRole(avatar.functions, Dominant);
            |traits| <= 4
            && phrases[..|traits|] == traits
            && (dominant.None? <==> |phrases| == |traits|)
            && (dominant.Some? ==> phrases[|phrases| - 1] == DominantPhrase(dominant.value))
            && (dominant.Some? && |traits| >= 3 ==> phrases[..3] == traits[..3])
  {
  }

  /** Every strength and blind-spot phrase is non-empty, so each summary
      falls back exactly when its avatar has no phrase (see SummaryShape). */
  lemma StrengthPhrasesNonEmpty(avatar: Avatar)
    ensures forall i :: 0 <= i < |StrengthPhrases(avatar)| ==> StrengthPhrases(avatar)[i] != []
  {
  }

  lemma BlindSpotPhrasesNonEmpty(avatar: Avatar)
    ensures forall i :: 0 <= i < |BlindSpotPhrases(avatar)| ==> BlindSpotPhrases(avatar)[i] != []
  {
  }

  /** One behaviour dimension's blind spot: `high` above 0.7, `low` below
      0.3, nothing in between. */
  function DimensionBlindSpot(value: real, high: string, low: string): seq<string>
  {
    When(value > 0.7, high) + When(value < 0.3, low)
  }

  /** The blind spot of each inferior function. */
  function InferiorPhrase(f: CognitiveFunction): string
  {
    match f
    case Se => "immediate sensory reality"
    case Si => "past experiences"
    case Ne => "alternative possibilities"
    case Ni => "long-term implications"
    case Fe => "group harmony"
    case Fi => "personal values"
    case Te => "efficient systems"
    case Ti => "logical consistency"
  }

  /** All blind-spot phrases: abstractness, emotional focus and structure,
      then the inferior function's. */
  function BlindSpotPhrases(avatar: Avatar): seq<string>
  {
    var b := avatar.behavior;
    var inferior := FindRole(avatar.functions, Inferior);
    DimensionBlindSpot(b.abstractness, "practical details", "abstract implications")
    + DimensionBlindSpot(b.emotionalFocus, "impersonal logic", "emotional nuances")
    + DimensionBlindSpot(b.structure, "spontaneous adaptation", "systematic planning")
    + (if inferior.Some? then [InferiorPhrase(inferior.value)] else [])
  }

  /** getBlindSpots. */
  method GetBlindSpots(avatar: Avatar) returns (r: string)
    ensures r == Summary(BlindSpotPhrases(avatar), WellRounded)
  {
    var blindSpots: seq<string> := [];
    var behavior := avatar.behavior;
    var inferior := FindRole(avatar.functions, Inferior);

    if behavior.abstractness > 0.7 { blindSpots := blindSpots + ["practical details"]; }
    if behavior.abstractness < 0.3 { blindSpots := blindSpots + ["abstract implications"]; }
    assert blindSpots == DimensionBlindSpot(behavior.abstractness, "practical details", "abstract implications");
    ghost var before := blindSpots;
    if behavior.emotionalFocus > 0.7 { blindSpots := blindSpots + ["impersonal logic"]; }
    if behavior.emotionalFocus < 0.3 { blindSpots := blindSpots + ["emotional nuances"]; }
    assert blindSpots == before + DimensionBlindSpot(behavior.emotionalFocus, "impersonal logic", "emotional nuances");
    before := blindSpots;
    if behavior.structure > 0.7 { blindSpots := blindSpots + ["spontaneous adaptation"]; }
    if behavior.structure < 0.3 { blindSpots := blindSpots + ["systematic planning"]; }
    assert blindSpots == before + DimensionBlindSpot(behavior.structure, "spontaneous adaptation", "systematic planning");

    // As in GetStrengths, the eight comparisons with the inferior code are a
    // lookup in InferiorPhrase.
    if inferior.Some? { blindSpots := blindSpots + [InferiorPhrase(inferior.value)]; }

    assert blindSpots == BlindSpotPhrases(avatar);
    r := Summary(blindSpots, WellRounded);
  }

  /** Each dimension contributes at most one of its two phrases, the high
      one exactly above 0.7 and the low one exactly below 0.3. */
  lemma DimensionAtMostOne(value: real, high: string, low: string)
    ensures var r := DimensionBlindSpot(value, high, low);
            |r| <= 1
            && (value > 0.7 ==> r == [high])
            && (value < 0.3 ==> r == [low])
            && (0.3 <= value <= 0.7 ==> r == [])
  {
  }

  /** There are at most four blind spots, the inferior function's last and
      present exactly when the avatar has an inferior function. */
  lemma BlindSpotsShape(avatar: Avatar)
    ensures var phrases := BlindSpotPhrases(avatar);
            var inferior := FindRole(avatar.functions, Inferior);
            |phrases| <= 4
            && (inferior.Some? ==> phrases[|phrases| - 1] == InferiorPhrase(inferior.value))
  {
  }
}
