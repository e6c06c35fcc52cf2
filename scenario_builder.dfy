/** The scenario form (src/features/scenarios/ScenarioBuilder.tsx): its
    state, the validation run on submit, the scenario it creates, and the
    avatar selection toggle. */
module ScenarioBuilder {
  import opened Types
  import opened Text
  import AvatarGrid

  const TopicRequired := "Topic is required"
  const TooFew := "Select at least 2 avatars"
  const TooMany := "Select at most 8 avatars"
  const BadRounds := "Rounds must be between 4 and 40"

  /** The most avatars a scenario can select. */
  const MaxAvatars: int := 8

  /** The errors validate collects, in order. */
  function Errors(topic: string, selected: seq<string>, rounds: int): seq<string>
  {
    Rule(IsBlank(topic), TopicRequired) + Rule(|selected| < 2, TooFew)
    + Rule(|selected| > 8, TooMany) + Rule(rounds < 4 || rounds > 40, BadRounds)
  }

  /** The message of one broken rule, or nothing. */
  function Rule(broken: bool, message: string): seq<string>
  {
    if broken then [message] else []
  }

  /** Validation succeeds exactly for a non-blank topic, 2 to 8 avatars and
      4 to 40 rounds; at most three rules are broken at once. */
  lemma ErrorsEmptyIff(topic: string, selected: seq<string>, rounds: int)
    ensures Errors(topic, selected, rounds) == [] <==> !IsBlank(topic) && 2 <= |selected| <= 8 && 4 <= rounds <= 40
    ensures |Errors(topic, selected, rounds)| <= 3
  {
  }

  /** Each message appears exactly when its rule is broken. */
  lemma ErrorMessages(topic: string, selected: seq<string>, rounds: int)
    ensures var r := Errors(topic, selected, rounds);
            (TopicRequired in r <==> IsBlank(topic))
            && (TooFew in r <==> |selected| < 2)
            && (TooMany in r <==> |selected| > 8)
            && (BadRounds in r <==> rounds < 4 || rounds > 40)
  {
  }

  /** The form's state. */
  class Builder {
    var topic: string
    var style: InteractionStyle
    var selectedAvatarIds: seq<string>
    var rounds: int
    var errors: seq<string>

    /** No more than eight avatars are ever selected. */
    predicate Valid()
      reads this
    {
      |selectedAvatarIds| <= MaxAvatars
    }

    /** The initial state: empty topic, brainstorm, nothing selected, 10
        rounds, no errors. */
    constructor ()
      ensures topic == [] && style == Brainstorm && selectedAvatarIds == [] && rounds == 10 && errors == []
      ensures Valid()
    {
      topic := [];
      style := Brainstorm;
      selectedAvatarIds := [];
      rounds := 10;
      errors := [];
    }

    /** validate: collects the errors, shows them, and succeeds iff there are
        none. */
    method Validate() returns (ok: bool)
      modifies this
      ensures errors == Errors(topic, selectedAvatarIds, rounds)
      ensures ok <==> errors == []
      ensures topic == old(topic) && style == old(style) && selectedAvatarIds == old(selectedAvatarIds)
              && rounds == old(rounds)
    {
      var newErrors: seq<string> := [];
      // `!topic.trim()`: the trimmed topic is empty exactly when the topic is
      // blank (Text.Trim).
      if IsBlank(topic) {
        newErrors := newErrors + [TopicRequired];
      }
      assert newErrors == Rule(IsBlank(topic), TopicRequired);
      ghost var checked := newErrors;
      if |selectedAvatarIds| < 2 {
        newErrors := newErrors + [TooFew];
      }
      assert newErrors == checked + Rule(|selectedAvatarIds| < 2, TooFew);
      checked := newErrors;
      if |selectedAvatarIds| > 8 {
        newErrors := newErrors + [TooMany];
      }
      assert newErrors == checked + Rule(|selectedAvatarIds| > 8, TooMany);
      checked := newErrors;
      if rounds < 4 || rounds > 40 {
        newErrors := newErrors + [BadRounds];
      }
      assert newErrors == checked + Rule(rounds < 4 || rounds > 40, BadRounds);
      errors := newErrors;
      return |newErrors| == 0;
    }

    /** handleSubmit: a scenario is created only when validation succeeds;
        `now` and `createdAt` stand for Date.now() and the ISO timestamp. */
    method HandleSubmit(now: nat, createdAt: string) returns (created: Option<Scenario>)
      modifies this
      ensures errors == Errors(topic, selectedAvatarIds, rounds)
      ensures created.Some? <==> errors == []
      ensures created.Some? ==>
                created.value == Scenario("scenario-" + NatToString(now), Trim(topic), style, selectedAvatarIds,
                                          rounds, createdAt, Some(true))
      ensures topic == old(topic) && style == old(style) && selectedAvatarIds == old(selectedAvatarIds)
              && rounds == old(rounds)
    {
      var ok := Validate();
      if !ok {
        return None;
      }
      return Some(Scenario("scenario-" + NatToString(now), Trim(topic), style, selectedAvatarIds, rounds, createdAt, Some(true)));
    }

    /** toggleAvatar: the grid's toggle with a limit of eight. */
    method ToggleAvatar(avatarId: string)
      requires Valid()
      modifies this
      ensures selectedAvatarIds == AvatarGrid.Toggle(old(selectedAvatarIds), avatarId, MaxAvatars)
      ensures topic == old(topic) && style == old(style) && rounds == old(rounds) && errors == old(errors)
      ensures Valid()
    {
      AvatarGrid.ToggleWithinLimit(selectedAvatarIds, avatarId, MaxAvatars);
      if avatarId in selectedAvatarIds {
        selectedAvatarIds := AvatarGrid.Without(selectedAvatarIds, avatarId);
      } else if |selectedAvatarIds| < 8 {
        selectedAvatarIds := selectedAvatarIds + [avatarId];
      }
    }
  }

  /** A created scenario always passes the engine's participant rule: its
      topic is trimmed and not empty, it selects 2 to 8 avatars and runs 4
      to 40 rounds. */
  lemma CreatedScenarioIsSound(topic: string, selected: seq<string>, rounds: int, style: InteractionStyle,
                               now: nat, createdAt: string)
    requires Errors(topic, selected, rounds) == []
    ensures var s := Scenario("scenario-" + NatToString(now), Trim(topic), style, selected, rounds, createdAt, Some(true));
            s.topic != [] && IsTrimmed(s.topic) && 2 <= |s.avatarIds| <= 8 && 4 <= s.rounds <= 40
  {
    ErrorsEmptyIff(topic, selected, rounds);
  }
}
