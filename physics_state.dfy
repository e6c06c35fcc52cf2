/** The mutable PhysicsState aggregate of src/lib/cognitivePhysics.ts: one
    physics state per avatar, the nested relationship map, the parameters and
    the time step, with initializePhysicsState as the constructor and the
    per-message step as a method. */
module PhysicsSession {
  import opened Types
  import opened CognitivePhysics

  // ---------------------------------------------------------------------
  // Specification of initialisation
  // ---------------------------------------------------------------------

  /** An avatar's initial state: stored positions when present, otherwise those
      derived from its stack; activation starts at the baseline. */
  function InitialState(avatar: Avatar): AvatarState {
    var positions := avatar.socionicsPositions.GetOr(DerivedPositions(avatar.functions));
    var baseline := ComputeBaseline(positions);
    AvatarState(avatar.id, baseline, CreateInitialActivation(baseline), positions)
  }

  function IdsOf(avatars: seq<Avatar>): set<string> {
    set k | 0 <= k < |avatars| :: avatars[k].id
  }

  lemma IdsOfSnoc(avatars: seq<Avatar>, k: nat)
    requires k < |avatars|
    ensures IdsOf(avatars[..k + 1]) == IdsOf(avatars[..k]) + {avatars[k].id}
  {
    var prefix, longer := avatars[..k], avatars[..k + 1];
    forall id | id in IdsOf(longer) ensures id in IdsOf(prefix) + {avatars[k].id} {
      var n :| 0 <= n < |longer| && longer[n].id == id;
      if n < k {
        assert prefix[n].id == id;
      }
    }
    forall id | id in IdsOf(prefix) ensures id in IdsOf(longer) {
      var n :| 0 <= n < |prefix| && prefix[n].id == id;
      assert longer[n].id == id;
    }
    assert longer[k].id == avatars[k].id;
  }

  /** The avatar states after the loop of initializePhysicsState: Map.set in
      list order, so a later avatar with the same id replaces an earlier one. */
  function InitialStates(avatars: seq<Avatar>): AvatarStates {
    if |avatars| == 0 then map[]
    else InitialStates(avatars[..|avatars| - 1])[avatars[|avatars| - 1].id := InitialState(avatars[|avatars| - 1])]
  }

  /** The neutral outgoing relationships of `id`: one entry per other id. */
  function NeutralRow(avatars: seq<Avatar>, id: string): map<string, RelationshipState> {
    map j | j in IdsOf(avatars) && j != id :: DefaultRelationship
  }

  function InitialRelationships(avatars: seq<Avatar>): Relationships {
    RowsFor(avatars, IdsOf(avatars))
  }

  /** A neutral row for each id of `ids`. */
  function RowsFor(avatars: seq<Avatar>, ids: set<string>): Relationships {
    map id | id in ids :: NeutralRow(avatars, id)
  }

  lemma RowsForAdd(avatars: seq<Avatar>, ids: set<string>, id: string)
    ensures RowsFor(avatars, ids)[id := NeutralRow(avatars, id)] == RowsFor(avatars, ids + {id})
  {
  }

  /** Every initial state belongs to one of the avatars, is keyed by its id and
      starts at its baseline. */
  lemma {:induction false} InitialStatesSpec(avatars: seq<Avatar>)
    ensures InitialStates(avatars).Keys == IdsOf(avatars)
    ensures forall id :: id in InitialStates(avatars) ==>
              InitialStates(avatars)[id].avatarId == id &&
              InitialStates(avatars)[id].activation == InitialStates(avatars)[id].baseline
  {
    if |avatars| > 0 {
      InitialStatesSpec(avatars[..|avatars| - 1]);
      IdsOfSnoc(avatars, |avatars| - 1);
      assert avatars[..|avatars|] == avatars;
    }
  }

  /** Every ordered pair of distinct ids starts at {affinity 0.5, tension 0.1},
      and no avatar has a relationship with itself. */
  lemma InitialRelationshipsSpec(avatars: seq<Avatar>, i: string, j: string)
    ensures i in InitialRelationships(avatars) <==> i in IdsOf(avatars)
    ensures i in InitialRelationships(avatars) ==>
              (j in InitialRelationships(avatars)[i] <==> j in IdsOf(avatars) && j != i)
    ensures i in InitialRelationships(avatars) && j in InitialRelationships(avatars)[i] ==>
              InitialRelationships(avatars)[i][j] == RelationshipState(0.5, 0.1)
  {
  }

  lemma InitialRelationshipsInRange(avatars: seq<Avatar>)
    ensures RelationshipsInRange(InitialRelationships(avatars))
  {
  }

  // ---------------------------------------------------------------------
  // Specification of the per-message step
  // ---------------------------------------------------------------------

  /** The speaker's next activation: context force from the topic's tags, social
      force from the last five messages, then the update law. */
  function StepActivation(states: AvatarStates, rels: Relationships, p: PhysicsParameters,
                          speaker: string, topic: string, allMessages: seq<Message>): Vector
    requires speaker in states
  {
    NextActivation(states[speaker], ContextForce(DetectContextTags(topic)),
                   SocialForce(speaker, states, rels, p, TakeLast(allMessages, 5)), p)
  }

  /** The relationships with the pair (id1, id2) present, seeded with the
      neutral default when it was missing. */
  function SeedPair(rels: Relationships, id1: string, id2: string): (r: Relationships)
    ensures id1 in r && id2 in r[id1] && r[id1][id2] == Seeded(RowOf(rels, id1), id2)
    ensures forall i :: i != id1 ==> (i in r <==> i in rels) && (i in rels ==> r[i] == rels[i])
    ensures forall j :: j != id2 && j in RowOf(rels, id1) ==> j in r[id1] && r[id1][j] == RowOf(rels, id1)[j]
  {
    var row := RowOf(rels, id1);
    rels[id1 := if id2 in row then row else row[id2 := DefaultRelationship]]
  }

  function RowOf(rels: Relationships, id: string): map<string, RelationshipState> {
    if id in rels then rels[id] else map[]
  }

  /** The relationship updateRelationship starts from: the stored one, or the
      neutral default for a missing pair. */
  function Seeded(row: map<string, RelationshipState>, j: string): RelationshipState {
    if j in row then row[j] else DefaultRelationship
  }

  /** The relationships after the loop over `others` of the per-message step:
      for each other id, relationships[speaker][other] becomes the law applied
      to the current (or seeded) relationship. */
  function RelsAfter(rels: Relationships, speaker: string, others: seq<Avatar>,
                     states: AvatarStates, p: PhysicsParameters): Relationships
  {
    if |others| == 0 then rels
    else
      var prev := RelsAfter(rels, speaker, others[..|others| - 1], states, p);
      var j := others[|others| - 1].id;
      if j == speaker then prev
      else
        var row := RowOf(prev, speaker);
        prev[speaker := row[j := NextRelationship(Seeded(row, j), StructuralScore(speaker, j, states), p)]]
  }

  /** Only the speaker's outgoing row changes, and in it only the entries of
      the other avatars; the speaker never gains a self entry it did not have. */
  lemma {:induction false} RelsAfterFrame(rels: Relationships, speaker: string, others: seq<Avatar>,
                                          states: AvatarStates, p: PhysicsParameters)
    ensures forall i :: i != speaker ==>
              (i in RelsAfter(rels, speaker, others, states, p) <==> i in rels) &&
              (i in rels ==> RelsAfter(rels, speaker, others, states, p)[i] == rels[i])
    ensures forall j :: (j == speaker || j !in IdsOf(others)) ==>
              (j in RowOf(RelsAfter(rels, speaker, others, states, p), speaker) <==> j in RowOf(rels, speaker)) &&
              (j in RowOf(rels, speaker) ==> RowOf(RelsAfter(rels, speaker, others, states, p), speaker)[j] == RowOf(rels, speaker)[j])
  {
    if |others| > 0 {
      var prefix := others[..|others| - 1];
      RelsAfterFrame(rels, speaker, prefix, states, p);
      IdsOfSnoc(others, |others| - 1);
      assert others[..|others|] == others;
    }
  }

  /** For each other avatar listed once, its entry is the law applied once to
      the entry it had before the step (or to the neutral default). */
  lemma {:induction false} RelsAfterUpdatesEachOther(rels: Relationships, speaker: string, others: seq<Avatar>,
                                                     states: AvatarStates, p: PhysicsParameters, n: nat)
    requires n < |others| && others[n].id != speaker
    requires forall k :: 0 <= k < |others| && k != n ==> others[k].id != others[n].id
    ensures var j := others[n].id;
            j in RowOf(RelsAfter(rels, speaker, others, states, p), speaker) &&
            RowOf(RelsAfter(rels, speaker, others, states, p), speaker)[j]
              == NextRelationship(Seeded(RowOf(rels, speaker), j), StructuralScore(speaker, j, states), p)
  {
    var last := |others| - 1;
    var prefix := others[..last];
    var j := others[n].id;
    if n < last {
      RelsAfterUpdatesEachOther(rels, speaker, prefix, states, p, n);
    } else {
      forall k | 0 <= k < |prefix| ensures prefix[k].id != j {
        assert prefix[k] == others[k];
      }
      RelsAfterFrame(rels, speaker, prefix, states, p);
    }
  }

  predicate RelationshipsInRange(rels: Relationships) {
    forall i, j :: i in rels && j in rels[i] ==> InUnitRange(rels[i][j])
  }

  /** The step keeps every affinity and tension in [0, 1]. */
  lemma {:induction false} RelsAfterInRange(rels: Relationships, speaker: string, others: seq<Avatar>,
                                            states: AvatarStates, p: PhysicsParameters)
    requires RelationshipsInRange(rels)
    ensures RelationshipsInRange(RelsAfter(rels, speaker, others, states, p))
  {
    if |others| > 0 {
      RelsAfterInRange(rels, speaker, others[..|others| - 1], states, p);
    }
  }

  /** Every activation component lies in [0, 1], and below its slot's capacity
      whenever that capacity is non-negative. */
  predicate ActivationInRange(s: AvatarState) {
    forall k :: 0 <= k < 8 ==>
      0.0 <= s.activation[k] <= 1.0 &&
      (s.socionicsPositions[FunctionAt(k)].capacity >= 0.0 ==> s.activation[k] <= s.socionicsPositions[FunctionAt(k)].capacity)
  }

  predicate ActivationsInRange(states: AvatarStates) {
    forall id :: id in states ==> ActivationInRange(states[id])
  }

  /** One activation step keeps every avatar's activations within range. */
  lemma StepActivationInRange(states: AvatarStates, rels: Relationships, p: PhysicsParameters,
                              speaker: string, topic: string, allMessages: seq<Message>)
    requires speaker in states && ActivationsInRange(states)
    ensures ActivationsInRange(states[speaker := states[speaker].(
              activation := StepActivation(states, rels, p, speaker, topic, allMessages))])
  {
    var s := states[speaker];
    var contextForce := ContextForce(DetectContextTags(topic));
    var socialForce := SocialForce(speaker, states, rels, p, TakeLast(allMessages, 5));
    forall k | 0 <= k < 8
      ensures var r := NextActivation(s, contextForce, socialForce, p);
              0.0 <= r[k] <= 1.0 &&
              (s.socionicsPositions[FunctionAt(k)].capacity >= 0.0 ==> r[k] <= s.socionicsPositions[FunctionAt(k)].capacity)
    {
      NextActivationBounded(s, contextForce, socialForce, p, k);
    }
    assert ActivationInRange(s.(activation := StepActivation(states, rels, p, speaker, topic, allMessages)));
  }

  /** Positions stored on an avatar, if any, respect the table bounds. */
  predicate StoredPositionsWithinTable(avatars: seq<Avatar>) {
    forall k :: 0 <= k < |avatars| && avatars[k].socionicsPositions.Some? ==>
      WithinTable(avatars[k].socionicsPositions.value)
  }

  lemma {:induction false} InitialStatesInRange(avatars: seq<Avatar>)
    requires StoredPositionsWithinTable(avatars)
    ensures ActivationsInRange(InitialStates(avatars))
  {
    if |avatars| > 0 {
      var last := avatars[|avatars| - 1];
      InitialStatesInRange(avatars[..|avatars| - 1]);
      DerivedPositionsWithinTable(last.functions);
      var s := InitialState(last);
      forall k | 0 <= k < 8 ensures 0.0 <= s.activation[k] <= s.socionicsPositions[FunctionAt(k)].capacity <= 1.0 {
        assert FunctionAt(k) in s.socionicsPositions;
      }
    }
  }

  /** One pass of the initialisation loop: the stored positions, or those
      derived from the stack, then the baseline and the initial activation. */
  method CreateAvatarState(avatar: Avatar) returns (state: AvatarState)
    ensures state == InitialState(avatar)
  {
    var positions: PositionMap;
    if avatar.socionicsPositions.Some? {
      positions := avatar.socionicsPositions.value;
    } else {
      positions := CreateSocionicsFromStack(avatar.functions);
    }
    var baseline := ComputeBaseline(positions);
    var activation := CreateInitialActivation(baseline);
    state := AvatarState(avatar.id, baseline, activation, positions);
  }

  /** The inner initialisation loop: a neutral entry for every other avatar. */
  method CreateNeutralRow(avatars: seq<Avatar>, id: string) returns (row: map<string, RelationshipState>)
    ensures row == NeutralRow(avatars, id)
  {
    row := map[];
    for n := 0 to |avatars|
      invariant row == map j | j in IdsOf(avatars[..n]) && j != id :: DefaultRelationship
    {
      IdsOfSnoc(avatars, n);
      if avatars[n].id != id {
        row := row[avatars[n].id := RelationshipState(0.5, 0.1)];
      }
    }
    assert avatars[..|avatars|] == avatars;
  }

  // ---------------------------------------------------------------------
  // The aggregate
  // ---------------------------------------------------------------------

  class PhysicsState {
    var avatarStates: AvatarStates
    var relationships: Relationships
    var parameters: PhysicsParameters
    var timeStep: nat

    /** Activations and relationships are all within their ranges. */
    predicate Bounded()
      reads this
    {
      ActivationsInRange(avatarStates) && RelationshipsInRange(relationships)
    }

    /** initializePhysicsState: a state per avatar at its baseline, neutral
      relationships between every two distinct ids, time step 0. */
    constructor (avatars: seq<Avatar>, params: PhysicsParameters)
      ensures avatarStates == InitialStates(avatars)
      ensures relationships == InitialRelationships(avatars)
      ensures parameters == params && timeStep == 0
      ensures StoredPositionsWithinTable(avatars) ==> Bounded()
    {
      var states: AvatarStates := map[];
      var rels: Relationships := map[];
      for k := 0 to |avatars|
        invariant states == InitialStates(avatars[..k])
        invariant rels == RowsFor(avatars, IdsOf(avatars[..k]))
      {
        var avatar := avatars[k];
        var state := CreateAvatarState(avatar);
        assert avatars[..k + 1][..k] == avatars[..k];
        states := states[avatar.id := state];
        var row := CreateNeutralRow(avatars, avatar.id);
        IdsOfSnoc(avatars, k);
        RowsForAdd(avatars, IdsOf(avatars[..k]), avatar.id);
        rels := rels[avatar.id := row];
      }
      assert avatars[..|avatars|] == avatars;
      avatarStates := states;
      relationships := rels;
      parameters := params;
      timeStep := 0;
      if StoredPositionsWithinTable(avatars) {
        InitialStatesInRange(avatars);
        InitialRelationshipsInRange(avatars);
      }
    }

    /** updateRelationship: seed a missing row and a missing pair with the
      neutral default, then return (without storing it) the relationship moved
      by the law for the pair's current structural score. */
    method UpdateRelationship(id1: string, id2: string) returns (rel: RelationshipState)
      modifies this
      ensures avatarStates == old(avatarStates) && parameters == old(parameters) && timeStep == old(timeStep)
      ensures relationships == SeedPair(old(relationships), id1, id2)
      ensures rel == NextRelationship(Seeded(RowOf(old(relationships), id1), id2),
                                      StructuralScore(id1, id2, avatarStates), parameters)
      ensures InUnitRange(rel)
    {
      if id1 !in relationships {
        relationships := relationships[id1 := map[]];
      }
      var relMap := relationships[id1];
      if id2 !in relMap {
        relationships := relationships[id1 := relMap[id2 := RelationshipState(0.5, 0.1)]];
      }
      var currentRel := relationships[id1][id2];
      var score := ComputeStructuralScore(id1, id2, avatarStates);
      rel := NextRelationship(currentRel, score, parameters);
    }

    /** updatePhysicsStateAfterMessage. An unknown speaker changes nothing, not
      even the time step. Otherwise the speaker's activation moves by the update
      law, the speaker's relationship to every other listed avatar moves by the
      relationship law, and the time step grows by one; nothing else changes. */
    method UpdateAfterMessage(message: Message, topic: string, allMessages: seq<Message>, allAvatars: seq<Avatar>)
      modifies this
      ensures parameters == old(parameters)
      ensures message.avatarId !in old(avatarStates) ==>
                avatarStates == old(avatarStates) && relationships == old(relationships) && timeStep == old(timeStep)
      ensures message.avatarId in old(avatarStates) ==>
                avatarStates == old(avatarStates)[message.avatarId := old(avatarStates)[message.avatarId].(
                  activation := StepActivation(old(avatarStates), old(relationships), parameters,
                                               message.avatarId, topic, allMessages))] &&
                relationships == RelsAfter(old(relationships), message.avatarId, allAvatars, avatarStates, parameters) &&
                timeStep == old(timeStep) + 1
      ensures old(Bounded()) ==> Bounded()
    {
      var speaker := message.avatarId;
      if speaker !in avatarStates {
        return;
      }
      var avatarState := avatarStates[speaker];
      var recentMessages := TakeLast(allMessages, 5);
      var contextTags := DetectContextTags(topic);
      var contextForce := ComputeContextForce(contextTags);
      var socialForce := ComputeSocialForce(speaker, avatarStates, relationships, parameters, recentMessages);
      var newActivation := UpdateActivation(avatarState, contextForce, socialForce, parameters);
      avatarStates := avatarStates[speaker := avatarState.(activation := newActivation)];

      UpdateRelationships(speaker, allAvatars);
      timeStep := timeStep + 1;
      if old(Bounded()) {
        StepActivationInRange(old(avatarStates), old(relationships), parameters, speaker, topic, allMessages);
        RelsAfterInRange(old(relationships), speaker, allAvatars, avatarStates, parameters);
      }
    }

    /** The loop of updatePhysicsStateAfterMessage over the listed avatars:
      the speaker's relationship to each other avatar, in list order, moves by
      the relationship law; states, parameters and time step stay put. */
    method UpdateRelationships(speaker: string, allAvatars: seq<Avatar>)
      modifies this
      ensures avatarStates == old(avatarStates) && parameters == old(parameters) && timeStep == old(timeStep)
      ensures relationships == RelsAfter(old(relationships), speaker, allAvatars, avatarStates, parameters)
    {
      for k := 0 to |allAvatars|
        invariant avatarStates == old(avatarStates)
        invariant parameters == old(parameters) && timeStep == old(timeStep)
        invariant relationships == RelsAfter(old(relationships), speaker, allAvatars[..k], avatarStates, parameters)
      {
        var other := allAvatars[k];
        assert allAvatars[..k + 1][..k] == allAvatars[..k];
        if other.id != speaker {
          ghost var before := relationships;
          var updatedRel := UpdateRelationship(speaker, other.id);
          // updateRelationship has already created the speaker's row, so the
          // source's second "create if missing" never fires.
          relationships := relationships[speaker := relationships[speaker][other.id := updatedRel]];
          assert relationships[speaker] == RowOf(before, speaker)[other.id := updatedRel];
        }
      }
      assert allAvatars[..|allAvatars|] == allAvatars;
    }

    /** getRelationship: the stored relationship, or nothing. */
    function GetRelationship(id1: string, id2: string): (r: Option<RelationshipState>)
      reads this
      ensures r.Some? <==> id1 in relationships && id2 in relationships[id1]
      ensures r.Some? ==> r.value == relationships[id1][id2]
    {
      if id1 in relationships && id2 in relationships[id1] then Some(relationships[id1][id2]) else None
    }
  }

  /** getActivationLevels: the activation vector keyed by function name. */
  function ActivationLevels(s: AvatarState): (levels: map<CognitiveFunction, real>)
    ensures levels.Keys == AllFunctions()
    ensures forall f :: f in levels ==> levels[f] == s.activation[Index(f)]
  {
    map f | f in AllFunctions() :: s.activation[Index(f)]
  }
}
