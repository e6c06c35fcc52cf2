# Avatar Farm — a Dafny model of the cognitive physics engine and its rule sets

Avatar Farm stages conversations between sixteen MBTI "avatars". Each avatar
carries a stack of four Jungian cognitive functions (dominant, auxiliary,
tertiary, inferior). This project models, in Dafny, the rules that decide
what the avatars are and how a simulation evolves. It proves properties of
those rules.

* **Cognitive physics** (`cognitive_physics.dfy`, `physics_state.dfy`).
  A function stack is mapped onto the eight socionics positions (Model A).
  The project proves that this mapping is a bijection for every well-formed stack.
  It also proves that a missing role breaks the bijection.
  Each avatar holds an activation vector over the eight functions, in the order Te, Ti, Fe, Fi, Se, Si, Ne, Ni.
  After every message that vector is relaxed toward its baseline and pushed by three forces:
  - the coupling between paired functions;
  - a context force from the topic's keywords;
  - a social force from the last five messages.
  It is then damped by position and clamped to the position's capacity.
  Relationships (affinity and tension) move with a structural compatibility score.
  The session object `PhysicsState` is a class whose methods update it in place.
  The proofs cover several properties:
  - every activation stays in [0, capacity];
  - every relationship stays in [0, 1];
  - the baseline is a fixpoint when there are no forces;
  - the relationship direction follows the sign of the score;
  - the structural score is symmetric.
* **Type data and behaviour** (`mbti_data.dfy`, `behavior_derivation.dfy`, `avatars.dfy`).
  This covers:
  - the sixteen type records;
  - the weighted behaviour dimensions, which lie in [0, 1], and the temporal focus;
  - the textual behaviour description;
  - roster generation, lookup and grouping by temperament.
* **Message rules** (`generate_message.dfy`, `generate_position.dfy`, `simulation_engine.dfy`).
  This covers:
  - the keyword tagger, with its dominant-function priority and its first-highest-score rule;
  - the five-message conversation context;
  - the quote stripper for position replies;
  - the round-robin simulation loop. It is proved to produce `rounds × participants` messages in turn order.
* **Server handlers** (`analyze_functions.dfy`, `analyze_perspectives.dfy`, `moderate_image.dfy`).
  This covers the status codes, the fallbacks, the fence stripping, the multipart form body and the image-safety rule.
* **Client state and views**. This covers:
  - the local store of scenarios and simulations: upsert, delete, and the newest-ten limit;
  - the scenario builder's validation;
  - the avatar grid's selection toggle;
  - the detail drawer's strengths and blind spots;
  - the analytics counts and balance;
  - the simulation view's playback state, as a class;
  - the inline markdown formatter. It is proved to reassemble its input and to keep only disjoint, longest-first spans.

Network calls, the language model, the moderation service, JSON parsing,
clocks and random numbers are parameters of the members that use them
(`call`, `reply`, `parse`, `service`, `decode`, `now`, `boundary`).

## Model

| member | source | states |
|---|---|---|
| Types.CodeName | src/types/index.ts:4 | every cognitive function has a two-letter code |
| Types.CodeNameInjective | src/types/index.ts:4 | distinct functions have distinct codes |
| Types.FindRole | src/lib/cognitivePhysics.ts:150-153 | `find` by role returns a function exactly when some stack entry has that role, and the entry it returns has that role |
| Types.TakeLast | src/lib/cognitivePhysics.ts:709 | `slice(-n)` keeps the last min(n, length) elements as a suffix of the input |
| Text.Trim | api/generate-position.ts:149 | trimming yields a string with no surrounding whitespace, never longer, and empty exactly when the input is blank |
| Text.TrimIdempotent | api/generate-position.ts:172 | trimming twice equals trimming once |
| Text.ToLower | src/lib/cognitivePhysics.ts:335 | lower-casing keeps the length and maps each character independently, A–Z to a–z |
| CognitivePhysics.Index | src/lib/cognitivePhysics.ts:25 | every function has a slot below 8 in the activation order and that slot holds it |
| CognitivePhysics.FunctionOrderIsBijective | src/lib/cognitivePhysics.ts:25 | slot-to-function and function-to-slot are inverse |
| CognitivePhysics.TableIsConsistent | src/lib/cognitivePhysics.ts:46-55 | for each of the eight positions, 0 ≤ baseline ≤ capacity ≤ 1 |
| CognitivePhysics.Inverse | src/lib/cognitivePhysics.ts:126-135 | the attitude inverse of a function is a different function |
| CognitivePhysics.InverseKeepsPair | src/lib/cognitivePhysics.ts:126-135 | the inverse is an involution and stays in the same function family |
| CognitivePhysics.InversePairs | src/lib/cognitivePhysics.ts:126-135 | two functions share a family exactly when they are equal or inverse |
| CognitivePhysics.LastRule | src/lib/cognitivePhysics.ts:139-147 | the position left by the rules applied so far is always one of 1..8, with 7 as the default |
| CognitivePhysics.DerivedPosition | src/lib/cognitivePhysics.ts:120-253 | the derived position of a function is one of 1..8 |
| CognitivePhysics.DerivedPositions | src/lib/cognitivePhysics.ts:120-253 | the derived record maps each function to the table row of its derived position |
| CognitivePhysics.PlaceMentalRing | src/lib/cognitivePhysics.ts:155-202 | the first four rules (dominant → 1, auxiliary → 2, the inferior's inverse → 3, the tertiary's inverse → 4) are applied in source order |
| CognitivePhysics.PlaceVitalRing | src/lib/cognitivePhysics.ts:203-253 | the last four rules (inferior → 5, tertiary → 6, the dominant's inverse → 7, the auxiliary's inverse → 8) are applied in source order |
| CognitivePhysics.CreateSocionicsFromStack | src/lib/cognitivePhysics.ts:120-253 | the imperative derivation returns exactly the specified position record |
| CognitivePhysics.AllRulesGiveDerived | src/lib/cognitivePhysics.ts:139-253 | a record that has gone through the default loop and all eight rules equals the specified record |
| CognitivePhysics.ValidStackPositions | src/lib/cognitivePhysics.ts:155-253 | for a well-formed stack, the function targeted by rule k ends up at position k |
| CognitivePhysics.DerivedPositionsBijective | src/lib/cognitivePhysics.ts:120-253 | for a well-formed stack, distinct functions get distinct positions and every position 1..8 is taken |
| CognitivePhysics.DerivedValuation | src/lib/cognitivePhysics.ts:46-62 | positions 1, 2, 5 and 6 are valued (+1) and 3, 4, 7 and 8 are unvalued (−1); baseline and capacity come from the table |
| CognitivePhysics.MissingRoleBreaksBijection | src/lib/cognitivePhysics.ts:139-253 | a stack without a dominant leaves two functions at the default position 7 |
| CognitivePhysics.DerivedPositionsWithinTable | src/lib/cognitivePhysics.ts:46-62 | every derived entry agrees with the baseline table |
| CognitivePhysics.ComputeBaseline | src/lib/cognitivePhysics.ts:258-260 | slot i of the baseline vector is the baseline of function i in the position record |
| CognitivePhysics.Partner | src/lib/cognitivePhysics.ts:278-283 | each function is coupled to a different function |
| CognitivePhysics.PartnerInvolution | src/lib/cognitivePhysics.ts:278-283 | the coupling partner of the partner is the function itself |
| CognitivePhysics.CouplingMatrix | src/lib/cognitivePhysics.ts:273-296 | the coupling matrix is 8 × 8 |
| CognitivePhysics.CouplingSymmetric | src/lib/cognitivePhysics.ts:285-293 | the matrix is symmetric with a zero diagonal |
| CognitivePhysics.CreateCouplingMatrix | src/lib/cognitivePhysics.ts:273-296 | filling the zero matrix pair by pair yields the specified matrix |
| CognitivePhysics.PairSlot | src/lib/cognitivePhysics.ts:278-283 | every function occurs in exactly one listed coupling pair, with its partner |
| CognitivePhysics.CouplingTermIsPartnerDeviation | src/lib/cognitivePhysics.ts:303-317 | coupling term i is 0.3 times the partner's deviation from its baseline |
| CognitivePhysics.ComputeCouplingTerm | src/lib/cognitivePhysics.ts:303-317 | the double loop computes the matrix-vector product of the specification |
| CognitivePhysics.MatchingSpec | src/lib/cognitivePhysics.ts:334-360 | the tags found are those whose keywords occur in the lower-cased topic, in table order and without repeats |
| CognitivePhysics.DetectContextTagsSpec | src/lib/cognitivePhysics.ts:334-360 | at least one tag is returned; a tag is present exactly when the topic mentions it, or it is Analytical and the topic mentions none |
| CognitivePhysics.TagDivisor | src/lib/cognitivePhysics.ts:365-386 | the normaliser is at least 1 |
| CognitivePhysics.ContextForceNonNegative | src/lib/cognitivePhysics.ts:365-386 | every component of the context force is non-negative |
| CognitivePhysics.ComputeContextForce | src/lib/cognitivePhysics.ts:365-386 | the nested loops compute the specified context force |
| CognitivePhysics.HittingAvatarsSpec | src/lib/cognitivePhysics.ts:392-444 | the avatars exerting social force are the distinct authors of recent messages other than the speaker and the user |
| CognitivePhysics.SocialForceZeroOnUnvalued | src/lib/cognitivePhysics.ts:392-444 | social force on a function at an unvalued position is zero |
| CognitivePhysics.SocialSumIgnoresSkipped | src/lib/cognitivePhysics.ts:392-444 | messages by the speaker or by the user add no social source |
| CognitivePhysics.ComputeSocialForce | src/lib/cognitivePhysics.ts:392-444 | the loop computes the specified social force |
| CognitivePhysics.Damping | src/lib/cognitivePhysics.ts:450-459 | every position's damping factor is in (0, 1] |
| CognitivePhysics.Clamp | src/lib/cognitivePhysics.ts:464-474 | the clamped value is in [0, 1] and below a non-negative capacity, and a value already in range is unchanged |
| CognitivePhysics.NextActivationBounded | src/lib/cognitivePhysics.ts:483-520 | every updated activation is in [0, 1] and within its function's capacity |
| CognitivePhysics.RawActivationWithoutForces | src/lib/cognitivePhysics.ts:483-520 | with zero forces the raw update is baseline + α·deviation + λ_C·coupling |
| CognitivePhysics.BaselineIsFixpoint | src/lib/cognitivePhysics.ts:483-520 | an avatar at its baseline with no forces stays at its baseline |
| CognitivePhysics.UpdateActivation | src/lib/cognitivePhysics.ts:483-520 | the per-slot loop computes the specified next activation |
| CognitivePhysics.CompatibilitySymmetric | src/lib/cognitivePhysics.ts:543-573 | the compatibility kernel is symmetric and in {−1, 0, 1} |
| CognitivePhysics.StructuralScoreSymmetric | src/lib/cognitivePhysics.ts:578-592 | S(a, b) = S(b, a) |
| CognitivePhysics.ScoreSumUnknown | src/lib/cognitivePhysics.ts:525-592 | the score is 0 when either avatar has no state |
| CognitivePhysics.ComputeStructuralScore | src/lib/cognitivePhysics.ts:578-592 | the loop computes the specified structural score |
| CognitivePhysics.Clamp01 | src/lib/cognitivePhysics.ts:625 | clamping to [0, 1] lands in [0, 1] and fixes values already there |
| CognitivePhysics.NextRelationship | src/lib/cognitivePhysics.ts:619-634 | the updated affinity and tension are in [0, 1] |
| CognitivePhysics.NextRelationshipDirection | src/lib/cognitivePhysics.ts:619-634 | a positive score raises tension and lowers affinity, a negative one does the reverse, and zero changes nothing |
| PhysicsSession.InitialStatesSpec | src/lib/cognitivePhysics.ts:648-661 | there is one state per avatar id, each starting at its baseline |
| PhysicsSession.InitialRelationshipsSpec | src/lib/cognitivePhysics.ts:662-671 | each avatar has a row holding every other avatar at affinity 0.5 and tension 0.1, and no self entry |
| PhysicsSession.InitialRelationshipsInRange | src/lib/cognitivePhysics.ts:662-671 | all initial relationships are in [0, 1] |
| PhysicsSession.InitialStatesInRange | src/lib/cognitivePhysics.ts:648-661 | stored positions that agree with the table give activations within capacity |
| PhysicsSession.CreateAvatarState | src/lib/cognitivePhysics.ts:649-660 | uses the stored positions or else derives them from the stack, with activation equal to baseline |
| PhysicsSession.CreateNeutralRow | src/lib/cognitivePhysics.ts:662-671 | the inner loop builds the neutral row of the specification |
| PhysicsSession.PhysicsState.constructor | src/lib/cognitivePhysics.ts:640-687 | the session starts at time 0 with the initial states and relationships, bounded when positions agree with the table |
| PhysicsSession.SeedPair | src/lib/cognitivePhysics.ts:606-613 | seeding creates the missing row and pair, keeps existing entries and leaves every other row alone |
| PhysicsSession.PhysicsState.UpdateRelationship | src/lib/cognitivePhysics.ts:597-635 | the pair is seeded in place, and the returned state is the update of the seeded pair by the structural score, in [0, 1] |
| PhysicsSession.RelsAfterFrame | src/lib/cognitivePhysics.ts:734-748 | after a message only the speaker's row changes, and in it only entries for other listed avatars |
| PhysicsSession.RelsAfterUpdatesEachOther | src/lib/cognitivePhysics.ts:734-748 | every other avatar's entry in the speaker's row is the update of its seeded value |
| PhysicsSession.RelsAfterInRange | src/lib/cognitivePhysics.ts:734-748 | relationship updates keep every relationship in [0, 1] |
| PhysicsSession.StepActivationInRange | src/lib/cognitivePhysics.ts:700-731 | replacing the speaker's activation keeps every activation within capacity |
| PhysicsSession.PhysicsState.UpdateRelationships | src/lib/cognitivePhysics.ts:734-748 | the loop updates the speaker's row to the specified relationships and changes nothing else |
| PhysicsSession.PhysicsState.UpdateAfterMessage | src/lib/cognitivePhysics.ts:692-754 | an unknown speaker changes nothing; otherwise the speaker's activation takes its step, the speaker's relationships update and the time step advances |
| PhysicsSession.PhysicsState.GetRelationship | src/lib/cognitivePhysics.ts:773-779 | a relationship is returned exactly when the pair is stored, and it is the stored one |
| PhysicsSession.ActivationLevels | src/lib/cognitivePhysics.ts:759-768 | the record names all eight functions and maps each to its slot of the activation vector |
| MbtiData.AllTypes | src/lib/mbtiData.ts:12-180 | there are sixteen types |
| MbtiData.LookupType | src/lib/mbtiData.ts:12-180 | a lookup that succeeds returns the type with that key |
| MbtiData.LookupTypeRoundTrip | src/lib/mbtiData.ts:12-180 | every type's key looks up that type |
| MbtiData.Functions | src/lib/mbtiData.ts:12-180 | each stack is listed dominant, auxiliary, tertiary, inferior |
| MbtiData.TypeStacksTypological | src/lib/mbtiData.ts:12-180 | in every stack the dominant and auxiliary differ in attitude and in judging versus perceiving, and the inferior and tertiary are the full opposites of the dominant and auxiliary |
| MbtiData.TypologicalHasDistinctPairs | src/lib/mbtiData.ts:12-180 | such a stack uses four distinct function families |
| MbtiData.DistinctPairsIsValid | src/lib/mbtiData.ts:12-180 | every type's stack is well-formed for the position derivation |
| MbtiData.TypePositionsBijective | src/lib/mbtiData.ts:12-180 | every type's functions get eight distinct positions |
| MbtiData.IntjRoles | src/lib/mbtiData.ts:14-23 | INTJ's roles are Ni, Te, Fi, Se |
| MbtiData.IntjRulePositions | src/lib/cognitivePhysics.ts:155-253 | the rules on Ni-Te-Fi-Se place Ni 1, Te 2, Si 3, Fe 4, Se 5, Fi 6, Ne 7, Ti 8 |
| MbtiData.IntjPositions | src/lib/mbtiData.ts:14-23 | INTJ's derived positions are Ni 1, Te 2, Si 3, Fe 4, Se 5, Fi 6, Ne 7, Ti 8 |
| BehaviorDerivation.RoleWeight | src/lib/behaviorDerivation.ts:11-16 | each role weight is in (0, 1] |
| BehaviorDerivation.ProfileInUnitRange | src/lib/behaviorDerivation.ts:27-91 | every function profile value is in [0, 1] |
| BehaviorDerivation.TotalWeight | src/lib/behaviorDerivation.ts:96-111 | the total weight is non-negative and zero exactly for the empty stack |
| BehaviorDerivation.CalculateWeightedAverage | src/lib/behaviorDerivation.ts:96-111 | the accumulating loop computes the specified weighted average |
| BehaviorDerivation.EmptyStackAverage | src/lib/behaviorDerivation.ts:110 | an empty stack averages to 0.5 |
| BehaviorDerivation.ContributionBounded | src/lib/behaviorDerivation.ts:103-108 | each function contributes between 0 and its weight |
| BehaviorDerivation.WeightedSumBounded | src/lib/behaviorDerivation.ts:96-111 | the weighted sum lies between 0 and the total weight |
| BehaviorDerivation.WeightedAverageInUnitRange | src/lib/behaviorDerivation.ts:96-111 | every weighted average is in [0, 1] |
| BehaviorDerivation.TemporalFocusIsDominantBias | src/lib/behaviorDerivation.ts:116-147 | the focus is the dominant's bias or Mixed, and Mixed exactly when there is no dominant, or a judging dominant without a present-biased auxiliary |
| BehaviorDerivation.DeriveBehavior | src/lib/behaviorDerivation.ts:152-160 | the four dimensions are weighted averages and the focus is the derived one |
| BehaviorDerivation.BehaviorInUnitRange | src/lib/behaviorDerivation.ts:152-160 | all four derived dimensions are in [0, 1] |
| BehaviorDerivation.Texts | src/lib/behaviorDerivation.ts:169-197 | each trait is rendered by its text, in order |
| BehaviorDerivation.PushDimension | src/lib/behaviorDerivation.ts:169-195 | one dimension's `if` pair appends the specified trait text |
| BehaviorDerivation.DescribeBehavior | src/lib/behaviorDerivation.ts:165-200 | the description is the comma-joined trait list, which always ends with the focus |
| BehaviorDerivation.DescriptionEndsWithFocus | src/lib/behaviorDerivation.ts:197-199 | the description ends with the "-focused" text |
| BehaviorDerivation.DimensionTraitSpec | src/lib/behaviorDerivation.ts:169-195 | a dimension contributes its high trait exactly above 0.7, its low trait exactly below 0.3, and nothing otherwise |
| BehaviorDerivation.DescriptionTraitsShape | src/lib/behaviorDerivation.ts:165-200 | there are one to five traits: the extremes, then exactly one focus at the end |
| BehaviorDerivation.HighTraitsMembership | src/lib/behaviorDerivation.ts:169-195 | each "high" phrase appears exactly when its dimension exceeds 0.7 |
| BehaviorDerivation.LowTraitsMembership | src/lib/behaviorDerivation.ts:169-195 | each "low" phrase appears exactly when its dimension is below 0.3 |
| BehaviorDerivation.DescriptionTraitsParts | src/lib/behaviorDerivation.ts:169-195 | every non-focus trait comes from exactly the four dimension checks |
| Avatars.GenerateAvatarName | src/lib/avatars.ts:32-60 | an unknown key is its own name |
| Avatars.GenerateAvatarNameOfType | src/lib/avatars.ts:32-60 | each of the sixteen keys gets its own non-empty nickname |
| Avatars.BuildAvatar | src/lib/avatars.ts:10-25 | one loop body builds the specified avatar: lower-case id, name, stack, derived behaviour, description |
| Avatars.AvatarsFor | src/lib/avatars.ts:8-27 | there is one avatar per type |
| Avatars.AvatarsForIndex | src/lib/avatars.ts:8-27 | the k-th avatar is built from the k-th type |
| Avatars.BuildAvatars | src/lib/avatars.ts:8-27 | the loop builds the specified roster |
| Avatars.GenerateAvatars | src/lib/avatars.ts:8-27 | there are sixteen avatars in table order, each built from its type |
| Avatars.GeneratedIdsDistinct | src/lib/avatars.ts:16 | lower-cased type keys are distinct, so generated ids are distinct |
| Avatars.GetAvatarById | src/lib/avatars.ts:65-67 | `find` returns the first avatar with the id, or none when no avatar has it |
| Avatars.GetAvatarsByIdsAppend | src/lib/avatars.ts:72-74 | looking up a concatenation of id lists concatenates the lookups |
| Avatars.GetAvatarsByIdsSingle | src/lib/avatars.ts:72-74 | one id yields its avatar, or nothing when it is unknown |
| Avatars.GetAvatarsByIdsMembers | src/lib/avatars.ts:72-74 | the result is no longer than the id list and holds only listed avatars whose ids were asked for |
| Avatars.GroupAvatarsByTemperament | src/lib/avatars.ts:79-102 | the loop returns the four specified temperament groups |
| Avatars.MembersPartition | src/lib/avatars.ts:79-102 | the four groups together hold each classified avatar once |
| Avatars.MembersSound | src/lib/avatars.ts:79-102 | a group holds only avatars of that temperament |
| Avatars.TemperamentOfType | src/lib/avatars.ts:88-99 | every type has a temperament: NT and NF by letters 2–3, SJ and SP by letters 2 and 4 |
| Markdown.NextDelim | src/lib/markdown.tsx:37-60 | the next delimiter position is at or after the start and holds the delimiter |
| Markdown.NextDelimFirst | src/lib/markdown.tsx:37-60 | no delimiter occurs before the one found |
| Markdown.MatchEnd | src/lib/markdown.tsx:20-27 | a match at p ends after both delimiters and at least one content character |
| Markdown.NextMatch | src/lib/markdown.tsx:37-60 | the regular-expression search finds a match at or after the cursor |
| Markdown.NextMatchIsLeftmost | src/lib/markdown.tsx:37-60 | the match found is the leftmost one |
| Markdown.Keep | src/lib/markdown.tsx:45-54 | a match is kept only when its trimmed content is non-empty |
| Markdown.ScanWellFormed | src/lib/markdown.tsx:37-60 | every kept match is well formed and lies after the cursor |
| Markdown.FindMatches | src/lib/markdown.tsx:37-60 | the `exec` loop collects the specified matches of one pattern |
| Markdown.CollectCandidates | src/lib/markdown.tsx:29-62 | looping over the patterns collects every pattern's matches in pattern order |
| Markdown.CandidatesUpTo | src/lib/markdown.tsx:29-62 | all collected matches are well formed |
| Markdown.Insert | src/lib/markdown.tsx:65-72 | insertion is a permutation that adds the element |
| Markdown.SortBy | src/lib/markdown.tsx:65-72 | sorting is a permutation |
| Markdown.SortBySorted | src/lib/markdown.tsx:65-72 | the sorted list is ordered and a permutation of the input |
| Markdown.InsertSorted | src/lib/markdown.tsx:65-72 | inserting into a sorted list keeps it sorted |
| Markdown.OverlapsIsIntersect | src/lib/markdown.tsx:78-83 | the overlap test means the two ranges intersect, and it is symmetric |
| Markdown.RemoveOverlaps | src/lib/markdown.tsx:74-85 | the loop keeps the specified greedy selection |
| Markdown.GreedyKeepsDisjoint | src/lib/markdown.tsx:74-85 | the kept matches are input matches and pairwise disjoint |
| Markdown.GreedyPrefix | src/lib/markdown.tsx:74-85 | greedy selection over a prefix is a prefix of the selection |
| Markdown.GreedyDropped | src/lib/markdown.tsx:74-85 | a match is kept, or dropped for overlapping an earlier kept one |
| Markdown.GreedyBlocked | src/lib/markdown.tsx:74-85 | a match overlapping an earlier kept match is dropped because of a kept match |
| Markdown.GreedyKeepsFree | src/lib/markdown.tsx:74-85 | a match overlapping no earlier kept match is kept |
| Markdown.LongerWins | src/lib/markdown.tsx:65-85 | after the priority sort, a dropped match overlaps a kept match that is longer, or as long and no later |
| Markdown.PriorityGreedyNonEmpty | src/lib/markdown.tsx:65-85 | the kept spans are non-empty ranges |
| Markdown.SortedDisjointChained | src/lib/markdown.tsx:88 | disjoint spans sorted by start follow one another without overlap |
| Markdown.DistinctInSorted | src/lib/markdown.tsx:88 | neighbouring sorted spans are distinct |
| Markdown.SpansWithin | src/lib/markdown.tsx:65-88 | the final spans are well formed and inside the text |
| Markdown.SpansChained | src/lib/markdown.tsx:88-116 | the final spans are inside the text and each starts at or after the end of the one before |
| Markdown.PartsOf | src/lib/markdown.tsx:90-116 | each segment becomes its rendered part, in order |
| Markdown.LayoutReassembles | src/lib/markdown.tsx:90-116 | the gaps and covered spans concatenate back to the text |
| Markdown.LayoutGapsNonEmpty | src/lib/markdown.tsx:94-96 | a plain gap is emitted only when non-empty |
| Markdown.LayoutCoversSpans | src/lib/markdown.tsx:90-116 | every styled segment is one of the spans |
| Markdown.PushPlain | src/lib/markdown.tsx:94-96 | appending a gap adds a plain part only when it is non-empty |
| Markdown.Splice | src/lib/markdown.tsx:90-116 | the splice loop renders the specified parts |
| Markdown.FormatMarkdown | src/lib/markdown.tsx:10-124 | the formatter returns the specified parts |
| Markdown.FormatReassembles | src/lib/markdown.tsx:10-124 | for non-empty text the parts are the rendering of a layout that reassembles the text |
| Markdown.FormatEmptyAndPlain | src/lib/markdown.tsx:11-121 | the result is empty exactly for empty text, and text with no spans yields itself as one plain part |
| Markdown.FormatPartsWellFormed | src/lib/markdown.tsx:90-121 | plain parts are non-empty and styled parts hold non-empty trimmed content |
| Storage.FindIndex | src/lib/storage.ts:23 | `findIndex` returns the first position with the id, or −1 exactly when none has it |
| Storage.NewSimulation | src/lib/storage.ts:70-75 | the record keeps the scenario, messages and completion time, under an id starting "sim-" |
| Storage.LocalStore.constructor | src/lib/storage.ts:3-6 | a fresh store holds no scenario and no simulation list |
| Storage.LocalStore.PresentKeys | src/lib/storage.ts:3-6 | the store holds a value under "mbti-avatar-farm-scenarios" exactly when the scenario list is present, under "mbti-avatar-farm-simulations" exactly when the simulation list is present, and under no other key |
| Storage.LocalStore.GetSavedScenarios | src/lib/storage.ts:40-48 | returns the stored scenarios, or the empty list when there are none |
| Storage.LocalStore.GetSavedSimulations | src/lib/storage.ts:90-98 | returns the stored simulations, or the empty list when there are none |
| Storage.LocalStore.SaveScenario | src/lib/storage.ts:20-35 | the scenarios become the upsert of the old list, written under the scenarios key, and the simulations are untouched |
| Storage.LocalStore.DeleteScenario | src/lib/storage.ts:53-61 | the scenarios become the old list without that id, written under the scenarios key |
| Storage.LocalStore.SaveSimulation | src/lib/storage.ts:66-85 | the new simulation is pushed at the front of the list, which is cut to ten and written under the simulations key |
| Storage.LocalStore.DeleteSimulation | src/lib/storage.ts:103-111 | the simulations become the old list without that id, written under the simulations key |
| Storage.LocalStore.ClearAllData | src/lib/storage.ts:116-123 | both keys are removed, so no key is present |
| Storage.UpsertReplacesOrAppends | src/lib/storage.ts:23-29 | a known id is replaced in place at its first occurrence; an unknown one is appended |
| Storage.FindIndexIsFirst | src/lib/storage.ts:23 | the first position holding the id is the index found |
| Storage.UpsertIdempotent | src/lib/storage.ts:20-35 | saving the same scenario twice equals saving it once |
| Storage.UpsertThenFind | src/lib/storage.ts:20-35 | after saving, the list grows by at most one and the scenario is found under its id |
| Storage.WithoutIdKeepsOthers | src/lib/storage.ts:56 | deletion keeps exactly the entries with other ids, of either list |
| Storage.WithoutIdAppend | src/lib/storage.ts:106 | deletion distributes over concatenation, so the kept entries stay in order |
| Storage.WithoutIdIdempotent | src/lib/storage.ts:56 | deleting twice equals deleting once |
| Storage.PushNewestKeepsTen | src/lib/storage.ts:78-79 | the list holds between 1 and 10 entries, the newest first, then the previous newest ones |
| Storage.PushNewestDropsOldest | src/lib/storage.ts:78-79 | at the limit the oldest simulation is dropped |
| AnalyzeFunctions.IndexOf | api/analyze-cognitive-functions.ts:147-152 | the character search returns the first occurrence at or after the start, or none |
| AnalyzeFunctions.FirstBracketedSpec | api/analyze-cognitive-functions.ts:147-152 | the lazy bracket pattern matches exactly when a `[` precedes a `]`, and the match runs from the first `[` to the first `]` after it |
| AnalyzeFunctions.JsonText | api/analyze-cognitive-functions.ts:147-152 | without a bracketed part the whole reply is parsed |
| AnalyzeFunctions.StackCodes | api/analyze-cognitive-functions.ts:155 | the valid codes are the stack's codes, in stack order |
| AnalyzeFunctions.KeepValid | api/analyze-cognitive-functions.ts:155-156 | filtering never lengthens the list |
| AnalyzeFunctions.KeepValidMembers | api/analyze-cognitive-functions.ts:155-156 | exactly the parsed codes that are valid are kept |
| AnalyzeFunctions.Fallback | api/analyze-cognitive-functions.ts:159-170 | the fallback has at most two codes |
| AnalyzeFunctions.FallbackSpec | api/analyze-cognitive-functions.ts:159-170 | the fallback is the dominant's code then the auxiliary's, where present, and only stack codes |
| AnalyzeFunctions.ActiveOf | api/analyze-cognitive-functions.ts:143-170 | the settled list holds only stack codes, and is empty only when the stack has neither a dominant nor an auxiliary function |
| AnalyzeFunctions.ActiveFunctions | api/analyze-cognitive-functions.ts:143-170 | the imperative parse-filter-fallback block returns exactly the settled list: the non-empty filtered parse, otherwise the fallback |
| AnalyzeFunctions.Handle | api/analyze-cognitive-functions.ts:55-203 | 405 for non-POST, 400 for missing fields, 500 without a key; with a key always 200 with stack codes only, the fallback plus a failure note when the call fails or the reply is blank, and otherwise the settled list of the trimmed reply with no error |
| AnalyzePerspectives.OrElse | api/analyze-perspectives.ts:191-199 | `x \|\| d` on a string yields x unless it is missing or empty |
| AnalyzePerspectives.RoundCount | api/analyze-perspectives.ts:95 | the round count is non-negative |
| AnalyzePerspectives.RoundCountIsMax | api/analyze-perspectives.ts:95 | the round count is the largest round number, or 0 |
| AnalyzePerspectives.HasUserInterjectionSpec | api/analyze-perspectives.ts:96 | an interjection is present exactly when some message is by the user |
| AnalyzePerspectives.DropOpening | api/analyze-perspectives.ts:174-179 | removing the opening fence shortens the text by at least the fence |
| AnalyzePerspectives.DropClosing | api/analyze-perspectives.ts:174-179 | removing the closing fence never lengthens the text |
| AnalyzePerspectives.StripFences | api/analyze-perspectives.ts:174-179 | computes the specified unfenced content |
| AnalyzePerspectives.JsonFenceRoundTrip | api/analyze-perspectives.ts:174-179 | a body wrapped in a json fence is recovered exactly |
| AnalyzePerspectives.PlainFenceRoundTrip | api/analyze-perspectives.ts:174-179 | a body wrapped in a plain fence is recovered exactly |
| AnalyzePerspectives.UnfencedReplyTrimmed | api/analyze-perspectives.ts:174-179 | an unfenced reply is only trimmed |
| AnalyzePerspectives.BeforeDot | api/analyze-perspectives.ts:227 | returns the longest dot-free prefix |
| AnalyzePerspectives.FirstSentence | api/analyze-perspectives.ts:227 | the first sentence, or the first 100 characters when the text starts with a dot |
| AnalyzePerspectives.FindById | api/analyze-perspectives.ts:225 | returns an avatar with the id, or none when no avatar has it |
| AnalyzePerspectives.FallbackEntries | api/analyze-perspectives.ts:220-239 | there is one fallback perspective per position |
| AnalyzePerspectives.FallbackShape | api/analyze-perspectives.ts:220-239 | each fallback perspective has the position's first sentence as its key point, "Unknown" and "" for an unknown avatar, and the fixed common-ground note |
| AnalyzePerspectives.FindByEntry | api/analyze-perspectives.ts:192 | the avatar matched by name or type is a listed avatar, and none when nothing matches |
| AnalyzePerspectives.ToPerspectives | api/analyze-perspectives.ts:191-199 | there is one perspective per parsed entry |
| AnalyzePerspectives.ToPerspectivesSpec | api/analyze-perspectives.ts:191-199 | key points default to empty, and an unmatched entry uses its own name or "Unknown" with an empty id |
| AnalyzePerspectives.Handle | api/analyze-perspectives.ts:54-215 | 405, then 400 for a missing field, then 500 for a missing key, a failed call or an empty reply; a parsed analysis without perspectives gives 500; otherwise 200 with the parsed perspectives matched to avatars, or the fallback analysis when parsing fails |
| GenerateMessage.Score | api/generate-message.ts:218-221 | a score counts at most one per keyword |
| GenerateMessage.ScorePositive | api/generate-message.ts:218-221 | the score is positive exactly when some keyword occurs |
| GenerateMessage.ScoreAll | api/generate-message.ts:218-221 | the score is full exactly when every keyword occurs |
| GenerateMessage.KeywordListsDistinct | api/generate-message.ts:213-216 | no keyword list repeats a keyword |
| GenerateMessage.DominantPriority | api/generate-message.ts:224-241 | a thinking, intuitive, sensing or feeling dominant picks its preferred tag whenever that tag scores |
| GenerateMessage.NoKeywordTag | api/generate-message.ts:247-253 | with no keyword at all the tag falls back on the behaviour: support when emotional focus exceeds 0.6, else clarify when structure exceeds 0.6, else idea when abstractness exceeds 0.6, else support |
| GenerateMessage.HighestScoreWins | api/generate-message.ts:244-255 | without a dominant preference, the tag has the highest score and beats every earlier tag in the order |
| GenerateMessage.ScoredTagHasKeyword | api/generate-message.ts:224-255 | when any keyword occurs, the chosen tag's own score is positive |
| GenerateMessage.SpeakerName | api/generate-message.ts:162-163 | the speaker's name, or "Unknown" when not found; never empty |
| GenerateMessage.ContextLine | api/generate-message.ts:164 | each context line starts with "[" |
| GenerateMessage.ContextLines | api/generate-message.ts:159-167 | there is one line per message |
| GenerateMessage.ContextWindow | api/generate-message.ts:158-167 | the lines describe exactly the last five messages, in order |
| GenerateMessage.OlderMessagesIgnored | api/generate-message.ts:158 | messages before the last five do not affect the context |
| GenerateMessage.ContextEmptyIffNoHistory | api/generate-message.ts:158-167 | the context is empty exactly when there is no history |
| GeneratePosition.Inner | api/generate-position.ts:153-158 | removing the outer quotes drops two characters |
| GeneratePosition.Cleaned | api/generate-position.ts:146-173 | the cleaned text is trimmed and no longer than the input |
| GeneratePosition.CleanResponseContent | api/generate-position.ts:146-173 | the pattern loop computes the specified cleaned text |
| GeneratePosition.EmptyUnchanged | api/generate-position.ts:147 | empty content is returned unchanged |
| GeneratePosition.NoPatternOnlyTrimmed | api/generate-position.ts:149-172 | content no pattern matches is only trimmed |
| GeneratePosition.StripsOneLayer | api/generate-position.ts:160-170 | content wrapped in a quote pair with non-blank inside loses that pair and is trimmed |
| GeneratePosition.BlankInsideKept | api/generate-position.ts:160-170 | a quote pair around blank text is kept |
| GeneratePosition.OnlyOneLayer | api/generate-position.ts:160-170 | only one layer of quotes is removed |
| ModerateImage.WordRun | api/moderate-image.ts:56 | `\w+` matches the longest run of word characters |
| ModerateImage.StripDataUrl | api/moderate-image.ts:56 | stripping never lengthens the image, and leaves a non-data-URL alone |
| ModerateImage.StripDataUrlRoundTrip | api/moderate-image.ts:56 | the payload of `data:image/<subtype>;base64,<payload>` is recovered exactly |
| ModerateImage.Delimiter | api/moderate-image.ts:91 | each part opens with "--" and ends the line |
| ModerateImage.CloseDelimiter | api/moderate-image.ts:107 | the body closes with "--boundary--" and a line end |
| ModerateImage.Encapsulation | api/moderate-image.ts:90-101 | a file part has a disposition, a JPEG content type, the bytes and a line end; a text part has a disposition, a blank line, the value and a line end |
| ModerateImage.AddFormField | api/moderate-image.ts:90-101 | appends exactly one encapsulated part |
| ModerateImage.BuildFormBody | api/moderate-image.ts:87-107 | builds the specified form body |
| ModerateImage.FormBodyFields | api/moderate-image.ts:103-107 | the body is media, models, api_user and api_secret, then the close delimiter |
| ModerateImage.FieldLayout | api/moderate-image.ts:90-101 | every part starts with the delimiter and the field's disposition and carries its value before the final line end |
| ModerateImage.NudityScoreIsMax | api/moderate-image.ts:148-155 | the nudity score is the maximum of raw, partial and 1 − safe |
| ModerateImage.OffensiveScore | api/moderate-image.ts:162-165 | a bare 0 leaves the offensive category out; another bare number is the score; a report gives its probability, or 0 when it has none |
| ModerateImage.ExtractCategories | api/moderate-image.ts:145-170 | extracts the specified category scores |
| ModerateImage.SafetyRule | api/moderate-image.ts:174-183 | an image is safe exactly when nudity, weapon and violence are below 0.5 and offensive (the bare number or the report's probability) is below 0.7; no readings is safe |
| ModerateImage.ZeroReadingsSafe | api/moderate-image.ts:145-183 | all-zero readings, including a bare 0 or a 0 probability for offensive, are safe |
| ModerateImage.OffensiveAsWritten | api/moderate-image.ts:163-165 | the program skips a bare 0; it reads any other bare number, or a present non-zero prob, as a number equal to the corrected score; any other report falls through to the object |
| ModerateImage.ZeroOffensiveFlaggedAsWritten | api/moderate-image.ts:163-183 | an offensive probability of 0 is flagged unsafe by the program as written |
| ModerateImage.AsWrittenAgreesOtherwise | api/moderate-image.ts:163-183 | the program and the corrected rule agree for every bare number and for every report whose probability is present and non-zero |
| ModerateImage.Handle | api/moderate-image.ts:32-201 | 405, 400 for no image, safe without credentials, and an unsafe verdict only from a service reply whose categories fail the rule |
| ScenarioBuilder.ErrorsEmptyIff | src/features/scenarios/ScenarioBuilder.tsx:16-37 | validation passes exactly for a non-blank topic, 2–8 avatars and 4–40 rounds |
| ScenarioBuilder.ErrorMessages | src/features/scenarios/ScenarioBuilder.tsx:16-37 | each error message appears exactly when its rule is broken |
| ScenarioBuilder.Builder.constructor | src/features/scenarios/ScenarioBuilder.tsx:10-14 | the form starts blank, brainstorming, no avatars, ten rounds, no errors |
| ScenarioBuilder.Builder.Validate | src/features/scenarios/ScenarioBuilder.tsx:16-37 | sets the errors and reports success exactly when there are none, without touching the form |
| ScenarioBuilder.Builder.HandleSubmit | src/features/scenarios/ScenarioBuilder.tsx:39-57 | a scenario with the trimmed topic and a "scenario-" id is created exactly when validation passes |
| ScenarioBuilder.Builder.ToggleAvatar | src/features/scenarios/ScenarioBuilder.tsx:59-67 | the selection toggles the id within the limit of 8 and nothing else changes |
| ScenarioBuilder.CreatedScenarioIsSound | src/features/scenarios/ScenarioBuilder.tsx:39-57 | a created scenario has a non-empty trimmed topic, 2–8 avatars and 4–40 rounds |
| AvatarGrid.Without | src/features/avatars/AvatarGrid.tsx:30 | filtering out an id never lengthens the list |
| AvatarGrid.WithoutMembers | src/features/avatars/AvatarGrid.tsx:30 | exactly the other ids remain |
| AvatarGrid.WithoutAbsent | src/features/avatars/AvatarGrid.tsx:30 | removing an absent id changes nothing |
| AvatarGrid.Toggle | src/features/avatars/AvatarGrid.tsx:26-36 | a selected id is removed; an unselected one is appended below the limit and refused at it |
| AvatarGrid.ToggleWithinLimit | src/features/avatars/AvatarGrid.tsx:26-36 | toggling never exceeds the limit |
| AvatarGrid.ToggleTwice | src/features/avatars/AvatarGrid.tsx:26-36 | selecting and then deselecting restores the selection |
| AvatarGrid.HandleCardClick | src/features/avatars/AvatarGrid.tsx:23-41 | outside selection mode the detail opens; inside, the selection toggles, and nothing happens only for a new id at the limit |
| AvatarGrid.DeselectKeepsOthers | src/features/avatars/AvatarGrid.tsx:26-30 | deselecting removes only that id and keeps the order of the others |
| AvatarDetail.SummaryShape | src/features/avatars/AvatarDetailDrawer.tsx:227 | the summary is the fallback for no phrases, else the first up to three phrases joined |
| AvatarDetail.GetStrengths | src/features/avatars/AvatarDetailDrawer.tsx:207-228 | the strengths text is the summary of the strength phrases, or "balanced approach" |
| AvatarDetail.StrengthsOrder | src/features/avatars/AvatarDetailDrawer.tsx:207-228 | the behaviour strengths come first, at most four, and the dominant's strength last |
| AvatarDetail.StrengthPhrasesNonEmpty | src/features/avatars/AvatarDetailDrawer.tsx:207-228 | every strength phrase is non-empty |
| AvatarDetail.BlindSpotPhrasesNonEmpty | src/features/avatars/AvatarDetailDrawer.tsx:230-253 | every blind-spot phrase is non-empty |
| AvatarDetail.GetBlindSpots | src/features/avatars/AvatarDetailDrawer.tsx:230-253 | the blind-spots text is the summary of the blind-spot phrases, or "well-rounded" |
| AvatarDetail.DimensionAtMostOne | src/features/avatars/AvatarDetailDrawer.tsx:236-241 | a dimension gives its high phrase above 0.7, its low phrase below 0.3, and none otherwise |
| AvatarDetail.BlindSpotsShape | src/features/avatars/AvatarDetailDrawer.tsx:230-253 | there are at most four blind spots, with the inferior's last when present |
| SimulationAnalytics.CountBy | src/features/simulation/SimulationAnalytics.tsx:19-22 | a count never exceeds the number of messages |
| SimulationAnalytics.MessageCounts | src/features/simulation/SimulationAnalytics.tsx:19-22 | there is one count per avatar, in avatar order |
| SimulationAnalytics.CountsCoverMessages | src/features/simulation/SimulationAnalytics.tsx:19-22 | with distinct ids and known authors, the counts add up to the number of messages |
| SimulationAnalytics.Increment | src/features/simulation/SimulationAnalytics.tsx:25-34 | counting a tag raises that tag's count by one and no other |
| SimulationAnalytics.TagDistribution | src/features/simulation/SimulationAnalytics.tsx:25-34 | the loop computes the specified tag counts, totalling the number of messages |
| SimulationAnalytics.TagCountsTotal | src/features/simulation/SimulationAnalytics.tsx:25-34 | the tag counts sum to the number of messages |
| SimulationAnalytics.TagCountsAreOccurrences | src/features/simulation/SimulationAnalytics.tsx:25-34 | each tag's count is its number of occurrences |
| SimulationAnalytics.LogicalEmotionalBalance | src/features/simulation/SimulationAnalytics.tsx:145-158 | the loop computes the specified balance |
| SimulationAnalytics.EmotionalTotalBounds | src/features/simulation/SimulationAnalytics.tsx:145-158 | the emotional total lies between 0 and the number of messages |
| SimulationAnalytics.BalanceInRange | src/features/simulation/SimulationAnalytics.tsx:145-158 | the balance is in [0, 1] |
| SimulationAnalytics.UnknownAuthorDilutes | src/features/simulation/SimulationAnalytics.tsx:145-158 | a message by an unknown author adds 0 but still counts in the divisor |
| SimulationAnalytics.ExactlyOneLabel | src/features/simulation/SimulationAnalytics.tsx:116-120 | exactly one label applies: logical below 0.4, emotional above 0.6 |
| SimulationEngine.BuildMessageOutcome | src/lib/simulationEngine.ts:53-81 | the call fails exactly on a non-ok reply or a reported error, with the source's messages; success builds the message record for the avatar, scenario and round |
| SimulationEngine.Participants | src/lib/simulationEngine.ts:100 | the participants are a sub-list of the avatars |
| SimulationEngine.ParticipantsAreSelected | src/lib/simulationEngine.ts:100 | participants are exactly the avatars whose ids the scenario lists |
| SimulationEngine.RoundTurns | src/lib/simulationEngine.ts:108-117 | each round gives one turn per participant, in order |
| SimulationEngine.RunSimulationLoop | src/lib/simulationEngine.ts:98-121 | the nested loops compute the specified simulation |
| SimulationEngine.RunRounds | src/lib/simulationEngine.ts:107-118 | the round loop computes the specified rounds |
| SimulationEngine.TakeRound | src/lib/simulationEngine.ts:108-117 | the turn loop computes the specified round |
| SimulationEngine.RunSimulationIsRoundRobin | src/lib/simulationEngine.ts:98-121 | the simulation is the run of the round-robin schedule |
| SimulationEngine.ScheduleLength | src/lib/simulationEngine.ts:107-118 | the schedule has rounds × participants turns |
| SimulationEngine.ScheduleTurn | src/lib/simulationEngine.ts:107-118 | turn t belongs to participant t mod n in round t div n + 1 |
| SimulationEngine.RunFromLength | src/lib/simulationEngine.ts:107-118 | a finished run appends one message per remaining turn to the history |
| SimulationEngine.RunFromTurn | src/lib/simulationEngine.ts:107-118 | message t is generated for turn t's speaker from all earlier messages |
| SimulationEngine.RunSimulationShape | src/lib/simulationEngine.ts:98-121 | no participants throws; a finished run has rounds × participants messages, message t spoken by participant t mod n in round t div n + 1 |
| SimulationView.CurrentRound | src/features/simulation/SimulationView.tsx:25 | the round is the one whose block contains the index |
| SimulationView.CurrentRoundIsNextRound | src/features/simulation/SimulationView.tsx:25 | the displayed round equals the round of the next message to show |
| SimulationView.View.constructor | src/features/simulation/SimulationView.tsx:15-21 | the view starts empty, stopped and unpaused, at index 0 |
| SimulationView.View.BeginGeneration | src/features/simulation/SimulationView.tsx:32-33 | generating starts and the error is cleared |
| SimulationView.View.FinishGeneration | src/features/simulation/SimulationView.tsx:34-47 | success stores the messages, a failure stores its message, and generation ends either way |
| SimulationView.View.Start | src/features/simulation/SimulationView.tsx:72-78 | playback starts, and shown messages are cleared only at index 0 |
| SimulationView.View.Pause | src/features/simulation/SimulationView.tsx:80-82 | only the pause flag is set |
| SimulationView.View.Resume | src/features/simulation/SimulationView.tsx:84-86 | only the pause flag is cleared |
| SimulationView.View.Reset | src/features/simulation/SimulationView.tsx:88-93 | playback stops, the index returns to 0 and the shown messages are cleared |
| SimulationView.View.Step | src/features/simulation/SimulationView.tsx:95-100 | the next message is shown when one is left; otherwise nothing changes |
| SimulationView.View.Tick | src/features/simulation/SimulationView.tsx:59-70 | a running, unpaused view shows the next message, and stops when none is left; its new playback state is the value tick TickOf of the old one, so AutoPlayFinishes applies to it |
| SimulationView.TickOf | src/features/simulation/SimulationView.tsx:59-70 | a tick never passes the end and never changes the pause flag |
| SimulationView.AutoPlayFinishes | src/features/simulation/SimulationView.tsx:59-70 | uninterrupted auto-play shows every message and then stops |

## Left out

- Logging of the physics state (src/lib/cognitivePhysics.ts:787-936) and the `enableLogging` flag: console output only.
- `mapMBTIToSocionics` (src/lib/cognitivePhysics.ts:68): it is not called by the modelled operations.
- `getSocionicsPositions` is imported by src/lib/avatars.ts but is not defined in src/lib/mbtiData.ts. That file is not part of this model. Generated avatars therefore carry no stored positions, and `initializePhysicsState` derives them from the stack.
- Network calls, the language model, the moderation service and JSON parsing are parameters (`call`, `reply`, `parse`, `service`, `decode`). Prompt text, HTTP headers and `toFixed` formatting are left out.
- Floating-point numbers are modelled as exact reals. Rounding, NaN and infinities are not modelled.
- `toLowerCase` is modelled on ASCII letters only. Unicode case mapping is not modelled.
- The quote character classes in api/generate-position.ts:153-158 are modelled as written in this copy, which contains only ASCII quote characters.
- The second "create row if missing" in updatePhysicsStateAfterMessage (src/lib/cognitivePhysics.ts:743-745) can never fire after `updateRelationship` has seeded the row. The loop keeps it only as a comment.
- No invariant relates affinity to tension: the source keeps them independent.
- JavaScript objects used as dictionaries are modelled as maps; prototype keys such as "constructor" are not modelled.
- The FUNCTION_DESCRIPTIONS prompt prefix (api/analyze-cognitive-functions.ts:41-50, 77-81) only shapes prompt text.
- Storage `try/catch` blocks, JSON (de)serialisation errors and quota errors in src/lib/storage.ts are not modelled. The store holds values directly.
- Message tags outside the declared union cannot be represented, so the analytics never see them.
- `Date.now`, ISO date strings and `Math.random` are parameters (`now`, `createdAt`, `completedAt`).
- Buffer and base64 decoding in api/moderate-image.ts are the `decode` parameter. The 'Invalid image data' branch (api/moderate-image.ts:65-70) is unreachable in the model because `decode` is total.
- ModerateImage.AddFormField: requires a non-empty filename for a JPEG value; every call in the source passes one.
- AnalyzeFunctions.ActiveFunctions: `parse` returns a list of strings; parsed JSON of any other shape is treated as a parse failure.
- `avatar.functions` is always present on avatars; an absent stack is not modelled. The last 500 answer of api/analyze-cognitive-functions.ts (lines 198-201) is therefore unreachable in the model.
- React timers, effect dependencies, cancellation and rendering are not modelled. Auto-play is modelled as a sequence of ticks.
- SimulationView.View.FinishGeneration: a thrown value that is not an `Error` (message 'Failed to generate messages', SimulationView.tsx:41) is not modelled; every failure carries its message.
- SimulationView.CurrentRound: requires at least one participant. With none, the source divides by zero and shows a non-finite round.
- BehaviorDerivation.WeightedAverageInUnitRange: only the [0, 1] bound is proved, not the tighter bound between the smallest and largest profile values.
- CognitivePhysics.NextActivationBounded: its bound follows from Clamp's contract, so the lemma has no proof body of its own.

## Findings

| source | as written | input that shows it | evidently intended | confidence | as-written member | corrected member |
|---|---|---|---|---|---|---|
| api/moderate-image.ts:164 | `offensive.prob \|\| offensive` yields the whole report object when `prob` is 0 or missing, so the comparison `< 0.7` fails and the image is marked unsafe | an `offensive` report object with `prob` equal to 0 or missing | a report with a missing or zero probability counts as 0 and is safe, and a bare number is its own score | not executed | ModerateImage.ZeroOffensiveFlaggedAsWritten | ModerateImage.SafetyRule |
