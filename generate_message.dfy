/** The parts of the message-generation endpoint (api/generate-message.ts)
    that do not talk to the language model: the keyword heuristic that tags
    a reply, and the sliding window of recent messages that the prompt
    quotes. */
module GenerateMessage {
  import opened Types
  import opened Text
  import Avatars

  // ---------------------------------------------------------------------
  // determineMessageTag

  const SupportKeywords: seq<string> := ["agree", "yes", "support", "good", "right", "exactly", "absolutely"]
  const CritiqueKeywords: seq<string> := ["but", "however", "disagree", "wrong", "problem", "issue", "concern"]
  const IdeaKeywords: seq<string> := ["what if", "maybe", "could", "perhaps", "imagine", "consider", "suggest"]
  const ClarifyKeywords: seq<string> := ["clarify", "mean", "understand", "specifically", "detail", "explain"]

  /** `keywords.filter(kw => text.includes(kw)).length`. */
  function Score(text: string, keywords: seq<string>): (r: nat)
    ensures r <= |keywords|
  {
    if keywords == [] then 0
    else (if Contains(text, keywords[0]) then 1 else 0) + Score(text, keywords[1..])
  }

  /** A score is positive exactly when some keyword occurs in the text. */
  lemma {:induction false} ScorePositive(text: string, keywords: seq<string>)
    ensures Score(text, keywords) > 0 <==> exists k :: 0 <= k < |keywords| && Contains(text, keywords[k])
  {
    if keywords != [] {
      ScorePositive(text, keywords[1..]);
      assert forall k :: 1 <= k < |keywords| ==> keywords[k] == keywords[1..][k - 1];
      if Score(text, keywords) == 0 {
        assert !Contains(text, keywords[0]);
      } else if !Contains(text, keywords[0]) {
        var k :| 0 <= k < |keywords[1..]| && Contains(text, keywords[1..][k]);
        assert Contains(text, keywords[k + 1]);
      }
    }
  }

  /** A score counts every keyword of the list it finds, up to the whole
      list. */
  lemma {:induction false} ScoreAll(text: string, keywords: seq<string>)
    ensures Score(text, keywords) == |keywords| <==> forall k :: 0 <= k < |keywords| ==> Contains(text, keywords[k])
  {
    if keywords != [] {
      ScoreAll(text, keywords[1..]);
      assert forall k :: 1 <= k < |keywords| ==> keywords[k] == keywords[1..][k - 1];
    }
  }

  predicate Distinct(keywords: seq<string>) {
    forall i, j :: 0 <= i < j < |keywords| ==> keywords[i] != keywords[j]
  }

  /** No list repeats a keyword, so each score counts distinct keywords. */
  lemma KeywordListsDistinct()
    ensures Distinct(SupportKeywords) && Distinct(CritiqueKeywords)
    ensures Distinct(IdeaKeywords) && Distinct(ClarifyKeywords)
  {
  }

  /** The four scores, in the order the program lists them. */
  datatype Scores = Scores(support: nat, critique: nat, idea: nat, clarify: nat)

  function ScoreOf(s: Scores, t: MessageTag): nat {
    match t
    case Support => s.support case Critique => s.critique
    case Idea => s.idea case Clarify => s.clarify
  }

  /** The order of `Object.entries(scores)`. */
  const TagOrder: seq<MessageTag> := [Support, Critique, Idea, Clarify]

  function ScoresOf(content: string): Scores {
    var lower := ToLower(content);
    Scores(Score(lower, SupportKeywords), Score(lower, CritiqueKeywords),
           Score(lower, IdeaKeywords), Score(lower, ClarifyKeywords))
  }

  function Max(a: nat, b: nat): nat {
    if a < b then b else a
  }

  /** `Math.max(...Object.values(scores))`. */
  function MaxScore(s: Scores): nat {
    Max(Max(Max(s.support, s.critique), s.idea), s.clarify)
  }

  /** `Object.entries(scores).find(([_, score]) => score === maxScore)`. */
  function FirstWithScore(s: Scores, m: nat): Option<MessageTag> {
    if s.support == m then Some(Support)
    else if s.critique == m then Some(Critique)
    else if s.idea == m then Some(Idea)
    else if s.clarify == m then Some(Clarify)
    else None
  }

  /** The fall-back when no keyword matched. */
  function BehaviorTag(b: AvatarBehavior): MessageTag {
    if b.emotionalFocus > 0.6 then Support
    else if b.structure > 0.6 then Clarify
    else if b.abstractness > 0.6 then Idea
    else Support
  }

  /** The tag the dominant function gives priority to, when it has one. */
  function Preferred(dominant: Option<CognitiveFunction>, s: Scores): Option<MessageTag> {
    if dominant == Some(Ti) || dominant == Some(Te) then (if s.critique > 0 then Some(Critique) else None)
    else if dominant == Some(Ne) || dominant == Some(Ni) then (if s.idea > 0 then Some(Idea) else None)
    else if dominant == Some(Si) || dominant == Some(Se) then (if s.clarify > 0 then Some(Clarify) else None)
    else if dominant == Some(Fi) || dominant == Some(Fe) then (if s.support > 0 then Some(Support) else None)
    else None
  }

  function DetermineMessageTag(content: string, avatar: Avatar): MessageTag {
    var scores := ScoresOf(content);
    var preferred := Preferred(FindRole(avatar.functions, Dominant), scores);
    if preferred.Some? then preferred.value
    else
      var maxScore := MaxScore(scores);
      if maxScore == 0 then BehaviorTag(avatar.behavior)
      else FirstWithScore(scores, maxScore).GetOr(Support)
  }

  /** A function pair gives priority to its tag whenever that tag's keywords
      occur at all. */
  lemma DominantPriority(content: string, avatar: Avatar)
    ensures var d := FindRole(avatar.functions, Dominant);
            var s := ScoresOf(content);
            ((d == Some(Ti) || d == Some(Te)) && s.critique > 0 ==> DetermineMessageTag(content, avatar) == Critique)
            && ((d == Some(Ne) || d == Some(Ni)) && s.idea > 0 ==> DetermineMessageTag(content, avatar) == Idea)
            && ((d == Some(Si) || d == Some(Se)) && s.clarify > 0 ==> DetermineMessageTag(content, avatar) == Clarify)
            && ((d == Some(Fi) || d == Some(Fe)) && s.support > 0 ==> DetermineMessageTag(content, avatar) == Support)
  {
  }

  /** With no keyword at all, the tag follows the avatar's behaviour. */
  lemma NoKeywordTag(content: string, avatar: Avatar)
    requires forall k :: 0 <= k < |SupportKeywords| ==> !Contains(ToLower(content), SupportKeywords[k])
    requires forall k :: 0 <= k < |CritiqueKeywords| ==> !Contains(ToLower(content), CritiqueKeywords[k])
    requires forall k :: 0 <= k < |IdeaKeywords| ==> !Contains(ToLower(content), IdeaKeywords[k])
    requires forall k :: 0 <= k < |ClarifyKeywords| ==> !Contains(ToLower(content), ClarifyKeywords[k])
    ensures DetermineMessageTag(content, avatar) == BehaviorTag(avatar.behavior)
  {
    var lower := ToLower(content);
    ScorePositive(lower, SupportKeywords);
    ScorePositive(lower, CritiqueKeywords);
    ScorePositive(lower, IdeaKeywords);
    ScorePositive(lower, ClarifyKeywords);
  }

  /** Otherwise the tag has the highest score, and every tag listed before
      it scores strictly less. */
  lemma HighestScoreWins(content: string, avatar: Avatar)
    requires Preferred(FindRole(avatar.functions, Dominant), ScoresOf(content)).None?
    requires MaxScore(ScoresOf(content)) > 0
    ensures var s := ScoresOf(content);
            var t := DetermineMessageTag(content, avatar);
            (forall u :: ScoreOf(s, u) <= ScoreOf(s, t))
            && (forall i, j :: 0 <= i < j < |TagOrder| && TagOrder[j] == t ==> ScoreOf(s, TagOrder[i]) < ScoreOf(s, t))
  {
    var s := ScoresOf(content);
    var m := MaxScore(s);
    assert FirstWithScore(s, m).Some?;
    forall u ensures ScoreOf(s, u) <= m {
    }
  }

  /** The tag is always one of the four, and a scored tag is one whose
      keywords occur. */
  lemma ScoredTagHasKeyword(content: string, avatar: Avatar)
    requires MaxScore(ScoresOf(content)) > 0
    ensures ScoreOf(ScoresOf(content), DetermineMessageTag(content, avatar)) > 0
  {
    var s := ScoresOf(content);
    var p := Preferred(FindRole(avatar.functions, Dominant), s);
    if p.None? {
      HighestScoreWins(content, avatar);
      var t := DetermineMessageTag(content, avatar);
      assert ScoreOf(s, t) >= ScoreOf(s, Support) && ScoreOf(s, t) >= ScoreOf(s, Critique);
      assert ScoreOf(s, t) >= ScoreOf(s, Idea) && ScoreOf(s, t) >= ScoreOf(s, Clarify);
    }
  }

  // ---------------------------------------------------------------------
  // The conversation window in buildSystemPrompt

  /** How many of the latest messages the prompt quotes. */
  const Window: nat := 5

  /** `speaker?.name || speaker?.mbtiType || 'Unknown'`: the empty string
      counts as missing. */
  function SpeakerName(speaker: Option<Avatar>): (r: string)
    ensures r != []
    ensures speaker.None? ==> r == "Unknown"
    ensures speaker.Some? && speaker.value.name != [] ==> r == speaker.value.name
  {
    if speaker.Some? && speaker.value.name != [] then speaker.value.name
    else if speaker.Some? && speaker.value.mbtiType != [] then speaker.value.mbtiType
    else "Unknown"
  }

  /** One quoted line: `[Round r] Speaker: "content"`. */
  function ContextLine(msg: Message, avatars: seq<Avatar>): (r: string)
    ensures |r| > 0 && r[0] == '['
  {
    "[Round " + IntToString(msg.round) + "] "
    + SpeakerName(Avatars.GetAvatarById(avatars, msg.avatarId)) + ": \"" + msg.content + "\""
  }

  /** The quoted lines, one per message of `recent`, in order. */
  function ContextLines(recent: seq<Message>, avatars: seq<Avatar>): (r: seq<string>)
    ensures |r| == |recent|
  {
    seq(|recent|, k requires 0 <= k < |recent| => ContextLine(recent[k], avatars))
  }

  /** `conversationContext`: the last five messages, one line each. */
  function ConversationContext(history: seq<Message>, avatars: seq<Avatar>): string {
    Join(ContextLines(TakeLast(history, Window), avatars), "\n")
  }

  /** The prompt quotes at most five lines: line k is message
      |history| - n + k, where n = min(5, |history|). */
  lemma ContextWindow(history: seq<Message>, avatars: seq<Avatar>)
    ensures var lines := ContextLines(TakeLast(history, Window), avatars);
            |lines| == (if |history| < Window then |history| else Window)
            && forall k :: 0 <= k < |lines| ==> lines[k] == ContextLine(history[|history| - |lines| + k], avatars)
  {
    var recent := TakeLast(history, Window);
    var lines := ContextLines(recent, avatars);
    var n := |recent|;
    assert |lines| == n;
    forall k | 0 <= k < n
      ensures lines[k] == ContextLine(history[|history| - n + k], avatars)
    {
      assert lines[k] == ContextLine(recent[k], avatars);
      assert recent[k] == history[|history| - n + k];
    }
  }

  /** Messages older than the last five have no influence on the prompt. */
  lemma OlderMessagesIgnored(older: seq<Message>, history: seq<Message>, avatars: seq<Avatar>)
    requires |history| >= Window
    ensures ConversationContext(older + history, avatars) == ConversationContext(history, avatars)
  {
    var whole := older + history;
    assert whole[|whole| - Window..] == history[|history| - Window..];
    assert TakeLast(whole, Window) == TakeLast(history, Window);
  }

  /** The context is empty exactly for the first message of a conversation,
      when the prompt says so instead of quoting. */
  lemma ContextEmptyIffNoHistory(history: seq<Message>, avatars: seq<Avatar>)
    ensures ConversationContext(history, avatars) == [] <==> history == []
  {
    var lines := ContextLines(TakeLast(history, Window), avatars);
    if history != [] {
      JoinStartsWithFirst(lines, "\n");
    }
  }
}
