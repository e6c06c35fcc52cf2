/** The analytics panel (src/features/simulation/SimulationAnalytics.tsx):
    messages per avatar, the tag distribution, and the logical/emotional
    balance with its label. */
module SimulationAnalytics {
  import opened Types
  import Avatars

  // ---- messages per avatar ----

  /** `messages.filter(m => m.avatarId === id).length`. */
  function CountBy(messages: seq<Message>, id: string): (r: nat)
    ensures r <= |messages|
  {
    if |messages| == 0 then 0
    else CountBy(messages[..|messages| - 1], id) + (if messages[|messages| - 1].avatarId == id then 1 else 0)
  }

  datatype AvatarCount = AvatarCount(avatar: Avatar, count: nat)

  /** messageCounts: one entry per avatar, in the avatars' order. */
  function MessageCounts(messages: seq<Message>, avatars: seq<Avatar>): (r: seq<AvatarCount>)
    ensures |r| == |avatars|
    ensures forall i :: 0 <= i < |r| ==> r[i].avatar == avatars[i] && r[i].count <= |messages|
  {
    seq(|avatars|, i requires 0 <= i < |avatars| => AvatarCount(avatars[i], CountBy(messages, avatars[i].id)))
  }

  /** The sum of the counts of the first avatars. */
  function SumCounts(messages: seq<Message>, avatars: seq<Avatar>): nat
  {
    if |avatars| == 0 then 0
    else SumCounts(messages, avatars[..|avatars| - 1]) + CountBy(messages, avatars[|avatars| - 1].id)
  }

  /** How many avatars carry the id. */
  function Carrying(avatars: seq<Avatar>, id: string): nat
  {
    if |avatars| == 0 then 0
    else Carrying(avatars[..|avatars| - 1], id) + (if avatars[|avatars| - 1].id == id then 1 else 0)
  }

  predicate DistinctIds(avatars: seq<Avatar>)
  {
    forall i, j :: 0 <= i < j < |avatars| ==> avatars[i].id != avatars[j].id
  }

  predicate Known(avatars: seq<Avatar>, id: string)
  {
    exists i :: 0 <= i < |avatars| && avatars[i].id == id
  }

  /** One more message adds one to the count of every avatar carrying its
      author's id. */
  lemma {:induction false} SumCountsStep(messages: seq<Message>, m: Message, avatars: seq<Avatar>)
    ensures SumCounts(messages + [m], avatars) == SumCounts(messages, avatars) + Carrying(avatars, m.avatarId)
  {
    if |avatars| > 0 {
      var front := avatars[..|avatars| - 1];
      SumCountsStep(messages, m, front);
      assert (messages + [m])[..|messages|] == messages;
    }
  }

  /** With distinct ids, exactly one avatar carries a known id. */
  lemma {:induction false} CarryingOne(avatars: seq<Avatar>, id: string)
    requires DistinctIds(avatars)
    ensures Known(avatars, id) ==> Carrying(avatars, id) == 1
    ensures !Known(avatars, id) ==> Carrying(avatars, id) == 0
  {
    if |avatars| > 0 {
      var front := avatars[..|avatars| - 1];
      assert DistinctIds(front);
      CarryingOne(front, id);
      if avatars[|avatars| - 1].id == id {
        assert !Known(front, id);
      } else if Known(avatars, id) {
        var i :| 0 <= i < |avatars| && avatars[i].id == id;
        assert front[i].id == id;
      }
    }
  }

  /** When the avatars' ids are distinct and every message has its author
      among them, the per-avatar counts add up to the number of messages. */
  lemma {:induction false} CountsCoverMessages(messages: seq<Message>, avatars: seq<Avatar>)
    requires DistinctIds(avatars)
    requires forall k :: 0 <= k < |messages| ==> Known(avatars, messages[k].avatarId)
    ensures SumCounts(messages, avatars) == |messages|
  {
    if |messages| == 0 {
      SumCountsEmpty(messages, avatars);
    } else {
      var front := messages[..|messages| - 1];
      var m := messages[|messages| - 1];
      CountsCoverMessages(front, avatars);
      assert front + [m] == messages;
      SumCountsStep(front, m, avatars);
      CarryingOne(avatars, m.avatarId);
    }
  }

  /** No messages, no counts. */
  lemma {:induction false} SumCountsEmpty(messages: seq<Message>, avatars: seq<Avatar>)
    requires messages == []
    ensures SumCounts(messages, avatars) == 0
  {
    if |avatars| > 0 {
      SumCountsEmpty(messages, avatars[..|avatars| - 1]);
    }
  }

  // ---- tag distribution ----

  /** The record of the four tag counters. */
  datatype TagCounts = TagCounts(support: nat, critique: nat, idea: nat, clarify: nat)
  {
    function Get(tag: MessageTag): nat
    {
      match tag
      case Support => support
      case Critique => critique
      case Idea => idea
      case Clarify => clarify
    }

    /** `tagCounts[tag]++`. */
    function Increment(tag: MessageTag): (r: TagCounts)
      ensures r.Get(tag) == Get(tag) + 1
      ensures forall t :: t != tag ==> r.Get(t) == Get(t)
    {
      match tag
      case Support => this.(support := support + 1)
      case Critique => this.(critique := critique + 1)
      case Idea => this.(idea := idea + 1)
      case Clarify => this.(clarify := clarify + 1)
    }

    function Total(): nat
    {
      support + critique + idea + clarify
    }
  }

  const NoTags := TagCounts(0, 0, 0, 0)

  /** The counters after the messages have been visited in order. */
  function TagCountsOf(messages: seq<Message>): TagCounts
  {
    if |messages| == 0 then NoTags
    else TagCountsOf(messages[..|messages| - 1]).Increment(messages[|messages| - 1].tag)
  }

  /** tagCounts: the forEach over the messages. */
  method TagDistribution(messages: seq<Message>) returns (counts: TagCounts)
    ensures counts == TagCountsOf(messages)
    ensures counts.Total() == |messages|
  {
    counts := NoTags;
    for i := 0 to |messages|
      invariant counts == TagCountsOf(messages[..i])
    {
      assert messages[..i + 1][..i] == messages[..i];
      counts := counts.Increment(messages[i].tag);
    }
    assert messages[..|messages|] == messages;
    TagCountsTotal(messages);
  }

  /** Each message increments exactly one counter, so the counts sum to the
      number of messages. */
  lemma {:induction false} TagCountsTotal(messages: seq<Message>)
    ensures TagCountsOf(messages).Total() == |messages|
  {
    if |messages| > 0 {
      TagCountsTotal(messages[..|messages| - 1]);
    }
  }

  /** The tags of the messages, in order. */
  function Tags(messages: seq<Message>): (r: seq<MessageTag>)
    ensures |r| == |messages|
  {
    seq(|messages|, i requires 0 <= i < |messages| => messages[i].tag)
  }

  /** Each counter is the number of messages with that tag. */
  lemma {:induction false} TagCountsAreOccurrences(messages: seq<Message>, tag: MessageTag)
    ensures TagCountsOf(messages).Get(tag) == multiset(Tags(messages))[tag]
  {
    if |messages| > 0 {
      var front := messages[..|messages| - 1];
      TagCountsAreOccurrences(front, tag);
      assert Tags(messages) == Tags(front) + [messages[|messages| - 1].tag];
    }
  }

  // ---- logical / emotional balance ----

  /** The emotional focus a message's author adds: 0 for an unknown author. */
  function FocusOf(avatars: seq<Avatar>, id: string): real
  {
    match Avatars.GetAvatarById(avatars, id)
    case Some(a) => a.behavior.emotionalFocus
    case None => 0.0
  }

  /** totalEmotionalFocus after the messages have been visited in order. */
  function EmotionalTotal(messages: seq<Message>, avatars: seq<Avatar>): real
  {
    if |messages| == 0 then 0.0
    else EmotionalTotal(messages[..|messages| - 1], avatars) + FocusOf(avatars, messages[|messages| - 1].avatarId)
  }

  /** The balance: 0.5 without messages, otherwise the mean focus over all
      messages, unknown authors counted as 0. */
  function Balance(messages: seq<Message>, avatars: seq<Avatar>): real
  {
    if |messages| == 0 then 0.5 else EmotionalTotal(messages, avatars) / |messages| as real
  }

  /** calculateLogicalEmotionalBalance. */
  method LogicalEmotionalBalance(messages: seq<Message>, avatars: seq<Avatar>) returns (balance: real)
    ensures balance == Balance(messages, avatars)
  {
    if |messages| == 0 {
      return 0.5;
    }
    var totalEmotionalFocus := 0.0;
    for i := 0 to |messages|
      invariant totalEmotionalFocus == EmotionalTotal(messages[..i], avatars)
    {
      assert messages[..i + 1][..i] == messages[..i];
      var avatar := Avatars.GetAvatarById(avatars, messages[i].avatarId);
      if avatar.Some? {
        totalEmotionalFocus := totalEmotionalFocus + avatar.value.behavior.emotionalFocus;
      }
    }
    assert messages[..|messages|] == messages;
    balance := totalEmotionalFocus / |messages| as real;
  }

  predicate FocusInRange(avatars: seq<Avatar>)
  {
    forall i :: 0 <= i < |avatars| ==> 0.0 <= avatars[i].behavior.emotionalFocus <= 1.0
  }

  /** With every focus in [0, 1] the total lies between 0 and the number of
      messages. */
  lemma {:induction false} EmotionalTotalBounds(messages: seq<Message>, avatars: seq<Avatar>)
    requires FocusInRange(avatars)
    ensures 0.0 <= EmotionalTotal(messages, avatars) <= |messages| as real
  {
    if |messages| > 0 {
      EmotionalTotalBounds(messages[..|messages| - 1], avatars);
      var id := messages[|messages| - 1].avatarId;
      var found := Avatars.GetAvatarById(avatars, id);
      if found.Some? {
        var k :| 0 <= k < |avatars| && avatars[k] == found.value && found.value.id == id &&
                 forall j :: 0 <= j < k ==> avatars[j].id != id;
        assert 0.0 <= avatars[k].behavior.emotionalFocus <= 1.0;
      }
    }
  }

  /** The balance lies between 0 (fully logical) and 1 (fully emotional). */
  lemma BalanceInRange(messages: seq<Message>, avatars: seq<Avatar>)
    requires FocusInRange(avatars)
    ensures 0.0 <= Balance(messages, avatars) <= 1.0
  {
    if |messages| > 0 {
      EmotionalTotalBounds(messages, avatars);
    }
  }

  /** A message by an author who is not among the avatars (a user
      interjection, say) adds no focus but still counts in the mean. */
  lemma UnknownAuthorDilutes(messages: seq<Message>, m: Message, avatars: seq<Avatar>)
    requires forall i :: 0 <= i < |avatars| ==> avatars[i].id != m.avatarId
    ensures Balance(messages + [m], avatars) == EmotionalTotal(messages, avatars) / (|messages| + 1) as real
  {
    assert (messages + [m])[..|messages|] == messages;
  }

  // ---- the balance label ----

  datatype BalanceLabel = HighlyLogical | BalancedDiscussion | EmotionallyFocused

  /** The labels whose render conditions hold. */
  function Labels(balance: real): set<BalanceLabel>
  {
    (if balance < 0.4 then {HighlyLogical} else {})
    + (if 0.4 <= balance <= 0.6 then {BalancedDiscussion} else {})
    + (if balance > 0.6 then {EmotionallyFocused} else {})
  }

  /** Exactly one label is shown for any balance. */
  lemma ExactlyOneLabel(balance: real)
    ensures |Labels(balance)| == 1
    ensures HighlyLogical in Labels(balance) <==> balance < 0.4
    ensures EmotionallyFocused in Labels(balance) <==> balance > 0.6
  {
  }
}
