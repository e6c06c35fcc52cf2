/** The avatar roster (src/lib/avatars.ts): one avatar per MBTI type with a
    derived behaviour, lookups by id, and grouping by temperament. */
module Avatars {
  import opened Types
  import opened Text
  import opened MbtiData
  import BehaviorDerivation

  /** The friendly name of each of the sixteen types. */
  function Nickname(t: MbtiType): string {
    match t
    case INTJ => "The Architect"
    case INTP => "The Logician"
    case ENTJ => "The Commander"
    case ENTP => "The Debater"
    case INFJ => "The Advocate"
    case INFP => "The Mediator"
    case ENFJ => "The Protagonist"
    case ENFP => "The Campaigner"
    case ISTJ => "The Logistician"
    case ISFJ => "The Defender"
    case ESTJ => "The Executive"
    case ESFJ => "The Consul"
    case ISTP => "The Virtuoso"
    case ISFP => "The Adventurer"
    case ESTP => "The Entrepreneur"
    case ESFP => "The Entertainer"
  }

  /** generateAvatarName: the type's friendly name, or the string itself
      when it is not one of the sixteen keys. */
  function GenerateAvatarName(mbtiType: string): (r: string)
    ensures LookupType(mbtiType).None? ==> r == mbtiType
  {
    match LookupType(mbtiType)
    case Some(t) => Nickname(t)
    case None => mbtiType
  }

  /** Every one of the sixteen keys gets its own friendly name. */
  lemma GenerateAvatarNameOfType(t: MbtiType)
    ensures GenerateAvatarName(TypeName(t)) == Nickname(t)
    ensures |GenerateAvatarName(TypeName(t))| > 0
  {
    LookupTypeRoundTrip(t);
  }

  /** The avatar generateAvatars builds for `t` (its socionics positions are
      absent: see README). */
  function AvatarFor(t: MbtiType): Avatar {
    Avatar(ToLower(TypeName(t)), TypeName(t), GenerateAvatarName(TypeName(t)), Functions(t),
           BehaviorDerivation.BehaviorOf(Functions(t)), TypeDescription(t), None)
  }

  /** The body of generateAvatars' loop: the avatar for one entry. */
  method BuildAvatar(t: MbtiType) returns (avatar: Avatar)
    ensures avatar == AvatarFor(t)
  {
    var mbtiType := TypeName(t);
    var behavior := BehaviorDerivation.DeriveBehavior(Functions(t));
    avatar := Avatar(ToLower(mbtiType), mbtiType, GenerateAvatarName(mbtiType),
                     Functions(t), behavior, TypeDescription(t), None);
  }

  /** The avatars for a list of entries, in order. */
  function AvatarsFor(types: seq<MbtiType>): (r: seq<Avatar>)
    ensures |r| == |types|
  {
    if types == [] then [] else AvatarsFor(types[..|types| - 1]) + [AvatarFor(types[|types| - 1])]
  }

  /** Entry k of AvatarsFor is the avatar for entry k. */
  lemma {:induction false} AvatarsForIndex(types: seq<MbtiType>, k: nat)
    requires k < |types|
    ensures AvatarsFor(types)[k] == AvatarFor(types[k])
  {
    if k < |types| - 1 {
      AvatarsForIndex(types[..|types| - 1], k);
    }
  }

  /** The loop of generateAvatars over the table's entries. */
  method BuildAvatars(types: seq<MbtiType>) returns (avatars: seq<Avatar>)
    ensures avatars == AvatarsFor(types)
  {
    avatars := [];
    for i := 0 to |types|
      invariant avatars == AvatarsFor(types[..i])
    {
      assert types[..i + 1][..i] == types[..i];
      var avatar := BuildAvatar(types[i]);
      avatars := avatars + [avatar];
    }
    assert types[..|types|] == types;
  }

  /** generateAvatars: one avatar per MBTI_TYPES entry, in the table's order. */
  method GenerateAvatars() returns (avatars: seq<Avatar>)
    ensures |avatars| == |AllTypes()|
    ensures forall k :: 0 <= k < |avatars| ==> avatars[k] == AvatarFor(AllTypes()[k])
  {
    avatars := BuildAvatars(AllTypes());
    forall k | 0 <= k < |avatars|
      ensures avatars[k] == AvatarFor(AllTypes()[k])
    {
      AvatarsForIndex(AllTypes(), k);
    }
  }

  predicate IsUpperLetters(s: string) {
    forall i :: 0 <= i < |s| ==> 'A' <= s[i] <= 'Z'
  }

  /** Lower-casing is one-to-one on upper-case words. */
  lemma ToLowerInjective(s: string, u: string)
    requires IsUpperLetters(s) && IsUpperLetters(u)
    requires ToLower(s) == ToLower(u)
    ensures s == u
  {
    assert |s| == |u|;
    forall i | 0 <= i < |s|
      ensures s[i] == u[i]
    {
      assert ToLower(s)[i] == ToLower(u)[i];
    }
  }

  lemma TypeNameUpper(t: MbtiType)
    ensures IsUpperLetters(TypeName(t))
  {
  }

  /** Two generated avatars with the same id come from the same entry: the
      lower-cased type names are pairwise distinct. */
  lemma GeneratedIdsDistinct(t: MbtiType, u: MbtiType)
    requires AvatarFor(t).id == AvatarFor(u).id
    ensures t == u
  {
    TypeNameUpper(t);
    TypeNameUpper(u);
    ToLowerInjective(TypeName(t), TypeName(u));
    LookupTypeRoundTrip(t);
    LookupTypeRoundTrip(u);
  }

  /** getAvatarById: the first avatar with the given id. */
  function GetAvatarById(avatars: seq<Avatar>, id: string): (r: Option<Avatar>)
    ensures r.None? <==> forall k :: 0 <= k < |avatars| ==> avatars[k].id != id
    ensures r.Some? ==> exists k :: 0 <= k < |avatars| && avatars[k] == r.value && r.value.id == id &&
                                   forall j :: 0 <= j < k ==> avatars[j].id != id
  {
    if |avatars| == 0 then None
    else if avatars[0].id == id then Some(avatars[0])
    else
      var r := GetAvatarById(avatars[1..], id);
      assert forall k :: 1 <= k < |avatars| ==> avatars[k] == avatars[1..][k - 1];
      if r.Some? then
        var k :| 0 <= k < |avatars[1..]| && avatars[1..][k] == r.value && r.value.id == id &&
                 forall j :: 0 <= j < k ==> avatars[1..][j].id != id;
        assert avatars[k + 1] == r.value;
        r
      else r
  }

  /** getAvatarsByIds: the lookups of `ids`, in order, with the misses dropped. */
  function GetAvatarsByIds(avatars: seq<Avatar>, ids: seq<string>): seq<Avatar> {
    if ids == [] then []
    else
      (match GetAvatarById(avatars, ids[0]) case Some(a) => [a] case None => []) +
      GetAvatarsByIds(avatars, ids[1..])
  }

  /** Looking up a concatenation of ids concatenates the lookups: the result
      follows `ids`, and a repeated id is repeated. */
  lemma {:induction false} GetAvatarsByIdsAppend(avatars: seq<Avatar>, a: seq<string>, b: seq<string>)
    ensures GetAvatarsByIds(avatars, a + b) == GetAvatarsByIds(avatars, a) + GetAvatarsByIds(avatars, b)
  {
    if a != [] {
      assert (a + b)[0] == a[0];
      assert (a + b)[1..] == a[1..] + b;
      GetAvatarsByIdsAppend(avatars, a[1..], b);
    } else {
      assert a + b == b;
    }
  }

  /** A single id yields its avatar if it is known and nothing otherwise. */
  lemma GetAvatarsByIdsSingle(avatars: seq<Avatar>, id: string)
    ensures GetAvatarById(avatars, id).Some? ==> GetAvatarsByIds(avatars, [id]) == [GetAvatarById(avatars, id).value]
    ensures GetAvatarById(avatars, id).None? ==> GetAvatarsByIds(avatars, [id]) == []
  {
    assert [id][1..] == [];
  }

  /** Every returned avatar is one of `avatars` whose id is among `ids`. */
  lemma {:induction false} GetAvatarsByIdsMembers(avatars: seq<Avatar>, ids: seq<string>)
    ensures |GetAvatarsByIds(avatars, ids)| <= |ids|
    ensures forall a :: a in GetAvatarsByIds(avatars, ids) ==> a in avatars && a.id in ids
  {
    if ids != [] {
      GetAvatarsByIdsMembers(avatars, ids[1..]);
      assert forall x :: x in ids[1..] ==> x in ids;
    }
  }

  datatype Temperament = NT | NF | SJ | SP

  /** The group an MBTI string falls into, in the order the rules are tried. */
  function TemperamentOf(mbtiType: string): Option<Temperament> {
    if Contains(mbtiType, "NT") then Some(NT)
    else if Contains(mbtiType, "NF") then Some(NF)
    else if EndsWith(mbtiType, "J") && (StartsWith(mbtiType, "IS") || StartsWith(mbtiType, "ES")) then Some(SJ)
    else if EndsWith(mbtiType, "P") && (StartsWith(mbtiType, "IS") || StartsWith(mbtiType, "ES")) then Some(SP)
    else None
  }

  /** The avatars of one group, in input order. */
  function Members(avatars: seq<Avatar>, g: Temperament): seq<Avatar> {
    if avatars == [] then []
    else Members(avatars[..|avatars| - 1], g) +
         (if TemperamentOf(avatars[|avatars| - 1].mbtiType) == Some(g) then [avatars[|avatars| - 1]] else [])
  }

  /** The four groups; the record always has all four keys. */
  datatype Groups = Groups(nt: seq<Avatar>, nf: seq<Avatar>, sj: seq<Avatar>, sp: seq<Avatar>)

  /** groupAvatarsByTemperament. */
  method GroupAvatarsByTemperament(avatars: seq<Avatar>) returns (groups: Groups)
    ensures groups == Groups(Members(avatars, NT), Members(avatars, NF), Members(avatars, SJ), Members(avatars, SP))
  {
    groups := Groups([], [], [], []);
    for i := 0 to |avatars|
      invariant groups == Groups(Members(avatars[..i], NT), Members(avatars[..i], NF),
                                 Members(avatars[..i], SJ), Members(avatars[..i], SP))
    {
      MembersStep(avatars, i);
      var avatar := avatars[i];
      // The loop body's if-chain on the type is TemperamentOf.
      var group := TemperamentOf(avatar.mbtiType);
      if group == Some(NT) {
        groups := groups.(nt := groups.nt + [avatar]);
      } else if group == Some(NF) {
        groups := groups.(nf := groups.nf + [avatar]);
      } else if group == Some(SJ) {
        groups := groups.(sj := groups.sj + [avatar]);
      } else if group == Some(SP) {
        groups := groups.(sp := groups.sp + [avatar]);
      }
    }
    assert avatars[..|avatars|] == avatars;
  }

  /** Taking one more avatar appends it to its own group only. */
  lemma MembersStep(avatars: seq<Avatar>, i: nat)
    requires i < |avatars|
    ensures forall g :: Members(avatars[..i + 1], g) ==
              Members(avatars[..i], g) + (if TemperamentOf(avatars[i].mbtiType) == Some(g) then [avatars[i]] else [])
  {
    assert avatars[..i + 1][..i] == avatars[..i];
  }

  /** How many avatars fall into some group. */
  function Classified(avatars: seq<Avatar>): nat {
    if avatars == [] then 0
    else Classified(avatars[..|avatars| - 1]) + (if TemperamentOf(avatars[|avatars| - 1].mbtiType).Some? then 1 else 0)
  }

  /** Every classified avatar lands in exactly one group, and unclassified
      ones are dropped. */
  lemma {:induction false} MembersPartition(avatars: seq<Avatar>)
    ensures |Members(avatars, NT)| + |Members(avatars, NF)| + |Members(avatars, SJ)| + |Members(avatars, SP)|
            == Classified(avatars) <= |avatars|
  {
    if avatars != [] {
      MembersPartition(avatars[..|avatars| - 1]);
    }
  }

  /** Each group holds only its own avatars. */
  lemma {:induction false} MembersSound(avatars: seq<Avatar>, g: Temperament)
    ensures forall a :: a in Members(avatars, g) ==> a in avatars && TemperamentOf(a.mbtiType) == Some(g)
  {
    if avatars != [] {
      var init := avatars[..|avatars| - 1];
      MembersSound(init, g);
      assert forall a :: a in init ==> a in avatars;
    }
  }

  /** Each of the sixteen types falls into the group its letters name:
      NT and NF by their middle letters, SJ and SP by sensing plus the last
      letter. */
  lemma TemperamentOfType(t: MbtiType)
    ensures TemperamentOf(TypeName(t)).Some?
    ensures TemperamentOf(TypeName(t)) == Some(NT) <==> TypeName(t)[1..3] == "NT"
    ensures TemperamentOf(TypeName(t)) == Some(NF) <==> TypeName(t)[1..3] == "NF"
    ensures TemperamentOf(TypeName(t)) == Some(SJ) <==> TypeName(t)[1] == 'S' && TypeName(t)[3] == 'J'
    ensures TemperamentOf(TypeName(t)) == Some(SP) <==> TypeName(t)[1] == 'S' && TypeName(t)[3] == 'P'
  {
    var s := TypeName(t);
    assert |s| == 4;
    if s[1..3] == "NT" {
      ContainsAt(s, "NT", 1);
    } else if s[1..3] == "NF" {
      ContainsAt(s, "NF", 1);
      NoSubstring(s, "NT");
    } else {
      NoSubstring(s, "NT");
      NoSubstring(s, "NF");
    }
  }

  /** A four-letter type name contains a two-letter code only at index 1. */
  lemma NoSubstring(s: string, sub: string)
    requires |s| == 4 && |sub| == 2 && s[1..3] != sub
    requires s[0] != sub[0] && s[2] != sub[0]
    ensures !Contains(s, sub)
  {
    assert !Contains(s[3..][1..], sub);
    assert !Contains(s[3..], sub);
    assert s[2..][1..] == s[3..];
    assert !Contains(s[2..], sub);
    assert s[1..][1..] == s[2..];
    assert !Contains(s[1..], sub);
  }
}
