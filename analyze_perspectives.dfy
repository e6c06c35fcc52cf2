/** The conversation-analysis endpoint (api/analyze-perspectives.ts) without
    its network call: the figures quoted in the prompt, the clean-up of the
    model's reply, the mapping of the parsed perspectives onto avatars, and
    the analysis built from the final positions when the reply cannot be
    parsed. */
module AnalyzePerspectives {
  import opened Types
  import opened Text

  /** The avatar fields the request carries. */
  datatype AvatarRef = AvatarRef(id: string, name: string, mbtiType: string)

  /** A final position as the request carries it. */
  datatype Position = Position(avatarId: string, content: string, round: int)

  /** A perspective as parsed from JSON: each field may be missing. */
  datatype Entry = Entry(avatarName: Option<string>, mbtiType: Option<string>, keyPoints: Option<seq<string>>)

  /** The parsed analysis object. */
  datatype Analysis = Analysis(perspectives: Option<seq<Entry>>, commonGround: Option<seq<string>>)

  /** A perspective as answered. */
  datatype Perspective = Perspective(avatarId: string, avatarName: string, mbtiType: string, keyPoints: seq<string>)

  /** `o || fallback` on an optional string: missing and empty both fall
      through. */
  function OrElse(o: Option<string>, fallback: string): (r: string)
    ensures o.Some? && o.value != [] ==> r == o.value
    ensures (o.None? || o.value == []) ==> r == fallback
  {
    if o.Some? && o.value != [] then o.value else fallback
  }

  // ---------------------------------------------------------------------
  // The figures in the prompt

  /** `Math.max(...messages.map(m => m.round || 0), 0)`. */
  function RoundCount(messages: seq<Message>): (r: int)
    ensures r >= 0
  {
    if messages == [] then 0
    else
      var rest := RoundCount(messages[1..]);
      if messages[0].round > rest then messages[0].round else rest
  }

  /** The round count is the largest round of any message, or 0 when there
      is no message with a positive round. */
  lemma {:induction false} RoundCountIsMax(messages: seq<Message>)
    ensures forall k :: 0 <= k < |messages| ==> messages[k].round <= RoundCount(messages)
    ensures RoundCount(messages) == 0 || exists k :: 0 <= k < |messages| && messages[k].round == RoundCount(messages)
  {
    if messages != [] {
      RoundCountIsMax(messages[1..]);
      assert forall k :: 1 <= k < |messages| ==> messages[k] == messages[1..][k - 1];
      if RoundCount(messages) != messages[0].round && RoundCount(messages) != 0 {
        var k :| 0 <= k < |messages[1..]| && messages[1..][k].round == RoundCount(messages[1..]);
        assert messages[k + 1].round == RoundCount(messages);
      }
    }
  }

  /** `messages.some(m => m.avatarId === 'user')`. */
  function HasUserInterjection(messages: seq<Message>): bool {
    messages != [] && (messages[0].avatarId == UserId || HasUserInterjection(messages[1..]))
  }

  lemma {:induction false} HasUserInterjectionSpec(messages: seq<Message>)
    ensures HasUserInterjection(messages) <==> exists k :: 0 <= k < |messages| && messages[k].avatarId == UserId
  {
    if messages != [] {
      HasUserInterjectionSpec(messages[1..]);
      assert forall k :: 1 <= k < |messages| ==> messages[k] == messages[1..][k - 1];
      if HasUserInterjection(messages[1..]) {
        var k :| 0 <= k < |messages[1..]| && messages[1..][k].avatarId == UserId;
        assert messages[k + 1].avatarId == UserId;
      }
    }
  }

  // ---------------------------------------------------------------------
  // Cleaning the reply

  const JsonFence := "```json"
  const Fence := "```"

  /** `replace(/^<fence>\n?/, '')` on a text that starts with the fence. */
  function DropOpening(s: string, fence: string): (r: string)
    requires StartsWith(s, fence)
    ensures |r| <= |s| - |fence|
  {
    var rest := s[|fence|..];
    if rest != [] && rest[0] == '\n' then rest[1..] else rest
  }

  /** `replace(/\n?```$/, '')`: a closing fence at the very end goes, with
      the line break before it. */
  function DropClosing(s: string): (r: string)
    ensures |r| <= |s|
  {
    if EndsWith(s, "\n" + Fence) then s[..|s| - 4]
    else if EndsWith(s, Fence) then s[..|s| - 3]
    else s
  }

  /** The reply text after trimming and removing a code fence. */
  function Unfenced(raw: string): string {
    var t := Trim(raw);
    if StartsWith(t, JsonFence) then DropClosing(DropOpening(t, JsonFence))
    else if StartsWith(t, Fence) then DropClosing(DropOpening(t, Fence))
    else t
  }

  /** The clean-up step, reassigning `content` as the handler does. */
  method StripFences(raw: string) returns (content: string)
    ensures content == Unfenced(raw)
  {
    content := Trim(raw);
    if StartsWith(content, JsonFence) {
      content := DropOpening(content, JsonFence);
      content := DropClosing(content);
    } else if StartsWith(content, Fence) {
      content := DropOpening(content, Fence);
      content := DropClosing(content);
    }
  }

  /** The opening fence goes with the line break after it. */
  lemma OpeningDropped(fence: string, rest: string)
    ensures StartsWith(fence + "\n" + rest, fence)
    ensures DropOpening(fence + "\n" + rest, fence) == rest
  {
    var s := fence + "\n" + rest;
    assert s[..|fence|] == fence;
    assert s[|fence|..] == "\n" + rest;
  }

  /** The closing fence goes with the line break before it. */
  lemma ClosingDropped(body: string)
    ensures DropClosing(body + "\n" + Fence) == body
  {
    var s := body + "\n" + Fence;
    assert s[|s| - 4..] == "\n" + Fence;
    assert s[..|s| - 4] == body;
  }

  /** A text that starts and ends with a backtick is already trimmed. */
  lemma FencedIsTrimmed(s: string)
    requires |s| > 0 && s[0] == '`' && s[|s| - 1] == '`'
    ensures Trim(s) == s
  {
    TrimmedIsFixpoint(s);
  }

  /** A JSON body wrapped in a ```json fence comes back exactly. */
  lemma JsonFenceRoundTrip(body: string)
    ensures Unfenced(JsonFence + "\n" + (body + "\n" + Fence)) == body
  {
    var rest := body + "\n" + Fence;
    var s := JsonFence + "\n" + rest;
    assert s[0] == '`' && s[|s| - 1] == '`';
    FencedIsTrimmed(s);
    OpeningDropped(JsonFence, rest);
    ClosingDropped(body);
  }

  /** So does a body in a plain ``` fence. */
  lemma PlainFenceRoundTrip(body: string)
    ensures Unfenced(Fence + "\n" + (body + "\n" + Fence)) == body
  {
    var rest := body + "\n" + Fence;
    var s := Fence + "\n" + rest;
    assert s[0] == '`' && s[|s| - 1] == '`';
    FencedIsTrimmed(s);
    PlainIsNotJson(rest);
    OpeningDropped(Fence, rest);
    ClosingDropped(body);
  }

  /** A plain fence followed by a line break is no ```json fence. */
  lemma PlainIsNotJson(rest: string)
    ensures !StartsWith(Fence + "\n" + rest, JsonFence)
  {
    var s := Fence + "\n" + rest;
    assert s[3] == '\n' && JsonFence[3] == 'j';
  }

  /** A reply that does not open with a fence is only trimmed. */
  lemma UnfencedReplyTrimmed(raw: string)
    requires !StartsWith(Trim(raw), Fence)
    ensures Unfenced(raw) == Trim(raw)
  {
    JsonFenceIsFence(Trim(raw));
  }

  /** A ```json fence is a ``` fence too. */
  lemma JsonFenceIsFence(t: string)
    ensures StartsWith(t, JsonFence) ==> StartsWith(t, Fence)
  {
    if StartsWith(t, JsonFence) {
      assert t[..3] == t[..7][..3];
    }
  }

  // ---------------------------------------------------------------------
  // The fall-back analysis

  const CommonGroundNote := "The conversation explored multiple perspectives on the topic"

  /** `split('.')[0]`: the text before the first full stop. */
  function BeforeDot(s: string): (r: string)
    ensures |r| <= |s| && r == s[..|r|]
    ensures forall k :: 0 <= k < |r| ==> r[k] != '.'
    ensures |r| == |s| || s[|r|] == '.'
  {
    if s == [] || s[0] == '.' then [] else [s[0]] + BeforeDot(s[1..])
  }

  /** The one key point of a fall-back perspective. */
  function FirstSentence(content: string): (r: string)
    ensures BeforeDot(content) != [] ==> r == BeforeDot(content)
    ensures BeforeDot(content) == [] ==> r == content[..if |content| < 100 then |content| else 100]
  {
    var before := BeforeDot(content);
    if before != [] then before else content[..if |content| < 100 then |content| else 100]
  }

  /** `avatars.find(a => a.id === id)`. */
  function FindById(avatars: seq<AvatarRef>, id: string): (r: Option<AvatarRef>)
    ensures r.Some? ==> r.value.id == id && r.value in avatars
    ensures r.None? ==> forall k :: 0 <= k < |avatars| ==> avatars[k].id != id
  {
    if avatars == [] then None
    else if avatars[0].id == id then Some(avatars[0])
    else FindById(avatars[1..], id)
  }

  function FallbackEntry(pos: Position, avatars: seq<AvatarRef>): Entry {
    var avatar := FindById(avatars, pos.avatarId);
    Entry(Some(if avatar.Some? && avatar.value.name != [] then avatar.value.name else "Unknown"),
          Some(if avatar.Some? then avatar.value.mbtiType else ""),
          Some([FirstSentence(pos.content)]))
  }

  function FallbackEntries(positions: seq<Position>, avatars: seq<AvatarRef>): (r: seq<Entry>)
    ensures |r| == |positions|
  {
    if positions == [] then [] else [FallbackEntry(positions[0], avatars)] + FallbackEntries(positions[1..], avatars)
  }

  /** createFallbackAnalysis. */
  function CreateFallbackAnalysis(positions: seq<Position>, avatars: seq<AvatarRef>): Analysis {
    Analysis(Some(FallbackEntries(positions, avatars)), Some([CommonGroundNote]))
  }

  /** One perspective per position, in order, each with exactly one key
      point; an unknown author is named "Unknown" with an empty type; the
      common ground is the single fixed sentence. */
  lemma {:induction false} FallbackShape(positions: seq<Position>, avatars: seq<AvatarRef>, k: nat)
    requires k < |positions|
    ensures var a := CreateFallbackAnalysis(positions, avatars);
            a.commonGround == Some([CommonGroundNote])
            && a.perspectives.Some? && |a.perspectives.value| == |positions|
            && a.perspectives.value[k].keyPoints == Some([FirstSentence(positions[k].content)])
            && (FindById(avatars, positions[k].avatarId).None? ==>
                  a.perspectives.value[k].avatarName == Some("Unknown") && a.perspectives.value[k].mbtiType == Some(""))
  {
    if k > 0 {
      FallbackShape(positions[1..], avatars, k - 1);
    }
  }

  // ---------------------------------------------------------------------
  // Mapping the parsed perspectives

  /** `avatars.find(a => a.name === p.avatarName || a.mbtiType === p.mbtiType)`;
      a missing field matches nothing. */
  function FindByEntry(avatars: seq<AvatarRef>, e: Entry): (r: Option<AvatarRef>)
    ensures r.Some? ==> r.value in avatars
    ensures r.None? ==> forall k :: 0 <= k < |avatars| ==>
              e.avatarName != Some(avatars[k].name) && e.mbtiType != Some(avatars[k].mbtiType)
  {
    if avatars == [] then None
    else if e.avatarName == Some(avatars[0].name) || e.mbtiType == Some(avatars[0].mbtiType) then Some(avatars[0])
    else FindByEntry(avatars[1..], e)
  }

  function ToPerspective(e: Entry, avatars: seq<AvatarRef>): Perspective {
    var avatar := FindByEntry(avatars, e);
    Perspective(if avatar.Some? && avatar.value.id != [] then avatar.value.id else "",
                OrElse(e.avatarName, if avatar.Some? && avatar.value.name != [] then avatar.value.name else "Unknown"),
                OrElse(e.mbtiType, if avatar.Some? then avatar.value.mbtiType else ""),
                e.keyPoints.GetOr([]))
  }

  function ToPerspectives(entries: seq<Entry>, avatars: seq<AvatarRef>): (r: seq<Perspective>)
    ensures |r| == |entries|
  {
    if entries == [] then [] else [ToPerspective(entries[0], avatars)] + ToPerspectives(entries[1..], avatars)
  }

  /** Perspective k comes from entry k, and missing key points become an
      empty list; an entry that names no known avatar gets an empty id and
      keeps its own name and type, "Unknown" and "" standing in for them. */
  lemma {:induction false} ToPerspectivesSpec(entries: seq<Entry>, avatars: seq<AvatarRef>, k: nat)
    requires k < |entries|
    ensures ToPerspectives(entries, avatars)[k].keyPoints == entries[k].keyPoints.GetOr([])
    ensures (forall j :: 0 <= j < |avatars| ==>
               entries[k].avatarName != Some(avatars[j].name) && entries[k].mbtiType != Some(avatars[j].mbtiType))
            ==> ToPerspectives(entries, avatars)[k]
                == Perspective("", OrElse(entries[k].avatarName, "Unknown"), OrElse(entries[k].mbtiType, ""),
                               entries[k].keyPoints.GetOr([]))
  {
    if k > 0 {
      ToPerspectivesSpec(entries[1..], avatars, k - 1);
    } else if forall j :: 0 <= j < |avatars| ==>
                entries[0].avatarName != Some(avatars[j].name) && entries[0].mbtiType != Some(avatars[j].mbtiType) {
      NoMatchFindsNone(avatars, entries[0]);
    }
  }

  lemma {:induction false} NoMatchFindsNone(avatars: seq<AvatarRef>, e: Entry)
    requires forall j :: 0 <= j < |avatars| ==> e.avatarName != Some(avatars[j].name) && e.mbtiType != Some(avatars[j].mbtiType)
    ensures FindByEntry(avatars, e).None?
  {
    if avatars != [] {
      NoMatchFindsNone(avatars[1..], e);
    }
  }

  // ---------------------------------------------------------------------
  // The handler

  datatype Request = Request(httpMethod: string, hasScenario: bool, messages: Option<seq<Message>>,
                             positions: Option<seq<Position>>, avatars: Option<seq<AvatarRef>>)

  datatype Response = Response(status: nat, perspectives: seq<Perspective>, commonGround: seq<string>, error: Option<string>)

  /** JSON.parse: None when it throws. */
  type Parse = string -> Option<Analysis>

  /** The handler, given the API key, the model's reply (its content, or the
      error text of a failed call) and JSON.parse. */
  method Handle(req: Request, apiKey: Option<string>, reply: Result<string>, parse: Parse) returns (r: Response)
    ensures req.httpMethod != "POST" ==> r.status == 405
    ensures (req.httpMethod == "POST" && (!req.hasScenario || req.messages.None? || req.positions.None? || req.avatars.None?))
            ==> r.status == 400
    ensures r.status == 200 ==> req.avatars.Some? && req.positions.Some?
    ensures (req.httpMethod == "POST" && req.hasScenario && req.messages.Some? && req.positions.Some? && req.avatars.Some?
             && (apiKey.None? || apiKey.value == [] || reply.Err? || reply.value == [])) ==> r.status == 500
    ensures (req.httpMethod == "POST" && req.hasScenario && req.messages.Some? && req.positions.Some? && req.avatars.Some?
             && apiKey.Some? && apiKey.value != [] && reply.Ok? && reply.value != []
             && parse(Unfenced(reply.value)).None?) ==>
              r == Response(200, ToPerspectives(FallbackEntries(req.positions.value, req.avatars.value), req.avatars.value),
                            [CommonGroundNote], None)
    ensures (req.httpMethod == "POST" && req.hasScenario && req.messages.Some? && req.positions.Some? && req.avatars.Some?
             && apiKey.Some? && apiKey.value != [] && reply.Ok? && reply.value != []
             && parse(Unfenced(reply.value)).Some?) ==>
              var a := parse(Unfenced(reply.value)).value;
              (a.perspectives.None? ==> r.status == 500)
              && (a.perspectives.Some? ==>
                    r == Response(200, ToPerspectives(a.perspectives.value, req.avatars.value), a.commonGround.GetOr([]), None))
  {
    if req.httpMethod != "POST" {
      return Response(405, [], [], Some("Method not allowed"));
    }
    if !req.hasScenario || req.messages.None? || req.positions.None? || req.avatars.None? {
      return Response(400, [], [], Some("Missing required fields"));
    }
    if apiKey.None? || apiKey.value == [] {
      return Response(500, [], [], Some("API configuration error"));
    }
    if reply.Err? {
      return Response(500, [], [], Some("Failed to analyze perspectives"));
    }
    if reply.value == [] {
      return Response(500, [], [], Some("Empty response from API"));
    }
    var content := StripFences(reply.value);
    var analysis := parse(content);
    var parsed: Analysis;
    if analysis.None? {
      parsed := CreateFallbackAnalysis(req.positions.value, req.avatars.value);
    } else {
      parsed := analysis.value;
    }
    if parsed.perspectives.None? {
      return Response(500, [], [], Some("Internal server error"));
    }
    var perspectives := ToPerspectives(parsed.perspectives.value, req.avatars.value);
    return Response(200, perspectives, parsed.commonGround.GetOr([]), None);
  }
}
