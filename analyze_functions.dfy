/** The post-processing in the cognitive-function analysis endpoint
    (api/analyze-cognitive-functions.ts): the list of function codes read
    back from the language model is cut to the avatar's own stack, and the
    dominant and auxiliary functions stand in whenever nothing usable is
    left. JSON.parse and the model are parameters. */
module AnalyzeFunctions {
  import opened Types
  import opened Text

  // ---------------------------------------------------------------------
  // Extracting the bracketed list: the regular expression /\[[\s\S]*?\]/

  /** The index of the first `c` at or after `from`, if any. */
  function IndexOf(s: string, c: char, from: nat): (r: Option<nat>)
    ensures r.Some? ==> from <= r.value < |s| && s[r.value] == c
    ensures r.Some? ==> forall k :: from <= k < r.value ==> s[k] != c
    ensures r.None? ==> forall k :: from <= k < |s| ==> s[k] != c
    decreases |s| - from
  {
    if from >= |s| then None
    else if s[from] == c then Some(from)
    else IndexOf(s, c, from + 1)
  }

  /** The first match of the lazy pattern: from the first '[' up to the first
      ']' after it. */
  function FirstBracketed(s: string): (r: Option<string>)
  {
    var open := IndexOf(s, '[', 0);
    if open.None? then None
    else
      var close := IndexOf(s, ']', open.value + 1);
      if close.None? then None else Some(s[open.value..close.value + 1])
  }

  /** The pattern matches exactly when some '[' has a ']' after it, and the
      match is the leftmost one, ended by the nearest ']'. */
  lemma FirstBracketedSpec(s: string)
    ensures FirstBracketed(s).Some? <==> exists i, j :: 0 <= i < j < |s| && s[i] == '[' && s[j] == ']'
    ensures FirstBracketed(s).Some? ==>
              exists i, j :: 0 <= i < j < |s| && FirstBracketed(s).value == s[i..j + 1]
                && s[i] == '[' && s[j] == ']'
                && (forall k :: 0 <= k < i ==> s[k] != '[')
                && (forall k :: i < k < j ==> s[k] != ']')
  {
  }

  /** The text handed to JSON.parse: the bracketed part when there is one,
      the whole reply otherwise. */
  function JsonText(response: string): (r: string)
    ensures FirstBracketed(response).None? ==> r == response
  {
    FirstBracketed(response).GetOr(response)
  }

  // ---------------------------------------------------------------------
  // Filtering and the fall-back

  function StackCodes(stack: seq<AvatarFunction>): (r: seq<string>)
    ensures |r| == |stack|
    ensures forall k :: 0 <= k < |stack| ==> r[k] == CodeName(stack[k].code)
  {
    if stack == [] then [] else [CodeName(stack[0].code)] + StackCodes(stack[1..])
  }

  /** `activeFunctions.filter(func => validFunctions.includes(func))`. */
  function KeepValid(parsed: seq<string>, valid: seq<string>): (r: seq<string>)
    ensures |r| <= |parsed|
  {
    if parsed == [] then []
    else (if parsed[0] in valid then [parsed[0]] else []) + KeepValid(parsed[1..], valid)
  }

  /** Every kept code is a valid one that was parsed, and every valid parsed
      code is kept. */
  lemma {:induction false} KeepValidMembers(parsed: seq<string>, valid: seq<string>)
    ensures forall x :: x in KeepValid(parsed, valid) <==> x in parsed && x in valid
  {
    if parsed != [] {
      KeepValidMembers(parsed[1..], valid);
      assert parsed == [parsed[0]] + parsed[1..];
    }
  }

  /** The parsed order survives: filtering a concatenation filters each
      part. */
  lemma {:induction false} KeepValidAppend(a: seq<string>, b: seq<string>, valid: seq<string>)
    ensures KeepValid(a + b, valid) == KeepValid(a, valid) + KeepValid(b, valid)
  {
    if a != [] {
      KeepValidAppend(a[1..], b, valid);
      assert (a + b)[1..] == a[1..] + b;
    } else {
      assert a + b == b;
    }
  }

  /** `[dominant?.code, auxiliary?.code].filter(Boolean)`. */
  function Fallback(stack: seq<AvatarFunction>): (r: seq<string>)
    ensures |r| <= 2
  {
    var d := FindRole(stack, Dominant);
    var a := FindRole(stack, Auxiliary);
    (if d.Some? then [CodeName(d.value)] else []) + (if a.Some? then [CodeName(a.value)] else [])
  }

  /** The fall-back names the dominant then the auxiliary function, leaving
      out a role the stack lacks. */
  lemma FallbackSpec(stack: seq<AvatarFunction>)
    ensures FindRole(stack, Dominant).Some? && FindRole(stack, Auxiliary).Some? ==>
              Fallback(stack) == [CodeName(FindRole(stack, Dominant).value), CodeName(FindRole(stack, Auxiliary).value)]
    ensures |Fallback(stack)| == (if FindRole(stack, Dominant).Some? then 1 else 0)
                                 + (if FindRole(stack, Auxiliary).Some? then 1 else 0)
    ensures forall x :: x in Fallback(stack) ==> x in StackCodes(stack)
  {
    RoleCoded(stack, Dominant);
    RoleCoded(stack, Auxiliary);
  }

  /** The function found for a role is one of the stack's codes. */
  lemma RoleCoded(stack: seq<AvatarFunction>, role: FunctionRole)
    ensures FindRole(stack, role).Some? ==> CodeName(FindRole(stack, role).value) in StackCodes(stack)
  {
    var d := FindRole(stack, role);
    if d.Some? {
      var k :| 0 <= k < |stack| && stack[k] == AvatarFunction(d.value, role);
      assert StackCodes(stack)[k] == CodeName(d.value);
    }
  }

  /** JSON.parse of a list of codes: None when it throws or yields no array. */
  type Parse = string -> Option<seq<string>>

  /** The codes the analysis settles on for a reply: the parsed list cut down
      to the stack's codes, or the fall-back when parsing fails or nothing
      valid is left. */
  function ActiveOf(response: string, stack: seq<AvatarFunction>, parse: Parse): (r: seq<string>)
    ensures forall x :: x in r ==> x in StackCodes(stack)
    ensures r != [] || (FindRole(stack, Dominant).None? && FindRole(stack, Auxiliary).None?)
  {
    FallbackSpec(stack);
    var parsed := parse(JsonText(response));
    if parsed.Some? && KeepValid(parsed.value, StackCodes(stack)) != [] then
      KeepValidMembers(parsed.value, StackCodes(stack));
      KeepValid(parsed.value, StackCodes(stack))
    else
      Fallback(stack)
  }

  /** The inner try block: extract, parse, filter to the stack, and fall back
      when the list comes out empty or parsing fails. */
  method ActiveFunctions(response: string, stack: seq<AvatarFunction>, parse: Parse) returns (active: seq<string>)
    ensures active == ActiveOf(response, stack, parse)
    ensures parse(JsonText(response)).Some? && KeepValid(parse(JsonText(response)).value, StackCodes(stack)) != [] ==>
              active == KeepValid(parse(JsonText(response)).value, StackCodes(stack))
    ensures parse(JsonText(response)).None? || KeepValid(parse(JsonText(response)).value, StackCodes(stack)) == [] ==>
              active == Fallback(stack)
    ensures forall x :: x in active ==> x in StackCodes(stack)
  {
    var parsed: Option<seq<string>>;
    var jsonMatch := FirstBracketed(response);
    if jsonMatch.Some? {
      parsed := parse(jsonMatch.value);
    } else {
      parsed := parse(response);
    }
    FallbackSpec(stack);
    if parsed.None? {
      return Fallback(stack);
    }
    var validFunctions := StackCodes(stack);
    active := parsed.value;
    active := KeepValid(active, validFunctions);
    KeepValidMembers(parsed.value, validFunctions);
    if |active| == 0 {
      active := Fallback(stack);
    }
  }

  // ---------------------------------------------------------------------
  // The handler's answers

  datatype Request = Request(httpMethod: string, message: Option<string>, avatar: Option<Avatar>, hasScenario: bool)

  datatype Response = Response(status: nat, activeFunctions: seq<string>, error: Option<string>)

  /** The model's reply: its content, or the message of the Error raised for
      a failed call. */
  type Reply = Result<string>

  const NoResponse := "No response from DeepSeek API"
  const FailureNote := "Analysis failed, using fallback: "

  /** The handler, given the API key, the model's reply and JSON.parse. */
  method Handle(req: Request, apiKey: Option<string>, reply: Reply, parse: Parse) returns (r: Response)
    ensures req.httpMethod != "POST" ==> r.status == 405
    ensures req.httpMethod == "POST" && (req.message.None? || req.avatar.None? || !req.hasScenario) ==> r.status == 400
    ensures (req.httpMethod == "POST" && req.message.Some? && req.avatar.Some? && req.hasScenario
             && (apiKey.None? || apiKey.value == [])) ==> r.status == 500
    ensures r.status == 200 ==> forall x :: x in r.activeFunctions ==> x in StackCodes(req.avatar.value.functions)
    ensures (req.httpMethod == "POST" && req.message.Some? && req.avatar.Some? && req.hasScenario
             && apiKey.Some? && apiKey.value != []) ==>
              r.status == 200
              && (reply.Err? ==> r == Response(200, Fallback(req.avatar.value.functions), Some(FailureNote + reply.error)))
              && (reply.Ok? && Trim(reply.value) == [] ==>
                    r == Response(200, Fallback(req.avatar.value.functions), Some(FailureNote + NoResponse)))
              && (reply.Ok? && Trim(reply.value) != [] ==>
                    r == Response(200, ActiveOf(Trim(reply.value), req.avatar.value.functions, parse), None))
  {
    if req.httpMethod != "POST" {
      return Response(405, [], Some("Method not allowed"));
    }
    if req.message.None? || req.avatar.None? || !req.hasScenario {
      return Response(400, [], Some("Missing required fields"));
    }
    if apiKey.None? || apiKey.value == [] {
      return Response(500, [], Some("API configuration error"));
    }
    var avatar := req.avatar.value;
    FallbackSpec(avatar.functions);
    if reply.Err? {
      return Response(200, Fallback(avatar.functions), Some(FailureNote + reply.error));
    }
    var content := Trim(reply.value);
    if content == [] {
      return Response(200, Fallback(avatar.functions), Some(FailureNote + NoResponse));
    }
    var active := ActiveFunctions(content, avatar.functions, parse);
    return Response(200, active, None);
  }
}
