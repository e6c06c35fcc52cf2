/** The records shared by the whole application (src/types/index.ts), with
    JavaScript's optional fields as `Option`. */
module Types {

  datatype Option<T> = None | Some(value: T) {
    function GetOr(default: T): T {
      if Some? then value else default
    }
  }

  /** A value, or the message of the Error thrown instead. */
  datatype Result<T> = Ok(value: T) | Err(error: string)

  /** The eight cognitive functions. */
  datatype CognitiveFunction = Te | Ti | Fe | Fi | Se | Si | Ne | Ni

  function AllFunctions(): set<CognitiveFunction> {
    {Te, Ti, Fe, Fi, Se, Si, Ne, Ni}
  }

  /** The two-letter code the program uses as the function's name. */
  function CodeName(f: CognitiveFunction): (r: string)
    ensures |r| == 2
  {
    match f
    case Te => "Te" case Ti => "Ti" case Fe => "Fe" case Fi => "Fi"
    case Se => "Se" case Si => "Si" case Ne => "Ne" case Ni => "Ni"
  }

  /** Distinct functions have distinct codes. */
  lemma CodeNameInjective(f: CognitiveFunction, g: CognitiveFunction)
    requires CodeName(f) == CodeName(g)
    ensures f == g
  {
  }

  datatype FunctionRole = Dominant | Auxiliary | Tertiary | Inferior

  datatype AvatarFunction = AvatarFunction(code: CognitiveFunction, role: FunctionRole)

  /** `functions.find(f => f.role === role)?.code`: the first function holding
      `role`, if any. */
  function FindRole(stack: seq<AvatarFunction>, role: FunctionRole): (r: Option<CognitiveFunction>)
    ensures r.Some? <==> exists k :: 0 <= k < |stack| && stack[k].role == role
    ensures r.Some? ==> exists k :: 0 <= k < |stack| && stack[k] == AvatarFunction(r.value, role)
  {
    if |stack| == 0 then None
    else if stack[0].role == role then Some(stack[0].code)
    else
      var r := FindRole(stack[1..], role);
      assert forall k :: 1 <= k < |stack| ==> stack[k] == stack[1..][k - 1];
      r
  }

  /** `s.slice(-n)`: the last n elements, or all of them when there are fewer. */
  function TakeLast<T>(s: seq<T>, n: nat): (r: seq<T>)
    ensures |r| == if |s| < n then |s| else n
    ensures r == s[|s| - |r|..]
  {
    if |s| < n then s else s[|s| - n..]
  }

  datatype TemporalFocus = Past | Present | Future | Mixed

  function TemporalFocusName(t: TemporalFocus): string {
    match t
    case Past => "past" case Present => "present" case Future => "future" case Mixed => "mixed"
  }

  datatype AvatarBehavior = AvatarBehavior(
    abstractness: real,
    emotionalFocus: real,
    structure: real,
    temporalFocus: TemporalFocus,
    riskTaking: real)

  /** One function's slot in the 8-position model: `position` 1..8, rest-state
      `baseline`, reachable `capacity`, and `valued` (+1 or -1). */
  datatype SocionicsPosition = SocionicsPosition(position: int, baseline: real, capacity: real, valued: int)

  /** A record for every one of the eight functions. */
  type PositionMap = m: map<CognitiveFunction, SocionicsPosition> | m.Keys == AllFunctions()
    witness map f | f in AllFunctions() :: SocionicsPosition(7, 0.3, 0.7, -1)

  datatype Avatar = Avatar(
    id: string,
    mbtiType: string,
    name: string,
    functions: seq<AvatarFunction>,
    behavior: AvatarBehavior,
    description: string,
    socionicsPositions: Option<PositionMap>)

  datatype InteractionStyle = Debate | Brainstorm | Cooperative

  datatype Scenario = Scenario(
    id: string,
    topic: string,
    style: InteractionStyle,
    avatarIds: seq<string>,
    rounds: int,
    createdAt: string,
    useLLM: Option<bool>)

  datatype MessageTag = Support | Critique | Idea | Clarify

  datatype Message = Message(
    id: string,
    scenarioId: string,
    avatarId: string,
    round: int,
    content: string,
    tag: MessageTag,
    createdAt: string)

  /** The author id the program reserves for the human participant. */
  const UserId: string := "user"
}
