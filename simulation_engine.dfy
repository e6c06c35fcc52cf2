/** The round-robin conversation driver (src/lib/simulationEngine.ts). The
    call to the generate-message endpoint is the parameter `call`: given
    the speaker, the scenario, the history so far, the round and the whole
    avatar list, it yields the endpoint's reply together with the clock
    reading and random draw the client stamps the message with. */
module SimulationEngine {
  import opened Types
  import opened Text

  /** The HTTP outcome and JSON body of one generate-message call, and the
      client-side stamp. A missing `content` or `tag` is None; a missing or
      empty `error` is "". */
  datatype Reply = Reply(
    ok: bool,
    status: nat,
    errorText: string,
    error: string,
    content: Option<string>,
    tag: Option<MessageTag>,
    now: nat,
    random: string,
    createdAt: string)

  type Call = (Avatar, Scenario, seq<Message>, int, seq<Avatar>) -> Reply

  const NoParticipants: string := "No valid participants for simulation"

  const NotFoundHint: string :=
    "API endpoint not found (404). Make sure you're running 'npm run dev:vercel' for local development, "
    + "or that the API is deployed on Vercel. Details: "

  /** The Error generateLLMMessage throws for a reply that is not ok. */
  function HttpError(status: nat, errorText: string): string {
    if status == 404 then
      NotFoundHint + errorText
    else "API error: " + NatToString(status) + " - " + errorText
  }

  /** The Errors a run can throw, kept apart from their message text: no
      participants, a reply that is not ok, and an ok reply whose body
      carries an error. */
  datatype Failure = NoValidParticipants | HttpFailure(status: nat, errorText: string) | ReplyError(error: string)

  /** The thrown Error's `message`. */
  function ErrorMessage(f: Failure): string {
    match f
    case NoValidParticipants => NoParticipants
    case HttpFailure(status, errorText) => HttpError(status, errorText)
    case ReplyError(error) => error
  }

  /** A value, or the Error thrown instead of it. */
  datatype Outcome<T> = Done(value: T) | Thrown(failure: Failure)

  /** generateLLMMessage once the reply is in: the HTTP and body errors are
      thrown, otherwise the message is stamped with the scenario, the speaker
      and the round, and missing content and tag take their defaults. */
  function BuildMessage(avatar: Avatar, scenario: Scenario, round: int, reply: Reply): Outcome<Message>
  {
    if !reply.ok then Thrown(HttpFailure(reply.status, reply.errorText))
    else if reply.error != "" then Thrown(ReplyError(reply.error))
    else
      Done(Message(
        "msg-" + NatToString(reply.now) + "-" + reply.random,
        scenario.id,
        avatar.id,
        round,
        reply.content.GetOr(""),
        reply.tag.GetOr(Support),
        reply.createdAt))
  }

  /** A reply that is not ok throws the HTTP error, an ok reply carrying an
      error throws that error, and otherwise the message belongs to the
      scenario, the speaker and the round, with content "" and tag support
      standing in for missing ones. */
  lemma BuildMessageOutcome(avatar: Avatar, scenario: Scenario, round: int, reply: Reply)
    ensures var r := BuildMessage(avatar, scenario, round, reply);
            (r.Thrown? <==> !reply.ok || reply.error != "") &&
            (r.Thrown? && !reply.ok ==> ErrorMessage(r.failure) == HttpError(reply.status, reply.errorText)) &&
            (r.Thrown? && reply.ok ==> ErrorMessage(r.failure) == reply.error) &&
            (r.Done? ==> r.value.scenarioId == scenario.id && r.value.avatarId == avatar.id && r.value.round == round) &&
            (r.Done? ==> r.value.content == (if reply.content.Some? then reply.content.value else "")) &&
            (r.Done? ==> r.value.tag == (if reply.tag.Some? then reply.tag.value else Support))
  {
  }

  /** generateMessage: one turn's message, or the Error it throws, from the
      speaker, the scenario, the history, the round and the avatar list. */
  type Generate = (Avatar, Scenario, seq<Message>, int, seq<Avatar>) -> Outcome<Message>

  /** generateLLMMessage: the endpoint call followed by BuildMessage. */
  function GenerateMessage(call: Call): Generate {
    (avatar: Avatar, scenario: Scenario, history: seq<Message>, round: int, avatars: seq<Avatar>) =>
      BuildMessage(avatar, scenario, round, call(avatar, scenario, history, round, avatars))
  }

  /** `avatars.filter(a => scenario.avatarIds.includes(a.id))`. */
  function Participants(scenario: Scenario, avatars: seq<Avatar>): (r: seq<Avatar>)
    ensures |r| <= |avatars|
  {
    if avatars == [] then []
    else
      var rest := Participants(scenario, avatars[..|avatars| - 1]);
      if avatars[|avatars| - 1].id in scenario.avatarIds then rest + [avatars[|avatars| - 1]] else rest
  }

  /** The number of turns: `rounds` rounds of every participant. */
  function TotalTurns(rounds: int, n: nat): nat {
    if rounds > 0 then rounds * n else 0
  }

  /** One turn: who speaks, in which round. */
  datatype Turn = Turn(speaker: Avatar, round: int)

  /** Every participant in list order, for the given round. */
  function RoundTurns(participants: seq<Avatar>, round: int): (r: seq<Turn>)
    ensures |r| == |participants|
    ensures forall j :: 0 <= j < |r| ==> r[j] == Turn(participants[j], round)
  {
    if participants == [] then []
    else
      var rest := RoundTurns(participants[1..], round);
      assert forall j :: 1 <= j < |participants| ==> participants[j] == participants[1..][j - 1];
      [Turn(participants[0], round)] + rest
  }

  /** The round-robin order: rounds 1 to `rounds`, each going through the
      participants in list order. */
  function Schedule(participants: seq<Avatar>, rounds: int): (r: seq<Turn>)
    decreases if rounds > 0 then rounds else 0
  {
    if rounds <= 0 then [] else Schedule(participants, rounds - 1) + RoundTurns(participants, rounds)
  }

  /** Participants j, j + 1, ... each speak once in `round`, in list order,
      starting from `history`: the messages after them, or the first Error
      thrown. Each call sees every message before it. */
  function RoundFrom(scenario: Scenario, participants: seq<Avatar>, round: int, j: nat, avatars: seq<Avatar>,
                     generate: Generate, history: seq<Message>): Outcome<seq<Message>>
    requires j <= |participants|
    decreases |participants| - j
  {
    if j == |participants| then Done(history)
    else
      var m := generate(participants[j], scenario, history, round, avatars);
      if m.Thrown? then Thrown(m.failure)
      else RoundFrom(scenario, participants, round, j + 1, avatars, generate, history + [m.value])
  }

  /** Rounds `round`, round + 1, ..., scenario.rounds, one after the other. */
  function RoundsFrom(scenario: Scenario, participants: seq<Avatar>, round: int, avatars: seq<Avatar>,
                      generate: Generate, history: seq<Message>): Outcome<seq<Message>>
    decreases if round <= scenario.rounds then scenario.rounds - round + 1 else 0
  {
    if round > scenario.rounds then Done(history)
    else
      var r := RoundFrom(scenario, participants, round, 0, avatars, generate, history);
      if r.Thrown? then r else RoundsFrom(scenario, participants, round + 1, avatars, generate, r.value)
  }

  /** runSimulation's outcome. */
  function RunSimulation(scenario: Scenario, avatars: seq<Avatar>, call: Call): Outcome<seq<Message>> {
    var participants := Participants(scenario, avatars);
    if participants == [] then Thrown(NoValidParticipants)
    else RoundsFrom(scenario, participants, 1, avatars, GenerateMessage(call), [])
  }

  /** runSimulation: the participants are looked up first; with none the
      run fails before any call. */
  method RunSimulationLoop(scenario: Scenario, avatars: seq<Avatar>, call: Call) returns (r: Outcome<seq<Message>>)
    ensures r == RunSimulation(scenario, avatars, call)
  {
    var participants := Participants(scenario, avatars);
    if |participants| == 0 {
      return Thrown(NoValidParticipants);
    }
    r := RunRounds(scenario, participants, avatars, call);
  }

  /** The outer loop over rounds 1..scenario.rounds, each turn sending the
      messages so far as history. */
  method RunRounds(scenario: Scenario, participants: seq<Avatar>, avatars: seq<Avatar>, call: Call)
    returns (r: Outcome<seq<Message>>)
    ensures r == RoundsFrom(scenario, participants, 1, avatars, GenerateMessage(call), [])
  {
    var messages: seq<Message> := [];
    ghost var outcome := RoundsFrom(scenario, participants, 1, avatars, GenerateMessage(call), []);
    var round := 1;
    while round <= scenario.rounds
      invariant RoundsFrom(scenario, participants, round, avatars, GenerateMessage(call), messages) == outcome
      decreases scenario.rounds - round
    {
      var next := TakeRound(scenario, participants, round, avatars, call, messages);
      if next.Thrown? {
        return next;
      }
      messages := next.value;
      round := round + 1;
    }
    return Done(messages);
  }

  /** The inner loop: every participant speaks once in `round`. */
  method TakeRound(scenario: Scenario, participants: seq<Avatar>, round: int, avatars: seq<Avatar>, call: Call,
                   messages: seq<Message>)
    returns (r: Outcome<seq<Message>>)
    ensures r == RoundFrom(scenario, participants, round, 0, avatars, GenerateMessage(call), messages)
  {
    var history := messages;
    ghost var outcome := RoundFrom(scenario, participants, round, 0, avatars, GenerateMessage(call), messages);
    for j := 0 to |participants|
      invariant RoundFrom(scenario, participants, round, j, avatars, GenerateMessage(call), history) == outcome
    {
      var avatar := participants[j];
      var reply := call(avatar, scenario, history, round, avatars);
      var m := BuildMessage(avatar, scenario, round, reply);
      if m.Thrown? {
        return Thrown(m.failure);
      }
      history := history + [m.value];
    }
    return Done(history);
  }

  // ---------------------------------------------------------------------
  // The same run, turn by turn

  /** The reference order: the messages after taking turns i, i + 1, ... of
      `turns` in order, starting from `history`, or the first Error thrown. */
  function RunFrom(scenario: Scenario, turns: seq<Turn>, i: nat, avatars: seq<Avatar>, generate: Generate,
                   history: seq<Message>): Outcome<seq<Message>>
    requires i <= |turns|
    decreases |turns| - i
  {
    if i == |turns| then Done(history)
    else
      var turn := turns[i];
      var m := generate(turn.speaker, scenario, history, turn.round, avatars);
      if m.Thrown? then Thrown(m.failure) else RunFrom(scenario, turns, i + 1, avatars, generate, history + [m.value])
  }

  /** One round taken from participant j on is the block of turns that
      stands for that round in `turns`, starting at `base`. */
  lemma {:induction false} RoundFromIsRunFrom(scenario: Scenario, participants: seq<Avatar>, round: int, j: nat,
                                              avatars: seq<Avatar>, generate: Generate, history: seq<Message>,
                                              turns: seq<Turn>, base: nat)
    requires j <= |participants| && base + |participants| <= |turns|
    requires forall k :: 0 <= k < |participants| ==> turns[base + k] == Turn(participants[k], round)
    ensures var r := RoundFrom(scenario, participants, round, j, avatars, generate, history);
            RunFrom(scenario, turns, base + j, avatars, generate, history)
            == (if r.Thrown? then r else RunFrom(scenario, turns, base + |participants|, avatars, generate, r.value))
    decreases |participants| - j
  {
    if j < |participants| {
      assert turns[base + j] == Turn(participants[j], round);
      var m := generate(participants[j], scenario, history, round, avatars);
      if m.Done? {
        RoundFromIsRunFrom(scenario, participants, round, j + 1, avatars, generate, history + [m.value], turns, base);
      }
    }
  }

  /** Turn t of `turns` is participant t mod n speaking in round t div n + 1. */
  predicate RoundRobinTurn(turns: seq<Turn>, participants: seq<Avatar>, t: nat)
    requires |participants| > 0 && t < |turns|
  {
    turns[t] == Turn(participants[t % |participants|], t / |participants| + 1)
  }

  /** Every turn is in round-robin order. */
  predicate RoundRobin(turns: seq<Turn>, participants: seq<Avatar>) {
    |participants| > 0 && forall t :: 0 <= t < |turns| ==> RoundRobinTurn(turns, participants, t)
  }

  /** In a round-robin order the turns of round `round` are the n turns
      from (round - 1)·n on, in list order. */
  lemma RoundBlock(turns: seq<Turn>, participants: seq<Avatar>, round: nat, base: nat)
    requires RoundRobin(turns, participants) && round >= 1 && base == (round - 1) * |participants|
    requires base + |participants| <= |turns|
    ensures forall k :: 0 <= k < |participants| ==> turns[base + k] == Turn(participants[k], round)
  {
    forall k | 0 <= k < |participants|
      ensures turns[base + k] == Turn(participants[k], round)
    {
      assert RoundRobinTurn(turns, participants, base + k);
      TurnOf(round - 1, k, |participants|);
    }
  }

  /** Rounds `round` to `rounds` of a run are the turns of a round-robin
      order of `rounds` rounds from (round - 1)·n on. */
  lemma {:induction false} RoundsFromIsRunFrom(scenario: Scenario, participants: seq<Avatar>, round: nat,
                                               avatars: seq<Avatar>, generate: Generate, history: seq<Message>,
                                               turns: seq<Turn>, base: nat)
    requires RoundRobin(turns, participants) && |turns| == TotalTurns(scenario.rounds, |participants|)
    requires 1 <= round <= scenario.rounds + 1 && base == (round - 1) * |participants|
    ensures base <= |turns|
    ensures RoundsFrom(scenario, participants, round, avatars, generate, history)
            == RunFrom(scenario, turns, base, avatars, generate, history)
    decreases scenario.rounds - round + 1
  {
    var n := |participants|;
    if round > scenario.rounds {
      assert base == |turns|;
    } else {
      RoundBounds(round, scenario.rounds, n);
      RoundBlock(turns, participants, round, base);
      RoundFromIsRunFrom(scenario, participants, round, 0, avatars, generate, history, turns, base);
      var r := RoundFrom(scenario, participants, round, 0, avatars, generate, history);
      if r.Done? {
        RoundsFromIsRunFrom(scenario, participants, round + 1, avatars, generate, r.value, turns, base + n);
      }
    }
  }

  /** Round `round` of `rounds` ends at round·n, within the rounds·n turns. */
  lemma RoundBounds(round: nat, rounds: int, n: nat)
    requires 1 <= round <= rounds
    ensures (round - 1) * n + n == round * n <= TotalTurns(rounds, n)
  {
    if round < rounds {
      MulAtLeast(n, rounds - round + 1);
      assert rounds * n == round * n + (rounds - round) * n;
    }
  }

  /** The nested loops take the turns of the round-robin schedule in order:
      runSimulation is the flat run over Schedule. */
  lemma RunSimulationIsRoundRobin(scenario: Scenario, avatars: seq<Avatar>, call: Call)
    requires Participants(scenario, avatars) != []
    ensures RunSimulation(scenario, avatars, call)
            == RunFrom(scenario, Schedule(Participants(scenario, avatars), scenario.rounds), 0, avatars,
                       GenerateMessage(call), [])
  {
    var participants := Participants(scenario, avatars);
    var turns := Schedule(participants, scenario.rounds);
    if scenario.rounds >= 0 {
      ScheduleLength(participants, scenario.rounds);
      forall t | 0 <= t < |turns|
        ensures RoundRobinTurn(turns, participants, t)
      {
        ScheduleTurn(participants, scenario.rounds, t);
      }
      RoundsFromIsRunFrom(scenario, participants, 1, avatars, GenerateMessage(call), [], turns, 0);
    } else {
      assert turns == [];
    }
  }

  // ---------------------------------------------------------------------
  // The schedule

  /** The schedule has rounds × n turns. */
  lemma {:induction false} ScheduleLength(participants: seq<Avatar>, rounds: int)
    ensures |Schedule(participants, rounds)| == TotalTurns(rounds, |participants|)
    decreases if rounds > 0 then rounds else 0
  {
    if rounds > 0 {
      ScheduleLength(participants, rounds - 1);
      assert (rounds - 1) * |participants| + |participants| == rounds * |participants|;
    }
  }

  /** Turn t of the schedule is participant t mod n speaking in round
      t div n + 1. */
  lemma {:induction false} ScheduleTurn(participants: seq<Avatar>, rounds: int, t: nat)
    requires |participants| > 0 && t < |Schedule(participants, rounds)|
    ensures Schedule(participants, rounds)[t] ==
            Turn(participants[t % |participants|], t / |participants| + 1)
    decreases if rounds > 0 then rounds else 0
  {
    var n := |participants|;
    ScheduleLength(participants, rounds - 1);
    var before := Schedule(participants, rounds - 1);
    if t < |before| {
      ScheduleTurn(participants, rounds - 1, t);
    } else {
      var j := t - |before|;
      assert Schedule(participants, rounds)[t] == Turn(participants[j], rounds);
      assert t == (rounds - 1) * n + j;
      TurnOf(rounds - 1, j, n);
    }
  }

  lemma MulAtLeast(n: nat, d: int)
    requires d >= 1
    ensures n * d >= n
  {
    assert n * d == n * (d - 1) + n;
    assert n * (d - 1) >= 0;
  }

  /** q·n + j with j < n has quotient q and remainder j. */
  lemma TurnOf(q: nat, j: nat, n: nat)
    requires j < n
    ensures (q * n + j) / n == q && (q * n + j) % n == j
  {
    var a := q * n + j;
    var d := q - a / n;
    assert n * d == a % n - j by {
      assert a == n * (a / n) + a % n;
      assert n * d == n * q - n * (a / n);
    }
    if d >= 1 {
      MulAtLeast(n, d);
    } else if d <= -1 {
      MulAtLeast(n, -d);
    }
  }

  // ---------------------------------------------------------------------
  // What runSimulation promises

  /** A successful run keeps the history it started from and adds one
      message per remaining turn. */
  lemma {:induction false} RunFromLength(scenario: Scenario, turns: seq<Turn>, i: nat, avatars: seq<Avatar>,
                                         generate: Generate, history: seq<Message>)
    requires i <= |turns| && RunFrom(scenario, turns, i, avatars, generate, history).Done?
    ensures |RunFrom(scenario, turns, i, avatars, generate, history).value| == |history| + |turns| - i
    ensures RunFrom(scenario, turns, i, avatars, generate, history).value[..|history|] == history
    decreases |turns| - i
  {
    if i < |turns| {
      var turn := turns[i];
      var m := generate(turn.speaker, scenario, history, turn.round, avatars);
      RunFromLength(scenario, turns, i + 1, avatars, generate, history + [m.value]);
      var all := RunFrom(scenario, turns, i, avatars, generate, history).value;
      assert all[..|history| + 1][..|history|] == all[..|history|];
    }
  }

  /** In a successful run the message for turn t is the reply to that
      turn's call, which was given exactly the messages before it. */
  lemma {:induction false} RunFromTurn(scenario: Scenario, turns: seq<Turn>, i: nat, avatars: seq<Avatar>,
                                       generate: Generate, history: seq<Message>, t: nat)
    requires i <= t < |turns| && RunFrom(scenario, turns, i, avatars, generate, history).Done?
    ensures |RunFrom(scenario, turns, i, avatars, generate, history).value| == |history| + |turns| - i
    ensures generate(turns[t].speaker, scenario,
                     RunFrom(scenario, turns, i, avatars, generate, history).value[..|history| + t - i],
                     turns[t].round, avatars)
            == Done(RunFrom(scenario, turns, i, avatars, generate, history).value[|history| + t - i])
    decreases |turns| - i
  {
    RunFromLength(scenario, turns, i, avatars, generate, history);
    var turn := turns[i];
    var m := generate(turn.speaker, scenario, history, turn.round, avatars);
    var next := history + [m.value];
    var all := RunFrom(scenario, turns, i, avatars, generate, history).value;
    RunFromLength(scenario, turns, i + 1, avatars, generate, next);
    assert all[..|next|] == next;
    if t == i {
      assert all[..|history|] == history;
      assert all[|history|] == next[|history|];
    } else {
      RunFromTurn(scenario, turns, i + 1, avatars, generate, next, t);
    }
  }

  /** No participants: runSimulation throws before any call. A successful
      run has rounds × n messages; message t is participant t mod n's in
      round t div n + 1, and is the reply to a call given exactly the t
      messages before it. */
  lemma RunSimulationShape(scenario: Scenario, avatars: seq<Avatar>, call: Call, t: nat)
    ensures Participants(scenario, avatars) == [] ==> RunSimulation(scenario, avatars, call) == Thrown(NoValidParticipants)
    ensures RunSimulation(scenario, avatars, call).Done? ==>
              |RunSimulation(scenario, avatars, call).value|
              == TotalTurns(scenario.rounds, |Participants(scenario, avatars)|)
    ensures RunSimulation(scenario, avatars, call).Done? && t < |RunSimulation(scenario, avatars, call).value| ==>
              RunSimulation(scenario, avatars, call).value[t].avatarId
              == Participants(scenario, avatars)[t % |Participants(scenario, avatars)|].id &&
              RunSimulation(scenario, avatars, call).value[t].round == t / |Participants(scenario, avatars)| + 1 &&
              RunSimulation(scenario, avatars, call).value[t].scenarioId == scenario.id &&
              BuildMessage(Participants(scenario, avatars)[t % |Participants(scenario, avatars)|], scenario,
                           t / |Participants(scenario, avatars)| + 1,
                           call(Participants(scenario, avatars)[t % |Participants(scenario, avatars)|], scenario,
                                RunSimulation(scenario, avatars, call).value[..t],
                                t / |Participants(scenario, avatars)| + 1, avatars))
              == Done(RunSimulation(scenario, avatars, call).value[t])
  {
    var participants := Participants(scenario, avatars);
    if participants != [] && RunSimulation(scenario, avatars, call).Done? {
      RunSimulationIsRoundRobin(scenario, avatars, call);
      var turns := Schedule(participants, scenario.rounds);
      ScheduleLength(participants, scenario.rounds);
      RunFromLength(scenario, turns, 0, avatars, GenerateMessage(call), []);
      if t < |turns| {
        RunFromTurn(scenario, turns, 0, avatars, GenerateMessage(call), [], t);
        ScheduleTurn(participants, scenario.rounds, t);
        var all := RunFrom(scenario, turns, 0, avatars, GenerateMessage(call), []).value;
        BuildMessageOutcome(turns[t].speaker, scenario, turns[t].round,
                            call(turns[t].speaker, scenario, all[..t], turns[t].round, avatars));
      }
    }
  }

  /** The participants are the listed avatars whose id the scenario selects,
      in the order of the avatar list. */
  lemma {:induction false} ParticipantsAreSelected(scenario: Scenario, avatars: seq<Avatar>)
    ensures forall a :: a in Participants(scenario, avatars) <==> a in avatars && a.id in scenario.avatarIds
  {
    if avatars != [] {
      var init := avatars[..|avatars| - 1];
      ParticipantsAreSelected(scenario, init);
      assert avatars == init + [avatars[|avatars| - 1]];
    }
  }
}
