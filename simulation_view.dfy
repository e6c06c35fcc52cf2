/** The playback state machine of the simulation view
    (src/features/simulation/SimulationView.tsx): the generated messages are
    revealed one at a time by the auto-play tick or by single steps. */
module SimulationView {
  import opened Types
  import SimulationEngine

  /** `Math.floor(currentIndex / messagesPerRound) + 1`; the division by a
      participant count of 0 is not modelled. */
  function CurrentRound(currentIndex: nat, messagesPerRound: nat): (r: int)
    requires messagesPerRound > 0
    ensures r >= 1
    ensures (r - 1) * messagesPerRound <= currentIndex < r * messagesPerRound
  {
    currentIndex / messagesPerRound + 1
  }

  /** While playing back a generated run, the displayed round is the round
      of the next message to be revealed. */
  lemma CurrentRoundIsNextRound(scenario: Scenario, avatars: seq<Avatar>, call: SimulationEngine.Call,
                                currentIndex: nat)
    requires SimulationEngine.RunSimulation(scenario, avatars, call).Done?
    requires currentIndex < |SimulationEngine.RunSimulation(scenario, avatars, call).value|
    ensures |SimulationEngine.Participants(scenario, avatars)| > 0
    ensures CurrentRound(currentIndex, |SimulationEngine.Participants(scenario, avatars)|)
            == SimulationEngine.RunSimulation(scenario, avatars, call).value[currentIndex].round
  {
    SimulationEngine.RunSimulationShape(scenario, avatars, call, currentIndex);
  }

  class View {
    var messages: seq<Message>
    var allMessages: seq<Message>
    var isRunning: bool
    var isPaused: bool
    var currentIndex: nat
    var isGenerating: bool
    var generationError: Option<string>

    /** The displayed messages are the first currentIndex generated ones. */
    predicate Valid()
      reads this
    {
      currentIndex <= |allMessages| && messages == allMessages[..currentIndex]
    }

    /** The state on mount. */
    constructor ()
      ensures messages == [] && allMessages == [] && !isRunning && !isPaused && currentIndex == 0
      ensures !isGenerating && generationError == None
      ensures Valid()
    {
      messages := [];
      allMessages := [];
      isRunning := false;
      isPaused := false;
      currentIndex := 0;
      isGenerating := false;
      generationError := None;
    }

    /** The start of generateMessages. */
    method BeginGeneration()
      modifies this
      ensures isGenerating && generationError == None
      ensures messages == old(messages) && allMessages == old(allMessages) && isRunning == old(isRunning)
              && isPaused == old(isPaused) && currentIndex == old(currentIndex)
    {
      isGenerating := true;
      generationError := None;
    }

    /** The end of generateMessages: the run's messages, or its error. */
    method FinishGeneration(outcome: SimulationEngine.Outcome<seq<Message>>)
      modifies this
      ensures !isGenerating
      ensures outcome.Done? ==> allMessages == outcome.value && generationError == old(generationError)
      ensures outcome.Thrown? ==> allMessages == old(allMessages)
                                  && generationError == Some(SimulationEngine.ErrorMessage(outcome.failure))
      ensures messages == old(messages) && isRunning == old(isRunning) && isPaused == old(isPaused)
              && currentIndex == old(currentIndex)
      ensures old(Valid()) && (outcome.Thrown? || old(currentIndex) == 0) ==> Valid()
    {
      if outcome.Done? {
        allMessages := outcome.value;
      } else {
        generationError := Some(SimulationEngine.ErrorMessage(outcome.failure));
      }
      isGenerating := false;
    }

    /** handleStart: clears the display only at the beginning. */
    method Start()
      modifies this
      ensures isRunning && !isPaused
      ensures messages == (if old(currentIndex) == 0 then [] else old(messages))
      ensures allMessages == old(allMessages) && currentIndex == old(currentIndex)
      ensures isGenerating == old(isGenerating) && generationError == old(generationError)
      ensures old(Valid()) ==> Valid()
    {
      if currentIndex == 0 {
        messages := [];
      }
      isRunning := true;
      isPaused := false;
    }

    /** handlePause. */
    method Pause()
      modifies this
      ensures isPaused
      ensures messages == old(messages) && allMessages == old(allMessages) && isRunning == old(isRunning)
              && currentIndex == old(currentIndex)
      ensures isGenerating == old(isGenerating) && generationError == old(generationError)
    {
      isPaused := true;
    }

    /** handleResume. */
    method Resume()
      modifies this
      ensures !isPaused
      ensures messages == old(messages) && allMessages == old(allMessages) && isRunning == old(isRunning)
              && currentIndex == old(currentIndex)
      ensures isGenerating == old(isGenerating) && generationError == old(generationError)
    {
      isPaused := false;
    }

    /** handleReset: back to the beginning, stopped. */
    method Reset()
      modifies this
      ensures !isRunning && !isPaused && currentIndex == 0 && messages == []
      ensures allMessages == old(allMessages)
      ensures isGenerating == old(isGenerating) && generationError == old(generationError)
      ensures Valid()
    {
      isRunning := false;
      isPaused := false;
      currentIndex := 0;
      messages := [];
    }

    /** handleStep: reveals the next message, if any. */
    method Step()
      modifies this
      ensures old(currentIndex) < |allMessages| ==>
                messages == old(messages) + [allMessages[old(currentIndex)]] && currentIndex == old(currentIndex) + 1
      ensures old(currentIndex) >= |allMessages| ==> messages == old(messages) && currentIndex == old(currentIndex)
      ensures allMessages == old(allMessages) && isRunning == old(isRunning) && isPaused == old(isPaused)
      ensures isGenerating == old(isGenerating) && generationError == old(generationError)
      ensures old(Valid()) ==> Valid()
    {
      if currentIndex < |allMessages| {
        messages := messages + [allMessages[currentIndex]];
        assert allMessages[..currentIndex + 1] == allMessages[..currentIndex] + [allMessages[currentIndex]];
        currentIndex := currentIndex + 1;
      }
    }

    /** One firing of the auto-play effect: while running and not paused it
        reveals the next message; once every message is shown it stops. */
    method Tick()
      modifies this
      ensures isRunning && !isPaused && old(currentIndex) < |allMessages| ==>
                messages == old(messages) + [allMessages[old(currentIndex)]]
                && currentIndex == old(currentIndex) + 1 && isRunning
      ensures !(old(isRunning) && !old(isPaused) && old(currentIndex) < |allMessages|) ==>
                messages == old(messages) && currentIndex == old(currentIndex)
                && isRunning == (old(isRunning) && old(currentIndex) < |allMessages|)
      ensures allMessages == old(allMessages) && isPaused == old(isPaused)
      ensures Playback(currentIndex, isRunning, isPaused)
                == TickOf(Playback(old(currentIndex), old(isRunning), old(isPaused)), |allMessages|)
      ensures isGenerating == old(isGenerating) && generationError == old(generationError)
      ensures old(Valid()) ==> Valid()
    {
      if isRunning && !isPaused && currentIndex < |allMessages| {
        messages := messages + [allMessages[currentIndex]];
        assert allMessages[..currentIndex + 1] == allMessages[..currentIndex] + [allMessages[currentIndex]];
        currentIndex := currentIndex + 1;
      } else if currentIndex >= |allMessages| && isRunning {
        isRunning := false;
      }
    }
  }

  /** The playback state as a value, for reasoning about runs of ticks. */
  datatype Playback = Playback(shown: nat, running: bool, paused: bool)

  /** The tick on the playback state, for `total` generated messages. */
  function TickOf(p: Playback, total: nat): (r: Playback)
    ensures r.shown <= if p.shown < total then total else p.shown
    ensures r.paused == p.paused
  {
    if p.running && !p.paused && p.shown < total then p.(shown := p.shown + 1)
    else if p.shown >= total && p.running then p.(running := false)
    else p
  }

  /** `k` ticks in a row. */
  function Ticks(p: Playback, total: nat, k: nat): Playback
    decreases k
  {
    if k == 0 then p else Ticks(TickOf(p, total), total, k - 1)
  }

  /** Left running and unpaused, auto-play reveals every message and then
      stops: after total - shown + 1 ticks all are shown and it is no
      longer running. */
  lemma {:induction false} AutoPlayFinishes(p: Playback, total: nat)
    requires p.running && !p.paused && p.shown <= total
    ensures Ticks(p, total, total - p.shown + 1) == Playback(total, false, false)
    decreases total - p.shown
  {
    if p.shown < total {
      AutoPlayFinishes(p.(shown := p.shown + 1), total);
    }
  }
}
