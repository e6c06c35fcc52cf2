/** Saved scenarios and completed simulations (src/lib/storage.ts). The
    browser's localStorage holds the two lists under two fixed keys; a key
    that is absent reads as the empty list. */
module Storage {
  import opened Types
  import opened Text

  const ScenariosKey: string := "mbti-avatar-farm-scenarios"
  const SimulationsKey: string := "mbti-avatar-farm-simulations"

  /** At most this many simulations are kept. */
  const MaxStoredSimulations: nat := 10

  datatype StoredSimulation = StoredSimulation(
    id: string,
    scenario: Scenario,
    messages: seq<Message>,
    completedAt: string)

  // ---------------------------------------------------------------------
  // The list operations

  /** `findIndex(s => s.id === id)`: the first position holding `id`, or -1. */
  function FindIndex(scenarios: seq<Scenario>, id: string): (r: int)
    ensures -1 <= r < |scenarios|
    ensures r >= 0 ==> scenarios[r].id == id && forall k :: 0 <= k < r ==> scenarios[k].id != id
    ensures r == -1 <==> forall k :: 0 <= k < |scenarios| ==> scenarios[k].id != id
  {
    if |scenarios| == 0 then -1
    else if scenarios[0].id == id then 0
    else
      var r := FindIndex(scenarios[1..], id);
      assert forall k :: 1 <= k < |scenarios| ==> scenarios[k] == scenarios[1..][k - 1];
      if r == -1 then -1 else r + 1
  }

  /** The list after saving `scenario`: it replaces the first entry with the
      same id in place, or is appended. */
  function Upsert(scenarios: seq<Scenario>, scenario: Scenario): seq<Scenario> {
    var existing := FindIndex(scenarios, scenario.id);
    if existing >= 0 then scenarios[existing := scenario] else scenarios + [scenario]
  }

  /** `filter(x => x.id !== id)`, for either list; `idOf` reads the id. */
  function WithoutId<T>(xs: seq<T>, idOf: T -> string, id: string): seq<T> {
    if xs == [] then []
    else
      var rest := WithoutId(xs[..|xs| - 1], idOf, id);
      if idOf(xs[|xs| - 1]) != id then rest + [xs[|xs| - 1]] else rest
  }

  function ScenarioId(s: Scenario): string {
    s.id
  }

  function SimulationId(s: StoredSimulation): string {
    s.id
  }

  /** `unshift` then `slice(0, MAX_STORED_SIMULATIONS)`. */
  function PushNewest(simulations: seq<StoredSimulation>, simulation: StoredSimulation): seq<StoredSimulation> {
    var all := [simulation] + simulations;
    if |all| <= MaxStoredSimulations then all else all[..MaxStoredSimulations]
  }

  /** The simulation record: id "sim-<milliseconds>", with the clock reading
      and the ISO time stamp passed in. */
  function NewSimulation(scenario: Scenario, messages: seq<Message>, now: nat, completedAt: string): (r: StoredSimulation)
    ensures r.scenario == scenario && r.messages == messages && r.completedAt == completedAt
    ensures StartsWith(r.id, "sim-")
  {
    StoredSimulation("sim-" + NatToString(now), scenario, messages, completedAt)
  }

  // ---------------------------------------------------------------------
  // The store

  class LocalStore {
    /** The two keys' values; None when the key is absent. */
    var scenarios: Option<seq<Scenario>>
    var simulations: Option<seq<StoredSimulation>>

    /** An empty localStorage. */
    constructor ()
      ensures scenarios == None && simulations == None
    {
      scenarios := None;
      simulations := None;
    }

    function Scenarios(): seq<Scenario>
      reads this
    {
      if scenarios.Some? then scenarios.value else []
    }

    function Simulations(): seq<StoredSimulation>
      reads this
    {
      if simulations.Some? then simulations.value else []
    }

    /** The localStorage keys that currently hold a value: each list lives
        under its own key, and nothing else is stored. */
    function PresentKeys(): (r: set<string>)
      reads this
      ensures ScenariosKey in r <==> scenarios.Some?
      ensures SimulationsKey in r <==> simulations.Some?
      ensures r <= {ScenariosKey, SimulationsKey}
    {
      (if scenarios.Some? then {ScenariosKey} else {}) + (if simulations.Some? then {SimulationsKey} else {})
    }

    /** getSavedScenarios: the stored list, or [] when the key is absent. */
    method GetSavedScenarios() returns (r: seq<Scenario>)
      ensures scenarios.None? ==> r == []
      ensures scenarios.Some? ==> r == scenarios.value
    {
      if scenarios.Some? {
        r := scenarios.value;
      } else {
        r := [];
      }
    }

    /** getSavedSimulations: the stored list, or [] when the key is absent. */
    method GetSavedSimulations() returns (r: seq<StoredSimulation>)
      ensures simulations.None? ==> r == []
      ensures simulations.Some? ==> r == simulations.value
    {
      if simulations.Some? {
        r := simulations.value;
      } else {
        r := [];
      }
    }

    /** saveScenario. */
    method SaveScenario(scenario: Scenario)
      modifies this
      ensures scenarios == Some(Upsert(old(Scenarios()), scenario))
      ensures simulations == old(simulations)
      ensures PresentKeys() == old(PresentKeys()) + {ScenariosKey}
    {
      var list := GetSavedScenarios();
      var existing := FindIndex(list, scenario.id);
      if existing >= 0 {
        list := list[existing := scenario];
      } else {
        list := list + [scenario];
      }
      scenarios := Some(list);
    }

    /** deleteScenario. */
    method DeleteScenario(scenarioId: string)
      modifies this
      ensures scenarios == Some(WithoutId(old(Scenarios()), ScenarioId, scenarioId))
      ensures simulations == old(simulations)
      ensures PresentKeys() == old(PresentKeys()) + {ScenariosKey}
    {
      var list := GetSavedScenarios();
      scenarios := Some(WithoutId(list, ScenarioId, scenarioId));
    }

    /** saveSimulation, with Date.now() and the ISO time passed in. */
    method SaveSimulation(scenario: Scenario, messages: seq<Message>, now: nat, completedAt: string)
      modifies this
      ensures simulations == Some(PushNewest(old(Simulations()), NewSimulation(scenario, messages, now, completedAt)))
      ensures scenarios == old(scenarios)
      ensures PresentKeys() == old(PresentKeys()) + {SimulationsKey}
    {
      var list := GetSavedSimulations();
      var simulation := StoredSimulation("sim-" + NatToString(now), scenario, messages, completedAt);
      list := [simulation] + list;
      if |list| > MaxStoredSimulations {
        list := list[..MaxStoredSimulations];
      }
      simulations := Some(list);
    }

    /** deleteSimulation. */
    method DeleteSimulation(simulationId: string)
      modifies this
      ensures simulations == Some(WithoutId(old(Simulations()), SimulationId, simulationId))
      ensures scenarios == old(scenarios)
      ensures PresentKeys() == old(PresentKeys()) + {SimulationsKey}
    {
      var list := GetSavedSimulations();
      simulations := Some(WithoutId(list, SimulationId, simulationId));
    }

    /** clearAllData: both keys are removed. */
    method ClearAllData()
      modifies this
      ensures scenarios == None && simulations == None
      ensures PresentKeys() == {}
    {
      scenarios := None;
      simulations := None;
    }
  }

  // ---------------------------------------------------------------------
  // What the list operations promise

  /** Saving replaces the first entry with the same id and leaves every
      other position alone, or appends when the id is new. */
  lemma UpsertReplacesOrAppends(scenarios: seq<Scenario>, scenario: Scenario)
    ensures (exists k :: 0 <= k < |scenarios| && scenarios[k].id == scenario.id) ==>
              |Upsert(scenarios, scenario)| == |scenarios| &&
              Upsert(scenarios, scenario)[FindIndex(scenarios, scenario.id)] == scenario &&
              forall k :: 0 <= k < |scenarios| && k != FindIndex(scenarios, scenario.id) ==>
                Upsert(scenarios, scenario)[k] == scenarios[k]
    ensures (forall k :: 0 <= k < |scenarios| ==> scenarios[k].id != scenario.id) ==>
              Upsert(scenarios, scenario) == scenarios + [scenario]
  {
  }

  /** FindIndex is the first position holding the id. */
  lemma FindIndexIsFirst(scenarios: seq<Scenario>, id: string, i: nat)
    requires i < |scenarios| && scenarios[i].id == id
    requires forall k :: 0 <= k < i ==> scenarios[k].id != id
    ensures FindIndex(scenarios, id) == i
  {
  }

  /** Saving the same scenario twice is the same as saving it once. */
  lemma UpsertIdempotent(scenarios: seq<Scenario>, scenario: Scenario)
    ensures Upsert(Upsert(scenarios, scenario), scenario) == Upsert(scenarios, scenario)
  {
    var once := Upsert(scenarios, scenario);
    var i := FindIndex(scenarios, scenario.id);
    if i >= 0 {
      assert forall k :: 0 <= k < i ==> once[k] == scenarios[k];
      assert once[i].id == scenario.id;
      FindIndexIsFirst(once, scenario.id, i);
    } else {
      assert forall k :: 0 <= k < |scenarios| ==> once[k] == scenarios[k];
      assert once[|scenarios|].id == scenario.id;
      FindIndexIsFirst(once, scenario.id, |scenarios|);
    }
  }

  /** Saving adds at most one entry, and afterwards the first entry with
      the scenario's id is the saved scenario. */
  lemma UpsertThenFind(scenarios: seq<Scenario>, scenario: Scenario)
    ensures |scenarios| <= |Upsert(scenarios, scenario)| <= |scenarios| + 1
    ensures FindIndex(Upsert(scenarios, scenario), scenario.id) >= 0
    ensures Upsert(scenarios, scenario)[FindIndex(Upsert(scenarios, scenario), scenario.id)] == scenario
  {
    UpsertIdempotent(scenarios, scenario);
    var once := Upsert(scenarios, scenario);
    var i := FindIndex(scenarios, scenario.id);
    if i >= 0 {
      assert once[i] == scenario;
    } else {
      assert once[|scenarios|] == scenario;
    }
  }

  /** Deleting keeps exactly the entries with another id. */
  lemma {:induction false} WithoutIdKeepsOthers<T>(xs: seq<T>, idOf: T -> string, id: string)
    ensures forall x :: x in WithoutId(xs, idOf, id) <==> x in xs && idOf(x) != id
    ensures |WithoutId(xs, idOf, id)| <= |xs|
  {
    if xs != [] {
      var init := xs[..|xs| - 1];
      WithoutIdKeepsOthers(init, idOf, id);
      assert xs == init + [xs[|xs| - 1]];
    }
  }

  /** Deleting distributes over concatenation, so relative order is kept. */
  lemma {:induction false} WithoutIdAppend<T>(a: seq<T>, b: seq<T>, idOf: T -> string, id: string)
    ensures WithoutId(a + b, idOf, id) == WithoutId(a, idOf, id) + WithoutId(b, idOf, id)
    decreases |b|
  {
    if b == [] {
      assert a + b == a;
    } else {
      var init := b[..|b| - 1];
      assert (a + b)[..|a + b| - 1] == a + init;
      WithoutIdAppend(a, init, idOf, id);
    }
  }

  /** Deleting twice is deleting once. */
  lemma {:induction false} WithoutIdIdempotent<T>(xs: seq<T>, idOf: T -> string, id: string)
    ensures WithoutId(WithoutId(xs, idOf, id), idOf, id) == WithoutId(xs, idOf, id)
  {
    if xs != [] {
      var init := xs[..|xs| - 1];
      var last := xs[|xs| - 1];
      WithoutIdIdempotent(init, idOf, id);
      if idOf(last) != id {
        WithoutIdAppend(WithoutId(init, idOf, id), [last], idOf, id);
        assert WithoutId([last], idOf, id) == [last] by {
          assert [last][..0] == [];
        }
      }
    }
  }

  /** The newest simulation comes first, the ten most recent are kept, and
      the oldest ones fall off the end. */
  lemma PushNewestKeepsTen(simulations: seq<StoredSimulation>, simulation: StoredSimulation)
    ensures 1 <= |PushNewest(simulations, simulation)| <= MaxStoredSimulations
    ensures PushNewest(simulations, simulation)[0] == simulation
    ensures PushNewest(simulations, simulation)[1..] ==
            simulations[..if |simulations| < MaxStoredSimulations then |simulations| else MaxStoredSimulations - 1]
    ensures |simulations| < MaxStoredSimulations ==> |PushNewest(simulations, simulation)| == |simulations| + 1
  {
    var all := [simulation] + simulations;
    if |all| > MaxStoredSimulations {
      assert all[..MaxStoredSimulations][1..] == simulations[..MaxStoredSimulations - 1];
    } else {
      assert all[1..] == simulations;
    }
  }

  /** Saving a simulation into a full store drops exactly the oldest one. */
  lemma PushNewestDropsOldest(simulations: seq<StoredSimulation>, simulation: StoredSimulation)
    requires |simulations| == MaxStoredSimulations
    ensures PushNewest(simulations, simulation) == [simulation] + simulations[..|simulations| - 1]
  {
    PushNewestKeepsTen(simulations, simulation);
  }
}
