/** The scenario store of MortgageCalculator/Models/ScenarioStore.swift: the list
    of scenarios the app keeps and the one being edited. What `loadScenarios`
    decodes on start-up is an input, as are the fresh ids; writing the list back
    to `UserDefaults` is not modelled. */
module ScenarioStore {
  import opened Common
  import opened MortgageModel

  /** `createDefaultScenario`: 300000 at 5% for 30 years, fixed rate, monthly. */
  function CreateDefaultScenario(id: int): (s: MortgageScenario)
    ensures s.id == id && s.name == DefaultName
    ensures s.loanAmount == 300000.0 && s.interestRate == 5.0 && s.loanTermYears == 30.0
    ensures s.loanType == "Fixed Rate" && s.paymentFrequency == "Monthly"
    ensures s.lumpSumPayments == [] && s.additionalPayment == 0.0
  {
    NewScenario(id, 300000.0, 5.0, 30.0, LoanTypeRawValue(Fixed), RawValue(Monthly))
  }

  /** A scenario whose id differs from `id`. */
  predicate OtherThan(id: int, s: MortgageScenario) {
    s.id != id
  }

  /** What `duplicateScenario` appends: the same scenario under a new id, named
      with " (Copy)". */
  function CopyOf(scenario: MortgageScenario, freshId: int): (copy: MortgageScenario)
    ensures copy.id == freshId && copy.name == scenario.name + " (Copy)"
    ensures copy.(id := scenario.id, name := scenario.name) == scenario
  {
    scenario.(id := freshId, name := scenario.name + " (Copy)")
  }

  /** Deleting removes every scenario with the id, so deleting twice is deleting
      once. */
  lemma {:induction false} DeleteTwice(scenarios: seq<MortgageScenario>, id: int)
    ensures var r := Filter(scenarios, s => OtherThan(id, s));
      Filter(r, s => OtherThan(id, s)) == r
  {
    if scenarios != [] {
      DeleteTwice(scenarios[1..], id);
    }
  }

  /** Deleting an id no scenario has changes nothing. */
  lemma {:induction false} DeleteAbsent(scenarios: seq<MortgageScenario>, id: int)
    requires forall i :: 0 <= i < |scenarios| ==> scenarios[i].id != id
    ensures Filter(scenarios, s => OtherThan(id, s)) == scenarios
  {
    if scenarios != [] {
      DeleteAbsent(scenarios[1..], id);
      assert scenarios == [scenarios[0]] + scenarios[1..];
    }
  }

  class ScenarioStore {
    var scenarios: seq<MortgageScenario>
    var currentScenario: MortgageScenario

    /** `init`: a loaded list is kept and its first scenario is the current one
        (the default when the list is empty); with nothing loaded the list holds
        just the default scenario, which is also the current one. */
    constructor(loaded: Option<seq<MortgageScenario>>, defaultId: int)
      ensures loaded.Some? ==> scenarios == loaded.value
      ensures loaded.Some? && loaded.value != [] ==> currentScenario == loaded.value[0]
      ensures loaded.Some? && loaded.value == [] ==> currentScenario == CreateDefaultScenario(defaultId)
      ensures loaded.None? ==>
        scenarios == [CreateDefaultScenario(defaultId)] && currentScenario == CreateDefaultScenario(defaultId)
    {
      if loaded.Some? {
        var savedScenarios := loaded.value;
        scenarios := savedScenarios;
        currentScenario := if savedScenarios != [] then savedScenarios[0] else CreateDefaultScenario(defaultId);
      } else {
        var defaultScenario := CreateDefaultScenario(defaultId);
        currentScenario := defaultScenario;
        scenarios := [defaultScenario];
      }
    }

    /** `addScenario`: appends, leaving the earlier scenarios as they were. */
    method AddScenario(scenario: MortgageScenario)
      modifies this
      ensures scenarios == old(scenarios) + [scenario]
      ensures currentScenario == old(currentScenario)
    {
      scenarios := scenarios + [scenario];
    }

    /** `updateScenario`: replaces the first scenario with the same id; without one
        nothing changes. */
    method UpdateScenario(scenario: MortgageScenario)
      modifies this
      ensures scenarios == ReplaceFirst(old(scenarios), (s: MortgageScenario) => s.id == scenario.id, scenario)
      ensures currentScenario == old(currentScenario)
    {
      var index := FirstIndex(scenarios, (s: MortgageScenario) => s.id == scenario.id);
      if index.Some? {
        scenarios := scenarios[index.value := scenario];
      }
    }

    /** `deleteScenario`: removes every scenario with the same id. The current
        scenario is left as it was, even when it is the one removed. */
    method DeleteScenario(scenario: MortgageScenario)
      modifies this
      ensures scenarios == Filter(old(scenarios), s => OtherThan(scenario.id, s))
      ensures currentScenario == old(currentScenario)
    {
      scenarios := Filter(scenarios, s => OtherThan(scenario.id, s));
    }

    /** `duplicateScenario`: appends and returns a copy under a fresh id. */
    method DuplicateScenario(scenario: MortgageScenario, freshId: int) returns (copy: MortgageScenario)
      modifies this
      ensures copy == CopyOf(scenario, freshId)
      ensures scenarios == old(scenarios) + [copy]
      ensures currentScenario == old(currentScenario)
    {
      copy := scenario;
      copy := copy.(id := freshId);
      copy := copy.(name := scenario.name + " (Copy)");
      scenarios := scenarios + [copy];
    }
  }
}
