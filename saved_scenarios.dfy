/** The saved-scenario store of the top-level MortgageCalculator.swift and the
    app's rule for importing a shared `.mortgagescenario` file. Persistence is not
    modelled: what `UserDefaults` and the JSON decoder yield on start-up is an
    input, and the file's extension, the security-scoped access and the decoded
    scenario of an import are inputs too, as is the fresh id (`UUID()`). */
module SavedScenarios {
  import opened Common

  datatype SavedScenario = SavedScenario(
    id: int,
    name: string,
    loanAmount: real,
    interestRate: real,
    loanTerm: real,
    paymentFrequency: string,
    additionalPayment: real,
    createdDate: int)

  /** What start-up finds under the store's key. */
  datatype StoredData = NoSavedData | Decoded(scenarios: seq<SavedScenario>) | DecodeFailed(reason: string)

  const ImportExtension := "mortgagescenario"
  const SharedSuffix := " (Shared)"

  /** The scenarios after `handleOpenURL`: a file with the right extension, to
      which access is granted and which decodes, is added as a copy with a fresh id
      and the suffix " (Shared)" unless a stored scenario has its id. */
  function Imported(
    saved: seq<SavedScenario>, pathExtension: string, accessGranted: bool,
    decoded: Option<SavedScenario>, freshId: int): (r: seq<SavedScenario>)
    ensures r == saved || (|r| == |saved| + 1 && r[..|saved|] == saved)
    ensures |r| == |saved| + 1 <==>
      pathExtension == ImportExtension && accessGranted && decoded.Some? &&
      forall i :: 0 <= i < |saved| ==> saved[i].id != decoded.value.id
    ensures |r| == |saved| + 1 ==>
      r[|saved|] == decoded.value.(id := freshId, name := decoded.value.name + SharedSuffix)
  {
    if pathExtension != ImportExtension || !accessGranted || decoded.None? then saved
    else if exists i :: 0 <= i < |saved| && saved[i].id == decoded.value.id then saved
    else saved + [decoded.value.(id := freshId, name := decoded.value.name + SharedSuffix)]
  }

  /** The absence test looks at the file's own id while the stored copy carries a
      fresh one, so opening the same file twice stores two copies. */
  lemma ImportingTwiceStoresTwoCopies(
    saved: seq<SavedScenario>, decoded: SavedScenario, firstId: int, secondId: int)
    requires forall i :: 0 <= i < |saved| ==> saved[i].id != decoded.id
    requires firstId != decoded.id
    ensures var once := Imported(saved, ImportExtension, true, Some(decoded), firstId);
      var twice := Imported(once, ImportExtension, true, Some(decoded), secondId);
      |twice| == |saved| + 2 && twice[|saved|].name == twice[|saved| + 1].name
  {
    var once := Imported(saved, ImportExtension, true, Some(decoded), firstId);
    assert |once| == |saved| + 1;
    assert forall i :: 0 <= i < |once| ==> once[i].id != decoded.id by {
      forall i | 0 <= i < |once| ensures once[i].id != decoded.id {
        if i < |saved| {
          assert once[i] == saved[i];
        }
      }
    }
  }

  class ScenarioStore {
    var savedScenarios: seq<SavedScenario>
    var errorMessage: string
    var showError: bool

    /** `init` and `loadScenarios`: the decoded list, or nothing; a list that does
        not decode is reported. */
    constructor(stored: StoredData)
      ensures savedScenarios == (if stored.Decoded? then stored.scenarios else [])
      ensures showError <==> stored.DecodeFailed?
      ensures errorMessage == (if stored.DecodeFailed? then "Failed to load saved scenarios: " + stored.reason else "")
    {
      errorMessage := "";
      showError := false;
      match stored
      case Decoded(scenarios) =>
        savedScenarios := scenarios;
      case DecodeFailed(reason) =>
        errorMessage := "Failed to load saved scenarios: " + reason;
        showError := true;
        savedScenarios := [];
      case NoSavedData =>
        savedScenarios := [];
    }

    /** `addScenario`: appends at the end. */
    method AddScenario(scenario: SavedScenario)
      modifies this
      ensures savedScenarios == old(savedScenarios) + [scenario]
      ensures errorMessage == old(errorMessage) && showError == old(showError)
    {
      savedScenarios := savedScenarios + [scenario];
    }

    /** `removeScenario(at:)`: removes the rows at the offsets, keeping the rest in
        order; an offset past the end traps. */
    method RemoveScenario(offsets: set<int>)
      modifies this
      requires forall o :: o in offsets ==> 0 <= o < |savedScenarios|
      ensures savedScenarios == RemoveAt(old(savedScenarios), offsets)
      ensures |savedScenarios| == |old(savedScenarios)| - |offsets|
      ensures errorMessage == old(errorMessage) && showError == old(showError)
    {
      savedScenarios := RemoveAt(savedScenarios, offsets);
    }

    /** `updateScenario`: replaces the first scenario with the same id, if any. */
    method UpdateScenario(scenario: SavedScenario)
      modifies this
      ensures savedScenarios == ReplaceFirst(old(savedScenarios), (s: SavedScenario) => s.id == scenario.id, scenario)
      ensures errorMessage == old(errorMessage) && showError == old(showError)
    {
      var index := FirstIndex(savedScenarios, (s: SavedScenario) => s.id == scenario.id);
      if index.Some? {
        savedScenarios := savedScenarios[index.value := scenario];
      }
    }

    /** `saveScenario`: the same as adding it. */
    method SaveScenario(scenario: SavedScenario)
      modifies this
      ensures savedScenarios == old(savedScenarios) + [scenario]
      ensures errorMessage == old(errorMessage) && showError == old(showError)
    {
      AddScenario(scenario);
    }
  }

  /** The app, which owns the store and imports the files it is asked to open. */
  class MortgageCalculatorApp {
    const scenarioStore: ScenarioStore

    constructor(stored: StoredData)
      ensures fresh(scenarioStore) && scenarioStore.savedScenarios == (if stored.Decoded? then stored.scenarios else [])
    {
      scenarioStore := new ScenarioStore(stored);
    }

    /** `handleOpenURL`. */
    method HandleOpenURL(pathExtension: string, accessGranted: bool, decoded: Option<SavedScenario>, freshId: int)
      modifies scenarioStore
      ensures scenarioStore.savedScenarios ==
        Imported(old(scenarioStore.savedScenarios), pathExtension, accessGranted, decoded, freshId)
      ensures scenarioStore.errorMessage == old(scenarioStore.errorMessage) &&
        scenarioStore.showError == old(scenarioStore.showError)
    {
      if pathExtension != ImportExtension {
        return;
      }
      if !accessGranted {
        return;
      }
      if decoded.Some? {
        var scenario := decoded.value;
        if !(exists i :: 0 <= i < |scenarioStore.savedScenarios| && scenarioStore.savedScenarios[i].id == scenario.id) {
          var newScenario := scenario.(id := freshId, name := scenario.name + SharedSuffix);
          scenarioStore.AddScenario(newScenario);
        }
      }
    }
  }
}
