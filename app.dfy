/** The application's simulation state: which die is selected, how many rolls are
    asked for, whether a run is in progress, and the last run's summary. Events are
    the roll-count input and its shortcut buttons, a click on the roll button, the
    timer that completes a run, and a click on a die. A control the page shows as
    disabled delivers no event, so its event leaves the state unchanged here. */
module Simulator {
  import opened DiceTypes
  import Catalog
  import Engine

  /** The roll counts offered as one-click shortcuts. */
  const RollPresets: seq<int> := [10, 100, 1000, 10000]

  /** The roll count the application starts with. */
  const DefaultRolls: int := 100

  /** The roll-count input's clamp: the parsed entry (None when it is not a number),
      with a missing number or zero read as 0, raised to at least 1. */
  function ClampRolls(parsed: Option<int>): (n: int)
    ensures n >= 1
    ensures parsed.Some? && parsed.value >= 1 ==> n == parsed.value
    ensures parsed.None? || parsed.value < 1 ==> n == 1
  {
    var entered := if parsed.Some? then parsed.value else 0;
    if 1 < entered then entered else 1
  }

  /** The roll button's guard: disabled while a run is in progress or while fewer than
      one roll is asked for. */
  function RollDisabled(isSimulating: bool, numRolls: int): (disabled: bool)
    ensures !disabled ==> !isSimulating && numRolls >= 1
    ensures isSimulating ==> disabled
  {
    isSimulating || numRolls < 1
  }

  /** Once the roll count is at least 1, only a run in progress disables the button. */
  lemma RollDisabledOnlyWhileSimulating(isSimulating: bool, numRolls: int)
    requires numRolls >= 1
    ensures RollDisabled(isSimulating, numRolls) == isSimulating
  {
  }

  /** The timer callback a click on the roll button schedules, with the die and roll
      count its closure captured at that moment. */
  datatype PendingRoll = PendingRoll(die: DieConfig, numRolls: int)

  class App {
    var selectedDie: DieConfig
    var numRolls: int
    var simulationData: Option<SimulationSummary>
    var isSimulating: bool
    /** The scheduled completion of a run; None when no timer is pending. */
    var pending: Option<PendingRoll>

    /** The state invariant: the die comes from the catalog, the roll count (the
        divisor of every frequency) is at least 1, a timer is pending exactly while a
        run is in progress and then no summary is shown, the pending run uses the die
        and roll count on display, and a shown summary is well formed for the die. */
    ghost predicate Valid()
      reads this
    {
      && selectedDie in Catalog.PlatonicDice
      && numRolls >= 1
      && (isSimulating <==> pending.Some?)
      && (isSimulating ==> simulationData.None?)
      && (pending.Some? ==> pending.value == PendingRoll(selectedDie, numRolls))
      && (simulationData.Some? ==> WellFormedSummary(simulationData.value, selectedDie.sides))
    }

    /** Initial state: the cube, 100 rolls, idle, nothing to show. */
    constructor ()
      ensures Valid()
      ensures selectedDie == Catalog.PlatonicDice[Catalog.DefaultDieIndex] && selectedDie.sides == 6
      ensures numRolls == DefaultRolls
      ensures simulationData.None? && !isSimulating && pending.None?
    {
      selectedDie := Catalog.PlatonicDice[Catalog.DefaultDieIndex];
      numRolls := DefaultRolls;
      simulationData := None;
      isSimulating := false;
      pending := None;
    }

    /** Whether the roll button accepts a click. */
    predicate RollEnabled()
      reads this
      ensures Valid() ==> (RollEnabled() <==> !isSimulating)
    {
      !RollDisabled(isSimulating, numRolls)
    }

    /** An edit of the roll-count input, which is disabled during a run. */
    method ChangeRolls(parsed: Option<int>)
      requires Valid()
      modifies this
      ensures Valid()
      ensures old(isSimulating) ==> unchanged(this)
      ensures !old(isSimulating) ==> numRolls == ClampRolls(parsed)
      ensures selectedDie == old(selectedDie) && simulationData == old(simulationData)
      ensures isSimulating == old(isSimulating) && pending == old(pending)
    {
      if !isSimulating {
        numRolls := ClampRolls(parsed);
      }
    }

    /** A click on one of the roll-count shortcuts, which are disabled during a run. */
    method PickPreset(preset: int)
      requires Valid() && preset in RollPresets
      modifies this
      ensures Valid()
      ensures old(isSimulating) ==> unchanged(this)
      ensures !old(isSimulating) ==> numRolls == preset
      ensures selectedDie == old(selectedDie) && simulationData == old(simulationData)
      ensures isSimulating == old(isSimulating) && pending == old(pending)
    {
      if !isSimulating {
        numRolls := preset;
      }
    }

    /** A click on the roll button: when enabled, the run starts, the old summary is
        cleared and the completion is scheduled with the current die and roll count. */
    method ClickRoll()
      requires Valid()
      modifies this
      ensures Valid()
      ensures !old(RollEnabled()) ==> unchanged(this)
      ensures old(RollEnabled()) ==>
                isSimulating && simulationData.None?
                && pending == Some(PendingRoll(old(selectedDie), old(numRolls)))
      ensures selectedDie == old(selectedDie) && numRolls == old(numRolls)
    {
      if RollEnabled() {
        isSimulating := true;
        simulationData := None;
        pending := Some(PendingRoll(selectedDie, numRolls));
      }
    }

    /** The timer firing: the run is tallied over `draws`, the faces the random source
        produced, its summary recording the captured roll count is shown, and the run
        ends. */
    method TimerFires(draws: seq<int>, timestamp: int)
      requires Valid() && pending.Some?
      requires |draws| == pending.value.numRolls
      requires Engine.InRange(draws, pending.value.die.sides)
      modifies this
      ensures Valid()
      ensures !isSimulating && pending.None? && simulationData.Some?
      ensures simulationData.value.totalRolls == old(pending.value.numRolls)
      ensures simulationData.value.timestamp == timestamp
      ensures forall i :: 0 <= i < |simulationData.value.results| ==>
                simulationData.value.results[i].count == Engine.Occurrences(draws, i + 1)
      ensures selectedDie == old(selectedDie) && numRolls == old(numRolls)
    {
      var run := pending.value;
      var summary := Engine.Simulate(run.die.sides, run.numRolls, draws, timestamp);
      simulationData := Some(summary);
      isSimulating := false;
      pending := None;
    }

    /** A click on a die: ignored during a run; otherwise that die becomes the
        selection and the shown results are cleared. */
    method SelectDie(die: DieConfig)
      requires Valid() && die in Catalog.PlatonicDice
      modifies this
      ensures Valid()
      ensures old(isSimulating) ==> unchanged(this)
      ensures !old(isSimulating) ==> selectedDie == die && simulationData.None?
      ensures numRolls == old(numRolls) && isSimulating == old(isSimulating) && pending == old(pending)
    {
      if !isSimulating {
        selectedDie := die;
        simulationData := None;
      }
    }
  }
}
