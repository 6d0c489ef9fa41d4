/** Value types of the dice simulator: the five die kinds, a die's configuration
    record, and the per-face result and summary records one simulation produces. */
module DiceTypes {

  /** `T | null` for a state slot that may be empty. */
  datatype Option<+T> = None | Some(value: T)

  /** The five Platonic solids, each identified by its number of faces. */
  datatype DieType = Tetrahedron | Cube | Octahedron | Dodecahedron | Icosahedron
  {
    /** The numeric value the enum member stands for. */
    function Value(): (v: int)
      ensures v == 4 || v == 6 || v == 8 || v == 12 || v == 20
    {
      match this
      case Tetrahedron => 4
      case Cube => 6
      case Octahedron => 8
      case Dodecahedron => 12
      case Icosahedron => 20
    }
  }

  /** The five shape names a die's icon may take, and no others. */
  datatype IconShape = Triangle | Square | Diamond | Pentagon | Hexagon

  /** Static description of one die; `dieType` is the source's `type` field. */
  datatype DieConfig = DieConfig(
    dieType: DieType,
    name: string,
    sides: int,
    description: string,
    iconShape: IconShape)

  /** One row of a simulation's output: how often `face` came up, absolutely and relatively. */
  datatype SimulationResult = SimulationResult(face: int, count: int, frequency: real)

  /** The output of one simulation run; `timestamp` is informational only. */
  datatype SimulationSummary = SimulationSummary(
    totalRolls: int,
    results: seq<SimulationResult>,
    timestamp: int)

  /** Distinct members stand for distinct values, and every value is a positive face count. */
  lemma DieTypeValuesDistinctPositive(a: DieType, b: DieType)
    ensures a.Value() >= 1
    ensures a.Value() == b.Value() <==> a == b
  {
  }

  /** Sum of the counts of a result list, taken from the last entry backwards. */
  function SumCounts(rs: seq<SimulationResult>): int
  {
    if rs == [] then 0 else SumCounts(rs[..|rs| - 1]) + rs[|rs| - 1].count
  }

  /** Sum of the relative frequencies of a result list. */
  function SumFrequencies(rs: seq<SimulationResult>): real
  {
    if rs == [] then 0.0 else SumFrequencies(rs[..|rs| - 1]) + rs[|rs| - 1].frequency
  }

  /** What a summary for a die with `sides` faces promises its readers: one row per face
      1..sides in ascending order, each count within [0, totalRolls] and summing to
      totalRolls, each frequency equal to count / totalRolls, within [0, 1], and the
      frequencies summing to exactly 1. */
  ghost predicate WellFormedSummary(s: SimulationSummary, sides: int)
  {
    && s.totalRolls >= 1
    && |s.results| == sides
    && (forall i :: 0 <= i < |s.results| ==> s.results[i].face == i + 1)
    && (forall i :: 0 <= i < |s.results| ==> 0 <= s.results[i].count <= s.totalRolls)
    && (forall i :: 0 <= i < |s.results| ==>
          s.results[i].frequency == s.results[i].count as real / s.totalRolls as real)
    && (forall i :: 0 <= i < |s.results| ==> 0.0 <= s.results[i].frequency <= 1.0)
    && SumCounts(s.results) == s.totalRolls
    && SumFrequencies(s.results) == 1.0
  }

  /** Frequencies that are each count / n add up to (sum of counts) / n. */
  lemma {:induction false} SumFrequenciesScaled(rs: seq<SimulationResult>, n: int)
    requires n >= 1
    requires forall i :: 0 <= i < |rs| ==> rs[i].frequency == rs[i].count as real / n as real
    ensures SumFrequencies(rs) * n as real == SumCounts(rs) as real
  {
    if rs != [] {
      var init := rs[..|rs| - 1];
      var last := rs[|rs| - 1];
      assert forall i :: 0 <= i < |init| ==> init[i] == rs[i];
      SumFrequenciesScaled(init, n);
      assert last.frequency * n as real == last.count as real;
      calc {
        SumFrequencies(rs) * n as real;
        (SumFrequencies(init) + last.frequency) * n as real;
        SumFrequencies(init) * n as real + last.frequency * n as real;
        SumCounts(init) as real + last.count as real;
      }
    }
  }
}
