/** The fixed table of the five dice the simulator offers. */
module Catalog {
  import opened DiceTypes

  /** The die table as exported for the application. */
  const PlatonicDice: seq<DieConfig> := [
    DieConfig(Tetrahedron, "Tetraedro", 4, "4 Faces (Pirâmide Triangular)", Triangle),
    DieConfig(Cube, "Cubo", 6, "6 Faces (Cubo Clássico)", Square),
    DieConfig(Octahedron, "Octaedro", 8, "8 Faces (Bipirâmide)", Diamond),
    DieConfig(Dodecahedron, "Dodecaedro", 12, "12 Faces (Pentágonos)", Pentagon),
    DieConfig(Icosahedron, "Icosaedro", 20, "20 Faces (Triângulos)", Hexagon)
  ]

  /** The second copy of the table, written out inside the single-file build of the app. */
  const InlinedPlatonicDice: seq<DieConfig> := [
    DieConfig(Tetrahedron, "Tetraedro", 4, "4 Faces (Pirâmide Triangular)", Triangle),
    DieConfig(Cube, "Cubo", 6, "6 Faces (Cubo Clássico)", Square),
    DieConfig(Octahedron, "Octaedro", 8, "8 Faces (Bipirâmide)", Diamond),
    DieConfig(Dodecahedron, "Dodecaedro", 12, "12 Faces (Pentágonos)", Pentagon),
    DieConfig(Icosahedron, "Icosaedro", 20, "20 Faces (Triângulos)", Hexagon)
  ]

  /** Index of the die selected when the application starts. */
  const DefaultDieIndex: nat := 1

  /** Five entries, in the order Tetrahedron, Cube, Octahedron, Dodecahedron, Icosahedron. */
  lemma CatalogOrder()
    ensures |PlatonicDice| == 5
    ensures PlatonicDice[0].dieType == Tetrahedron
    ensures PlatonicDice[1].dieType == Cube
    ensures PlatonicDice[2].dieType == Octahedron
    ensures PlatonicDice[3].dieType == Dodecahedron
    ensures PlatonicDice[4].dieType == Icosahedron
  {
  }

  /** Every entry's face count is the value of its die type. */
  lemma SidesMatchType()
    ensures forall i :: 0 <= i < |PlatonicDice| ==> PlatonicDice[i].sides == PlatonicDice[i].dieType.Value()
  {
  }

  /** Face counts strictly increase along the table, so no die type appears twice and
      the type can key the entries. */
  lemma {:induction false} SidesStrictlyIncreasing()
    ensures forall i, j :: 0 <= i < j < |PlatonicDice| ==> PlatonicDice[i].sides < PlatonicDice[j].sides
    ensures forall i, j :: 0 <= i < j < |PlatonicDice| ==> PlatonicDice[i].dieType != PlatonicDice[j].dieType
  {
    var d := PlatonicDice;
    assert d[0].sides < d[1].sides < d[2].sides < d[3].sides < d[4].sides;
    forall i, j | 0 <= i < j < |d| ensures d[i].dieType != d[j].dieType {
      SidesMatchType();
    }
  }

  /** Every die in the table has at least four faces, so its face range is never empty. */
  lemma CatalogSidesAtLeastFour(die: DieConfig)
    requires die in PlatonicDice
    ensures die.sides >= 4
  {
  }

  /** The default selection is the six-sided cube. */
  lemma DefaultIsCube()
    ensures DefaultDieIndex < |PlatonicDice|
    ensures PlatonicDice[DefaultDieIndex].dieType == Cube && PlatonicDice[DefaultDieIndex].sides == 6
  {
  }

  /** The inlined copy is the same table, so every fact above holds of it too. */
  lemma InlinedCatalogIsSame()
    ensures InlinedPlatonicDice == PlatonicDice
    ensures |InlinedPlatonicDice| == 5
    ensures forall i :: 0 <= i < |InlinedPlatonicDice| ==>
              InlinedPlatonicDice[i].sides == InlinedPlatonicDice[i].dieType.Value()
  {
    SidesMatchType();
  }
}
