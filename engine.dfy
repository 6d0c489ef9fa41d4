/** The roll handler's tally: a table with a zero for every face, one increment per
    draw, and the table turned into an ordered list of per-face records. The random
    draw is an input: `draws[i]` is the face the i-th roll produced. */
module Engine {
  import opened DiceTypes

  /** Every draw names a face of a die with `sides` faces. */
  predicate InRange(draws: seq<int>, sides: int)
  {
    forall i :: 0 <= i < |draws| ==> 1 <= draws[i] <= sides
  }

  /** The faces 1..sides of a die, as a set. */
  function FaceSet(sides: int): (s: set<int>)
    ensures forall f :: f in s <==> 1 <= f <= sides
    decreases sides
  {
    if sides <= 0 then {} else FaceSet(sides - 1) + {sides}
  }

  /** The table right after initialisation: faces 1..sides, each mapped to zero. */
  function ZeroCounts(sides: int): map<int, int>
  {
    map f | f in FaceSet(sides) :: 0
  }

  /** How many of the draws came up `face`. */
  function Occurrences(draws: seq<int>, face: int): (n: int)
    ensures 0 <= n <= |draws|
  {
    if draws == [] then 0
    else Occurrences(draws[..|draws| - 1], face) + (if draws[|draws| - 1] == face then 1 else 0)
  }

  /** The table after all draws: for each face 1..sides, the number of draws that hit it. */
  function Tally(sides: int, draws: seq<int>): map<int, int>
  {
    map f | f in FaceSet(sides) :: Occurrences(draws, f)
  }

  /** Sum of the table's entries for faces 1..n. */
  function Total(counts: map<int, int>, n: int): int
    requires forall f :: 1 <= f <= n ==> f in counts
    decreases n
  {
    if n <= 0 then 0 else Total(counts, n - 1) + counts[n]
  }

  /** One roll adds exactly one to the face drawn and leaves every other face as it was. */
  lemma {:induction false} TallyStep(sides: int, draws: seq<int>, d: int)
    requires 1 <= d <= sides
    ensures Tally(sides, draws + [d]).Keys == Tally(sides, draws).Keys
    ensures Tally(sides, draws + [d]) == Tally(sides, draws)[d := Tally(sides, draws)[d] + 1]
  {
    var s := draws + [d];
    assert s[..|s| - 1] == draws;
    var after, before := Tally(sides, s), Tally(sides, draws);
    forall f | 1 <= f <= sides
      ensures after[f] == if f == d then before[f] + 1 else before[f]
    {
    }
  }

  /** Adding one to one of the faces 1..n adds one to the total. */
  lemma {:induction false} TotalBump(counts: map<int, int>, n: int, d: int)
    requires forall f :: 1 <= f <= n ==> f in counts
    requires 1 <= d <= n
    ensures Total(counts[d := counts[d] + 1], n) == Total(counts, n) + 1
  {
    var bumped := counts[d := counts[d] + 1];
    if d < n {
      TotalBump(counts, n - 1, d);
    } else {
      TotalUnchanged(counts, bumped, n - 1);
    }
  }

  /** Two tables that agree on faces 1..n have the same total. */
  lemma {:induction false} TotalUnchanged(a: map<int, int>, b: map<int, int>, n: int)
    requires forall f :: 1 <= f <= n ==> f in a && f in b && a[f] == b[f]
    ensures Total(a, n) == Total(b, n)
    decreases n
  {
    if n > 0 {
      TotalUnchanged(a, b, n - 1);
    }
  }

  /** When every draw is a face of the die, the counts add up to the number of rolls. */
  lemma {:induction false} TallyTotal(sides: int, draws: seq<int>)
    requires InRange(draws, sides)
    ensures Total(Tally(sides, draws), sides) == |draws|
  {
    if draws == [] {
      TotalUnchanged(Tally(sides, draws), ZeroCounts(sides), sides);
      ZeroTotal(sides);
    } else {
      var init, d := draws[..|draws| - 1], draws[|draws| - 1];
      assert draws == init + [d];
      TallyTotal(sides, init);
      TallyStep(sides, init, d);
      TotalBump(Tally(sides, init), sides, d);
    }
  }

  /** The freshly initialised table totals zero. */
  lemma {:induction false} ZeroTotal(n: int)
    ensures Total(ZeroCounts(n), n) == 0
    decreases n
  {
    if n > 0 {
      ZeroTotal(n - 1);
      TotalUnchanged(ZeroCounts(n), ZeroCounts(n - 1), n - 1);
    }
  }

  /** Before any draw, the tally is the freshly initialised table. */
  lemma TallyEmpty(sides: int)
    ensures Tally(sides, []) == ZeroCounts(sides)
  {
  }

  /** The initialising loop: a zero for every face 1..sides and no other key. */
  method InitCounts(sides: int) returns (counts: map<int, int>)
    ensures counts == ZeroCounts(sides)
    ensures forall f :: f in counts <==> 1 <= f <= sides
  {
    counts := map[];
    var i := 1;
    while i <= sides
      invariant 1 <= i <= if sides >= 1 then sides + 1 else 1
      invariant counts == ZeroCounts(i - 1)
    {
      assert FaceSet(i) == FaceSet(i - 1) + {i};
      counts := counts[i := 0];
      i := i + 1;
    }
    if sides < 1 {
      assert FaceSet(sides) == {};
    }
  }

  /** The roll loop: one increment of the drawn face per roll, on the table `counts`
      the initialising loop built. Afterwards each face holds the number of draws that
      hit it, within [0, numRolls], and the counts add up to numRolls. */
  method RollDice(counts0: map<int, int>, sides: int, numRolls: int, draws: seq<int>)
    returns (counts: map<int, int>)
    requires counts0 == ZeroCounts(sides)
    requires |draws| == numRolls && InRange(draws, sides)
    ensures counts == Tally(sides, draws)
    ensures counts.Keys == counts0.Keys
    ensures forall f :: f in counts ==> 0 <= counts[f] <= numRolls
    ensures Total(counts, sides) == numRolls
  {
    counts := counts0;
    assert draws[..0] == [];
    TallyEmpty(sides);
    var i := 0;
    while i < numRolls
      invariant 0 <= i <= numRolls
      invariant counts == Tally(sides, draws[..i])
    {
      var result := draws[i];
      assert draws[..i + 1] == draws[..i] + [result];
      TallyStep(sides, draws[..i], result);
      counts := counts[result := counts[result] + 1];
      i := i + 1;
    }
    assert draws[..i] == draws;
    TallyBounds(sides, draws);
    TallyTotal(sides, draws);
  }

  /** The keys of `counts` within [lo, hi), in ascending order. */
  function KeysBetween(counts: map<int, int>, lo: int, hi: int): (r: seq<int>)
    ensures forall i :: 0 <= i < |r| ==> r[i] in counts && lo <= r[i] < hi
    ensures forall i, j :: 0 <= i < j < |r| ==> r[i] < r[j]
    decreases hi - lo
  {
    if lo >= hi then []
    else if lo in counts then [lo] + KeysBetween(counts, lo + 1, hi)
    else KeysBetween(counts, lo + 1, hi)
  }

  /** Every key of `counts` within [lo, hi) is listed. */
  lemma {:induction false} KeysBetweenComplete(counts: map<int, int>, lo: int, hi: int)
    ensures forall k :: k in counts && lo <= k < hi ==> k in KeysBetween(counts, lo, hi)
    decreases hi - lo
  {
    if lo < hi {
      KeysBetweenComplete(counts, lo + 1, hi);
    }
  }

  /** The order in which Object.keys lists a record whose keys are array indices no
      larger than `bound`: ascending numeric order, each listed entry a key. */
  function ObjectKeys(counts: map<int, int>, bound: int): (r: seq<int>)
    requires forall k :: k in counts ==> 0 <= k <= bound
    ensures forall i :: 0 <= i < |r| ==> r[i] in counts
    ensures forall i, j :: 0 <= i < j < |r| ==> r[i] < r[j]
  {
    KeysBetween(counts, 0, bound + 1)
  }

  /** Object.keys lists every key of the record. */
  lemma ObjectKeysComplete(counts: map<int, int>, bound: int)
    requires forall k :: k in counts ==> 0 <= k <= bound
    ensures forall k :: k in counts ==> k in ObjectKeys(counts, bound)
  {
    KeysBetweenComplete(counts, 0, bound + 1);
  }

  /** The faces 1..sides in ascending order. */
  function Faces(sides: nat): seq<int>
  {
    seq(sides, i => i + 1)
  }

  /** On a table keyed by exactly the faces 1..hi-1, the keys from lo upwards are lo, lo + 1, ..., hi - 1. */
  lemma {:induction false} FaceKeysFrom(counts: map<int, int>, lo: int, hi: int)
    requires forall k :: k in counts <==> 1 <= k < hi
    requires 1 <= lo <= hi
    ensures |KeysBetween(counts, lo, hi)| == hi - lo
    ensures forall i :: 0 <= i < hi - lo ==> KeysBetween(counts, lo, hi)[i] == lo + i
    decreases hi - lo
  {
    if lo < hi {
      assert lo in counts;
      FaceKeysFrom(counts, lo + 1, hi);
      var rest := KeysBetween(counts, lo + 1, hi);
      assert KeysBetween(counts, lo, hi) == [lo] + rest;
    }
  }

  /** Object.keys lists the tally table's keys as exactly 1, 2, ..., n: one entry per
      face, ascending, no duplicates and no gaps. */
  lemma {:induction false} AscendingFaceKeys(counts: map<int, int>, n: nat)
    requires forall k :: k in counts <==> 1 <= k <= n
    ensures ObjectKeys(counts, n) == Faces(n)
  {
    assert 0 !in counts;
    assert KeysBetween(counts, 0, n + 1) == KeysBetween(counts, 1, n + 1);
    FaceKeysFrom(counts, 1, n + 1);
  }

  /** A position at which `x` occurs in `s`. */
  lemma {:induction false} IndexOf(s: seq<int>, x: int) returns (i: nat)
    requires x in s
    ensures i < |s| && s[i] == x
  {
    if s[0] == x {
      i := 0;
    } else {
      assert x in s[1..];
      var j := IndexOf(s[1..], x);
      i := j + 1;
    }
  }

  /** One record of the result list: the face, its count, and count / numRolls. */
  function Record(counts: map<int, int>, face: int, numRolls: int): SimulationResult
    requires face in counts && numRolls >= 1
  {
    SimulationResult(face, counts[face], counts[face] as real / numRolls as real)
  }

  /** The `map` callback applied to a list of keys: one record per key, in list order. */
  function RecordsFor(counts: map<int, int>, keys: seq<int>, numRolls: int): (r: seq<SimulationResult>)
    requires forall i :: 0 <= i < |keys| ==> keys[i] in counts
    requires numRolls >= 1
    ensures |r| == |keys|
    ensures forall i :: 0 <= i < |r| ==> r[i] == Record(counts, keys[i], numRolls)
  {
    if keys == [] then [] else [Record(counts, keys[0], numRolls)] + RecordsFor(counts, keys[1..], numRolls)
  }

  /** The result builder: one record per key of the table, in the order Object.keys
      lists them. The table's keys are faces, so none exceeds `sides`. */
  function FormatResults(counts: map<int, int>, sides: int, numRolls: int): seq<SimulationResult>
    requires forall k :: k in counts ==> 0 <= k <= sides
    requires numRolls >= 1
  {
    RecordsFor(counts, ObjectKeys(counts, sides), numRolls)
  }

  /** The result list has one record per key of the table, faces ascending, each with
      the table's count for its face and frequency count / numRolls. */
  lemma FormatResultsSpec(counts: map<int, int>, sides: int, numRolls: int)
    requires forall k :: k in counts ==> 0 <= k <= sides
    requires numRolls >= 1
    ensures var r := FormatResults(counts, sides, numRolls);
      && (forall f :: f in counts <==> exists i :: 0 <= i < |r| && r[i].face == f)
      && (forall i, j :: 0 <= i < j < |r| ==> r[i].face < r[j].face)
      && (forall i :: 0 <= i < |r| ==>
            r[i].face in counts && r[i].count == counts[r[i].face]
            && r[i].frequency == r[i].count as real / numRolls as real)
  {
    var keys := ObjectKeys(counts, sides);
    var r := FormatResults(counts, sides, numRolls);
    assert r == RecordsFor(counts, keys, numRolls);
    ObjectKeysComplete(counts, sides);
    forall f | f in counts ensures exists i :: 0 <= i < |r| && r[i].face == f {
      var i := IndexOf(keys, f);
      assert r[i].face == f;
    }
  }

  /** The summary one run stores: the roll count, the formatted table after all draws,
      and the time stamp. */
  function Summarize(sides: int, draws: seq<int>, timestamp: int): SimulationSummary
    requires |draws| >= 1
  {
    SimulationSummary(|draws|, FormatResults(Tally(sides, draws), sides, |draws|), timestamp)
  }

  /** The counts of records whose faces are 1..n, in order, add up to the table's total. */
  lemma {:induction false} SumCountsIsTotal(rs: seq<SimulationResult>, counts: map<int, int>)
    requires forall f :: 1 <= f <= |rs| ==> f in counts
    requires forall i :: 0 <= i < |rs| ==> rs[i].count == counts[i + 1]
    ensures SumCounts(rs) == Total(counts, |rs|)
  {
    if rs != [] {
      var init := rs[..|rs| - 1];
      assert forall i :: 0 <= i < |init| ==> init[i] == rs[i];
      SumCountsIsTotal(init, counts);
    }
  }

  /** The tally table holds, for each face of the die, the number of draws that hit it. */
  lemma TallyAt(sides: int, draws: seq<int>, face: int)
    requires 1 <= face <= sides
    ensures face in Tally(sides, draws) && Tally(sides, draws)[face] == Occurrences(draws, face)
  {
  }

  /** The records built from the tally table: the i-th is the record of face i + 1. */
  lemma {:induction false} TallyRecords(sides: int, draws: seq<int>)
    requires |draws| >= 1 && InRange(draws, sides)
    ensures sides >= 1
    ensures |FormatResults(Tally(sides, draws), sides, |draws|)| == sides
    ensures forall i :: 0 <= i < sides ==>
              FormatResults(Tally(sides, draws), sides, |draws|)[i] == Record(Tally(sides, draws), i + 1, |draws|)
  {
    assert 1 <= draws[0] <= sides;
    var n := |draws|;
    var counts := Tally(sides, draws);
    assert forall k :: k in counts <==> 1 <= k <= sides;
    AscendingFaceKeys(counts, sides);
    var keys := ObjectKeys(counts, sides);
    var r := RecordsFor(counts, keys, n);
    assert FormatResults(counts, sides, n) == r;
    forall i | 0 <= i < sides
      ensures r[i] == Record(counts, i + 1, n)
    {
      assert keys[i] == Faces(sides)[i] == i + 1;
    }
  }

  /** A summary whose i-th record is the record of face i + 1 of a table with entries in
      [0, totalRolls] that total totalRolls meets every promise of a summary. */
  lemma {:induction false} RecordsWellFormed(s: SimulationSummary, sides: int, counts: map<int, int>)
    requires s.totalRolls >= 1 && |s.results| == sides
    requires forall f :: 1 <= f <= sides ==> f in counts && 0 <= counts[f] <= s.totalRolls
    requires forall i :: 0 <= i < sides ==> s.results[i] == Record(counts, i + 1, s.totalRolls)
    requires Total(counts, sides) == s.totalRolls
    ensures WellFormedSummary(s, sides)
  {
    var n, rs := s.totalRolls, s.results;
    forall i | 0 <= i < |rs|
      ensures 0.0 <= rs[i].frequency <= 1.0
    {
      FrequencyBounds(rs[i].count, n);
    }
    SumCountsIsTotal(rs, counts);
    SumFrequenciesScaled(rs, n);
    ScaledToOne(SumFrequencies(rs), n as real);
  }

  /** x * n == n with n > 0 means x is 1. */
  lemma ScaledToOne(x: real, n: real)
    requires n > 0.0 && x * n == n
    ensures x == 1.0
  {
    assert (x - 1.0) * n == 0.0;
  }

  /** Every face's entry in the tally table lies within [0, number of draws]. */
  lemma TallyBounds(sides: int, draws: seq<int>)
    ensures forall f :: 1 <= f <= sides ==> f in Tally(sides, draws) && 0 <= Tally(sides, draws)[f] <= |draws|
  {
  }

  /** What one run produces, for any in-range draws: one record per face 1..sides in
      ascending order, counts within [0, numRolls] adding up to the number of rolls,
      frequencies count / numRolls within [0, 1] adding up to 1. */
  lemma {:induction false} SummarizeWellFormed(sides: int, draws: seq<int>, timestamp: int)
    requires |draws| >= 1 && InRange(draws, sides)
    ensures sides >= 1
    ensures Summarize(sides, draws, timestamp).totalRolls == |draws|
    ensures WellFormedSummary(Summarize(sides, draws, timestamp), sides)
  {
    var s := Summarize(sides, draws, timestamp);
    var counts := Tally(sides, draws);
    assert s.results == FormatResults(counts, sides, |draws|);
    TallyRecords(sides, draws);
    TallyTotal(sides, draws);
    TallyBounds(sides, draws);
    RecordsWellFormed(s, sides, counts);
  }

  /** Each record's count in the stored summary is the number of draws that hit its face. */
  lemma {:induction false} SummaryCounts(sides: int, draws: seq<int>, timestamp: int)
    requires |draws| >= 1 && InRange(draws, sides)
    ensures |Summarize(sides, draws, timestamp).results| == sides
    ensures forall i :: 0 <= i < sides ==>
              Summarize(sides, draws, timestamp).results[i].count == Occurrences(draws, i + 1)
  {
    var n := |draws|;
    var counts := Tally(sides, draws);
    var rs := Summarize(sides, draws, timestamp).results;
    assert rs == FormatResults(counts, sides, n);
    TallyRecords(sides, draws);
    forall i | 0 <= i < sides
      ensures rs[i].count == Occurrences(draws, i + 1)
    {
      assert rs[i] == Record(counts, i + 1, n);
      TallyAt(sides, draws, i + 1);
    }
  }

  /** count / n lies in [0, 1] whenever 0 <= count <= n and n >= 1. */
  lemma FrequencyBounds(count: int, n: int)
    requires 0 <= count <= n && n >= 1
    ensures 0.0 <= count as real / n as real <= 1.0
  {
  }

  /** The timer callback's body: initialise the table, run the draws, format the
      results and build the summary. The summary records the roll count used and the
      time stamp; its i-th record is face i + 1 with the number of draws that hit it;
      and it is well formed for the die. */
  method Simulate(sides: int, numRolls: int, draws: seq<int>, timestamp: int)
    returns (summary: SimulationSummary)
    requires numRolls >= 1 && |draws| == numRolls && InRange(draws, sides)
    ensures summary.totalRolls == numRolls && summary.timestamp == timestamp
    ensures WellFormedSummary(summary, sides)
    ensures forall i :: 0 <= i < |summary.results| ==> summary.results[i].count == Occurrences(draws, i + 1)
  {
    var counts := InitCounts(sides);
    counts := RollDice(counts, sides, numRolls, draws);
    var results := FormatResults(counts, sides, numRolls);
    summary := SimulationSummary(numRolls, results, timestamp);
    assert summary == Summarize(sides, draws, timestamp);
    SummarizeWellFormed(sides, draws, timestamp);
    SummaryCounts(sides, draws, timestamp);
  }
}
