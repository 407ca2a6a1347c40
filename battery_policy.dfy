/**
 The battery-state policy of the Waveshare ESP32-C6 1.54" e-paper board, stated on values.

 Voltages are exact reals (volts). The level estimator remembers the last accepted voltage
 and the level it mapped to; a reading is accepted only when it is non-zero and at least
 DebounceThreshold away from the remembered voltage. The direction estimator compares two
 samples of one cycle and flips its flag only on a change larger than DirectionThreshold.
 The class in module Power is proved against the functions given here.
 */
module BatteryPolicy {

  /** Smallest change from the remembered voltage that makes a reading accepted (volts). */
  const DebounceThreshold: real := 0.1

  /** A direction cycle only counts when its two samples differ by more than this (volts). */
  const DirectionThreshold: real := 0.05

  /** Upper edges of the first five level buckets, ascending (volts). */
  const Edges: seq<real> := [3.52, 3.64, 3.76, 3.88, 4.0]

  /** The six reported levels; a voltage that has passed k edges reports Levels[k]. */
  const Levels: seq<int> := [1, 20, 40, 60, 80, 100]

  /** `fabs` on exact reals. */
  function Abs(x: real): real
  {
    if x < 0.0 then -x else x
  }

  /** One of the six discrete battery levels. */
  predicate IsLevel(l: int)
  {
    l == 1 || l == 20 || l == 40 || l == 60 || l == 80 || l == 100
  }

  // ---------------------------------------------------------------------------
  // Voltage to level, first match wins

  function Bucket(v: real): (level: int)
    ensures IsLevel(level)
  {
    if v < 3.52 then 1
    else if v < 3.64 then 20
    else if v < 3.76 then 40
    else if v < 3.88 then 60
    else if v < 4.0 then 80
    else 100
  }

  /** How many of the edges the voltage has reached. */
  function EdgesPassed(edges: seq<real>, v: real): (n: nat)
    ensures n <= |edges|
    ensures n == 0 <==> forall i :: 0 <= i < |edges| ==> v < edges[i]
  {
    if edges == [] then 0
    else (if edges[0] <= v then 1 else 0) + EdgesPassed(edges[1..], v)
  }

  /** The first-match chain agrees with the table reading: Levels indexed by the edges passed. */
  lemma BucketByTable(v: real)
    ensures Bucket(v) == Levels[EdgesPassed(Edges, v)]
  {
    var e4 := [4.0];
    var e3 := [3.88] + e4;
    var e2 := [3.76] + e3;
    var e1 := [3.64] + e2;
    assert Edges == [3.52] + e1;
    assert e4[1..] == [];
    assert EdgesPassed(e4, v) == if 4.0 <= v then 1 else 0;
    assert e3[1..] == e4;
    assert EdgesPassed(e3, v) == (if 3.88 <= v then 1 else 0) + EdgesPassed(e4, v);
    assert e2[1..] == e3;
    assert EdgesPassed(e2, v) == (if 3.76 <= v then 1 else 0) + EdgesPassed(e3, v);
    assert e1[1..] == e2;
    assert EdgesPassed(e1, v) == (if 3.64 <= v then 1 else 0) + EdgesPassed(e2, v);
    assert Edges[1..] == e1;
    assert EdgesPassed(Edges, v) == (if 3.52 <= v then 1 else 0) + EdgesPassed(e1, v);
  }

  lemma BucketMonotone(v: real, w: real)
    requires v <= w
    ensures Bucket(v) <= Bucket(w)
  {
  }

  // ---------------------------------------------------------------------------
  // Debounced level estimation

  /** The two persistent values of the level estimator. */
  datatype LevelMemory = LevelMemory(voltage: real, level: int)

  /** Before any reading has been accepted: voltage 0.0 and level 0. */
  const Initial: LevelMemory := LevelMemory(0.0, 0)

  /** Zero is "no reading"; a non-zero reading is accepted when it moved at least the threshold. */
  predicate Accepts(m: LevelMemory, v: real)
  {
    v != 0.0 && Abs(v - m.voltage) >= DebounceThreshold
  }

  /** The remembered values after one call with reading v. */
  function NextMemory(m: LevelMemory, v: real): LevelMemory
  {
    if Accepts(m, v) then LevelMemory(v, Bucket(v)) else m
  }

  /** The value one call with reading v returns. */
  function Reported(m: LevelMemory, v: real): int
  {
    if v == 0.0 then 100 else NextMemory(m, v).level
  }

  /** What holds of the memory at every point: level 0 exactly while the voltage is still 0.0. */
  predicate Consistent(m: LevelMemory)
  {
    (m.level == 0 || IsLevel(m.level)) && (m.level == 0 <==> m.voltage == 0.0)
  }

  lemma InitialConsistent()
    ensures Consistent(Initial)
  {
  }

  lemma ZeroReadingIgnored(m: LevelMemory)
    ensures NextMemory(m, 0.0) == m
    ensures Reported(m, 0.0) == 100
  {
  }

  lemma SmallChangeIgnored(m: LevelMemory, v: real)
    requires v != 0.0 && Abs(v - m.voltage) < DebounceThreshold
    ensures NextMemory(m, v) == m
    ensures Reported(m, v) == m.level
  {
  }

  lemma LargeChangeAccepted(m: LevelMemory, v: real)
    requires v != 0.0 && Abs(v - m.voltage) >= DebounceThreshold
    ensures NextMemory(m, v) == LevelMemory(v, Bucket(v))
    ensures Reported(m, v) == Bucket(v)
  {
  }

  lemma ConsistentPreserved(m: LevelMemory, v: real)
    requires Consistent(m)
    ensures Consistent(NextMemory(m, v))
  {
  }

  /** Every reported value is a level or 0, and 0 only while nothing has been accepted. */
  lemma ReportedRange(m: LevelMemory, v: real)
    requires Consistent(m)
    ensures Reported(m, v) == 0 || IsLevel(Reported(m, v))
    ensures Reported(m, v) == 0 ==> m == Initial && NextMemory(m, v) == Initial
  {
  }

  /** When one call returns 100: on a zero reading, on an accepted reading of at least 4.0 V,
      or when the reading is ignored and the remembered level is already 100. */
  lemma ReportedFull(m: LevelMemory, v: real)
    ensures Reported(m, v) == 100 <==>
      v == 0.0
      || (Accepts(m, v) && v >= 4.0)
      || (!Accepts(m, v) && m.level == 100)
  {
  }

  /** A fresh estimator maps one reading from each bucket to that bucket. */
  lemma FreshReadings()
    ensures Reported(Initial, 3.50) == 1 && Reported(Initial, 3.60) == 20
    ensures Reported(Initial, 3.70) == 40 && Reported(Initial, 3.80) == 60
    ensures Reported(Initial, 3.90) == 80 && Reported(Initial, 4.10) == 100
    ensures Reported(Initial, 0.05) == 0
  {
  }

  // ---------------------------------------------------------------------------
  // Sequences of calls

  /** The memory after the readings vs, in order. */
  function Run(m: LevelMemory, vs: seq<real>): LevelMemory
  {
    if vs == [] then m else NextMemory(Run(m, vs[..|vs| - 1]), vs[|vs| - 1])
  }

  /** The values returned by the calls with readings vs, in order. */
  function Reports(m: LevelMemory, vs: seq<real>): (rs: seq<int>)
    ensures |rs| == |vs|
  {
    if vs == [] then []
    else Reports(m, vs[..|vs| - 1]) + [Reported(Run(m, vs[..|vs| - 1]), vs[|vs| - 1])]
  }

  /** The i-th call sees the memory left by the first i readings. */
  lemma {:induction false} ReportsAt(m: LevelMemory, vs: seq<real>, i: nat)
    requires i < |vs|
    ensures Reports(m, vs)[i] == Reported(Run(m, vs[..i]), vs[i])
  {
    var n := |vs| - 1;
    if i < n {
      ReportsAt(m, vs[..n], i);
      assert vs[..n][..i] == vs[..i];
    } else {
      assert vs[..n] == vs[..i];
    }
  }

  lemma {:induction false} RunConsistent(m: LevelMemory, vs: seq<real>)
    requires Consistent(m)
    ensures Consistent(Run(m, vs))
  {
    if vs != [] {
      RunConsistent(m, vs[..|vs| - 1]);
      ConsistentPreserved(Run(m, vs[..|vs| - 1]), vs[|vs| - 1]);
    }
  }

  /** Once a reading has been accepted, the remembered level is never 0 again. */
  lemma {:induction false} AcceptanceSticks(vs: seq<real>, j: nat, k: nat)
    requires j < k <= |vs|
    requires Accepts(Run(Initial, vs[..j]), vs[j])
    ensures Run(Initial, vs[..k]).level != 0
    decreases k
  {
    assert vs[..k][..k - 1] == vs[..k - 1];
    if k == j + 1 {
      assert vs[..k][k - 1] == vs[j];
    } else {
      AcceptanceSticks(vs, j, k - 1);
    }
  }

  /** From a fresh estimator, every returned value is 0 or a level, and a 0 means that the
      remembered pair after that call is still the initial one. */
  lemma ZeroOnlyBeforeAcceptance(vs: seq<real>, i: nat)
    requires i < |vs|
    ensures Reports(Initial, vs)[i] == 0 || IsLevel(Reports(Initial, vs)[i])
    ensures Reports(Initial, vs)[i] == 0 ==> Run(Initial, vs[..i + 1]) == Initial
  {
    ReportsAt(Initial, vs, i);
    RunConsistent(Initial, vs[..i]);
    ReportedRange(Run(Initial, vs[..i]), vs[i]);
    assert vs[..i + 1][..i] == vs[..i];
  }

  /** From a fresh estimator, a returned 0 means that no reading up to and including that
      call has been accepted. */
  lemma ZeroMeansNothingAccepted(vs: seq<real>, i: nat)
    requires i < |vs| && Reports(Initial, vs)[i] == 0
    ensures forall j :: 0 <= j <= i ==> !Accepts(Run(Initial, vs[..j]), vs[j])
  {
    forall j | 0 <= j <= i && Accepts(Run(Initial, vs[..j]), vs[j])
      ensures Run(Initial, vs[..i + 1]).level != 0
    {
      AcceptanceSticks(vs, j, i + 1);
    }
    ZeroOnlyBeforeAcceptance(vs, i);
  }

  /** Readings that all stay within the threshold of the remembered voltage change nothing,
      and every call returns the remembered level. */
  lemma {:induction false} DebouncedRun(m: LevelMemory, vs: seq<real>)
    requires forall i :: 0 <= i < |vs| ==> vs[i] != 0.0 && Abs(vs[i] - m.voltage) < DebounceThreshold
    ensures Run(m, vs) == m
    ensures forall i :: 0 <= i < |vs| ==> Reports(m, vs)[i] == m.level
  {
    if vs != [] {
      var n := |vs| - 1;
      DebouncedRun(m, vs[..n]);
      assert Reports(m, vs) == Reports(m, vs[..n]) + [Reported(m, vs[n])];
      SmallChangeIgnored(m, vs[n]);
    }
  }

  /** Readings that each move less than the threshold from the previous one can still drift
      past the remembered voltage: the level then changes. */
  lemma DriftEscapesDebounce()
    ensures Abs(3.55 - 3.5) < DebounceThreshold && Abs(3.62 - 3.55) < DebounceThreshold
    ensures Reports(LevelMemory(3.5, 1), [3.55, 3.62]) == [1, 20]
  {
  }

  // ---------------------------------------------------------------------------
  // Charge direction

  /** The two samples of one cycle differ by more than the noise threshold. */
  predicate Significant(first: real, second: real)
  {
    Abs(second - first) > DirectionThreshold
  }

  /** The charging flag after one cycle with samples first, then second. */
  function DirectionNext(charging: bool, first: real, second: real): bool
  {
    if Significant(first, second) then first <= second else charging
  }

  lemma DirectionCases(charging: bool, first: real, second: real)
    ensures Significant(first, second) ==> DirectionNext(charging, first, second) == (first < second)
    ensures !Significant(first, second) ==> DirectionNext(charging, first, second) == charging
  {
  }

  /** A drop of 0.1 V reads as discharging, a rise of 0.1 V as charging, and a change of
      0.02 V leaves the flag alone. */
  lemma DirectionSamples(charging: bool)
    ensures DirectionNext(charging, 3.60, 3.50) == false
    ensures DirectionNext(charging, 3.60, 3.70) == true
    ensures DirectionNext(charging, 3.60, 3.62) == charging
  {
  }

  /** The two samples of one background cycle, taken 30 s apart. */
  datatype Cycle = Cycle(first: real, second: real)

  /** The charging flag after the cycles cs, in order. */
  function Directions(charging: bool, cs: seq<Cycle>): bool
  {
    if cs == [] then charging
    else DirectionNext(Directions(charging, cs[..|cs| - 1]), cs[|cs| - 1].first, cs[|cs| - 1].second)
  }

  /** With no significant cycle the flag keeps its starting value. */
  lemma {:induction false} QuietCyclesKeepDirection(charging: bool, cs: seq<Cycle>)
    requires forall i :: 0 <= i < |cs| ==> !Significant(cs[i].first, cs[i].second)
    ensures Directions(charging, cs) == charging
  {
    if cs != [] {
      var n := |cs| - 1;
      assert forall i :: 0 <= i < n ==> cs[..n][i] == cs[i];
      QuietCyclesKeepDirection(charging, cs[..n]);
    }
  }

  /** The flag is decided by the last significant cycle alone: it says whether that cycle's
      voltage rose. */
  lemma {:induction false} LastSignificantDecides(charging: bool, cs: seq<Cycle>, j: nat)
    requires j < |cs| && Significant(cs[j].first, cs[j].second)
    requires forall k :: j < k < |cs| ==> !Significant(cs[k].first, cs[k].second)
    ensures Directions(charging, cs) == (cs[j].first < cs[j].second)
  {
    var n := |cs| - 1;
    if j < n {
      assert forall k :: 0 <= k < n ==> cs[..n][k] == cs[k];
      LastSignificantDecides(charging, cs[..n], j);
    }
  }
}
