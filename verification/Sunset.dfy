/** The trigger that retires the legacy checkpoint path (supervisor/eval/robustness.py): daily
    fallback rates and a streak loop on one side, coverage of the frozen surfaces on the other. */
module Sunset {

  /** One accepted checkpoint: the UTC day, whether it was structured (v2), and its surface. */
  datatype Observation = Observation(day: int, v2: bool, surface: string)

  function SurfaceOf(o: Observation): string {
    if o.surface == "" then "unknown" else o.surface
  }

  // ----- counting ------------------------------------------------------------------------

  type Test = Observation -> bool

  function Count(obs: seq<Observation>, p: Test): nat {
    if obs == [] then 0 else Count(obs[..|obs| - 1], p) + if p(obs[|obs| - 1]) then 1 else 0
  }

  function On(day: int): Test {
    (o: Observation) => o.day == day
  }

  function FallbackOn(day: int): Test {
    (o: Observation) => o.day == day && !o.v2
  }

  function IsV2(): Test {
    (o: Observation) => o.v2
  }

  function V2At(surface: string): Test {
    (o: Observation) => o.v2 && SurfaceOf(o) == surface
  }

  lemma CountNext(obs: seq<Observation>, o: Observation, p: Test)
    ensures Count(obs + [o], p) == Count(obs, p) + if p(o) then 1 else 0
  {
    assert (obs + [o])[..|obs|] == obs;
  }

  lemma {:induction false} CountOfJoin(a: seq<Observation>, b: seq<Observation>, p: Test)
    ensures Count(a + b, p) == Count(a, p) + Count(b, p)
  {
    if b == [] {
      assert a + b == a;
    } else {
      CountOfJoin(a, b[..|b| - 1], p);
      assert (a + b)[..|a + b| - 1] == a + b[..|b| - 1];
    }
  }

  lemma {:induction false} SomeCounted(obs: seq<Observation>, p: Test)
    ensures Count(obs, p) > 0 <==> exists o :: o in obs && p(o)
  {
    if obs != [] {
      var init, last := obs[..|obs| - 1], obs[|obs| - 1];
      SomeCounted(init, p);
      assert forall o :: o in obs <==> o in init || o == last;
    }
  }

  lemma TakeOut(obs: seq<Observation>, k: nat, p: Test)
    requires k < |obs|
    ensures var rest := obs[..k] + obs[k + 1..];
            && |rest| == |obs| - 1 && multiset(rest) == multiset(obs) - multiset{obs[k]}
            && Count(obs, p) == Count(rest, p) + if p(obs[k]) then 1 else 0
  {
    assert obs == obs[..k] + [obs[k]] + obs[k + 1..];
    CountNext(obs[..k], obs[k], p);
    CountOfJoin(obs[..k] + [obs[k]], obs[k + 1..], p);
    CountOfJoin(obs[..k], obs[k + 1..], p);
  }

  lemma {:induction false} CountOfPermutation(a: seq<Observation>, b: seq<Observation>, p: Test)
    requires multiset(a) == multiset(b)
    ensures Count(a, p) == Count(b, p)
    decreases |a|
  {
    if a == [] {
      assert |multiset(b)| == 0;
    } else {
      assert a[0] in multiset(b);
      var k :| 0 <= k < |b| && b[k] == a[0];
      TakeOut(a, 0, p);
      TakeOut(b, k, p);
      CountOfPermutation(a[..0] + a[1..], b[..k] + b[k + 1..], p);
    }
  }

  // ----- the condition -------------------------------------------------------------------

  /** A day counts if something was observed and few enough of it took the legacy path. */
  predicate GoodDay(obs: seq<Observation>, day: int, threshold: real) {
    var total := Count(obs, On(day));
    total > 0 && Count(obs, FallbackOn(day)) as real / total as real <= threshold
  }

  predicate InWindow(o: Observation, required: int, reference: int) {
    reference - required < o.day <= reference
  }

  predicate Covered(obs: seq<Observation>, surface: string, required: int, reference: int) {
    exists o :: o in obs && InWindow(o, required, reference) && o.v2 && SurfaceOf(o) == surface
  }

  ghost predicate Ready(obs: seq<Observation>, threshold: real, required: int, reference: int, frozen: set<string>) {
    && (forall day :: reference - required < day <= reference ==> GoodDay(obs, day, threshold))
    && (forall s :: s in frozen ==> Covered(obs, s, required, reference))
  }

  /** The order of the observations does not matter. */
  lemma OrderDoesNotMatter(a: seq<Observation>, b: seq<Observation>, threshold: real, required: int, reference: int,
                           frozen: set<string>)
    requires multiset(a) == multiset(b)
    ensures Ready(a, threshold, required, reference, frozen) <==> Ready(b, threshold, required, reference, frozen)
  {
    forall day: int
      ensures GoodDay(a, day, threshold) <==> GoodDay(b, day, threshold)
    {
      CountOfPermutation(a, b, On(day));
      CountOfPermutation(a, b, FallbackOn(day));
    }
    assert forall o :: o in a <==> o in multiset(a);
    assert forall o :: o in b <==> o in multiset(b);
    forall s: string
      ensures Covered(a, s, required, reference) <==> Covered(b, s, required, reference)
    {
    }
  }

  /** Neither do observations outside the window, older or dated in the future. */
  lemma OutsideDoesNotMatter(obs: seq<Observation>, extra: seq<Observation>, threshold: real, required: int,
                             reference: int, frozen: set<string>)
    requires forall o :: o in extra ==> !InWindow(o, required, reference)
    ensures Ready(obs + extra, threshold, required, reference, frozen) <==>
            Ready(obs, threshold, required, reference, frozen)
  {
    forall day | reference - required < day <= reference
      ensures GoodDay(obs + extra, day, threshold) <==> GoodDay(obs, day, threshold)
    {
      CountOfJoin(obs, extra, On(day));
      CountOfJoin(obs, extra, FallbackOn(day));
      SomeCounted(extra, On(day));
      SomeCounted(extra, FallbackOn(day));
    }
    forall s: string
      ensures Covered(obs + extra, s, required, reference) <==> Covered(obs, s, required, reference)
    {
    }
  }

  // ----- tallies -------------------------------------------------------------------------

  function Get<K(==)>(m: map<K, nat>, k: K): nat {
    if k in m then m[k] else 0
  }

  /** A counter per key, for the tests that belong to the keys. */
  ghost predicate Tallies<K(!new)>(m: map<K, nat>, seen: seq<Observation>, tests: K -> Test) {
    forall k :: Get(m, k) == Count(seen, tests(k))
  }

  lemma TallyHit<K(!new)>(m: map<K, nat>, seen: seq<Observation>, o: Observation, tests: K -> Test, key: K)
    requires Tallies(m, seen, tests) && forall k :: tests(k)(o) <==> k == key
    ensures Tallies(m[key := Get(m, key) + 1], seen + [o], tests)
  {
    forall k: K
      ensures Get(m[key := Get(m, key) + 1], k) == Count(seen + [o], tests(k))
    {
      CountNext(seen, o, tests(k));
      assert tests(k)(o) <==> k == key;
    }
  }

  lemma TallyMiss<K(!new)>(m: map<K, nat>, seen: seq<Observation>, o: Observation, tests: K -> Test)
    requires Tallies(m, seen, tests) && forall k :: !tests(k)(o)
    ensures Tallies(m, seen + [o], tests)
  {
    forall k: K
      ensures Get(m, k) == Count(seen + [o], tests(k))
    {
      CountNext(seen, o, tests(k));
      assert !tests(k)(o);
    }
  }

  // ----- the trend -----------------------------------------------------------------------

  datatype DailyFallbackRate = DailyFallbackRate(day: int, total: nat, v1Count: nat, fallbackRate: real)

  function Rate(part: nat, total: nat): real {
    if total > 0 then part as real / total as real else 0.0
  }

  function DayRate(obs: seq<Observation>, day: int): DailyFallbackRate {
    var total, v1 := Count(obs, On(day)), Count(obs, FallbackOn(day));
    DailyFallbackRate(day, total, v1, Rate(v1, total))
  }

  /** `compute_fallback_rate_trend`. */
  method ComputeFallbackRateTrend(obs: seq<Observation>, windowDays: int, reference: int)
    returns (trend: seq<DailyFallbackRate>)
    ensures |trend| == if windowDays > 0 then windowDays else 0
    ensures forall k :: 0 <= k < |trend| ==> trend[k] == DayRate(obs, reference - windowDays + 1 + k)
  {
    var totals: map<int, nat> := map[];
    var v1: map<int, nat> := map[];
    for i := 0 to |obs|
      invariant Tallies(totals, obs[..i], On) && Tallies(v1, obs[..i], FallbackOn)
    {
      assert obs[..i + 1] == obs[..i] + [obs[i]];
      var day := obs[i].day;
      TallyHit(totals, obs[..i], obs[i], On, day);
      totals := totals[day := Get(totals, day) + 1];
      if obs[i].v2 {
        TallyMiss(v1, obs[..i], obs[i], FallbackOn);
      } else {
        TallyHit(v1, obs[..i], obs[i], FallbackOn, day);
        v1 := v1[day := Get(v1, day) + 1];
      }
    }
    assert obs[..|obs|] == obs;
    trend := [];
    var offset := windowDays - 1;
    while offset >= 0
      invariant -1 <= offset || windowDays <= 0
      invariant |trend| == (if windowDays > 0 then windowDays - 1 - offset else 0)
      invariant forall k :: 0 <= k < |trend| ==> trend[k] == DayRate(obs, reference - windowDays + 1 + k)
    {
      var day := reference - offset;
      trend := trend + [DailyFallbackRate(day, Get(totals, day), Get(v1, day), Rate(Get(v1, day), Get(totals, day)))];
      offset := offset - 1;
    }
  }

  // ----- the report ----------------------------------------------------------------------

  datatype SurfaceSummary = SurfaceSummary(total: nat, v2Count: nat, v1Count: nat)

  datatype RobustnessReport = RobustnessReport(
    total: nat,
    v2Count: nat,
    v1Count: nat,
    fallbackRate: real,
    structuredRate: real,
    perSurface: map<string, SurfaceSummary>,
    covered: set<string>,
    missing: set<string>)

  lemma RatesAddUp(v1: nat, v2: nat)
    requires v1 + v2 > 0
    ensures Rate(v1, v1 + v2) + Rate(v2, v1 + v2) == 1.0
  {
    var total := (v1 + v2) as real;
    assert v1 as real / total + v2 as real / total == (v1 as real + v2 as real) / total;
  }

  function At(surface: string): Test {
    (o: Observation) => SurfaceOf(o) == surface
  }

  function V1At(surface: string): Test {
    (o: Observation) => !o.v2 && SurfaceOf(o) == surface
  }

  /** `compute_robustness_report`. */
  method ComputeRobustnessReport(obs: seq<Observation>, frozen: set<string>) returns (report: RobustnessReport)
    ensures report.total == |obs| == report.v2Count + report.v1Count && report.v2Count == Count(obs, IsV2())
    ensures obs != [] ==> report.fallbackRate + report.structuredRate == 1.0
    ensures forall s :: s in report.perSurface <==> Count(obs, At(s)) > 0
    ensures forall s :: s in report.perSurface ==>
              var p := report.perSurface[s];
              p.total == Count(obs, At(s)) && p.v2Count == Count(obs, V2At(s)) && p.v1Count == Count(obs, V1At(s))
    ensures report.covered !! report.missing && report.covered + report.missing == frozen
    ensures forall s :: s in frozen ==> (s in report.covered <==> Count(obs, V2At(s)) > 0)
  {
    var totals: map<string, nat> := map[];
    var v2Totals: map<string, nat> := map[];
    var v1Totals: map<string, nat> := map[];
    var total, v2Count, v1Count := 0, 0, 0;
    for i := 0 to |obs|
      invariant total == i == v2Count + v1Count && v2Count == Count(obs[..i], IsV2())
      invariant Tallies(totals, obs[..i], At) && forall s :: s in totals ==> totals[s] > 0
      invariant Tallies(v2Totals, obs[..i], V2At) && Tallies(v1Totals, obs[..i], V1At)
    {
      ghost var seen := obs[..i];
      var o := obs[i];
      assert obs[..i + 1] == seen + [o];
      CountNext(seen, o, IsV2());
      var s := SurfaceOf(o);
      TallyHit(totals, seen, o, At, s);
      totals := totals[s := Get(totals, s) + 1];
      total := total + 1;
      if o.v2 {
        TallyHit(v2Totals, seen, o, V2At, s);
        TallyMiss(v1Totals, seen, o, V1At);
        v2Totals := v2Totals[s := Get(v2Totals, s) + 1];
        v2Count := v2Count + 1;
      } else {
        TallyMiss(v2Totals, seen, o, V2At);
        TallyHit(v1Totals, seen, o, V1At, s);
        v1Totals := v1Totals[s := Get(v1Totals, s) + 1];
        v1Count := v1Count + 1;
      }
    }
    assert obs[..|obs|] == obs;
    var perSurface := map s | s in totals :: SurfaceSummary(totals[s], Get(v2Totals, s), Get(v1Totals, s));
    var covered := set s | s in v2Totals && v2Totals[s] > 0;
    if obs != [] {
      RatesAddUp(v1Count, v2Count);
    }
    report := RobustnessReport(total, v2Count, v1Count, Rate(v1Count, total), Rate(v2Count, total),
                               perSurface, frozen * covered, frozen - covered);
  }

  // ----- the trigger ---------------------------------------------------------------------

  datatype SunsetTriggerStatus = SunsetTriggerStatus(
    fallbackBelowThreshold: bool,
    consecutiveDaysBelow: nat,
    frozenSurfacesCovered: bool,
    frozenSurfacesMissing: set<string>)
  {
    predicate ReadyToSunset() {
      fallbackBelowThreshold && frozenSurfacesCovered
    }
  }

  /** The observations inside the window. */
  function Windowed(obs: seq<Observation>, required: int, reference: int): seq<Observation> {
    if obs == [] then []
    else
      var init := Windowed(obs[..|obs| - 1], required, reference);
      if InWindow(obs[|obs| - 1], required, reference) then init + [obs[|obs| - 1]] else init
  }

  lemma {:induction false} CountOfWindowed(obs: seq<Observation>, required: int, reference: int, p: Test)
    requires forall o :: p(o) ==> InWindow(o, required, reference)
    ensures Count(Windowed(obs, required, reference), p) == Count(obs, p)
  {
    if obs != [] {
      var init, last := obs[..|obs| - 1], obs[|obs| - 1];
      CountOfWindowed(init, required, reference, p);
      CountNext(Windowed(init, required, reference), last, p);
    }
  }

  lemma {:induction false} InWindowed(obs: seq<Observation>, required: int, reference: int)
    ensures forall o :: o in Windowed(obs, required, reference) <==> o in obs && InWindow(o, required, reference)
  {
    if obs != [] {
      var init, last := obs[..|obs| - 1], obs[|obs| - 1];
      InWindowed(init, required, reference);
      assert forall o :: o in obs <==> o in init || o == last;
    }
  }

  lemma WindowedDays(obs: seq<Observation>, required: int, reference: int)
    ensures forall day :: reference - required < day <= reference ==>
              DayRate(Windowed(obs, required, reference), day) == DayRate(obs, day)
  {
    forall day | reference - required < day <= reference
      ensures DayRate(Windowed(obs, required, reference), day) == DayRate(obs, day)
    {
      CountOfWindowed(obs, required, reference, On(day));
      CountOfWindowed(obs, required, reference, FallbackOn(day));
    }
  }

  lemma WindowedCoverage(obs: seq<Observation>, required: int, reference: int, surface: string)
    ensures Count(Windowed(obs, required, reference), V2At(surface)) > 0 <==> Covered(obs, surface, required, reference)
  {
    SomeCounted(Windowed(obs, required, reference), V2At(surface));
    InWindowed(obs, required, reference);
  }

  method SelectWindow(obs: seq<Observation>, required: int, reference: int) returns (windowed: seq<Observation>)
    ensures windowed == Windowed(obs, required, reference)
  {
    windowed := [];
    for i := 0 to |obs|
      invariant windowed == Windowed(obs[..i], required, reference)
    {
      assert obs[..i + 1][..i] == obs[..i];
      if reference - (required - 1) <= obs[i].day <= reference {
        windowed := windowed + [obs[i]];
      }
    }
    assert obs[..|obs|] == obs;
  }

  predicate Below(daily: DailyFallbackRate, threshold: real) {
    daily.total > 0 && daily.fallbackRate <= threshold
  }

  /** The streak loop: the longest run of days below the threshold at the end of the trend. */
  method Streak(trend: seq<DailyFallbackRate>, threshold: real) returns (consecutive: nat)
    ensures consecutive <= |trend|
    ensures forall j :: |trend| - consecutive <= j < |trend| ==> Below(trend[j], threshold)
    ensures consecutive < |trend| ==> !Below(trend[|trend| - 1 - consecutive], threshold)
  {
    consecutive := 0;
    for k := 0 to |trend|
      invariant consecutive <= k
      invariant forall j :: k - consecutive <= j < k ==> Below(trend[j], threshold)
      invariant consecutive < k ==> !Below(trend[k - 1 - consecutive], threshold)
    {
      if trend[k].total > 0 && trend[k].fallbackRate <= threshold {
        consecutive := consecutive + 1;
      } else {
        consecutive := 0;
      }
    }
  }

  /** `evaluate_sunset_trigger`: ready exactly when the condition holds; the streak it reports is
      the longest run of good days that ends at the reference day. */
  method EvaluateSunsetTrigger(obs: seq<Observation>, threshold: real, required: int, reference: int,
                               frozen: set<string>)
    returns (status: SunsetTriggerStatus)
    ensures status.ReadyToSunset() <==> Ready(obs, threshold, required, reference, frozen)
    ensures forall day :: reference - status.consecutiveDaysBelow < day <= reference ==> GoodDay(obs, day, threshold)
    ensures status.consecutiveDaysBelow < required ==>
              !GoodDay(obs, reference - status.consecutiveDaysBelow, threshold)
    ensures forall s :: s in status.frozenSurfacesMissing <==> s in frozen && !Covered(obs, s, required, reference)
  {
    var windowed := SelectWindow(obs, required, reference);
    var trend := ComputeFallbackRateTrend(windowed, required, reference);
    var consecutive := Streak(trend, threshold);
    var report := ComputeRobustnessReport(windowed, frozen);
    WindowedDays(obs, required, reference);
    forall day | reference - required < day <= reference
      ensures Below(trend[day - (reference - required + 1)], threshold) <==> GoodDay(obs, day, threshold)
    {
    }
    forall s: string
      ensures s in report.missing <==> s in frozen && !Covered(obs, s, required, reference)
    {
      WindowedCoverage(obs, required, reference, s);
    }
    status := SunsetTriggerStatus(consecutive >= required, consecutive, report.missing == {}, report.missing);
    assert forall day :: reference - consecutive < day <= reference ==> GoodDay(obs, day, threshold);
    assert consecutive < required ==> !GoodDay(obs, reference - consecutive, threshold);
    assert report.missing == {} <==> forall s :: s in frozen ==> Covered(obs, s, required, reference);
  }
}
