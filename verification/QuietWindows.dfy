/** Quiet windows of runtime recovery: when a retry may next be injected
    (supervisor/runtime_recovery.py). Instants are microseconds; a window is a span of local time
    of day, in a zone of fixed offset, possibly wrapping around midnight. */
module QuietWindows {
  import opened Options

  const DAY: int := 86_400_000_000

  /** `start == end` spans the whole day. */
  datatype Window = Window(offset: int, start: int, end: int) {
    predicate Valid() {
      0 <= start < DAY && 0 <= end < DAY
    }
  }

  function TimeOfDay(t: int, w: Window): int {
    (t + w.offset) % DAY
  }

  /** `_time_in_window`. */
  predicate InWindow(t: int, w: Window) {
    var tod := TimeOfDay(t, w);
    if w.start < w.end then w.start <= tod < w.end else tod >= w.start || tod < w.end
  }

  /** `_window_end`: the local day's `end`, pushed to the next day where it lies behind. */
  function WindowEnd(t: int, w: Window): int {
    var local := t + w.offset;
    var tod := TimeOfDay(t, w);
    var today := local - tod + w.end;
    var wrapped := if w.start >= w.end && tod >= w.start then today + DAY else today;
    (if wrapped <= local then wrapped + DAY else wrapped) - w.offset
  }

  /** The configured windows; an entry that does not parse is `None` and never applies. */
  type Windows = seq<Option<Window>>

  ghost predicate AllValid(ws: Windows) {
    forall i :: 0 <= i < |ws| && ws[i].Some? ==> ws[i].value.Valid()
  }

  predicate Applies(ws: Windows, i: nat, t: int)
    requires i < |ws|
  {
    ws[i].Some? && InWindow(t, ws[i].value)
  }

  predicate Quiet(ws: Windows, t: int) {
    exists i :: 0 <= i < |ws| && Applies(ws, i, t)
  }

  // ----- one window ----------------------------------------------------------------------

  lemma TimeOfDayShifts(t: int, d: int, w: Window)
    requires 0 <= d <= DAY
    ensures TimeOfDay(t + d, w) == (var s := TimeOfDay(t, w) + d; if s < DAY then s else s - DAY)
  {
  }

  /** How long a window stays away after its end. */
  function Gap(w: Window): int {
    (w.start - w.end) % DAY
  }

  /** From the end of a window on, the first `Gap` instants are outside it and the rest of the
      day is inside. */
  lemma OutsideExactlyInTheGap(e: int, d: int, w: Window)
    requires w.Valid() && TimeOfDay(e, w) == w.end && 0 <= d < DAY
    ensures InWindow(e + d, w) <==> d >= Gap(w)
  {
    TimeOfDayShifts(e, d, w);
  }

  /** The computed end is the next instant at which the local time is `end`. */
  lemma WindowEndIsNextEnd(t: int, w: Window)
    requires w.Valid() && InWindow(t, w)
    ensures TimeOfDay(WindowEnd(t, w), w) == w.end && t < WindowEnd(t, w) <= t + DAY
  {
  }

  lemma StaysInsideUntilEnd(t: int, w: Window, x: int)
    requires w.Valid() && InWindow(t, w) && t <= x < WindowEnd(t, w)
    ensures InWindow(x, w)
  {
    WindowEndIsNextEnd(t, w);
    var e := WindowEnd(t, w) - DAY;
    assert TimeOfDay(e, w) == w.end;
    if e <= t {
      OutsideExactlyInTheGap(e, t - e, w);
      OutsideExactlyInTheGap(e, x - e, w);
    }
  }

  /** A window that was left is not entered again before an outside instant of the same day. */
  lemma NoReentry(t: int, w: Window, u: int, x: int)
    requires w.Valid() && InWindow(t, w) && !InWindow(u, w)
    requires WindowEnd(t, w) <= x <= u < t + DAY
    ensures !InWindow(x, w)
  {
    WindowEndIsNextEnd(t, w);
    var e := WindowEnd(t, w);
    OutsideExactlyInTheGap(e, u - e, w);
    OutsideExactlyInTheGap(e, x - e, w);
  }

  // ----- the least allowed instant -------------------------------------------------------

  ghost predicate LeastAllowed(ws: Windows, candidate: int, r: int) {
    && candidate <= r && !Quiet(ws, r)
    && forall t :: candidate <= t < r ==> Quiet(ws, t)
  }

  lemma QuietIsDaily(ws: Windows, t: int, k: int)
    ensures Quiet(ws, t + k * DAY) == Quiet(ws, t)
  {
    forall i | 0 <= i < |ws|
      ensures Applies(ws, i, t + k * DAY) == Applies(ws, i, t)
    {
      if ws[i].Some? {
        assert TimeOfDay(t + k * DAY, ws[i].value) == TimeOfDay(t, ws[i].value);
      }
    }
    if Quiet(ws, t) {
      var i :| 0 <= i < |ws| && Applies(ws, i, t);
      assert Applies(ws, i, t + k * DAY);
    }
    if Quiet(ws, t + k * DAY) {
      var i :| 0 <= i < |ws| && Applies(ws, i, t + k * DAY);
      assert Applies(ws, i, t);
    }
  }

  lemma {:induction false} SearchUp(ws: Windows, candidate: int, u: int) returns (r: int)
    requires candidate <= u && !Quiet(ws, u)
    ensures LeastAllowed(ws, candidate, r) && r <= u
    decreases u - candidate
  {
    if !Quiet(ws, candidate) {
      r := candidate;
    } else {
      r := SearchUp(ws, candidate + 1, u);
    }
  }

  /** If any instant is allowed at all, one is less than a day away. */
  lemma AllowedWithinADay(ws: Windows, candidate: int, free: int) returns (r: int)
    requires !Quiet(ws, free)
    ensures LeastAllowed(ws, candidate, r) && r < candidate + DAY
  {
    var u := candidate + (free - candidate) % DAY;
    QuietIsDaily(ws, free, -((free - candidate) / DAY));
    r := SearchUp(ws, candidate, u);
  }

  // ----- the search ----------------------------------------------------------------------

  /** Windows in `used` cannot apply any more before the instant `u`. */
  ghost predicate Spent(ws: Windows, used: set<int>, result: int, u: int) {
    && (forall i :: i in used ==> 0 <= i < |ws|)
    && (forall i, t :: i in used && result <= t <= u ==> !Applies(ws, i, t))
  }

  lemma JumpKeepsBelow(ws: Windows, i: nat, result: int, u: int)
    requires AllValid(ws) && i < |ws| && Applies(ws, i, result) && result <= u && !Quiet(ws, u)
    ensures WindowEnd(result, ws[i].value) <= u
  {
    assert !Applies(ws, i, u);
    if u < WindowEnd(result, ws[i].value) {
      StaysInsideUntilEnd(result, ws[i].value, u);
    }
  }

  lemma JumpSpends(ws: Windows, used: set<int>, i: nat, result: int, u: int)
    requires AllValid(ws) && i < |ws| && Applies(ws, i, result) && result <= u < result + DAY && !Quiet(ws, u)
    requires Spent(ws, used, result, u)
    ensures i !in used && Spent(ws, used + {i}, WindowEnd(result, ws[i].value), u)
  {
    var w := ws[i].value;
    WindowEndIsNextEnd(result, w);
    assert !Applies(ws, i, u);
    forall t | WindowEnd(result, w) <= t <= u
      ensures !Applies(ws, i, t)
    {
      NoReentry(result, w, u, t);
    }
  }

  lemma JumpCoversQuiet(ws: Windows, i: nat, candidate: int, result: int)
    requires AllValid(ws) && i < |ws| && Applies(ws, i, result)
    requires forall t :: candidate <= t < result ==> Quiet(ws, t)
    ensures forall t :: candidate <= t < WindowEnd(result, ws[i].value) ==> Quiet(ws, t)
  {
    forall t | result <= t < WindowEnd(result, ws[i].value)
      ensures Quiet(ws, t)
    {
      StaysInsideUntilEnd(result, ws[i].value, t);
      assert Applies(ws, i, t);
    }
  }

  ghost function Indices(n: nat): (s: set<int>)
    ensures |s| == n && forall i :: i in s <==> 0 <= i < n
  {
    if n == 0 then {} else Indices(n - 1) + {n - 1}
  }

  lemma UsedIsBounded(used: set<int>, n: nat)
    requires forall i :: i in used ==> 0 <= i < n
    ensures |used| <= n
  {
    assert |Indices(n) - used| == |Indices(n)| - |Indices(n) * used|;
    assert Indices(n) * used == used;
  }

  /** What the search makes of the first `i` entries of the list in one round. */
  function Pass(ws: Windows, i: nat, t: int): int
    requires i <= |ws|
  {
    if i == 0 then t
    else
      var u := Pass(ws, i - 1, t);
      if Applies(ws, i - 1, u) then WindowEnd(u, ws[i - 1].value) else u
  }

  /** Where the search is after so many rounds. */
  function Rounds(ws: Windows, n: nat, t: int): int {
    if n == 0 then t else Pass(ws, |ws|, Rounds(ws, n - 1, t))
  }

  lemma {:induction false} RoundsStay(ws: Windows, n: nat, more: nat, t: int)
    requires n <= more && Pass(ws, |ws|, Rounds(ws, n, t)) == Rounds(ws, n, t)
    ensures Rounds(ws, more, t) == Rounds(ws, n, t)
  {
    if n < more {
      RoundsStay(ws, n, more - 1, t);
    }
  }

  /** `next_allowed_recovery_at`. Everything it skips is quiet. If any instant is allowed at all,
      its n + 1 rounds suffice for n windows: the result is the least allowed instant at or after
      the candidate, less than a day away. */
  method NextAllowedRecoveryAt(candidate: int, ws: Windows) returns (result: int)
    requires AllValid(ws)
    ensures candidate <= result == Rounds(ws, |ws| + 1, candidate)
    ensures forall t :: candidate <= t < result ==> Quiet(ws, t)
    ensures (exists free :: !Quiet(ws, free)) ==> LeastAllowed(ws, candidate, result) && result < candidate + DAY
  {
    result := candidate;
    ghost var open := exists free :: !Quiet(ws, free);
    ghost var u := candidate;
    if open {
      ghost var free :| !Quiet(ws, free);
      u := AllowedWithinADay(ws, candidate, free);
    }
    ghost var used: set<int> := {};
    for round := 0 to |ws| + 1
      invariant candidate <= result == Rounds(ws, round, candidate)
      invariant forall t :: candidate <= t < result ==> Quiet(ws, t)
      invariant open ==> result <= u && Spent(ws, used, result, u) && |used| >= round
    {
      var moved := false;
      ghost var start := result;
      for i := 0 to |ws|
        invariant candidate <= result && start <= result == Pass(ws, i, start)
        invariant forall t :: candidate <= t < result ==> Quiet(ws, t)
        invariant open ==> result <= u && Spent(ws, used, result, u) && |used| >= round + if moved then 1 else 0
        invariant !moved ==> result == start && forall j :: 0 <= j < i ==> !Applies(ws, j, start)
      {
        if ws[i].Some? && InWindow(result, ws[i].value) {
          JumpCoversQuiet(ws, i, candidate, result);
          WindowEndIsNextEnd(result, ws[i].value);
          if open {
            JumpKeepsBelow(ws, i, result, u);
            JumpSpends(ws, used, i, result, u);
            used := used + {i};
          }
          result := WindowEnd(result, ws[i].value);
          moved := true;
        }
      }
      if !moved {
        RoundsStay(ws, round, |ws| + 1, candidate);
        return;
      }
    }
    if open {
      UsedIsBounded(used, |ws|);
    }
  }

  // ----- what the least allowed instant is like ------------------------------------------

  /** There is a least allowed instant exactly when the windows leave something of the day. */
  lemma AllowedIffSomethingIsLeft(ws: Windows, candidate: int)
    ensures (exists r :: LeastAllowed(ws, candidate, r))
        <==> (exists free :: candidate <= free < candidate + DAY && !Quiet(ws, free))
  {
    if free :| !Quiet(ws, free) {
      var r := AllowedWithinADay(ws, candidate, free);
    }
  }

  /** Asking again changes nothing, later candidates get later answers, and the answer is
      unique. */
  lemma LeastAllowedIsMonotone(ws: Windows, c: int, r: int, c2: int, r2: int)
    requires LeastAllowed(ws, c, r) && LeastAllowed(ws, c2, r2)
    ensures LeastAllowed(ws, r, r)
    ensures c <= c2 ==> r <= r2
    ensures c <= c2 <= r ==> r == r2
  {
  }

  /** Windows of one instant each, one after the other, listed in reverse order. */
  function Staircase(n: nat): (ws: Windows)
    ensures |ws| == n && forall k :: 0 <= k < n ==> ws[k] == Some(Window(0, n - 1 - k, n - k))
  {
    seq(n, k => Some(Window(0, n - 1 - k, n - k)))
  }

  lemma OneStepApplies(n: nat, k: nat, t: nat)
    requires k < n < DAY && t <= n
    ensures Applies(Staircase(n), k, t) <==> t == n - 1 - k
    ensures t == n - 1 - k ==> WindowEnd(t, Staircase(n)[k].value) == t + 1
  {
  }

  lemma {:induction false} PassMovesOneStep(n: nat, i: nat, t: nat)
    requires i <= n < DAY && t < n
    ensures Pass(Staircase(n), i, t) == if i < n - t then t else t + 1
  {
    if i > 0 {
      PassMovesOneStep(n, i - 1, t);
      OneStepApplies(n, i - 1, Pass(Staircase(n), i - 1, t));
    }
  }

  /** Every round is needed: for each `n` there are `n` windows on which the first `n - 1` rounds
      all stop at an instant that is still quiet. */
  lemma {:induction false} EveryRoundIsNeeded(n: nat, r: nat)
    requires r <= n < DAY
    ensures AllValid(Staircase(n)) && |Staircase(n)| == n && Rounds(Staircase(n), r, 0) == r
    ensures Quiet(Staircase(n), r) <==> r < n
  {
    if r > 0 {
      EveryRoundIsNeeded(n, r - 1);
      PassMovesOneStep(n, n, r - 1);
    }
    forall k: nat | k < n
      ensures Applies(Staircase(n), k, r) <==> r == n - 1 - k
    {
      OneStepApplies(n, k, r);
    }
    if r < n {
      assert Applies(Staircase(n), n - 1 - r, r);
    }
  }
}
