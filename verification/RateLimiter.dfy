/** The per-client sliding-window rate limiter (supervisor/boundary/rate_limit.py), against the
    plain rule that counts over everything ever admitted. Times are seconds. */
module RateLimiter {
  const WINDOW := 60.0

  datatype Call = Call(client: string, now: real)

  // ----- the rule ------------------------------------------------------------------------

  /** How many of the client's admissions lie in the closed interval from `lo` to `hi`. */
  function CountIn(admitted: seq<Call>, client: string, lo: real, hi: real): nat {
    if admitted == [] then 0
    else
      var c := admitted[|admitted| - 1];
      CountIn(admitted[..|admitted| - 1], client, lo, hi) + if c.client == client && lo <= c.now <= hi then 1 else 0
  }

  predicate Admits(perMinute: int, admitted: seq<Call>, c: Call) {
    perMinute > 0 && CountIn(admitted, c.client, c.now - WINDOW, c.now) < perMinute
  }

  /** The calls that the rule admits. */
  function Admitted(perMinute: int, calls: seq<Call>): seq<Call> {
    if calls == [] then []
    else
      var past := Admitted(perMinute, calls[..|calls| - 1]);
      var c := calls[|calls| - 1];
      past + if Admits(perMinute, past, c) then [c] else []
  }

  lemma OrderedNext(calls: seq<Call>, c: Call)
    requires Ordered(calls) && NotAfter(calls, c.now)
    ensures Ordered(calls + [c])
  {
  }

  lemma AdmittedNext(perMinute: int, calls: seq<Call>, c: Call)
    ensures Admitted(perMinute, calls + [c]) ==
            (var past := Admitted(perMinute, calls); if Admits(perMinute, past, c) then past + [c] else past)
  {
    assert (calls + [c])[..|calls|] == calls;
  }

  ghost predicate Ordered(calls: seq<Call>) {
    forall i, j :: 0 <= i < j < |calls| ==> calls[i].now <= calls[j].now
  }

  ghost predicate NotAfter(calls: seq<Call>, now: real) {
    forall i :: 0 <= i < |calls| ==> calls[i].now <= now
  }

  lemma {:induction false} AdmittedNotAfter(perMinute: int, calls: seq<Call>, now: real)
    requires NotAfter(calls, now)
    ensures NotAfter(Admitted(perMinute, calls), now)
  {
    if calls != [] {
      AdmittedNotAfter(perMinute, calls[..|calls| - 1], now);
    }
  }

  // ----- what the rule promises ----------------------------------------------------------

  lemma {:induction false} WiderCountsMore(admitted: seq<Call>, client: string, lo: real, hi: real, lo2: real,
      hi2: real)
    requires lo2 <= lo && (hi <= hi2 || NotAfter(admitted, hi2))
    ensures CountIn(admitted, client, lo, hi) <= CountIn(admitted, client, lo2, hi2)
  {
    if admitted != [] {
      WiderCountsMore(admitted[..|admitted| - 1], client, lo, hi, lo2, hi2);
    }
  }

  /** No closed sixty-second window, wherever it starts, ever holds more than the limit. */
  lemma {:induction false} NoWindowOverflows(perMinute: int, calls: seq<Call>, client: string, from: real)
    requires Ordered(calls)
    ensures CountIn(Admitted(perMinute, calls), client, from, from + WINDOW) <= if perMinute > 0 then perMinute else 0
  {
    if calls != [] {
      var before := calls[..|calls| - 1];
      var past := Admitted(perMinute, before);
      var c := calls[|calls| - 1];
      NoWindowOverflows(perMinute, before, client, from);
      AdmittedNotAfter(perMinute, before, c.now);
      if Admits(perMinute, past, c) {
        assert (past + [c])[..|past|] == past;
        if c.client == client && from <= c.now <= from + WINDOW {
          WiderCountsMore(past, client, from, from + WINDOW, c.now - WINDOW, c.now);
        }
      } else {
        assert past + [] == past;
      }
    }
  }

  function Of(calls: seq<Call>, client: string): seq<Call> {
    if calls == [] then []
    else
      var c := calls[|calls| - 1];
      Of(calls[..|calls| - 1], client) + if c.client == client then [c] else []
  }

  lemma {:induction false} CountOnlySeesOwn(admitted: seq<Call>, client: string, lo: real, hi: real)
    ensures CountIn(Of(admitted, client), client, lo, hi) == CountIn(admitted, client, lo, hi)
  {
    if admitted != [] {
      var before := admitted[..|admitted| - 1];
      CountOnlySeesOwn(before, client, lo, hi);
      if admitted[|admitted| - 1].client == client {
        assert Of(admitted, client)[..|Of(before, client)|] == Of(before, client);
      } else {
        assert Of(admitted, client) == Of(before, client);
      }
    }
  }

  lemma OfNext(calls: seq<Call>, c: Call, client: string)
    ensures Of(calls + [c], client) == if c.client == client then Of(calls, client) + [c] else Of(calls, client)
  {
    assert (calls + [c])[..|calls|] == calls;
  }

  /** Clients do not affect each other: what one of them gets is what it would get alone. */
  lemma {:induction false} ClientsAreIndependent(perMinute: int, calls: seq<Call>, client: string)
    ensures Of(Admitted(perMinute, calls), client) == Admitted(perMinute, Of(calls, client))
  {
    if calls != [] {
      var before := calls[..|calls| - 1];
      var c := calls[|calls| - 1];
      ClientsAreIndependent(perMinute, before, client);
      assert calls == before + [c];
      OneMoreCall(perMinute, before, c, client);
    }
  }

  lemma OneMoreCall(perMinute: int, calls: seq<Call>, c: Call, client: string)
    requires Of(Admitted(perMinute, calls), client) == Admitted(perMinute, Of(calls, client))
    ensures Of(Admitted(perMinute, calls + [c]), client) == Admitted(perMinute, Of(calls + [c], client))
  {
    var past := Admitted(perMinute, calls);
    AdmittedNext(perMinute, calls, c);
    OfNext(calls, c, client);
    OfNext(past, c, client);
    if c.client == client {
      AdmittedNext(perMinute, Of(calls, client), c);
      CountOnlySeesOwn(past, client, c.now - WINDOW, c.now);
    }
  }

  // ----- buckets -------------------------------------------------------------------------

  function Times(admitted: seq<Call>, client: string): seq<real> {
    if admitted == [] then []
    else
      var c := admitted[|admitted| - 1];
      Times(admitted[..|admitted| - 1], client) + if c.client == client then [c.now] else []
  }

  /** A bucket holds the client's latest admissions; all it has dropped lie before `cutoff`. */
  ghost predicate Holds(bucket: seq<real>, times: seq<real>, cutoff: real) {
    && |bucket| <= |times|
    && bucket == times[|times| - |bucket|..]
    && forall i :: 0 <= i < |times| - |bucket| ==> times[i] < cutoff
  }

  ghost predicate Sorted(times: seq<real>, now: real) {
    && (forall i :: 0 <= i < |times| ==> times[i] <= now)
    && forall i, j :: 0 <= i < j < |times| ==> times[i] <= times[j]
  }

  lemma {:induction false} TimesAreSorted(admitted: seq<Call>, client: string, now: real)
    requires Ordered(admitted) && NotAfter(admitted, now)
    ensures Sorted(Times(admitted, client), now)
  {
    if admitted != [] {
      TimesAreSorted(admitted[..|admitted| - 1], client, admitted[|admitted| - 1].now);
    }
  }

  lemma {:induction false} AdmittedAreOrdered(perMinute: int, calls: seq<Call>)
    requires Ordered(calls)
    ensures Ordered(Admitted(perMinute, calls))
  {
    if calls != [] {
      AdmittedAreOrdered(perMinute, calls[..|calls| - 1]);
      AdmittedNotAfter(perMinute, calls[..|calls| - 1], calls[|calls| - 1].now);
    }
  }

  function CountTimes(times: seq<real>, lo: real, hi: real): nat {
    if times == [] then 0
    else CountTimes(times[..|times| - 1], lo, hi) + if lo <= times[|times| - 1] <= hi then 1 else 0
  }

  lemma {:induction false} CountByTimes(admitted: seq<Call>, client: string, lo: real, hi: real)
    ensures CountIn(admitted, client, lo, hi) == CountTimes(Times(admitted, client), lo, hi)
  {
    if admitted != [] {
      var before := Times(admitted[..|admitted| - 1], client);
      CountByTimes(admitted[..|admitted| - 1], client, lo, hi);
      assert (before + [admitted[|admitted| - 1].now])[..|before|] == before;
      assert before + [] == before;
    }
  }

  lemma {:induction false} CountFromSplit(times: seq<real>, k: nat, lo: real, hi: real)
    requires k <= |times|
    requires forall i :: 0 <= i < k ==> times[i] < lo
    requires forall i :: k <= i < |times| ==> lo <= times[i] <= hi
    ensures CountTimes(times, lo, hi) == |times| - k
  {
    if times != [] {
      CountFromSplit(times[..|times| - 1], if k < |times| then k else k - 1, lo, hi);
    }
  }

  lemma SuffixCounts(times: seq<real>, bucket: seq<real>, lo: real, hi: real)
    requires Sorted(times, hi) && Holds(bucket, times, lo)
    requires bucket != [] ==> bucket[0] >= lo
    ensures CountTimes(times, lo, hi) == |bucket|
  {
    var k := |times| - |bucket|;
    forall i | k <= i < |times|
      ensures lo <= times[i]
    {
      assert times[k] == bucket[0];
    }
    CountFromSplit(times, k, lo, hi);
  }

  /** Once pruned up to the cutoff, the length of a bucket is the count over the full history. */
  lemma PrunedBucketCounts(admitted: seq<Call>, client: string, bucket: seq<real>, now: real)
    requires Ordered(admitted) && NotAfter(admitted, now)
    requires Holds(bucket, Times(admitted, client), now - WINDOW)
    requires bucket != [] ==> bucket[0] >= now - WINDOW
    ensures CountIn(admitted, client, now - WINDOW, now) == |bucket|
  {
    TimesAreSorted(admitted, client, now);
    CountByTimes(admitted, client, now - WINDOW, now);
    SuffixCounts(Times(admitted, client), bucket, now - WINDOW, now);
  }

  // ----- the limiter ---------------------------------------------------------------------

  type Buckets = map<string, seq<real>>

  function Bucket(buckets: Buckets, client: string): seq<real> {
    if client in buckets then buckets[client] else []
  }

  ghost predicate Tracks(buckets: Buckets, admitted: seq<Call>, client: string, cutoff: real) {
    Holds(Bucket(buckets, client), Times(admitted, client), cutoff)
  }

  ghost predicate TracksAll(buckets: Buckets, admitted: seq<Call>, cutoff: real) {
    forall client :: Tracks(buckets, admitted, client, cutoff)
  }

  ghost predicate Bounded(buckets: Buckets, perMinute: int) {
    forall c :: c in buckets ==> 0 < |buckets[c]| <= perMinute
  }

  ghost predicate UsedSince(buckets: Buckets, since: real) {
    forall c :: c in buckets ==> !Stale(buckets[c], since)
  }

  predicate Stale(bucket: seq<real>, cutoff: real) {
    bucket == [] || bucket[|bucket| - 1] < cutoff
  }

  /** A stale bucket may as well be gone. */
  lemma StaleHoldsNothing(admitted: seq<Call>, client: string, bucket: seq<real>, cutoff: real)
    requires Ordered(admitted) && Holds(bucket, Times(admitted, client), cutoff) && Stale(bucket, cutoff)
    ensures Holds([], Times(admitted, client), cutoff)
  {
    if admitted != [] {
      TimesAreSorted(admitted, client, admitted[|admitted| - 1].now);
    }
    var times := Times(admitted, client);
    forall i | 0 <= i < |times|
      ensures times[i] < cutoff
    {
      if i >= |times| - |bucket| {
        assert times[|times| - 1] == bucket[|bucket| - 1];
      }
    }
  }

  lemma SweepIsUnobservable(buckets: Buckets, admitted: seq<Call>, stale: set<string>, cutoff: real)
    requires Ordered(admitted) && TracksAll(buckets, admitted, cutoff)
    requires forall c :: c in stale ==> c in buckets && Stale(buckets[c], cutoff)
    ensures TracksAll(buckets - stale, admitted, cutoff)
  {
    forall client: string
      ensures Tracks(buckets - stale, admitted, client, cutoff)
    {
      assert Tracks(buckets, admitted, client, cutoff);
      if client in stale {
        StaleHoldsNothing(admitted, client, buckets[client], cutoff);
      }
    }
  }

  lemma TracksLater(buckets: Buckets, admitted: seq<Call>, cutoff: real, later: real)
    requires TracksAll(buckets, admitted, cutoff) && cutoff <= later
    ensures TracksAll(buckets, admitted, later)
  {
    forall client: string
      ensures Tracks(buckets, admitted, client, later)
    {
      assert Tracks(buckets, admitted, client, cutoff);
    }
  }

  lemma HoldsAppended(bucket: seq<real>, times: seq<real>, t: real, cutoff: real)
    requires Holds(bucket, times, cutoff)
    ensures Holds(bucket + [t], times + [t], cutoff)
  {
  }

  lemma UpdateTracks(buckets: Buckets, admitted: seq<Call>, c: Call, bucket: seq<real>, ok: bool, cutoff: real)
    requires TracksAll(buckets, admitted, cutoff) && Holds(bucket, Times(admitted, c.client), cutoff)
    ensures TracksAll(buckets[c.client := if ok then bucket + [c.now] else bucket],
                      if ok then admitted + [c] else admitted, cutoff)
  {
    var updated := buckets[c.client := if ok then bucket + [c.now] else bucket];
    var added := if ok then admitted + [c] else admitted;
    assert (admitted + [c])[..|admitted|] == admitted;
    HoldsAppended(bucket, Times(admitted, c.client), c.now, cutoff);
    forall client: string
      ensures Tracks(updated, added, client, cutoff)
    {
      assert Tracks(buckets, admitted, client, cutoff);
      assert Times(admitted, client) + [] == Times(admitted, client);
    }
  }

  lemma UpdateIsBounded(buckets: Buckets, perMinute: int, client: string, bucket: seq<real>)
    requires Bounded(buckets, perMinute) && 0 < |bucket| <= perMinute
    ensures Bounded(buckets[client := bucket], perMinute)
  {
  }

  lemma UpdateIsUsed(buckets: Buckets, client: string, bucket: seq<real>, now: real, ok: bool, since: real)
    requires UsedSince(buckets, since) && since <= now && (ok || bucket != [])
    requires bucket != [] ==> client in buckets && buckets[client] != [] &&
                              bucket[|bucket| - 1] == buckets[client][|buckets[client]| - 1]
    ensures UsedSince(buckets[client := if ok then bucket + [now] else bucket], since)
  {
  }

  class Limiter {
    const perMinute: int
    var buckets: Buckets
    var lastSweep: real
    /** Every call so far. */
    ghost var calls: seq<Call>

    /** The sweeping clock starts at zero; a clock that is never negative keeps sweeps regular. */
    ghost predicate Regular()
      reads this
    {
      calls == [] || calls[0].now >= 0.0
    }

    ghost predicate Swept(now: real)
      reads this
    {
      lastSweep <= now && UsedSince(buckets, lastSweep - WINDOW)
    }

    ghost predicate Valid()
      reads this
    {
      && Ordered(calls) && perMinute >= 0 && Bounded(buckets, perMinute)
      && (calls == [] ==> buckets == map[] && lastSweep == 0.0)
      && (calls != [] ==>
            var clock := calls[|calls| - 1].now;
            TracksAll(buckets, Admitted(perMinute, calls), clock - WINDOW) && (Regular() ==> Swept(clock)))
    }

    constructor (limit: int)
      ensures Valid() && calls == [] && perMinute == if limit > 0 then limit else 0
    {
      perMinute := if limit > 0 then limit else 0;
      buckets, lastSweep, calls := map[], 0.0, [];
    }

    /** `_sweep_locked`. */
    method Sweep(cutoff: real, ghost admitted: seq<Call>)
      requires Ordered(admitted) && TracksAll(buckets, admitted, cutoff) && Bounded(buckets, perMinute)
      modifies `buckets
      ensures TracksAll(buckets, admitted, cutoff) && Bounded(buckets, perMinute) && UsedSince(buckets, cutoff)
    {
      var stale := set c | c in buckets && Stale(buckets[c], cutoff);
      SweepIsUnobservable(buckets, admitted, stale, cutoff);
      buckets := buckets - stale;
    }

    /** The loop of `check` over one bucket. */
    method Prune(bucket: seq<real>, cutoff: real, ghost times: seq<real>) returns (kept: seq<real>)
      requires Holds(bucket, times, cutoff)
      ensures Holds(kept, times, cutoff) && |kept| <= |bucket|
      ensures kept != [] ==> kept[0] >= cutoff && kept[|kept| - 1] == bucket[|bucket| - 1]
    {
      kept := bucket;
      while kept != [] && kept[0] < cutoff
        invariant Holds(kept, times, cutoff) && |kept| <= |bucket|
        invariant kept != [] ==> kept[|kept| - 1] == bucket[|bucket| - 1]
      {
        kept := kept[1..];
      }
    }

    /** `check` on one client's bucket. */
    method Admit(client: string, now: real, ghost past: seq<Call>, ghost since: real) returns (ok: bool)
      requires perMinute > 0 && Ordered(past) && NotAfter(past, now)
      requires TracksAll(buckets, past, now - WINDOW) && Bounded(buckets, perMinute)
      modifies `buckets
      ensures ok <==> Admits(perMinute, past, Call(client, now))
      ensures TracksAll(buckets, if ok then past + [Call(client, now)] else past, now - WINDOW)
      ensures Bounded(buckets, perMinute)
      ensures since <= now && UsedSince(old(buckets), since) ==> UsedSince(buckets, since)
    {
      assert Tracks(buckets, past, client, now - WINDOW);
      var bucket := Prune(Bucket(buckets, client), now - WINDOW, Times(past, client));
      PrunedBucketCounts(past, client, bucket, now);
      ok := |bucket| < perMinute;
      UpdateTracks(buckets, past, Call(client, now), bucket, ok, now - WINDOW);
      if since <= now && UsedSince(buckets, since) {
        UpdateIsUsed(buckets, client, bucket, now, ok, since);
      }
      UpdateIsBounded(buckets, perMinute, client, if ok then bucket + [now] else bucket);
      buckets := buckets[client := if ok then bucket + [now] else bucket];
    }

    /** What a call starts from. */
    lemma AtCall(now: real)
      requires Valid() && NotAfter(calls, now)
      ensures var past := Admitted(perMinute, calls);
              Ordered(past) && NotAfter(past, now) && TracksAll(buckets, past, now - WINDOW)
    {
      AdmittedAreOrdered(perMinute, calls);
      AdmittedNotAfter(perMinute, calls, now);
      if calls != [] {
        TracksLater(buckets, Admitted(perMinute, calls), calls[|calls| - 1].now - WINDOW, now - WINDOW);
      }
    }

    /** What a call leaves behind. */
    lemma AfterCall(now: real)
      requires Ordered(calls) && perMinute >= 0 && Bounded(buckets, perMinute)
      requires calls != [] && calls[|calls| - 1].now == now && (Regular() ==> Swept(now))
      requires TracksAll(buckets, Admitted(perMinute, calls), now - WINDOW)
      ensures Valid()
    {
    }

    /** `check`: admits exactly when the rule does, whatever was pruned or swept before. No bucket
        outlives its client's last admission by two windows. */
    method Check(client: string, now: real) returns (ok: bool)
      requires Valid() && NotAfter(calls, now)
      modifies this
      ensures Valid() && calls == old(calls) + [Call(client, now)]
      ensures ok <==> Admits(perMinute, Admitted(perMinute, old(calls)), Call(client, now))
      ensures perMinute > 0 && Regular() ==> UsedSince(buckets, now - 2.0 * WINDOW)
    {
      ghost var past := Admitted(perMinute, calls);
      AtCall(now);
      OrderedNext(calls, Call(client, now));
      AdmittedNext(perMinute, calls, Call(client, now));
      calls := calls + [Call(client, now)];
      if perMinute <= 0 {
        ok := false;
        AfterCall(now);
        return;
      }
      if now - lastSweep >= WINDOW {
        Sweep(now - WINDOW, past);
        lastSweep := now;
      }
      ok := Admit(client, now, past, lastSweep - WINDOW);
      AfterCall(now);
    }
  }
}
