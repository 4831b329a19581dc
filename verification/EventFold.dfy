/** Folding an append-only log into the latest record per id, with the out-of-order guard of
    supervisor/event_plane/store.py. Timestamps are ordinal numbers (ISO-8601 strings of one
    offset sort like the instants they denote); 0 stands for a missing one. */
module EventFold {
  import opened Options

  type Stamp = nat

  /** `_is_newer`: may the incoming record replace the existing one? */
  predicate IsNewer(incoming: Stamp, existing: Stamp) {
    if incoming == 0 && existing == 0 then true
    else if incoming == 0 then false
    else if existing == 0 then true
    else incoming >= existing
  }

  /** The guarded fold for one id. */
  function Latest<T>(log: seq<T>, key: T -> string, at: T -> Stamp, id: string): Option<T> {
    if log == [] then None
    else
      var before := Latest(log[..|log| - 1], key, at, id);
      var r := log[|log| - 1];
      if key(r) == id && (before.None? || IsNewer(at(r), at(before.value))) then Some(r) else before
  }

  /** The guarded fold for all non-empty ids at once. */
  function ById<T>(log: seq<T>, key: T -> string, at: T -> Stamp): map<string, T> {
    if log == [] then map[]
    else
      var before := ById(log[..|log| - 1], key, at);
      var r := log[|log| - 1];
      if key(r) == "" then before
      else if key(r) !in before || IsNewer(at(r), at(before[key(r)])) then before[key(r) := r]
      else before
  }

  /** The ids in order of first appearance: the iteration order of the folded dictionary. */
  function IdOrder<T>(log: seq<T>, key: T -> string): seq<string> {
    if log == [] then []
    else
      var before := IdOrder(log[..|log| - 1], key);
      var id := key(log[|log| - 1]);
      if id == "" || id in before then before else before + [id]
  }

  /** The fold without the guard, as the run export and the ingest service have it. */
  function LastById<T>(log: seq<T>, key: T -> string): map<string, T> {
    if log == [] then map[]
    else
      var before := LastById(log[..|log| - 1], key);
      var r := log[|log| - 1];
      if key(r) == "" then before else before[key(r) := r]
  }

  // ----- what the guarded fold picks -----------------------------------------------------

  /** Position `i` holds the record with the greatest (timestamp, append position) of its id. */
  ghost predicate Wins<T>(log: seq<T>, key: T -> string, at: T -> Stamp, id: string, i: nat) {
    && i < |log| && key(log[i]) == id
    && forall j :: 0 <= j < |log| && key(log[j]) == id ==>
         at(log[j]) < at(log[i]) || (at(log[j]) == at(log[i]) && j <= i)
  }

  lemma {:induction false} SomeoneWins<T>(log: seq<T>, key: T -> string, at: T -> Stamp, id: string) returns (i: nat)
    ensures Latest(log, key, at, id).None? <==> forall j :: 0 <= j < |log| ==> key(log[j]) != id
    ensures Latest(log, key, at, id).Some? ==> Wins(log, key, at, id, i) && Latest(log, key, at, id) == Some(log[i])
  {
    i := 0;
    if log != [] {
      var front, r := log[..|log| - 1], log[|log| - 1];
      i := SomeoneWins(front, key, at, id);
      assert forall j :: 0 <= j < |front| ==> front[j] == log[j];
      if key(r) == id && (Latest(front, key, at, id).None? || IsNewer(at(r), at(front[i]))) {
        i := |log| - 1;
      }
    }
  }

  /** The guarded fold returns a record exactly if it wins by timestamp, ties going to the later
      append; it returns nothing exactly if the id never occurs. */
  lemma LatestIsTheWinner<T>(log: seq<T>, key: T -> string, at: T -> Stamp, id: string, r: T)
    ensures Latest(log, key, at, id) == Some(r) <==> exists i: nat :: Wins(log, key, at, id, i) && log[i] == r
    ensures Latest(log, key, at, id).None? <==> forall j :: 0 <= j < |log| ==> key(log[j]) != id
  {
    var i := SomeoneWins(log, key, at, id);
    forall k: nat | Wins(log, key, at, id, k)
      ensures Latest(log, key, at, id).Some? && k == i
    {
    }
  }

  lemma {:induction false} ByIdIsLatest<T>(log: seq<T>, key: T -> string, at: T -> Stamp, id: string)
    requires id != ""
    ensures Latest(log, key, at, id) == (var m := ById(log, key, at); if id in m then Some(m[id]) else None)
  {
    if log != [] {
      ByIdIsLatest(log[..|log| - 1], key, at, id);
    }
  }

  lemma {:induction false} ByIdKeys<T>(log: seq<T>, key: T -> string, at: T -> Stamp)
    ensures forall id :: id in IdOrder(log, key) <==> id in ById(log, key, at)
    ensures forall i, j :: 0 <= i < j < |IdOrder(log, key)| ==> IdOrder(log, key)[i] != IdOrder(log, key)[j]
    ensures "" !in ById(log, key, at)
  {
    if log != [] {
      ByIdKeys(log[..|log| - 1], key, at);
    }
  }

  lemma {:induction false} ByIdMembers<T>(log: seq<T>, key: T -> string, at: T -> Stamp)
    ensures forall id :: id in ById(log, key, at) ==> ById(log, key, at)[id] in log && key(ById(log, key, at)[id]) == id
    ensures forall r :: r in log && key(r) != "" ==> key(r) in ById(log, key, at)
  {
    if log != [] {
      ByIdMembers(log[..|log| - 1], key, at);
    }
  }

  // ----- convergence ---------------------------------------------------------------------

  /** Records of the id with the same timestamp are the same record. */
  ghost predicate Unambiguous<T>(log: seq<T>, key: T -> string, at: T -> Stamp, id: string) {
    forall x, y :: x in log && y in log && key(x) == id && key(y) == id && at(x) == at(y) ==> x == y
  }

  /** Last-writer-wins convergence: any two orders of the same records, with any repetitions of
      identical appends, fold to the same latest record. */
  lemma FoldConverges<T>(log: seq<T>, other: seq<T>, key: T -> string, at: T -> Stamp, id: string)
    requires forall r :: r in log <==> r in other
    requires Unambiguous(log, key, at, id)
    ensures Latest(log, key, at, id) == Latest(other, key, at, id)
  {
    var i := SomeoneWins(log, key, at, id);
    var j := SomeoneWins(other, key, at, id);
    if Latest(log, key, at, id).Some? {
      assert log[i] in other;
      var k :| 0 <= k < |other| && other[k] == log[i];
    }
    if Latest(other, key, at, id).Some? {
      assert other[j] in log;
      var l :| 0 <= l < |log| && log[l] == other[j];
    }
  }

  /** An append that is older than the current record of its id changes no query. */
  lemma StaleAppendIsInvisible<T>(log: seq<T>, key: T -> string, at: T -> Stamp, r: T, id: string)
    requires Latest(log, key, at, key(r)).Some? && at(r) < at(Latest(log, key, at, key(r)).value)
    ensures Latest(log + [r], key, at, id) == Latest(log, key, at, id)
  {
    assert (log + [r])[..|log|] == log;
  }

  /** An append at least as recent as everything before it takes over its id and no other. */
  lemma FreshAppendTakesOver<T>(log: seq<T>, key: T -> string, at: T -> Stamp, r: T)
    requires key(r) != ""
    requires forall x :: x in log ==> at(x) <= at(r)
    ensures ById(log + [r], key, at) == ById(log, key, at)[key(r) := r]
  {
    assert (log + [r])[..|log|] == log;
    ByIdMembers(log, key, at);
  }

  // ----- the unguarded fold --------------------------------------------------------------

  /** The timestamps of one id never decrease along the log. */
  ghost predicate InOrder<T>(log: seq<T>, key: T -> string, at: T -> Stamp, id: string) {
    forall i, j :: 0 <= i < j < |log| && key(log[i]) == id && key(log[j]) == id ==> at(log[i]) <= at(log[j])
  }

  lemma {:induction false} LastOfId<T>(log: seq<T>, key: T -> string, id: string) returns (i: nat)
    requires id != ""
    ensures id in LastById(log, key) <==> exists j :: 0 <= j < |log| && key(log[j]) == id
    ensures id in LastById(log, key) ==>
              i < |log| && key(log[i]) == id && log[i] == LastById(log, key)[id]
              && forall j :: i < j < |log| ==> key(log[j]) != id
  {
    i := 0;
    if log != [] {
      var front := log[..|log| - 1];
      i := LastOfId(front, key, id);
      assert forall j :: 0 <= j < |front| ==> front[j] == log[j];
      if key(log[|log| - 1]) == id {
        i := |log| - 1;
      }
    }
  }

  /** The unguarded fold agrees with the guarded one on an id if the id's timestamps never
      decrease; and if no two different records of the id share a timestamp, it agrees only if
      the last append of the id is its newest record. */
  lemma UnguardedAgrees<T>(log: seq<T>, key: T -> string, at: T -> Stamp, id: string)
    requires id != ""
    ensures var m := LastById(log, key);
            && (InOrder(log, key, at, id) ==> Latest(log, key, at, id) == if id in m then Some(m[id]) else None)
            && (Unambiguous(log, key, at, id) && id in m ==>
                  (Latest(log, key, at, id) == Some(m[id])
                   <==> forall x :: x in log && key(x) == id ==> at(x) <= at(m[id])))
  {
    var i := SomeoneWins(log, key, at, id);
    var last := LastOfId(log, key, id);
    var m := LastById(log, key);
    if id in m {
      assert log[last] in log;
      if forall x :: x in log && key(x) == id ==> at(x) <= at(m[id]) {
        assert log[i] in log;
      }
    }
  }
}
