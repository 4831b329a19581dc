/** The event plane in a run export (supervisor/history.py): the records of one session, picked out of
    the logs first and folded without the guard afterwards. */
module EventExport {
  import opened Options
  import opened EventFold
  import opened EventPlane
  import opened EventRefinement
  import opened EventStore
  import opened EventLines
  import opened EventReadBack

  /** The last accepted record per id, in order of first appearance. */
  function Current<T>(log: seq<T>, key: T -> string, mine: T -> bool): seq<T> {
    OrderIsFolded(Mine(log, mine), key);
    Select(IdOrder(Mine(log, mine), key), LastById(Mine(log, mine), key), Any)
  }

  datatype SessionExport = SessionExport(
    session: string,
    requests: seq<Request>,
    results: seq<Result>,
    waits: seq<Wait>,
    mailbox: seq<Item>)

  function OwnResult(session: string): Result -> bool { (r: Result) => r.session == session }

  function OwnItem(session: string): Item -> bool { (i: Item) => i.session == session }

  /** `_event_plane_for_session`; nothing without a session. */
  function ExportOf(p: Plane, session: string): Option<SessionExport> {
    if session == "" then None
    else
      Some(SessionExport(session,
                         Current(Requests(p.tasks), RequestKey, OwnRequest(session)),
                         Mine(Results(p.tasks), OwnResult(session)),
                         Current(p.waits, WaitKey, OwnWait(session)),
                         Current(p.mailbox, ItemKey, OwnItem(session))))
  }

  // ----- filtering before folding --------------------------------------------------------

  /** The current records that `mine` accepts. */
  function Restrict<T>(m: map<string, T>, mine: T -> bool): map<string, T> {
    map id | id in m && mine(m[id]) :: m[id]
  }

  lemma {:induction false} MineHolds<T>(log: seq<T>, mine: T -> bool)
    ensures forall r :: r in Mine(log, mine) <==> r in log && mine(r)
  {
    if log != [] {
      var front, r := log[..|log| - 1], log[|log| - 1];
      MineHolds(front, mine);
      assert log == front + [r];
    }
  }

  /** An id is found among the accepted records iff one of them has it; and where the last record of
      the id is accepted, that is the one found. */
  lemma {:induction false} LastOfMine<T>(log: seq<T>, key: T -> string, mine: T -> bool, id: string)
    ensures var own, all := LastById(Mine(log, mine), key), LastById(log, key);
            && (id in own ==> mine(own[id]) && key(own[id]) == id && id in all)
            && (id in all && mine(all[id]) ==> id in own && own[id] == all[id])
  {
    if log != [] {
      var front, r := log[..|log| - 1], log[|log| - 1];
      LastOfMine(front, key, mine, id);
      var own := Mine(front, mine);
      assert (own + [r])[..|own|] == own;
    }
  }

  /** Filtering before folding is the same as filtering after it exactly when no id has left: of an
      id that has an accepted record, the last record is accepted. */
  lemma FilterThenFoldIff<T>(log: seq<T>, key: T -> string, mine: T -> bool)
    ensures var own, all := LastById(Mine(log, mine), key), LastById(log, key);
            own == Restrict(all, mine) <==> forall id :: id in own ==> id in all && mine(all[id])
  {
    var own, all := LastById(Mine(log, mine), key), LastById(log, key);
    forall id: string
      ensures (id in own ==> id in all) && (id in all && mine(all[id]) ==> id in own && own[id] == all[id])
    {
      LastOfMine(log, key, mine, id);
    }
    if forall id :: id in own ==> id in all && mine(all[id]) {
      assert own == Restrict(all, mine);
    } else {
      var id :| id in own && !(id in all && mine(all[id]));
      assert id !in Restrict(all, mine);
    }
  }

  // ----- ids stay in their session -------------------------------------------------------

  /** Every record is in the session of the current record of its id. */
  ghost predicate AtHome<T>(log: seq<T>, key: T -> string, at: T -> Stamp, session: T -> string) {
    var m := ById(log, key, at);
    forall r :: r in log ==> key(r) in m && session(m[key(r)]) == session(r)
  }

  lemma HomeAppend<T>(log: seq<T>, key: T -> string, at: T -> Stamp, session: T -> string, r: T)
    requires AtHome(log, key, at, session) && key(r) != "" && forall x :: x in log ==> at(x) <= at(r)
    requires var m := ById(log, key, at); key(r) in m ==> session(m[key(r)]) == session(r)
    ensures AtHome(log + [r], key, at, session)
  {
    FreshAppendTakesOver(log, key, at, r);
  }

  function RequestSession(r: Request): string { r.session }

  function WaitSession(w: Wait): string { w.session }

  function ItemSession(i: Item): string { i.session }

  ghost predicate AllAtHome(p: Plane) {
    && AtHome(Requests(p.tasks), RequestKey, RequestAt, RequestSession)
    && AtHome(p.waits, WaitKey, WaitAt, WaitSession)
    && AtHome(p.mailbox, ItemKey, ItemAt, ItemSession)
  }

  lemma RegisterStaysHome(p: Plane, c: Call)
    requires Good(p) && Sound(p, c) && AllAtHome(p) && c.Register?
    ensures AllAtHome(Do(p, c).0)
  {
    if RegisterOk(c) {
      FreshIdsAreNew(p, c);
      TaskAppends(p.tasks, RequestRecord(NewRequest(c)));
      HomeAppend(Requests(p.tasks), RequestKey, RequestAt, RequestSession, NewRequest(c));
      HomeAppend(p.waits, WaitKey, WaitAt, WaitSession, NewWait(c));
    }
  }

  lemma IngestStaysHome(p: Plane, c: Call)
    requires Good(p) && Sound(p, c) && AllAtHome(p) && c.Ingest?
    ensures AllAtHome(Do(p, c).0)
  {
    var q := Do(p, c).0;
    if q != p {
      var req := LatestRequest(p, c.requestId).value;
      FreshIdsAreNew(p, c);
      TasksRefine(p, req, c);
      WaitsRefine(p, c);
      HomeAppend(Requests(p.tasks), RequestKey, RequestAt, RequestSession, Complete(req, c.ticks.t3));
      HomeAppend(p.mailbox, ItemKey, ItemAt, ItemSession, NewItemFor(req, c));
      ResolvedStaysHome(p, c);
    }
  }

  lemma ResolvedStaysHome(p: Plane, c: Call)
    requires Good(p) && Sound(p, c) && c.Ingest? && c.requestId in Abstract(p).requests
    requires AtHome(p.waits, WaitKey, WaitAt, WaitSession)
    ensures var wait := WaitForRequest(p, c.requestId);
            wait.Some? && wait.value.status.Waiting? ==>
              AtHome(p.waits + [Resolve(wait.value, c.ticks.t2)], WaitKey, WaitAt, WaitSession)
  {
    WaitsRefine(p, c);
    WaitOfRequest(Abstract(p), c.requestId);
    var wait := WaitForRequest(p, c.requestId).value;
    if wait.status.Waiting? {
      HomeAppend(p.waits, WaitKey, WaitAt, WaitSession, Resolve(wait, c.ticks.t2));
    }
  }

  lemma RewriteStaysHome(p: Plane, c: Call)
    requires Good(p) && Sound(p, c) && AllAtHome(p) && (c.Ack? || c.Wake?)
    ensures AllAtHome(Do(p, c).0)
  {
    Lookups(p, if c.Wake? then c.requestId else "", c.itemId);
    var q := Do(p, c).0;
    if q != p {
      var item := q.mailbox[|q.mailbox| - 1];
      assert q.mailbox == p.mailbox + [item];
      HomeAppend(p.mailbox, ItemKey, ItemAt, ItemSession, item);
    }
  }

  lemma {:induction false} PlayStaysHome(calls: seq<Call>, ps: seq<Plane>, ss: seq<Store>, n: nat)
    requires IsSoundPlay(calls, ps) && IsStorePlay(calls, ss) && n < |ps|
    ensures AllAtHome(ps[n])
  {
    if n > 0 {
      var p, c := ps[n - 1], calls[n - 1];
      PlayStaysHome(calls, ps, ss, n - 1);
      PlaneRefinesStore(calls, ps, ss, n - 1);
      assert Sound(p, c);
      assert ps[n] == Do(p, c).0;
      if c.Register? {
        RegisterStaysHome(p, c);
      } else if c.Ingest? {
        IngestStaysHome(p, c);
      } else {
        RewriteStaysHome(p, c);
      }
    }
  }

  // ----- the export is exact -------------------------------------------------------------

  /** What is listed are the records of the map that `mine` accepts, once each. */
  ghost predicate Lists<T(!new)>(listed: seq<T>, m: map<string, T>, key: T -> string, mine: T -> bool) {
    && (forall r :: r in listed <==> key(r) in m && m[key(r)] == r && mine(r))
    && (forall i, j :: 0 <= i < j < |listed| ==> key(listed[i]) != key(listed[j]))
  }

  lemma {:induction false} SelectAny<T>(order: seq<string>, m: map<string, T>)
    requires forall id :: id in order ==> id in m
    ensures |Select(order, m, Any)| == |order|
    ensures forall i :: 0 <= i < |order| ==> Select(order, m, Any)[i] == m[order[i]]
  {
    if order != [] {
      SelectAny(order[..|order| - 1], m);
    }
  }

  lemma SelectLists<T(!new)>(order: seq<string>, m: map<string, T>, key: T -> string, mine: T -> bool)
    requires forall id :: id in order <==> id in m
    requires forall i, j :: 0 <= i < j < |order| ==> order[i] != order[j]
    requires forall id :: id in m ==> key(m[id]) == id && mine(m[id])
    ensures Lists(Select(order, m, Any), m, key, mine)
  {
    var listed := Select(order, m, Any);
    SelectAny(order, m);
    forall r | key(r) in m && m[key(r)] == r
      ensures r in listed
    {
      var i :| 0 <= i < |order| && order[i] == key(r);
      assert listed[i] == r;
    }
    forall r | r in listed
      ensures key(r) in m && m[key(r)] == r && mine(r)
    {
      var i :| 0 <= i < |listed| && listed[i] == r;
      assert order[i] in m;
    }
    assert forall i :: 0 <= i < |order| ==> order[i] in m && key(listed[i]) == order[i];
  }

  lemma RestrictLists<T(!new)>(listed: seq<T>, all: map<string, T>, key: T -> string, mine: T -> bool)
    requires Lists(listed, Restrict(all, mine), key, mine)
    ensures Lists(listed, all, key, mine)
  {
  }

  /** Where no id leaves its session, the current records of the session are those accepted. */
  lemma HomeRestricts<T>(log: seq<T>, key: T -> string, at: T -> Stamp, session: T -> string,
                         mine: T -> bool, own: string)
    requires forall r :: r in log ==> (mine(r) <==> session(r) == own)
    requires AtHome(log, key, at, session) && LastById(log, key) == ById(log, key, at)
    ensures LastById(Mine(log, mine), key) == Restrict(ById(log, key, at), mine)
  {
    var m, all := LastById(Mine(log, mine), key), ById(log, key, at);
    MineHolds(log, mine);
    ByIdMembers(log, key, at);
    forall id | id in m
      ensures id in all && mine(all[id])
    {
      LastOfMine(log, key, mine, id);
      NoEmptyId(Mine(log, mine), key);
      var i := LastOfId(Mine(log, mine), key, id);
      assert m[id] in Mine(log, mine);
    }
    FilterThenFoldIff(log, key, mine);
  }

  lemma {:induction false} NoEmptyId<T>(log: seq<T>, key: T -> string)
    ensures "" !in LastById(log, key)
  {
    if log != [] {
      NoEmptyId(log[..|log| - 1], key);
    }
  }

  lemma CurrentLists<T(!new)>(log: seq<T>, key: T -> string, at: T -> Stamp, session: T -> string,
                              mine: T -> bool, own: string)
    requires forall r :: r in log ==> (mine(r) <==> session(r) == own)
    requires AtHome(log, key, at, session) && LastById(log, key) == ById(log, key, at)
    ensures Lists(Current(log, key, mine), ById(log, key, at), key, mine)
  {
    var kept := Mine(log, mine);
    OrderIsFolded(kept, key);
    ByIdKeys(kept, key, at);
    HomeRestricts(log, key, at, session, mine, own);
    ByIdMembers(log, key, at);
    SelectLists(IdOrder(kept, key), LastById(kept, key), key, mine);
    RestrictLists(Current(log, key, mine), ById(log, key, at), key, mine);
  }

  /** After any sound sequence of calls, the export of a session lists exactly the current requests,
      waits and items that the abstract store has in that session, once each, and its results in
      order. */
  lemma ExportIsExact(calls: seq<Call>, ps: seq<Plane>, ss: seq<Store>, n: nat, session: string)
    requires IsSoundPlay(calls, ps) && IsStorePlay(calls, ss) && n < |ps| && session != ""
    ensures var e, s := ExportOf(ps[n], session).value, ss[n];
            && Lists(e.requests, s.requests, RequestKey, OwnRequest(session))
            && Lists(e.waits, s.waits, WaitKey, OwnWait(session))
            && Lists(e.mailbox, s.items, ItemKey, OwnItem(session))
            && e.results == Mine(s.results, OwnResult(session))
  {
    PlaneRefinesStore(calls, ps, ss, n);
    PlayStaysHome(calls, ps, ss, n);
    CurrentLists(Requests(ps[n].tasks), RequestKey, RequestAt, RequestSession, OwnRequest(session), session);
    CurrentLists(ps[n].waits, WaitKey, WaitAt, WaitSession, OwnWait(session), session);
    CurrentLists(ps[n].mailbox, ItemKey, ItemAt, ItemSession, OwnItem(session), session);
  }

  predicate HasRequest(requests: seq<Request>, id: string) {
    exists i :: 0 <= i < |requests| && requests[i].id == id
  }

  lemma OwnIsListed(requests: seq<Request>, s: Store, session: string, id: string)
    requires Lists(requests, s.requests, RequestKey, OwnRequest(session)) && Keyed(s)
    requires id in s.requests && s.requests[id].session == session
    ensures HasRequest(requests, id)
  {
    assert s.requests[id] in requests;
  }

  /** And the export is closed: whatever it lists refers to a request that it lists. */
  lemma ExportIsClosed(calls: seq<Call>, ps: seq<Plane>, ss: seq<Store>, n: nat, session: string)
    requires IsSoundPlay(calls, ps) && IsStorePlay(calls, ss) && n < |ps| && session != ""
    ensures var e := ExportOf(ps[n], session).value;
            && (forall w :: w in e.waits ==> HasRequest(e.requests, w.requestId))
            && (forall i :: i in e.mailbox ==> HasRequest(e.requests, i.requestId))
            && (forall r :: r in e.results ==> HasRequest(e.requests, r.requestId))
  {
    var e, s := ExportOf(ps[n], session).value, ss[n];
    PlaneRefinesStore(calls, ps, ss, n);
    ExportIsExact(calls, ps, ss, n, session);
    MineHolds(s.results, OwnResult(session));
    forall w | w in e.waits ensures HasRequest(e.requests, w.requestId) {
      OwnIsListed(e.requests, s, session, w.requestId);
    }
    forall i | i in e.mailbox ensures HasRequest(e.requests, i.requestId) {
      OwnIsListed(e.requests, s, session, i.requestId);
    }
    forall r | r in e.results ensures HasRequest(e.requests, r.requestId) {
      OwnIsListed(e.requests, s, session, r.requestId);
    }
  }

  // ----- the loops -----------------------------------------------------------------------

  /** The dictionary loop over one log. */
  method CollectCurrent<T>(log: seq<T>, key: T -> string, mine: T -> bool) returns (out: seq<T>)
    ensures out == Current(log, key, mine)
  {
    var order: seq<string>, byId: map<string, T> := [], map[];
    ghost var kept: seq<T> := [];
    for i := 0 to |log|
      invariant kept == Mine(log[..i], mine)
      invariant order == IdOrder(kept, key) && byId == LastById(kept, key)
    {
      assert log[..i + 1][..i] == log[..i];
      if mine(log[i]) {
        assert (kept + [log[i]])[..|kept|] == kept;
        OrderIsFolded(kept, key);
        kept := kept + [log[i]];
        var id := key(log[i]);
        if id != "" {
          order := if id in byId then order else order + [id];
          byId := byId[id := log[i]];
        }
      }
    }
    assert log[..|log|] == log;
    OrderIsFolded(kept, key);
    out := Filter(order, byId, Any);
  }

  method CollectResults(tasks: seq<TaskRecord>, session: string) returns (out: seq<Result>)
    ensures out == Mine(Results(tasks), OwnResult(session))
  {
    out := [];
    for i := 0 to |tasks|
      invariant out == Mine(Results(tasks[..i]), OwnResult(session))
    {
      assert tasks[..i + 1][..i] == tasks[..i];
      if tasks[i].ResultRecord? {
        var before := Results(tasks[..i]);
        assert (before + [tasks[i].result])[..|before|] == before;
        if tasks[i].result.session == session {
          out := out + [tasks[i].result];
        }
      }
    }
    assert tasks[..|tasks|] == tasks;
  }

  /** `_event_plane_for_session`: `None` where a line that is no object raises, and nothing without a
      session. */
  method ExportSession(f: Files, session: string) returns (e: Option<Option<SessionExport>>)
    ensures e == if session != "" && !Clean(f) then None else Some(ExportOf(Seen(f), session))
  {
    if session == "" {
      return Some(None);
    }
    var tasks := IterRecords(f.tasks);
    var waits := IterRecords(f.waits);
    var mailbox := IterRecords(f.mailbox);
    if tasks.None? || waits.None? || mailbox.None? {
      return None;
    }
    var requests := CollectCurrent(Requests(tasks.value), RequestKey, OwnRequest(session));
    var results := CollectResults(tasks.value, session);
    var open := CollectCurrent(waits.value, WaitKey, OwnWait(session));
    var items := CollectCurrent(mailbox.value, ItemKey, OwnItem(session));
    e := Some(Some(SessionExport(session, requests, results, open, items)));
  }

  // ----- the export of the files ---------------------------------------------------------

  /** What is listed are the current records of the session, once each, and its results in order. */
  ghost predicate ExportsStore(e: SessionExport, s: Store, session: string) {
    && Lists(e.requests, s.requests, RequestKey, OwnRequest(session))
    && Lists(e.waits, s.waits, WaitKey, OwnWait(session))
    && Lists(e.mailbox, s.items, ItemKey, OwnItem(session))
    && e.results == Mine(s.results, OwnResult(session))
  }

  lemma {:induction false} LastIsFromLog<T>(log: seq<T>, key: T -> string)
    ensures forall id :: id in LastById(log, key) ==> LastById(log, key)[id] in log
  {
    if log != [] {
      LastIsFromLog(log[..|log| - 1], key);
      assert log == log[..|log| - 1] + [log[|log| - 1]];
    }
  }

  /** Every request was registered in some session. */
  predicate InSessions(s: Store) {
    forall id :: id in s.requests ==> s.requests[id].session != ""
  }

  lemma StepStaysInSessions(s: Store, c: Call)
    ensures InSessions(s) ==> InSessions(StoreStep(s, c).0)
  {
  }

  lemma {:induction false} PlayStaysInSessions(calls: seq<Call>, ss: seq<Store>, n: nat)
    requires IsStorePlay(calls, ss) && n <= |calls|
    ensures InSessions(ss[n])
  {
    if n > 0 {
      PlayStaysInSessions(calls, ss, n - 1);
      StepStaysInSessions(ss[n - 1], calls[n - 1]);
      StoreStepAt(calls, ss, n - 1);
    }
  }

  lemma AllInSessions(s: Store)
    requires Consistent(s) && InSessions(s)
    ensures forall id :: id in s.waits ==> s.waits[id].session != ""
    ensures forall id :: id in s.items ==> s.items[id].session != ""
    ensures forall r :: r in s.results ==> r.session != ""
  {
  }

  lemma NotListed<T(!new)>(listed: seq<T>, m: map<string, T>, key: T -> string, mine: T -> bool, id: string)
    requires id in m && key(m[id]) == id && mine(m[id]) && m[id] !in listed
    ensures !Lists(listed, m, key, mine)
  {
  }

  lemma TornRequestIsMissing(f: Files, s: Store, id: string)
    requires Faithful(f) && Keyed(s) && id in s.requests && !Intact(RequestStrings(s.requests[id]))
    ensures var session := s.requests[id].session;
            session != "" ==> !ExportsStore(ExportOf(Seen(f), session).value, s, session)
  {
    var r := s.requests[id];
    RequestIsMissing(f, r);
    NotListed(Current(Requests(Records(f.tasks)), RequestKey, OwnRequest(r.session)), s.requests, RequestKey,
              OwnRequest(r.session), id);
  }

  lemma TornWaitIsMissing(f: Files, s: Store, id: string)
    requires Faithful(f) && Keyed(s) && id in s.waits && !Intact(WaitStrings(s.waits[id]))
    ensures var session := s.waits[id].session;
            session != "" ==> !ExportsStore(ExportOf(Seen(f), session).value, s, session)
  {
    var w := s.waits[id];
    CurrentIsOwn(Records(f.waits), WaitKey, OwnWait(w.session));
    NotListed(Current(Records(f.waits), WaitKey, OwnWait(w.session)), s.waits, WaitKey, OwnWait(w.session), id);
  }

  lemma TornItemIsMissing(f: Files, s: Store, id: string)
    requires Faithful(f) && Keyed(s) && id in s.items && !Intact(ItemStrings(s.items[id]))
    ensures var session := s.items[id].session;
            session != "" ==> !ExportsStore(ExportOf(Seen(f), session).value, s, session)
  {
    var i := s.items[id];
    CurrentIsOwn(Records(f.mailbox), ItemKey, OwnItem(i.session));
    NotListed(Current(Records(f.mailbox), ItemKey, OwnItem(i.session)), s.items, ItemKey, OwnItem(i.session), id);
  }

  /** A torn record of the store is missing from the export of its session. */
  lemma TornIsMissing(f: Files, s: Store) returns (session: string)
    requires Faithful(f) && Consistent(s) && InSessions(s) && StoreTorn(s)
    ensures session != "" && !ExportsStore(ExportOf(Seen(f), session).value, s, session)
  {
    AllInSessions(s);
    if id :| id in s.requests && !Intact(RequestStrings(s.requests[id])) {
      session := s.requests[id].session;
      TornRequestIsMissing(f, s, id);
    } else if id :| id in s.waits && !Intact(WaitStrings(s.waits[id])) {
      session := s.waits[id].session;
      TornWaitIsMissing(f, s, id);
    } else if id :| id in s.items && !Intact(ItemStrings(s.items[id])) {
      session := s.items[id].session;
      TornItemIsMissing(f, s, id);
    } else {
      var r :| r in s.results && !Intact(ResultStrings(r));
      session := r.session;
      ResultIsMissing(f, s, r);
    }
  }

  lemma RequestIsMissing(f: Files, r: Request)
    requires Faithful(f) && !Intact(RequestStrings(r))
    ensures r !in Current(Requests(Records(f.tasks)), RequestKey, OwnRequest(r.session))
  {
    RequestsAreTasks(Records(f.tasks));
    CurrentIsOwn(Requests(Records(f.tasks)), RequestKey, OwnRequest(r.session));
    assert TaskStrings(RequestRecord(r)) == RequestStrings(r);
  }

  lemma ResultIsMissing(f: Files, s: Store, r: Result)
    requires Faithful(f) && !Intact(ResultStrings(r)) && r in s.results
    ensures Mine(Results(Records(f.tasks)), OwnResult(r.session)) != Mine(s.results, OwnResult(r.session))
  {
    RequestsAreTasks(Records(f.tasks));
    MineHolds(Results(Records(f.tasks)), OwnResult(r.session));
    MineHolds(s.results, OwnResult(r.session));
    assert TaskStrings(ResultRecord(r)) == ResultStrings(r);
  }

  /** After any sound sequence of calls, the exports of all sessions from the files are those of the
      abstract store, exactly if every call that appended is readable. */
  lemma FilesExportIff(json: Json, calls: seq<Call>, ps: seq<Plane>, fs: seq<Files>, ss: seq<Store>, n: nat)
    requires IsFilePlay(json, calls, fs) && IsSoundPlay(calls, ps) && IsStorePlay(calls, ss) && n <= |calls|
    ensures (forall session :: session != "" ==> ExportsStore(ExportOf(Seen(fs[n]), session).value, ss[n], session))
            <==> AllReadable(calls, ps, n)
  {
    if AllReadable(calls, ps, n) {
      ReadableIsReadBack(json, calls, ps, fs, n);
      forall session: string | session != ""
        ensures ExportsStore(ExportOf(Seen(fs[n]), session).value, ss[n], session)
      {
        ExportIsExact(calls, ps, ss, n, session);
      }
    } else {
      UnreadableTearsTheStore(calls, ps, ss, n);
      PlaneRefinesStore(calls, ps, ss, n);
      PlayStaysInSessions(calls, ss, n);
      PlayIsFaithful(json, calls, fs, n);
      var session := TornIsMissing(fs[n], ss[n]);
    }
  }

  // ----- what an export refers to --------------------------------------------------------

  /** A request with this id was read in this session. */
  predicate IsBacked(requests: seq<Request>, id: string, session: string) {
    exists i :: 0 <= i < |requests| && requests[i].id == id && requests[i].session == session
  }

  predicate ItemsBacked(p: Plane) {
    forall i :: i in p.mailbox ==> IsBacked(Requests(p.tasks), i.requestId, i.session)
  }

  predicate ResultsBacked(p: Plane) {
    forall r :: r in Results(p.tasks) ==> IsBacked(Requests(p.tasks), r.requestId, r.session)
  }

  predicate Backed(p: Plane) {
    ItemsBacked(p) && ResultsBacked(p)
  }

  lemma StillBacked(requests: seq<Request>, r: Request, id: string, session: string)
    requires IsBacked(requests, id, session)
    ensures IsBacked(requests + [r], id, session)
  {
    var i :| 0 <= i < |requests| && requests[i].id == id && requests[i].session == session;
    assert (requests + [r])[i] == requests[i];
  }

  lemma RequestKeepsBacked(json: Json, f: Files, r: Request)
    ensures Backed(Seen(f)) ==> Backed(Seen(f.(tasks := f.tasks + [TaskRow(json, RequestRecord(r))])))
  {
    var requests := Requests(Records(f.tasks));
    TaskNext(json, f.tasks, RequestRecord(r));
    TaskAppends(Records(f.tasks), RequestRecord(r));
    forall id, session | IsBacked(requests, id, session)
      ensures IsBacked(requests + [r], id, session)
    {
      StillBacked(requests, r, id, session);
    }
  }

  lemma FoundIsBacked(p: Plane, id: string)
    ensures var req := LatestRequest(p, id); req.Some? ==> IsBacked(Requests(p.tasks), id, req.value.session)
  {
    var i := SomeoneWins(Requests(p.tasks), RequestKey, RequestAt, id);
  }

  lemma ResultKeepsBacked(json: Json, f: Files, c: Call)
    requires c.Ingest? && FileIngestOk(f, c)
    ensures Backed(Seen(f)) ==> Backed(Seen(WithResult(json, f, c)))
  {
    var req := RequestOf(f, c);
    FoundIsBacked(Seen(f), c.requestId);
    TaskNext(json, f.tasks, ResultRecord(NewResult(req, c)));
    TaskAppends(Records(f.tasks), ResultRecord(NewResult(req, c)));
    ItemNext(json, f.mailbox, NewItemFor(req, c));
  }

  lemma SameTasksSameBacked(f: Files, g: Files)
    requires f.tasks == g.tasks && f.mailbox == g.mailbox
    ensures Backed(Seen(f)) <==> Backed(Seen(g))
  {
  }

  lemma ClosingKeepsBacked(json: Json, f: Files, req: Request, c: Call)
    requires c.Ingest?
    ensures Backed(Seen(f)) ==> Backed(Seen(Closed(json, f, req, c)))
  {
    RequestKeepsBacked(json, f, Complete(req, c.ticks.t3));
    SameTasksSameBacked(f.(tasks := f.tasks + [TaskRow(json, RequestRecord(Complete(req, c.ticks.t3)))]),
                        Closed(json, f, req, c));
  }

  lemma RegisterKeepsBacked(json: Json, f: Files, c: Call)
    requires c.Register?
    ensures Backed(Seen(f)) ==> Backed(Seen(FileRegister(json, f, c).0))
  {
    if RegisterOk(c) {
      RequestKeepsBacked(json, f, NewRequest(c));
      SameTasksSameBacked(f.(tasks := f.tasks + [TaskRow(json, RequestRecord(NewRequest(c)))]),
                          FileRegister(json, f, c).0);
    }
  }

  lemma IngestKeepsBacked(json: Json, f: Files, c: Call)
    requires c.Ingest?
    ensures Backed(Seen(f)) ==> Backed(Seen(FileIngest(json, f, c).0))
  {
    if FileIngestOk(f, c) {
      ResultKeepsBacked(json, f, c);
      ClosingKeepsBacked(json, WithResult(json, f, c), RequestOf(f, c), c);
    }
  }

  lemma RewriteKeepsBacked(json: Json, f: Files, before: Item, item: Item)
    requires before in Records(f.mailbox) && item.requestId == before.requestId && item.session == before.session
    ensures Backed(Seen(f)) ==> Backed(Seen(FileRewrite(json, f, item)))
  {
    ItemNext(json, f.mailbox, item);
  }

  lemma FileDoKeepsBacked(json: Json, f: Files, c: Call)
    ensures Backed(Seen(f)) ==> Backed(Seen(FileDo(json, f, c).0))
  {
    FoundIsRead(Seen(f), "", if c.Ack? || c.Wake? then c.itemId else "");
    match c {
      case Register(_, _, _, _, _, _, _, _, _, _, _, _) => RegisterKeepsBacked(json, f, c);
      case Ingest(_, _, _, _, _, _, _, _, _, _) => IngestKeepsBacked(json, f, c);
      case Ack(_, _, _) =>
        var item := LatestItem(Seen(f), c.itemId);
        if item.Some? {
          RewriteKeepsBacked(json, f, item.value, item.value.(delivery := c.status, updatedAt := c.ticks.t0));
        }
      case Wake(_, _, _, _) =>
        var req, item := LatestRequest(Seen(f), c.requestId), LatestItem(Seen(f), c.itemId);
        if req.Some? && item.Some? {
          var choice := Evaluate(req.value.policy, c.view);
          RewriteKeepsBacked(json, f, item.value, item.value.(wake := choice, updatedAt := c.ticks.t0));
        }
    }
  }

  lemma {:induction false} PlayIsBacked(json: Json, calls: seq<Call>, fs: seq<Files>, n: nat)
    requires IsFilePlay(json, calls, fs) && n <= |calls|
    ensures Backed(Seen(fs[n]))
  {
    if n > 0 {
      var m: nat := n - 1;
      PlayIsBacked(json, calls, fs, m);
      FileDoKeepsBacked(json, fs[m], calls[m]);
      assert fs[n] == FileDo(json, fs[m], calls[m]).0;
    }
  }

  lemma BackedIsListed(requests: seq<Request>, id: string, session: string)
    requires IsBacked(requests, id, session) && id != ""
    ensures HasRequest(Current(requests, RequestKey, OwnRequest(session)), id)
  {
    var mine := OwnRequest(session);
    var kept := Mine(requests, mine);
    var i :| 0 <= i < |requests| && requests[i].id == id && requests[i].session == session;
    MineHolds(requests, mine);
    assert requests[i] in kept;
    var j :| 0 <= j < |kept| && kept[j] == requests[i];
    var k := LastOfId(kept, RequestKey, id);
    OrderIsFolded(kept, RequestKey);
    SelectAny(IdOrder(kept, RequestKey), LastById(kept, RequestKey));
    var x :| 0 <= x < |IdOrder(kept, RequestKey)| && IdOrder(kept, RequestKey)[x] == id;
    assert Current(requests, RequestKey, mine)[x].id == id;
  }

  /** Torn records or not, every item and every result that an export of the files lists refers to a
      request that it lists. */
  lemma FilesExportIsClosed(json: Json, calls: seq<Call>, fs: seq<Files>, n: nat, session: string)
    requires IsFilePlay(json, calls, fs) && n <= |calls| && session != ""
    ensures var e := ExportOf(Seen(fs[n]), session).value;
            && (forall i :: i in e.mailbox && i.requestId != "" ==> HasRequest(e.requests, i.requestId))
            && (forall r :: r in e.results && r.requestId != "" ==> HasRequest(e.requests, r.requestId))
  {
    var p := Seen(fs[n]);
    var e := ExportOf(p, session).value;
    PlayIsBacked(json, calls, fs, n);
    MineHolds(Results(p.tasks), OwnResult(session));
    MineHolds(p.mailbox, OwnItem(session));
    CurrentIsOwn(p.mailbox, ItemKey, OwnItem(session));
    forall i | i in e.mailbox && i.requestId != ""
      ensures HasRequest(e.requests, i.requestId)
    {
      BackedIsListed(Requests(p.tasks), i.requestId, session);
    }
    forall r | r in e.results && r.requestId != ""
      ensures HasRequest(e.requests, r.requestId)
    {
      BackedIsListed(Requests(p.tasks), r.requestId, session);
    }
  }

  lemma CurrentIsOwn<T>(log: seq<T>, key: T -> string, mine: T -> bool)
    ensures forall r :: r in Current(log, key, mine) ==> r in log && mine(r)
  {
    var kept := Mine(log, mine);
    OrderIsFolded(kept, key);
    SelectAny(IdOrder(kept, key), LastById(kept, key));
    MineHolds(log, mine);
    LastIsFromLog(kept, key);
  }

  /** But a wait can refer to a request that is missing: the wait does not repeat the target. */
  lemma TornRequestLeavesItsWait(json: Json, f: Files, c: Call)
    requires c.Register? && RegisterOk(c) && c.waitId != ""
    requires !Intact(RequestStrings(NewRequest(c))) && Intact(WaitStrings(NewWait(c)))
    requires forall r :: r in Requests(Records(f.tasks)) ==> r.id != c.requestId
    ensures var e := ExportOf(Seen(FileDo(json, f, c).0), c.session).value;
            NewWait(c) in e.waits && !HasRequest(e.requests, c.requestId)
  {
    var g := FileDo(json, f, c).0;
    TaskNext(json, f.tasks, RequestRecord(NewRequest(c)));
    WaitNext(json, f.waits, NewWait(c));
    CurrentIsOwn(Requests(Records(g.tasks)), RequestKey, OwnRequest(c.session));
    NewestIsCurrent(Records(f.waits), NewWait(c), c.session);
  }

  lemma NewestIsCurrent(waits: seq<Wait>, w: Wait, session: string)
    requires w.id != "" && w.session == session
    ensures w in Current(waits + [w], WaitKey, OwnWait(session))
  {
    var kept := Mine(waits, OwnWait(session));
    assert (waits + [w])[..|waits|] == waits;
    assert (kept + [w])[..|kept|] == kept;
    var order, m := IdOrder(kept + [w], WaitKey), LastById(kept + [w], WaitKey);
    OrderIsFolded(kept + [w], WaitKey);
    SelectAny(order, m);
    var x :| 0 <= x < |order| && order[x] == w.id;
    assert Current(waits + [w], WaitKey, OwnWait(session))[x] == w;
  }
}
