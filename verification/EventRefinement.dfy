/** The logs of the event plane behave like plain maps from id to current record. */
module EventRefinement {
  import opened Options
  import opened EventFold
  import opened EventPlane

  /** The abstract store: what is current, without any history of appends. */
  datatype Store = Store(
    requests: map<string, Request>,
    waits: map<string, Wait>,
    items: map<string, Item>,
    results: seq<Result>)

  function Abstract(p: Plane): Store {
    Store(ById(Requests(p.tasks), RequestKey, RequestAt),
          ById(p.waits, WaitKey, WaitAt),
          ById(p.mailbox, ItemKey, ItemAt),
          Results(p.tasks))
  }

  ghost function WaitOf(s: Store, requestId: string): Option<Wait> {
    if exists id :: id in s.waits && s.waits[id].requestId == requestId then
      var id :| id in s.waits && s.waits[id].requestId == requestId;
      Some(s.waits[id])
    else None
  }

  function StoreRegister(s: Store, c: Call): Store
    requires c.Register?
  {
    s.(requests := s.requests[c.requestId := NewRequest(c)], waits := s.waits[c.waitId := NewWait(c)])
  }

  function StoreIngest(s: Store, req: Request, wait: Option<Wait>, c: Call): Store
    requires c.Ingest?
  {
    Store(s.requests[c.requestId := Complete(req, c.ticks.t3)],
          if wait.Some? && wait.value.status.Waiting? then s.waits[wait.value.id := Resolve(wait.value, c.ticks.t2)]
          else s.waits,
          s.items[c.itemId := NewItemFor(req, c)],
          s.results + [NewResult(req, c)])
  }

  function StoreRewrite(s: Store, id: string, item: Item): Store {
    s.(items := s.items[id := item])
  }

  /** The calls as updates of maps. */
  ghost function StoreStep(s: Store, c: Call): (Store, Response) {
    match c
    case Register(_, _, _, _, _, _, _, _, _, rid, wid, _) =>
      if !RegisterOk(c) then (s, Rejected)
      else (StoreRegister(s, c), Registered(rid, wid, c.session))
    case Ingest(rid, provider, kind, _, _, _, key, resultId, itemId, ticks) =>
      if rid !in s.requests || kind !in RESULT_KINDS then (s, Rejected)
      else
        var req := s.requests[rid];
        var known := if key != "" then FindStamped(s.results, rid, key) else None;
        if req.provider != "" && provider != "" && provider != req.provider then (s, Rejected)
        else if known.Some? then (s, Deduped(known.value.id, StoredItemId(known.value), req.session))
        else (StoreIngest(s, req, WaitOf(s, rid), c), Ingested(resultId, itemId, req.session))
    case Ack(itemId, status, ticks) =>
      if status.NewItem? || itemId !in s.items then (s, Rejected)
      else (StoreRewrite(s, itemId, s.items[itemId].(delivery := status, updatedAt := ticks.t0)), Acked(itemId))
    case Wake(rid, itemId, view, ticks) =>
      if rid !in s.requests || itemId !in s.items then (s, Rejected)
      else
        var choice := Evaluate(s.requests[rid].policy, view);
        (StoreRewrite(s, itemId, s.items[itemId].(wake := choice, updatedAt := ticks.t0)), Decided(choice))
  }

  /** The stores that `calls` lead through, from the empty one. */
  ghost predicate IsStorePlay(calls: seq<Call>, ss: seq<Store>) {
    && |ss| == |calls| + 1 && ss[0] == Store(map[], map[], map[], [])
    && forall i {:trigger StoreStep(ss[i], calls[i])} :: 0 <= i < |calls| ==> ss[i + 1] == StoreStep(ss[i], calls[i]).0
  }

  // ----- referential integrity -----------------------------------------------------------

  ghost predicate Keyed(s: Store) {
    && (forall id :: id in s.requests ==> s.requests[id].id == id)
    && (forall id :: id in s.waits ==> s.waits[id].id == id)
    && (forall id :: id in s.items ==> s.items[id].id == id)
    && "" !in s.requests && "" !in s.waits && "" !in s.items
  }

  /** Every request has a wait, and only one. */
  ghost predicate OneWaitEach(s: Store) {
    && (forall rid :: rid in s.requests ==> exists w :: w in s.waits && s.waits[w].requestId == rid)
    && (forall v, w :: v in s.waits && w in s.waits && s.waits[v].requestId == s.waits[w].requestId ==> v == w)
  }

  /** A wait belongs to a request of its session and is open exactly while the request is. */
  ghost predicate WaitsMatch(s: Store) {
    forall w :: w in s.waits ==>
      && s.waits[w].requestId in s.requests
      && s.waits[w].session == s.requests[s.waits[w].requestId].session
      && (s.waits[w].status.Waiting? <==> s.requests[s.waits[w].requestId].status.PendingTask?)
  }

  ghost predicate SessionsMatch(s: Store) {
    && (forall i :: i in s.items ==>
          s.items[i].requestId in s.requests && s.items[i].session == s.requests[s.items[i].requestId].session)
    && (forall r :: r in s.results ==>
          r.requestId in s.requests && r.session == s.requests[r.requestId].session)
  }

  ghost predicate Consistent(s: Store) {
    Keyed(s) && OneWaitEach(s) && WaitsMatch(s) && SessionsMatch(s)
  }

  lemma WaitOfRequest(s: Store, rid: string)
    requires Consistent(s) && rid in s.requests
    ensures var w := WaitOf(s, rid);
            w.Some? && w.value.requestId == rid && w.value.id in s.waits && s.waits[w.value.id] == w.value
  {
  }

  lemma RegisterKeepsOneWait(s: Store, c: Call)
    requires OneWaitEach(s) && WaitsMatch(s) && c.Register?
    requires c.requestId !in s.requests && c.waitId !in s.waits
    ensures OneWaitEach(StoreRegister(s, c))
  {
    var t := StoreRegister(s, c);
    forall rid | rid in t.requests
      ensures exists w :: w in t.waits && t.waits[w].requestId == rid
    {
      if rid == c.requestId {
        assert t.waits[c.waitId].requestId == rid;
      } else {
        var w :| w in s.waits && s.waits[w].requestId == rid;
        assert t.waits[w].requestId == rid;
      }
    }
  }

  lemma RegisterKeepsMatches(s: Store, c: Call)
    requires Keyed(s) && WaitsMatch(s) && SessionsMatch(s) && c.Register? && c.requestId != "" && c.waitId != ""
    requires c.requestId !in s.requests && c.waitId !in s.waits
    ensures var t := StoreRegister(s, c); Keyed(t) && WaitsMatch(t) && SessionsMatch(t)
  {
  }

  lemma RegisterIsConsistent(s: Store, c: Call)
    requires Consistent(s) && c.Register? && c.requestId != "" && c.waitId != ""
    requires c.requestId !in s.requests && c.waitId !in s.waits
    ensures Consistent(StoreStep(s, c).0)
  {
    RegisterKeepsOneWait(s, c);
    RegisterKeepsMatches(s, c);
  }

  lemma IngestKeepsOneWait(s: Store, req: Request, wait: Wait, c: Call)
    requires OneWaitEach(s) && c.Ingest? && c.requestId in s.requests
    requires wait.id in s.waits && s.waits[wait.id] == wait
    ensures OneWaitEach(StoreIngest(s, req, Some(wait), c))
  {
    var t := StoreIngest(s, req, Some(wait), c);
    assert forall w :: w in t.waits <==> w in s.waits;
    assert forall w :: w in t.waits ==> t.waits[w].requestId == s.waits[w].requestId;
    forall rid | rid in t.requests
      ensures exists w :: w in t.waits && t.waits[w].requestId == rid
    {
      var w :| w in s.waits && s.waits[w].requestId == rid;
      assert t.waits[w].requestId == rid;
    }
  }

  lemma IngestKeepsWaitsMatched(s: Store, wait: Wait, c: Call)
    requires Consistent(s) && c.Ingest? && c.requestId in s.requests
    requires wait.id in s.waits && s.waits[wait.id] == wait && wait.requestId == c.requestId
    ensures WaitsMatch(StoreIngest(s, s.requests[c.requestId], Some(wait), c))
  {
    var t := StoreIngest(s, s.requests[c.requestId], Some(wait), c);
    forall w | w in t.waits
      ensures t.waits[w].requestId in t.requests
           && t.waits[w].session == t.requests[t.waits[w].requestId].session
           && (t.waits[w].status.Waiting? <==> t.requests[t.waits[w].requestId].status.PendingTask?)
    {
      assert w in s.waits;
    }
  }

  lemma IngestKeepsSessions(s: Store, wait: Wait, c: Call)
    requires Keyed(s) && SessionsMatch(s) && c.Ingest? && c.itemId != "" && c.requestId in s.requests
    requires wait.id in s.waits && s.waits[wait.id] == wait
    ensures var t := StoreIngest(s, s.requests[c.requestId], Some(wait), c); Keyed(t) && SessionsMatch(t)
  {
  }

  lemma StoreIngestIsConsistent(s: Store, wait: Wait, c: Call)
    requires Consistent(s) && c.Ingest? && c.itemId != "" && c.requestId in s.requests
    requires wait.id in s.waits && s.waits[wait.id] == wait && wait.requestId == c.requestId
    ensures Consistent(StoreIngest(s, s.requests[c.requestId], Some(wait), c))
  {
    IngestKeepsOneWait(s, s.requests[c.requestId], wait, c);
    IngestKeepsWaitsMatched(s, wait, c);
    IngestKeepsSessions(s, wait, c);
  }

  lemma IngestIsConsistent(s: Store, c: Call)
    requires Consistent(s) && c.Ingest? && c.itemId != ""
    ensures Consistent(StoreStep(s, c).0)
  {
    if c.requestId in s.requests {
      WaitOfRequest(s, c.requestId);
      StoreIngestIsConsistent(s, WaitOf(s, c.requestId).value, c);
    }
  }

  lemma RewriteIsConsistent(s: Store, id: string, item: Item)
    requires Consistent(s) && id in s.items
    requires item.id == id && item.requestId == s.items[id].requestId && item.session == s.items[id].session
    ensures Consistent(StoreRewrite(s, id, item))
  {
  }

  // ----- refinement, call by call --------------------------------------------------------

  /** What the refinement needs of the logs: in each of them the fold without the guard gives
      the same records, and the records of one request stay in one session. */
  ghost predicate Tidy(p: Plane) {
    && LastById(Requests(p.tasks), RequestKey) == ById(Requests(p.tasks), RequestKey, RequestAt)
    && LastById(p.waits, WaitKey) == ById(p.waits, WaitKey, WaitAt)
    && LastById(p.mailbox, ItemKey) == ById(p.mailbox, ItemKey, ItemAt)
    && (forall r, q :: r in Requests(p.tasks) && q in Requests(p.tasks) && r.id == q.id ==> r.session == q.session)
  }

  lemma FreshAppend<T>(log: seq<T>, key: T -> string, at: T -> Stamp, r: T)
    requires key(r) != "" && forall x :: x in log ==> at(x) <= at(r)
    ensures ById(log + [r], key, at) == ById(log, key, at)[key(r) := r]
    ensures LastById(log + [r], key) == LastById(log, key)[key(r) := r]
  {
    FreshAppendTakesOver(log, key, at, r);
    assert (log + [r])[..|log|] == log;
  }

  lemma TaskAppends(tasks: seq<TaskRecord>, r: TaskRecord)
    ensures Requests(tasks + [r]) == if r.RequestRecord? then Requests(tasks) + [r.request] else Requests(tasks)
    ensures Results(tasks + [r]) == if r.ResultRecord? then Results(tasks) + [r.result] else Results(tasks)
  {
    assert (tasks + [r])[..|tasks|] == tasks;
  }

  lemma RequestLookup(p: Plane, id: string)
    requires id != ""
    ensures LatestRequest(p, id).Some? <==> id in Abstract(p).requests
    ensures id in Abstract(p).requests ==> LatestRequest(p, id) == Some(Abstract(p).requests[id])
  {
    ByIdIsLatest(Requests(p.tasks), RequestKey, RequestAt, id);
  }

  /** No record has an empty id, so nothing is found under one. */
  lemma NothingUnderEmptyId(p: Plane)
    requires (forall r :: r in Requests(p.tasks) ==> r.id != "") && (forall i :: i in p.mailbox ==> i.id != "")
    ensures LatestRequest(p, "").None? && LatestItem(p, "").None?
  {
    var i := SomeoneWins(Requests(p.tasks), RequestKey, RequestAt, "");
    var j := SomeoneWins(p.mailbox, ItemKey, ItemAt, "");
    forall k | 0 <= k < |Requests(p.tasks)|
      ensures RequestKey(Requests(p.tasks)[k]) != ""
    {
      assert Requests(p.tasks)[k] in Requests(p.tasks);
    }
    forall k | 0 <= k < |p.mailbox|
      ensures ItemKey(p.mailbox[k]) != ""
    {
      assert p.mailbox[k] in p.mailbox;
    }
  }

  ghost predicate NamedRecords(p: Plane) {
    && (forall r :: r in Requests(p.tasks) ==> r.id != "")
    && (forall w :: w in p.waits ==> w.id != "")
    && (forall i :: i in p.mailbox ==> i.id != "")
  }

  ghost predicate Good(p: Plane) {
    Consistent(Abstract(p)) && Tidy(p) && NamedRecords(p)
  }

  lemma Lookups(p: Plane, requestId: string, itemId: string)
    requires Good(p)
    ensures LatestRequest(p, requestId)
         == if requestId in Abstract(p).requests then Some(Abstract(p).requests[requestId]) else None
    ensures LatestItem(p, itemId) == if itemId in Abstract(p).items then Some(Abstract(p).items[itemId]) else None
  {
    NothingUnderEmptyId(p);
    if requestId != "" {
      RequestLookup(p, requestId);
    }
    if itemId != "" {
      ByIdIsLatest(p.mailbox, ItemKey, ItemAt, itemId);
    }
  }

  lemma {:induction false} OnlyEntered(order: seq<string>, waits: map<string, Wait>, requestId: string, id: string)
    requires forall x :: x in order ==> x in waits
    requires id in waits && waits[id].requestId == requestId
    requires forall x :: x in waits && waits[x].requestId == requestId ==> x == id
    ensures LastEntered(order, waits, requestId) == if id in order then Some(waits[id]) else None
  {
    if order != [] {
      OnlyEntered(order[..|order| - 1], waits, requestId, id);
    }
  }

  /** The ingest service's own unguarded search finds the one wait of the request. */
  lemma ServiceFindsTheWait(p: Plane, requestId: string)
    requires Good(p) && requestId in Abstract(p).requests
    ensures WaitForRequest(p, requestId) == WaitOf(Abstract(p), requestId)
  {
    var s := Abstract(p);
    WaitOfRequest(s, requestId);
    var id := WaitOf(s, requestId).value.id;
    OrderIsFolded(p.waits, WaitKey);
    OnlyEntered(IdOrder(p.waits, WaitKey), LastById(p.waits, WaitKey), requestId, id);
  }

  lemma RegisterRefines(p: Plane, c: Call)
    requires Good(p) && c.Register? && Sound(p, c) && RegisterOk(c)
    ensures var q := DoRegister(p, c).0; Abstract(q) == StoreRegister(Abstract(p), c) && Tidy(q) && NamedRecords(q)
  {
    var q := DoRegister(p, c).0;
    TaskAppends(p.tasks, RequestRecord(NewRequest(c)));
    FreshAppend(Requests(p.tasks), RequestKey, RequestAt, NewRequest(c));
    FreshAppend(p.waits, WaitKey, WaitAt, NewWait(c));
    assert Requests(q.tasks) == Requests(p.tasks) + [NewRequest(c)];
  }

  lemma TasksRefine(p: Plane, req: Request, c: Call)
    requires Good(p) && c.Ingest? && Sound(p, c) && LatestRequest(p, c.requestId) == Some(req)
    ensures var tasks := p.tasks + [ResultRecord(NewResult(req, c))] + [RequestRecord(Complete(req, c.ticks.t3))];
            var s := Abstract(p);
            && c.requestId in s.requests && s.requests[c.requestId] == req
            && Requests(tasks) == Requests(p.tasks) + [Complete(req, c.ticks.t3)]
            && Results(tasks) == s.results + [NewResult(req, c)]
            && ById(Requests(tasks), RequestKey, RequestAt) == s.requests[c.requestId := Complete(req, c.ticks.t3)]
            && LastById(Requests(tasks), RequestKey) == s.requests[c.requestId := Complete(req, c.ticks.t3)]
            && req in Requests(p.tasks)
  {
    Lookups(p, c.requestId, "");
    var done := Complete(req, c.ticks.t3);
    TaskAppends(p.tasks, ResultRecord(NewResult(req, c)));
    TaskAppends(p.tasks + [ResultRecord(NewResult(req, c))], RequestRecord(done));
    ByIdMembers(Requests(p.tasks), RequestKey, RequestAt);
    FreshAppend(Requests(p.tasks), RequestKey, RequestAt, done);
  }

  lemma WaitsRefine(p: Plane, c: Call)
    requires Good(p) && c.Ingest? && Sound(p, c) && c.requestId in Abstract(p).requests
    ensures var wait := WaitForRequest(p, c.requestId);
            var s := Abstract(p);
            && wait == WaitOf(s, c.requestId) && wait.Some? && wait.value.id != ""
            && (wait.value.status.Waiting? ==>
                  var waits := p.waits + [Resolve(wait.value, c.ticks.t2)];
                  && ById(waits, WaitKey, WaitAt) == s.waits[wait.value.id := Resolve(wait.value, c.ticks.t2)]
                  && LastById(waits, WaitKey) == ById(waits, WaitKey, WaitAt))
  {
    ServiceFindsTheWait(p, c.requestId);
    WaitOfRequest(Abstract(p), c.requestId);
    var wait := WaitOf(Abstract(p), c.requestId).value;
    FreshAppend(p.waits, WaitKey, WaitAt, Resolve(wait, c.ticks.t2));
  }

  lemma AppendedRefines(p: Plane, req: Request, c: Call)
    requires Good(p) && c.Ingest? && Sound(p, c) && LatestRequest(p, c.requestId) == Some(req)
    ensures var q := Appended(p, req, c);
            && Tidy(q) && NamedRecords(q)
            && Abstract(q) == StoreIngest(Abstract(p), req, WaitOf(Abstract(p), c.requestId), c)
  {
    TasksRefine(p, req, c);
    WaitsRefine(p, c);
    FreshAppend(p.mailbox, ItemKey, ItemAt, NewItemFor(req, c));
  }

  lemma IngestRefines(p: Plane, c: Call)
    requires Good(p) && c.Ingest? && Sound(p, c)
    ensures var (q, r) := DoIngest(p, c); (Abstract(q), r) == StoreStep(Abstract(p), c) && Tidy(q) && NamedRecords(q)
  {
    Lookups(p, c.requestId, "");
    if IngestOk(p, c) {
      AppendedRefines(p, LatestRequest(p, c.requestId).value, c);
    }
  }

  lemma RewriteRefines(p: Plane, c: Call)
    requires Good(p) && (c.Ack? || c.Wake?) && Sound(p, c)
    ensures var (q, r) := Do(p, c); (Abstract(q), r) == StoreStep(Abstract(p), c) && Tidy(q) && NamedRecords(q)
  {
    Lookups(p, if c.Wake? then c.requestId else "", c.itemId);
    var q := Do(p, c).0;
    if q != p {
      var item := q.mailbox[|q.mailbox| - 1];
      assert q.mailbox == p.mailbox + [item];
      FreshAppend(p.mailbox, ItemKey, ItemAt, item);
    }
  }

  lemma FreshIdsAreNew(p: Plane, c: Call)
    requires Good(p) && Sound(p, c)
    ensures c.Register? ==> c.requestId !in Abstract(p).requests && c.waitId !in Abstract(p).waits
    ensures c.Ingest? ==> c.itemId !in Abstract(p).items
  {
    ByIdMembers(Requests(p.tasks), RequestKey, RequestAt);
    ByIdMembers(p.waits, WaitKey, WaitAt);
    ByIdMembers(p.mailbox, ItemKey, ItemAt);
  }

  lemma RewriteStepIsConsistent(s: Store, c: Call)
    requires Consistent(s) && (c.Ack? || c.Wake?)
    ensures Consistent(StoreStep(s, c).0)
  {
    if c.itemId in s.items {
      var item := s.items[c.itemId];
      if c.Ack? {
        RewriteIsConsistent(s, c.itemId, item.(delivery := c.status, updatedAt := c.ticks.t0));
      } else if c.requestId in s.requests {
        var choice := Evaluate(s.requests[c.requestId].policy, c.view);
        RewriteIsConsistent(s, c.itemId, item.(wake := choice, updatedAt := c.ticks.t0));
      }
    }
  }

  lemma StepIsConsistent(p: Plane, c: Call)
    requires Good(p) && Sound(p, c)
    ensures Consistent(StoreStep(Abstract(p), c).0)
  {
    FreshIdsAreNew(p, c);
    var s := Abstract(p);
    if c.Register? {
      RegisterIsConsistent(s, c);
    } else if c.Ingest? {
      IngestIsConsistent(s, c);
    } else {
      RewriteStepIsConsistent(s, c);
    }
  }

  /** Each call on the logs is the corresponding update of the maps, with the same response. */
  lemma CallRefines(p: Plane, c: Call)
    requires Good(p) && Sound(p, c)
    ensures var (q, r) := Do(p, c); (Abstract(q), r) == StoreStep(Abstract(p), c) && Good(q)
  {
    StepIsConsistent(p, c);
    match c {
      case Register(_, _, _, _, _, _, _, _, _, _, _, _) =>
        if RegisterOk(c) {
          RegisterRefines(p, c);
        }
      case Ingest(_, _, _, _, _, _, _, _, _, _) => IngestRefines(p, c);
      case _ => RewriteRefines(p, c);
    }
  }

  /** Over every sequence of calls with fresh ids and a clock that does not run backwards, the
      folded logs are the abstract store; every request has exactly one wait, open iff the
      request is pending; everything carries its request's session; and the unguarded folds of
      the run export agree with the guarded ones. */
  lemma {:induction false} PlaneRefinesStore(calls: seq<Call>, ps: seq<Plane>, ss: seq<Store>, n: nat)
    requires IsSoundPlay(calls, ps) && IsStorePlay(calls, ss) && n < |ps|
    ensures Abstract(ps[n]) == ss[n] && Good(ps[n])
  {
    if n > 0 {
      PlaneRefinesStore(calls, ps, ss, n - 1);
      assert Sound(ps[n - 1], calls[n - 1]);
      CallRefines(ps[n - 1], calls[n - 1]);
    }
  }

  // ----- independent fields --------------------------------------------------------------

  /** The status last accepted for an item by the first `n` calls. */
  ghost function LastStatus(calls: seq<Call>, ss: seq<Store>, id: string, n: nat): DeliveryStatus
    requires n <= |calls| <= |ss|
  {
    if n == 0 then NewItem
    else
      var c := calls[n - 1];
      if c.Ack? && c.itemId == id && id in ss[n - 1].items && !c.status.NewItem? then c.status
      else LastStatus(calls, ss, id, n - 1)
  }

  /** The last wake decision taken on an item by the first `n` calls. */
  ghost function LastChoice(calls: seq<Call>, ss: seq<Store>, id: string, n: nat): WakeChoice
    requires n <= |calls| <= |ss|
  {
    if n == 0 then Undecided
    else
      var c := calls[n - 1];
      if c.Wake? && c.itemId == id && id in ss[n - 1].items && c.requestId in ss[n - 1].requests then
        Evaluate(ss[n - 1].requests[c.requestId].policy, c.view)
      else LastChoice(calls, ss, id, n - 1)
  }

  /** A call writes at most one field of one item, the one it names. */
  lemma FieldsAfter(s: Store, c: Call, id: string)
    requires c.Ingest? ==> c.itemId !in s.items
    ensures var t := StoreStep(s, c).0;
            && (id in s.items ==> id in t.items)
            && (id in t.items && id !in s.items ==> t.items[id].delivery.NewItem? && t.items[id].wake.Undecided?)
            && (id in s.items ==>
                  && t.items[id].delivery == (if c.Ack? && c.itemId == id && !c.status.NewItem? then c.status
                                              else s.items[id].delivery)
                  && t.items[id].wake == (if c.Wake? && c.itemId == id && c.requestId in s.requests
                                          then Evaluate(s.requests[c.requestId].policy, c.view)
                                          else s.items[id].wake))
  {
  }

  /** Acknowledgements and wake decisions, each a rewrite of the whole item, never overwrite each
      other: after any calls, both fields hold what was last written to them. */
  lemma {:induction false} RewritesDoNotInterfere(calls: seq<Call>, ps: seq<Plane>, ss: seq<Store>, id: string, n: nat)
    requires IsSoundPlay(calls, ps) && IsStorePlay(calls, ss) && n <= |calls|
    ensures id in ss[n].items ==>
              && ss[n].items[id].delivery == LastStatus(calls, ss, id, n)
              && ss[n].items[id].wake == LastChoice(calls, ss, id, n)
    ensures id !in ss[n].items ==> LastStatus(calls, ss, id, n) == NewItem && LastChoice(calls, ss, id, n) == Undecided
  {
    if n > 0 {
      RewritesDoNotInterfere(calls, ps, ss, id, n - 1);
      NewItemsAreNew(calls, ps, ss, n - 1);
      FieldsAfter(ss[n - 1], calls[n - 1], id);
      StoreStepAt(calls, ss, n - 1);
    }
  }

  lemma NewItemsAreNew(calls: seq<Call>, ps: seq<Plane>, ss: seq<Store>, i: nat)
    requires IsSoundPlay(calls, ps) && IsStorePlay(calls, ss) && i < |calls|
    ensures calls[i].Ingest? ==> calls[i].itemId !in ss[i].items
  {
    PlaneRefinesStore(calls, ps, ss, i);
    assert Sound(ps[i], calls[i]);
    FreshIdsAreNew(ps[i], calls[i]);
  }

  lemma StoreStepAt(calls: seq<Call>, ss: seq<Store>, i: nat)
    requires IsStorePlay(calls, ss) && i < |calls|
    ensures ss[i + 1] == StoreStep(ss[i], calls[i]).0
  {
  }

  // ----- late copies ---------------------------------------------------------------------

  /** A waiting record that turns up late, a copy of the start of a wait, reopens the wait unless
      it was resolved strictly after it was entered; then the copy changes no query. */
  lemma LateWaitingCopyReopensIff(log: seq<Wait>, copy: Wait, id: string)
    requires copy.id == id && copy.status.Waiting? && copy.resolvedAt == 0
    requires Latest(log, WaitKey, WaitAt, id).Some? && Latest(log, WaitKey, WaitAt, id).value.status.Satisfied?
    ensures var current := Latest(log, WaitKey, WaitAt, id).value;
            var after := Latest(log + [copy], WaitKey, WaitAt, id).value;
            && (after.status.Waiting? <==> copy.enteredAt >= WaitAt(current))
            && (!after.status.Waiting? ==>
                  forall x :: Latest(log + [copy], WaitKey, WaitAt, x) == Latest(log, WaitKey, WaitAt, x))
  {
    assert (log + [copy])[..|log|] == log;
  }
}
