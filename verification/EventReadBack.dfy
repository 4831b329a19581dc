/** What reading back costs: over every sequence of calls, the files show what was written, and so
    refine the abstract store, exactly as long as every call that appends is readable. */
module EventReadBack {
  import opened Options
  import opened EventFold
  import opened EventPlane
  import opened EventRefinement
  import opened EventLines
  import opened TextLines

  // ----- which records a call writes in one piece ----------------------------------------

  lemma ConstantsAreFree(taskKind: string)
    ensures Free(KEY_FIELD, TEARS) && Free("auto", TEARS) && Free("operator_ack", TEARS)
    ensures Free(taskKind, TEARS) ==> Free(WaitKindFor(taskKind), TEARS) && Free(SourceKindFor(taskKind), TEARS)
    ensures Free(ITEM_FIELD, TEARS)
  {
  }

  lemma RegisterIntactIff(c: Call)
    requires c.Register?
    ensures Readable(c) <==> Intact(RequestStrings(NewRequest(c))) && Intact(WaitStrings(NewWait(c)))
  {
    ConstantsAreFree(c.taskKind);
    var r, w, s := RequestStrings(NewRequest(c)), WaitStrings(NewWait(c)), CallStrings(c);
    assert s <= r + w + {""} && Free("", TEARS);
    if Readable(c) {
      forall x | x in r + w
        ensures Free(x, TEARS)
      {
        assert x in s || x in {WaitKindFor(c.taskKind), "auto", "operator_ack"};
      }
    } else {
      var x :| x in s && !Free(x, TEARS);
      assert x in r + w + {""};
    }
  }

  lemma StampedTexts(c: Call)
    requires c.Ingest? && c.key != ""
    ensures var stamped := c.payload[KEY_FIELD := c.key][ITEM_FIELD := c.itemId];
            && Texts(stamped) <= Texts(c.payload) + {KEY_FIELD, ITEM_FIELD, c.key, c.itemId}
            && c.key in Texts(stamped)
  {
    var stamped := c.payload[KEY_FIELD := c.key][ITEM_FIELD := c.itemId];
    assert KEY_FIELD[1] != ITEM_FIELD[1];
    assert stamped[KEY_FIELD] == c.key;
  }

  /** The item and the result of an ingest are both in one piece iff the call is readable. */
  lemma IngestIntactIff(req: Request, c: Call)
    requires c.Ingest? && Intact(RequestStrings(req))
    ensures Readable(c) <==> Intact(ItemStrings(NewItemFor(req, c))) && Intact(ResultStrings(NewResult(req, c)))
  {
    ConstantsAreFree(req.taskKind);
    var i, r, s := ItemStrings(NewItemFor(req, c)), ResultStrings(NewResult(req, c)), CallStrings(c);
    if c.key != "" {
      StampedTexts(c);
    }
    assert Free("", TEARS);
    if Readable(c) {
      forall x | x in i + r
        ensures Free(x, TEARS)
      {
        assert x in s || x in RequestStrings(req) || x in {SourceKindFor(req.taskKind), KEY_FIELD, ITEM_FIELD};
      }
    } else {
      var x :| x in s && !Free(x, TEARS);
      assert x in i + r + {""};
    }
  }

  // ----- what reading shows is faithful --------------------------------------------------

  lemma TaskNext(json: Json, rows: seq<Row<TaskRecord>>, t: TaskRecord)
    ensures var more := rows + [TaskRow(json, t)];
            && Records(more) == (if Intact(TaskStrings(t)) then Records(rows) + [t] else Records(rows))
            && (Intact(TaskStrings(t)) ==> (Poisoned(more) <==> Poisoned(rows)))
  {
    RecordsNext(rows, TaskRow(json, t));
  }

  lemma WaitNext(json: Json, rows: seq<Row<Wait>>, w: Wait)
    ensures var more := rows + [WaitRow(json, w)];
            && Records(more) == (if Intact(WaitStrings(w)) then Records(rows) + [w] else Records(rows))
            && (Intact(WaitStrings(w)) ==> (Poisoned(more) <==> Poisoned(rows)))
  {
    RecordsNext(rows, WaitRow(json, w));
  }

  lemma ItemNext(json: Json, rows: seq<Row<Item>>, i: Item)
    ensures var more := rows + [ItemRow(json, i)];
            && Records(more) == (if Intact(ItemStrings(i)) then Records(rows) + [i] else Records(rows))
            && (Intact(ItemStrings(i)) ==> (Poisoned(more) <==> Poisoned(rows)))
  {
    RecordsNext(rows, ItemRow(json, i));
  }

  lemma TaskStaysFaithful(json: Json, rows: seq<Row<TaskRecord>>, t: TaskRecord)
    ensures TasksFaithful(rows) ==> TasksFaithful(rows + [TaskRow(json, t)])
  {
    TaskNext(json, rows, t);
  }

  lemma WaitStaysFaithful(json: Json, rows: seq<Row<Wait>>, w: Wait)
    ensures WaitsFaithful(rows) ==> WaitsFaithful(rows + [WaitRow(json, w)])
  {
    WaitNext(json, rows, w);
  }

  lemma ItemStaysFaithful(json: Json, rows: seq<Row<Item>>, i: Item)
    ensures ItemsFaithful(rows) ==> ItemsFaithful(rows + [ItemRow(json, i)])
  {
    ItemNext(json, rows, i);
  }

  lemma RegisterKeepsFaithful(json: Json, f: Files, c: Call)
    requires c.Register?
    ensures Faithful(f) ==> Faithful(FileRegister(json, f, c).0)
  {
    TaskStaysFaithful(json, f.tasks, RequestRecord(NewRequest(c)));
    WaitStaysFaithful(json, f.waits, NewWait(c));
  }

  lemma WithResultIsFaithful(json: Json, f: Files, c: Call)
    requires c.Ingest? && FileIngestOk(f, c)
    ensures Faithful(f) ==> Faithful(WithResult(json, f, c))
  {
    var req := RequestOf(f, c);
    TaskStaysFaithful(json, f.tasks, ResultRecord(NewResult(req, c)));
    ItemStaysFaithful(json, f.mailbox, NewItemFor(req, c));
  }

  lemma ClosedIsFaithful(json: Json, f: Files, req: Request, c: Call)
    requires c.Ingest?
    ensures Faithful(f) ==> Faithful(Closed(json, f, req, c))
  {
    TaskStaysFaithful(json, f.tasks, RequestRecord(Complete(req, c.ticks.t3)));
    var wait := WaitForRequest(Seen(f), c.requestId);
    if wait.Some? {
      WaitStaysFaithful(json, f.waits, Resolve(wait.value, c.ticks.t2));
    }
  }

  lemma IngestKeepsFaithful(json: Json, f: Files, c: Call)
    requires c.Ingest?
    ensures Faithful(f) ==> Faithful(FileIngest(json, f, c).0)
  {
    if FileIngestOk(f, c) {
      WithResultIsFaithful(json, f, c);
      ClosedIsFaithful(json, WithResult(json, f, c), RequestOf(f, c), c);
    }
  }

  lemma RewriteKeepsFaithful(json: Json, f: Files, item: Item)
    ensures Faithful(f) ==> Faithful(FileRewrite(json, f, item))
  {
    ItemStaysFaithful(json, f.mailbox, item);
  }

  lemma FileDoKeepsFaithful(json: Json, f: Files, c: Call)
    requires Faithful(f)
    ensures Faithful(FileDo(json, f, c).0)
  {
    match c {
      case Register(_, _, _, _, _, _, _, _, _, _, _, _) => RegisterKeepsFaithful(json, f, c);
      case Ingest(_, _, _, _, _, _, _, _, _, _) => IngestKeepsFaithful(json, f, c);
      case Ack(_, _, _) =>
        var item := LatestItem(Seen(f), c.itemId);
        if item.Some? {
          RewriteKeepsFaithful(json, f, item.value.(delivery := c.status, updatedAt := c.ticks.t0));
        }
      case Wake(_, _, _, _) =>
        var req, item := LatestRequest(Seen(f), c.requestId), LatestItem(Seen(f), c.itemId);
        if req.Some? && item.Some? {
          var choice := Evaluate(req.value.policy, c.view);
          RewriteKeepsFaithful(json, f, item.value.(wake := choice, updatedAt := c.ticks.t0));
        }
    }
  }

  lemma {:induction false} PlayIsFaithful(json: Json, calls: seq<Call>, fs: seq<Files>, n: nat)
    requires IsFilePlay(json, calls, fs) && n < |fs|
    ensures Faithful(fs[n])
  {
    if n > 0 {
      PlayIsFaithful(json, calls, fs, n - 1);
      FileDoKeepsFaithful(json, fs[n - 1], calls[n - 1]);
      assert fs[n] == FileDo(json, fs[n - 1], calls[n - 1]).0;
    }
  }

  // ----- readable calls act as on the records --------------------------------------------

  /** The request, item and wait that a query finds were read. */
  lemma FoundIsRead(p: Plane, requestId: string, itemId: string)
    ensures LatestRequest(p, requestId).Some? ==> RequestRecord(LatestRequest(p, requestId).value) in p.tasks
    ensures LatestItem(p, itemId).Some? ==> LatestItem(p, itemId).value in p.mailbox
    ensures WaitForRequest(p, requestId).Some? ==> WaitForRequest(p, requestId).value in p.waits
  {
    var i := SomeoneWins(Requests(p.tasks), RequestKey, RequestAt, requestId);
    RequestsAreTasks(p.tasks);
    var j := SomeoneWins(p.mailbox, ItemKey, ItemAt, itemId);
    OrderIsFolded(p.waits, WaitKey);
    LastByIdMembers(p.waits);
    EnteredIsFolded(IdOrder(p.waits, WaitKey), LastById(p.waits, WaitKey), requestId);
  }

  lemma {:induction false} RequestsAreTasks(tasks: seq<TaskRecord>)
    ensures forall r :: r in Requests(tasks) ==> RequestRecord(r) in tasks
    ensures forall r :: r in Results(tasks) ==> ResultRecord(r) in tasks
  {
    if tasks != [] {
      RequestsAreTasks(tasks[..|tasks| - 1]);
      assert tasks == tasks[..|tasks| - 1] + [tasks[|tasks| - 1]];
    }
  }

  lemma {:induction false} LastByIdMembers(waits: seq<Wait>)
    ensures forall id :: id in LastById(waits, WaitKey) ==> LastById(waits, WaitKey)[id] in waits
  {
    if waits != [] {
      LastByIdMembers(waits[..|waits| - 1]);
      assert waits == waits[..|waits| - 1] + [waits[|waits| - 1]];
    }
  }

  lemma {:induction false} EnteredIsFolded(order: seq<string>, waits: map<string, Wait>, requestId: string)
    requires forall id :: id in order ==> id in waits
    ensures var w := LastEntered(order, waits, requestId); w.Some? ==> exists id :: id in order && waits[id] == w.value
  {
    if order != [] {
      var front, id := order[..|order| - 1], order[|order| - 1];
      EnteredIsFolded(front, waits, requestId);
      assert order == front + [id];
    }
  }

  lemma RegisterAgrees(json: Json, f: Files, c: Call)
    requires Clean(f) && c.Register? && Readable(c)
    ensures var (g, r) := FileDo(json, f, c); (Seen(g), r) == Do(Seen(f), c) && Clean(g)
  {
    RegisterIntactIff(c);
    TaskNext(json, f.tasks, RequestRecord(NewRequest(c)));
    WaitNext(json, f.waits, NewWait(c));
  }

  lemma WithResultAgrees(json: Json, f: Files, c: Call)
    requires Clean(f) && Faithful(f) && c.Ingest? && IngestOk(Seen(f), c) && Readable(c)
    ensures var g, req := WithResult(json, f, c), RequestOf(f, c);
            && Clean(g) && Intact(RequestStrings(req))
            && Seen(g) == Plane(Records(f.tasks) + [ResultRecord(NewResult(req, c))], Records(f.waits),
                                Records(f.mailbox) + [NewItemFor(req, c)])
  {
    var req := RequestOf(f, c);
    FoundIsRead(Seen(f), c.requestId, "");
    assert Intact(TaskStrings(RequestRecord(req)));
    IngestIntactIff(req, c);
    TaskNext(json, f.tasks, ResultRecord(NewResult(req, c)));
    ItemNext(json, f.mailbox, NewItemFor(req, c));
  }

  lemma ClosedAgrees(json: Json, g: Files, req: Request, c: Call)
    requires Clean(g) && c.Ingest? && Intact(RequestStrings(req))
    requires forall w :: w in Records(g.waits) ==> Intact(WaitStrings(w))
    ensures var h, wait := Closed(json, g, req, c), WaitForRequest(Seen(g), c.requestId);
            && Clean(h)
            && Seen(h) == Plane(Records(g.tasks) + [RequestRecord(Complete(req, c.ticks.t3))],
                                if wait.Some? && wait.value.status.Waiting?
                                then Records(g.waits) + [Resolve(wait.value, c.ticks.t2)] else Records(g.waits),
                                Records(g.mailbox))
  {
    assert TaskStrings(RequestRecord(Complete(req, c.ticks.t3))) == RequestStrings(req);
    TaskNext(json, g.tasks, RequestRecord(Complete(req, c.ticks.t3)));
    FoundIsRead(Seen(g), c.requestId, "");
    var wait := WaitForRequest(Seen(g), c.requestId);
    if wait.Some? {
      assert WaitStrings(Resolve(wait.value, c.ticks.t2)) == WaitStrings(wait.value);
      WaitNext(json, g.waits, Resolve(wait.value, c.ticks.t2));
    }
  }

  lemma IngestAgrees(json: Json, f: Files, c: Call)
    requires Clean(f) && Faithful(f) && c.Ingest? && IngestOk(Seen(f), c) && Readable(c)
    ensures var (g, r) := FileDo(json, f, c); (Seen(g), r) == Do(Seen(f), c) && Clean(g)
  {
    WithResultAgrees(json, f, c);
    ClosedAgrees(json, WithResult(json, f, c), RequestOf(f, c), c);
    SameWaitsSameWait(Seen(WithResult(json, f, c)), Seen(f), c.requestId);
  }

  lemma SameWaitsSameWait(p: Plane, q: Plane, requestId: string)
    requires p.waits == q.waits
    ensures WaitForRequest(p, requestId) == WaitForRequest(q, requestId)
  {
  }

  lemma RewriteAgrees(json: Json, f: Files, c: Call)
    requires Clean(f) && Faithful(f) && (c.Ack? || c.Wake?)
    ensures var (g, r) := FileDo(json, f, c); (Seen(g), r) == Do(Seen(f), c) && Clean(g)
  {
    FoundIsRead(Seen(f), "", c.itemId);
    var item := LatestItem(Seen(f), c.itemId);
    if item.Some? {
      var i := item.value;
      assert Intact(ItemStrings(i));
      if c.Ack? {
        ItemNext(json, f.mailbox, i.(delivery := c.status, updatedAt := c.ticks.t0));
      } else if LatestRequest(Seen(f), c.requestId).Some? {
        var choice := Evaluate(LatestRequest(Seen(f), c.requestId).value.policy, c.view);
        ItemNext(json, f.mailbox, i.(wake := choice, updatedAt := c.ticks.t0));
      }
    }
  }

  lemma EffectsGrow(p: Plane, c: Call)
    ensures Do(p, c).1 in {Rejected, Failed} || Do(p, c).1.Deduped? || Do(p, c).0 != p
  {
    if c.Register? && RegisterOk(c) {
      assert |Do(p, c).0.waits| == |p.waits| + 1;
    } else if !c.Register? && Do(p, c).1 != Rejected && !Do(p, c).1.Deduped? {
      assert |Do(p, c).0.mailbox| == |p.mailbox| + 1;
    }
  }

  /** A call that appends nothing on the records appends nothing to the files. */
  lemma IdleAgrees(json: Json, f: Files, c: Call)
    requires Clean(f) && Do(Seen(f), c).0 == Seen(f)
    ensures FileDo(json, f, c) == (f, Do(Seen(f), c).1)
  {
    EffectsGrow(Seen(f), c);
  }

  lemma StepAgrees(json: Json, f: Files, c: Call)
    requires Clean(f) && Faithful(f) && (Do(Seen(f), c).0 != Seen(f) ==> Readable(c))
    ensures var (g, r) := FileDo(json, f, c); (Seen(g), r) == Do(Seen(f), c) && Clean(g)
  {
    if Do(Seen(f), c).0 == Seen(f) {
      IdleAgrees(json, f, c);
    } else if c.Register? {
      RegisterAgrees(json, f, c);
    } else if c.Ingest? {
      IngestAgrees(json, f, c);
    } else {
      RewriteAgrees(json, f, c);
    }
  }

  /** Of the first `n` calls, those that append are readable. */
  ghost predicate AllReadable(calls: seq<Call>, ps: seq<Plane>, n: nat)
    requires n <= |calls| < |ps|
  {
    forall i :: 0 <= i < n && ps[i + 1] != ps[i] ==> Readable(calls[i])
  }

  /** As long as the calls that append are readable, the files show what was written, and every call
      gets the response it should. */
  lemma {:induction false} ReadableIsReadBack(json: Json, calls: seq<Call>, ps: seq<Plane>, fs: seq<Files>, n: nat)
    requires IsFilePlay(json, calls, fs) && IsPlay(calls, ps) && ps[0] == EMPTY && n <= |calls|
    requires AllReadable(calls, ps, n)
    ensures Seen(fs[n]) == ps[n] && Clean(fs[n])
    ensures n > 0 ==> FileDo(json, fs[n - 1], calls[n - 1]).1 == Do(ps[n - 1], calls[n - 1]).1
  {
    if n > 0 {
      var f, c := fs[n - 1], calls[n - 1];
      ReadableIsReadBack(json, calls, ps, fs, n - 1);
      PlayIsFaithful(json, calls, fs, n - 1);
      assert ps[n] == Do(ps[n - 1], c).0 && fs[n] == FileDo(json, f, c).0;
      StepAgrees(json, f, c);
    }
  }

  // ----- an unreadable call is never made up for -----------------------------------------

  ghost predicate HoldsTorn(p: Plane) {
    || (exists t :: t in p.tasks && !Intact(TaskStrings(t)))
    || (exists w :: w in p.waits && !Intact(WaitStrings(w)))
    || (exists i :: i in p.mailbox && !Intact(ItemStrings(i)))
  }

  lemma DoAppends(p: Plane, c: Call)
    ensures var q := Do(p, c).0; p.tasks <= q.tasks && p.waits <= q.waits && p.mailbox <= q.mailbox
  {
  }

  lemma TornStays(p: Plane, q: Plane)
    requires HoldsTorn(p) && p.tasks <= q.tasks && p.waits <= q.waits && p.mailbox <= q.mailbox
    ensures HoldsTorn(q)
  {
    if t :| t in p.tasks && !Intact(TaskStrings(t)) {
      assert t in q.tasks;
    } else if w :| w in p.waits && !Intact(WaitStrings(w)) {
      assert w in q.waits;
    } else {
      var i :| i in p.mailbox && !Intact(ItemStrings(i));
      assert i in q.mailbox;
    }
  }

  /** An unreadable call that appends leaves a torn record behind. */
  lemma EffectIsTorn(p: Plane, c: Call)
    requires Do(p, c).0 != p && !Readable(c)
    ensures HoldsTorn(Do(p, c).0)
  {
    var q := Do(p, c).0;
    if c.Register? {
      RegisterIntactIff(c);
      var t := RequestRecord(NewRequest(c));
      assert t in q.tasks && NewWait(c) in q.waits && TaskStrings(t) == RequestStrings(NewRequest(c));
    } else if c.Ingest? {
      IngestIsTorn(p, c);
    }
  }

  lemma IngestIsTorn(p: Plane, c: Call)
    requires c.Ingest? && Do(p, c).0 != p && !Readable(c)
    ensures HoldsTorn(Do(p, c).0)
  {
    var q, req := Do(p, c).0, LatestRequest(p, c.requestId).value;
    FoundIsRead(p, c.requestId, "");
    var t := ResultRecord(NewResult(req, c));
    assert RequestRecord(req) in q.tasks && t in q.tasks && NewItemFor(req, c) in q.mailbox;
    assert TaskStrings(t) == ResultStrings(NewResult(req, c)) && TaskStrings(RequestRecord(req)) == RequestStrings(req);
    if Intact(RequestStrings(req)) {
      IngestIntactIff(req, c);
    }
  }

  lemma OneMoreReadable(calls: seq<Call>, ps: seq<Plane>, m: nat, n: nat)
    requires n == m + 1 <= |calls| < |ps|
    ensures AllReadable(calls, ps, n) <==> AllReadable(calls, ps, m) && (ps[n] != ps[m] ==> Readable(calls[m]))
  {
  }

  ghost predicate TornOrReadable(calls: seq<Call>, ps: seq<Plane>, n: nat)
    requires n <= |calls| < |ps|
  {
    AllReadable(calls, ps, n) || HoldsTorn(ps[n])
  }

  lemma NextTornOrReadable(calls: seq<Call>, ps: seq<Plane>, m: nat, n: nat)
    requires IsPlay(calls, ps) && n == m + 1 <= |calls|
    ensures TornOrReadable(calls, ps, m) ==> TornOrReadable(calls, ps, n)
  {
    var p, c := ps[m], calls[m];
    assert ps[n] == Do(p, c).0;
    OneMoreReadable(calls, ps, m, n);
    DoAppends(p, c);
    if HoldsTorn(p) {
      TornStays(p, ps[n]);
    } else if ps[n] != p && !Readable(c) {
      EffectIsTorn(p, c);
    }
  }

  lemma {:induction false} UnreadableIsTorn(calls: seq<Call>, ps: seq<Plane>, n: nat)
    requires IsPlay(calls, ps) && n <= |calls|
    ensures TornOrReadable(calls, ps, n)
  {
    if n > 0 {
      var m: nat := n - 1;
      UnreadableIsTorn(calls, ps, m);
      NextTornOrReadable(calls, ps, m, n);
    }
  }

  /** Over every sequence of calls, the files show exactly what was written iff every call that
      appends is readable. */
  lemma ReadBackIff(json: Json, calls: seq<Call>, ps: seq<Plane>, fs: seq<Files>, n: nat)
    requires IsFilePlay(json, calls, fs) && IsPlay(calls, ps) && ps[0] == EMPTY && n <= |calls|
    ensures Seen(fs[n]) == ps[n] <==> AllReadable(calls, ps, n)
  {
    if AllReadable(calls, ps, n) {
      ReadableIsReadBack(json, calls, ps, fs, n);
    } else {
      UnreadableIsTorn(calls, ps, n);
      PlayIsFaithful(json, calls, fs, n);
    }
  }

  // ----- refinement, up to the files -----------------------------------------------------

  ghost predicate StoreTorn(s: Store) {
    || (exists id :: id in s.requests && !Intact(RequestStrings(s.requests[id])))
    || (exists id :: id in s.waits && !Intact(WaitStrings(s.waits[id])))
    || (exists id :: id in s.items && !Intact(ItemStrings(s.items[id])))
    || (exists r :: r in s.results && !Intact(ResultStrings(r)))
  }

  lemma FaithfulIsNotTorn(f: Files)
    requires Faithful(f)
    ensures !StoreTorn(Abstract(Seen(f)))
  {
    var p := Seen(f);
    RequestsAreTasks(p.tasks);
    ByIdMembers(Requests(p.tasks), RequestKey, RequestAt);
    ByIdMembers(p.waits, WaitKey, WaitAt);
    ByIdMembers(p.mailbox, ItemKey, ItemAt);
    forall r | r in Requests(p.tasks)
      ensures Intact(RequestStrings(r))
    {
      assert Intact(TaskStrings(RequestRecord(r)));
    }
    forall r | r in Results(p.tasks)
      ensures Intact(ResultStrings(r))
    {
      assert Intact(TaskStrings(ResultRecord(r)));
    }
  }

  lemma RegisterStaysTorn(s: Store, c: Call)
    requires StoreTorn(s) && c.Register? && c.requestId !in s.requests && c.waitId !in s.waits
    ensures StoreTorn(StoreRegister(s, c))
  {
    var t := StoreRegister(s, c);
    if id :| id in s.requests && !Intact(RequestStrings(s.requests[id])) {
      assert t.requests[id] == s.requests[id];
    } else if id :| id in s.waits && !Intact(WaitStrings(s.waits[id])) {
      assert t.waits[id] == s.waits[id];
    }
  }

  lemma IngestStaysTorn(s: Store, req: Request, wait: Option<Wait>, c: Call)
    requires StoreTorn(s) && c.Ingest? && c.itemId !in s.items
    requires c.requestId in s.requests && s.requests[c.requestId] == req
    requires wait.Some? ==> wait.value.id in s.waits && s.waits[wait.value.id] == wait.value
    ensures StoreTorn(StoreIngest(s, req, wait, c))
  {
    var t := StoreIngest(s, req, wait, c);
    assert RequestStrings(Complete(req, c.ticks.t3)) == RequestStrings(req);
    if id :| id in s.requests && !Intact(RequestStrings(s.requests[id])) {
      assert !Intact(RequestStrings(t.requests[id]));
    } else if id :| id in s.waits && !Intact(WaitStrings(s.waits[id])) {
      assert wait.Some? ==> WaitStrings(Resolve(wait.value, c.ticks.t2)) == WaitStrings(wait.value);
      assert !Intact(WaitStrings(t.waits[id]));
    } else if id :| id in s.items && !Intact(ItemStrings(s.items[id])) {
      assert t.items[id] == s.items[id];
    } else {
      var r :| r in s.results && !Intact(ResultStrings(r));
      assert r in t.results;
    }
  }

  lemma RewriteStaysTorn(s: Store, id: string, item: Item)
    requires StoreTorn(s) && id in s.items && ItemStrings(item) == ItemStrings(s.items[id])
    ensures StoreTorn(StoreRewrite(s, id, item))
  {
    var t := StoreRewrite(s, id, item);
    if x :| x in s.items && !Intact(ItemStrings(s.items[x])) {
      assert !Intact(ItemStrings(t.items[x]));
    }
  }

  lemma WaitIsInTheStore(s: Store, requestId: string)
    requires Keyed(s)
    ensures var wait := WaitOf(s, requestId);
            wait.Some? ==> wait.value.id in s.waits && s.waits[wait.value.id] == wait.value
  {
  }

  lemma IngestStepStaysTorn(s: Store, c: Call)
    requires StoreTorn(s) && Keyed(s) && c.Ingest? && c.itemId !in s.items
    ensures StoreTorn(StoreStep(s, c).0)
  {
    if c.requestId in s.requests {
      WaitIsInTheStore(s, c.requestId);
      IngestStaysTorn(s, s.requests[c.requestId], WaitOf(s, c.requestId), c);
    }
  }

  lemma RewriteStepStaysTorn(s: Store, c: Call)
    requires StoreTorn(s) && (c.Ack? || c.Wake?)
    ensures StoreTorn(StoreStep(s, c).0)
  {
    if c.itemId in s.items {
      if c.Ack? {
        RewriteStaysTorn(s, c.itemId, s.items[c.itemId].(delivery := c.status, updatedAt := c.ticks.t0));
      } else if c.requestId in s.requests {
        var choice := Evaluate(s.requests[c.requestId].policy, c.view);
        RewriteStaysTorn(s, c.itemId, s.items[c.itemId].(wake := choice, updatedAt := c.ticks.t0));
      }
    }
  }

  predicate IsNew(s: Store, c: Call) {
    && (c.Register? ==> c.requestId !in s.requests && c.waitId !in s.waits)
    && (c.Ingest? ==> c.itemId !in s.items)
  }

  lemma StoreStaysTorn(s: Store, c: Call)
    requires Consistent(s) && IsNew(s, c)
    ensures StoreTorn(s) ==> StoreTorn(StoreStep(s, c).0)
  {
    if StoreTorn(s) {
      if c.Register? {
        if RegisterOk(c) {
          RegisterStaysTorn(s, c);
        }
      } else if c.Ingest? {
        IngestStepStaysTorn(s, c);
      } else {
        RewriteStepStaysTorn(s, c);
      }
    }
  }

  lemma RegisterTearsTheStore(s: Store, c: Call)
    requires c.Register? && RegisterOk(c) && !Readable(c)
    ensures StoreTorn(StoreStep(s, c).0)
  {
    var t := StoreRegister(s, c);
    RegisterIntactIff(c);
    assert t.requests[c.requestId] == NewRequest(c) && t.waits[c.waitId] == NewWait(c);
  }

  lemma IngestTearsTheStore(s: Store, c: Call)
    requires c.Ingest? && StoreStep(s, c).1.Ingested? && !Readable(c)
    ensures StoreTorn(StoreStep(s, c).0)
  {
    var req := s.requests[c.requestId];
    var t := StoreIngest(s, req, WaitOf(s, c.requestId), c);
    assert t.requests[c.requestId] == Complete(req, c.ticks.t3);
    assert RequestStrings(t.requests[c.requestId]) == RequestStrings(req);
    assert t.items[c.itemId] == NewItemFor(req, c) && NewResult(req, c) in t.results;
    if Intact(RequestStrings(req)) {
      IngestIntactIff(req, c);
    }
  }

  lemma EffectTearsTheStore(p: Plane, c: Call)
    requires Good(p) && Sound(p, c)
    ensures Do(p, c).0 != p && !Readable(c) ==> StoreTorn(StoreStep(Abstract(p), c).0)
  {
    if Do(p, c).0 != p && !Readable(c) {
      CallRefines(p, c);
      if c.Register? {
        RegisterTearsTheStore(Abstract(p), c);
      } else if c.Ingest? {
        IngestTearsTheStore(Abstract(p), c);
      }
    }
  }

  /** What one call does to the store, given what it did to the records. */
  lemma TornNext(p: Plane, c: Call)
    requires Good(p) && Sound(p, c)
    ensures StoreTorn(Abstract(p)) || (Do(p, c).0 != p && !Readable(c)) ==> StoreTorn(StoreStep(Abstract(p), c).0)
  {
    FreshIdsAreNew(p, c);
    StoreStaysTorn(Abstract(p), c);
    EffectTearsTheStore(p, c);
  }

  ghost predicate TornUnless(calls: seq<Call>, ps: seq<Plane>, ss: seq<Store>, n: nat)
    requires n <= |calls| < |ps| && |ss| == |ps|
  {
    AllReadable(calls, ps, n) || StoreTorn(ss[n])
  }

  lemma NextTornUnless(calls: seq<Call>, ps: seq<Plane>, ss: seq<Store>, m: nat, n: nat)
    requires IsSoundPlay(calls, ps) && IsStorePlay(calls, ss) && n == m + 1 <= |calls|
    ensures TornUnless(calls, ps, ss, m) ==> TornUnless(calls, ps, ss, n)
  {
    OneMoreReadable(calls, ps, m, n);
    PlaneRefinesStore(calls, ps, ss, m);
    assert Sound(ps[m], calls[m]);
    assert ps[n] == Do(ps[m], calls[m]).0;
    StoreStepAt(calls, ss, m);
    TornNext(ps[m], calls[m]);
  }

  lemma {:induction false} UnreadableTearsTheStore(calls: seq<Call>, ps: seq<Plane>, ss: seq<Store>, n: nat)
    requires IsSoundPlay(calls, ps) && IsStorePlay(calls, ss) && n <= |calls|
    ensures TornUnless(calls, ps, ss, n)
  {
    if n > 0 {
      var m: nat := n - 1;
      UnreadableTearsTheStore(calls, ps, ss, m);
      NextTornUnless(calls, ps, ss, m, n);
    }
  }

  /** Over every sequence of calls with fresh ids and a clock that does not run backwards, what the
      readers of the files fold is the abstract store iff every call that appends is readable. Then
      it is consistent: every request has exactly one wait, open iff the request is pending, and
      everything carries its request's session. */
  lemma FilesRefineStoreIff(json: Json, calls: seq<Call>, ps: seq<Plane>, fs: seq<Files>, ss: seq<Store>, n: nat)
    requires IsFilePlay(json, calls, fs) && IsSoundPlay(calls, ps) && IsStorePlay(calls, ss) && n <= |calls|
    ensures Abstract(Seen(fs[n])) == ss[n] <==> AllReadable(calls, ps, n)
    ensures AllReadable(calls, ps, n) ==> Clean(fs[n]) && Good(Seen(fs[n]))
  {
    PlaneRefinesStore(calls, ps, ss, n);
    if AllReadable(calls, ps, n) {
      ReadableIsReadBack(json, calls, ps, fs, n);
    } else {
      UnreadableTearsTheStore(calls, ps, ss, n);
      PlayIsFaithful(json, calls, fs, n);
      FaithfulIsNotTorn(fs[n]);
    }
  }

  /** And then acknowledgements and wake decisions, each a rewrite of the whole item, do not overwrite
      each other in the files either. */
  lemma FilesRewritesDoNotInterfere(json: Json, calls: seq<Call>, ps: seq<Plane>, fs: seq<Files>, ss: seq<Store>,
      id: string, n: nat)
    requires IsFilePlay(json, calls, fs) && IsSoundPlay(calls, ps) && IsStorePlay(calls, ss) && n <= |calls|
    requires AllReadable(calls, ps, n) && id in Abstract(Seen(fs[n])).items
    ensures var item := Abstract(Seen(fs[n])).items[id];
            item.delivery == LastStatus(calls, ss, id, n) && item.wake == LastChoice(calls, ss, id, n)
  {
    FilesRefineStoreIff(json, calls, ps, fs, ss, n);
    RewritesDoNotInterfere(calls, ps, ss, id, n);
  }

  // ----- a fragment that raises ----------------------------------------------------------

  lemma FilesGrow(json: Json, f: Files, c: Call)
    ensures var g := FileDo(json, f, c).0; f.tasks <= g.tasks && f.waits <= g.waits && f.mailbox <= g.mailbox
  {
  }

  lemma PoisonStays<T>(rows: seq<Row<T>>, more: seq<Row<T>>)
    requires rows <= more && Poisoned(rows)
    ensures Poisoned(more)
  {
    var i :| 0 <= i < |rows| && rows[i].Torn? && rows[i].raises;
    assert more[i] == rows[i];
  }

  lemma {:induction false} PoisonStaysForever(json: Json, calls: seq<Call>, fs: seq<Files>, i: nat, j: nat)
    requires IsFilePlay(json, calls, fs) && i <= j < |fs|
    ensures Poisoned(fs[i].tasks) ==> Poisoned(fs[j].tasks)
    ensures Poisoned(fs[i].mailbox) ==> Poisoned(fs[j].mailbox)
  {
    if i < j {
      PoisonStaysForever(json, calls, fs, i, j - 1);
      FilesGrow(json, fs[j - 1], calls[j - 1]);
      assert fs[j] == FileDo(json, fs[j - 1], calls[j - 1]).0;
      if Poisoned(fs[j - 1].tasks) {
        PoisonStays(fs[j - 1].tasks, fs[j].tasks);
      }
      if Poisoned(fs[j - 1].mailbox) {
        PoisonStays(fs[j - 1].mailbox, fs[j].mailbox);
      }
    }
  }

  /** Once reading the tasks raises, every later ingest and wake decision fails, whatever its request,
      and changes nothing; and so does every valid acknowledgement once reading the mailbox does. */
  lemma PoisonStopsTheService(json: Json, calls: seq<Call>, fs: seq<Files>, i: nat, j: nat)
    requires IsFilePlay(json, calls, fs) && i <= j < |calls|
    ensures var c, r := calls[j], FileDo(json, fs[j], calls[j]).1;
            && (Poisoned(fs[i].tasks) && (c.Ingest? || c.Wake?) ==> r == Failed && fs[j + 1] == fs[j])
            && (Poisoned(fs[i].mailbox) && c.Ack? && !c.status.NewItem? ==> r == Failed && fs[j + 1] == fs[j])
  {
    PoisonStaysForever(json, calls, fs, i, j);
    assert fs[j + 1] == FileDo(json, fs[j], calls[j]).0;
  }

  predicate HoldsNull(s: string) {
    exists i :: 0 < i < |Pieces(s, TEARS)| - 1 && Pieces(s, TEARS)[i] == "null"
  }

  predicate HasNull(strings: set<string>) {
    exists s :: s in strings && HoldsNull(s)
  }

  /** `null` is a JSON value and no object. */
  ghost predicate KnowsNull(json: Json) {
    && (forall t :: HasNull(TaskStrings(t)) ==> json.task(t))
    && (forall i :: HasNull(ItemStrings(i)) ==> json.item(i))
  }

  const NULL_SUMMARY := "a" + ['\U{2028}'] + "null" + ['\U{2028}'] + "b"

  lemma NullSummaryHoldsNull()
    ensures HoldsNull(NULL_SUMMARY) && !Free(NULL_SUMMARY, TEARS)
  {
    var s := NULL_SUMMARY;
    var rest := "null" + ['\U{2028}'] + "b";
    assert s == "a" + ['\U{2028}'] + rest && s[1] == '\U{2028}';
    FreeIsOnePiece("a", TEARS);
    FreeIsOnePiece("null", TEARS);
    FreeIsOnePiece("b", TEARS);
    PiecesAcrossBreak("a", '\U{2028}', rest, TEARS);
    PiecesAcrossBreak("null", '\U{2028}', "b", TEARS);
    var p := Pieces(s, TEARS);
    assert p == ["a", "null", "b"];
    assert p[1] == "null";
  }

  lemma NullResultIsTorn(json: Json, req: Request, c: Call)
    requires KnowsNull(json) && c.Ingest? && c.summary == NULL_SUMMARY
    ensures TaskRow(json, ResultRecord(NewResult(req, c))) == Torn(true)
    ensures ItemRow(json, NewItemFor(req, c)) == Torn(true)
  {
    NullSummaryHoldsNull();
    assert NULL_SUMMARY in TaskStrings(ResultRecord(NewResult(req, c)));
    assert NULL_SUMMARY in ItemStrings(NewItemFor(req, c));
  }

  /** A result that is ingested with such a summary makes every later query raise. */
  lemma NullSummaryPoisons(json: Json, f: Files, c: Call)
    requires KnowsNull(json) && c.Ingest? && FileIngestOk(f, c) && c.key == "" && c.summary == NULL_SUMMARY
    ensures var g := FileDo(json, f, c).0; Poisoned(g.tasks) && Poisoned(g.mailbox)
  {
    var req := RequestOf(f, c);
    var g := WithResult(json, f, c);
    NullResultIsTorn(json, req, c);
    RecordsNext(f.tasks, TaskRow(json, ResultRecord(NewResult(req, c))));
    RecordsNext(f.mailbox, ItemRow(json, NewItemFor(req, c)));
    RecordsNext(g.tasks, TaskRow(json, RequestRecord(Complete(req, c.ticks.t3))));
  }
}
