/** The store and the ingest service as they are: loops over the logs, appends to them. */
module EventStore {
  import opened Options
  import opened EventFold
  import opened EventPlane
  import opened EventRefinement
  import opened EventLines
  import EventReadBack

  /** The folded records that satisfy `want`, in the order of the folded dictionary. */
  function Select<T>(order: seq<string>, byId: map<string, T>, want: T -> bool): seq<T>
    requires forall id :: id in order ==> id in byId
  {
    if order == [] then []
    else
      var before := Select(order[..|order| - 1], byId, want);
      var r := byId[order[|order| - 1]];
      if want(r) then before + [r] else before
  }

  /** The dictionary fold every listing query starts with. */
  method Fold<T>(log: seq<T>, key: T -> string, at: T -> Stamp) returns (order: seq<string>, byId: map<string, T>)
    ensures order == IdOrder(log, key) && byId == ById(log, key, at)
    ensures forall id :: id in order ==> id in byId
  {
    order, byId := [], map[];
    for i := 0 to |log|
      invariant order == IdOrder(log[..i], key) && byId == ById(log[..i], key, at)
    {
      assert log[..i + 1][..i] == log[..i];
      ByIdKeys(log[..i], key, at);
      var id := key(log[i]);
      if id != "" {
        if id !in byId {
          order := order + [id];
          byId := byId[id := log[i]];
        } else if IsNewer(at(log[i]), at(byId[id])) {
          byId := byId[id := log[i]];
        }
      }
    }
    assert log[..|log|] == log;
    ByIdKeys(log, key, at);
  }

  method Filter<T>(order: seq<string>, byId: map<string, T>, want: T -> bool) returns (out: seq<T>)
    requires forall id :: id in order ==> id in byId
    ensures out == Select(order, byId, want)
  {
    out := [];
    for i := 0 to |order|
      invariant out == Select(order[..i], byId, want)
    {
      assert order[..i + 1][..i] == order[..i];
      if want(byId[order[i]]) {
        out := out + [byId[order[i]]];
      }
    }
    assert order[..|order|] == order;
  }

  function ListOf<T>(log: seq<T>, key: T -> string, at: T -> Stamp, want: T -> bool): seq<T> {
    ByIdKeys(log, key, at);
    Select(IdOrder(log, key), ById(log, key, at), want)
  }

  predicate IsOpen(w: Wait) { w.status.Waiting? }

  function OpenWaits(p: Plane): seq<Wait> {
    ListOf(p.waits, WaitKey, WaitAt, IsOpen)
  }

  function PastDeadline(now: Stamp): Wait -> bool {
    (w: Wait) => w.status.Waiting? && w.deadlineAt != 0 && w.deadlineAt < now
  }

  function InSession(session: string, status: Option<DeliveryStatus>): Item -> bool {
    (i: Item) => i.session == session && (status.None? || i.delivery == status.value)
  }

  function Items(p: Plane, session: string, status: Option<DeliveryStatus>): seq<Item> {
    ListOf(p.mailbox, ItemKey, ItemAt, InSession(session, status))
  }

  /** The records that `mine` accepts, in log order. */
  function Mine<T>(log: seq<T>, mine: T -> bool): seq<T> {
    if log == [] then []
    else
      var before := Mine(log[..|log| - 1], mine);
      if mine(log[|log| - 1]) then before + [log[|log| - 1]] else before
  }

  predicate Any<T>(r: T) { true }

  function OwnRequest(session: string): Request -> bool { (r: Request) => r.session == session }

  function OwnWait(session: string): Wait -> bool { (w: Wait) => w.session == session }

  function SessionRequests(p: Plane, session: string): seq<Request> {
    ListOf(Mine(Requests(p.tasks), OwnRequest(session)), RequestKey, RequestAt, Any)
  }

  /** What the observer is shown for a session. */
  datatype Summary = Summary(
    waitsOpen: nat,
    mailboxNew: nat,
    mailboxAcknowledged: nat,
    requestsTotal: nat,
    latestItem: string,
    latestWake: WakeChoice)

  const NOTHING := Summary(0, 0, 0, 0, "", Undecided)

  /** `max(items, key=created_at)`: the first of the most recently created. */
  ghost predicate FirstNewest(items: seq<Item>, i: nat) {
    && i < |items|
    && (forall j :: 0 <= j < |items| ==> items[j].createdAt <= items[i].createdAt)
    && (forall j :: 0 <= j < i ==> items[j].createdAt < items[i].createdAt)
  }

  /** What the summary of a session says about the records that can be read. */
  ghost predicate Summarizes(s: Summary, p: Plane, session: string) {
    var all := Items(p, session, None);
    && s.waitsOpen == |Mine(OpenWaits(p), OwnWait(session))|
    && s.mailboxNew == |Items(p, session, Some(NewItem))|
    && s.mailboxAcknowledged == |Items(p, session, Some(AcknowledgedItem))|
    && s.requestsTotal == |SessionRequests(p, session)|
    && (all == [] ==> s.latestItem == "" && s.latestWake == Undecided)
    && (all != [] ==> exists i: nat :: FirstNewest(all, i) && s.latestItem == all[i].id && s.latestWake == all[i].wake)
  }

  method OwnOf(open: seq<Wait>, session: string) returns (mine: seq<Wait>)
    ensures mine == Mine(open, OwnWait(session))
  {
    mine := [];
    for i := 0 to |open|
      invariant mine == Mine(open[..i], OwnWait(session))
    {
      assert open[..i + 1][..i] == open[..i];
      if open[i].session == session {
        mine := mine + [open[i]];
      }
    }
    assert open[..|open|] == open;
  }

  method MostRecent(all: seq<Item>) returns (best: nat)
    requires all != []
    ensures FirstNewest(all, best)
  {
    best := 0;
    for i := 1 to |all|
      invariant best < i
      invariant forall j :: 0 <= j < i ==> all[j].createdAt <= all[best].createdAt
      invariant forall j :: 0 <= j < best ==> all[j].createdAt < all[best].createdAt
    {
      if all[i].createdAt > all[best].createdAt {
        best := i;
      }
    }
  }

  /** `_iter_records`, read to the end; `None` where it raises. */
  method IterRecords<T>(rows: seq<Row<T>>) returns (records: Option<seq<T>>)
    ensures records == if Poisoned(rows) then None else Some(Records(rows))
  {
    var read: seq<T> := [];
    for i := 0 to |rows|
      invariant read == Records(rows[..i]) && !Poisoned(rows[..i])
    {
      assert rows[..i + 1] == rows[..i] + [rows[i]];
      RecordsNext(rows[..i], rows[i]);
      match rows[i]
      case Whole(record) => read := read + [record];
      case Torn(raises) =>
        if raises {
          return None;
        }
    }
    assert rows[..|rows|] == rows;
    records := Some(read);
  }

  method LatestOf(seen: seq<TaskRecord>, id: string) returns (latest: Option<Request>)
    ensures latest == Latest(Requests(seen), RequestKey, RequestAt, id)
  {
    latest := None;
    for i := 0 to |seen|
      invariant latest == Latest(Requests(seen[..i]), RequestKey, RequestAt, id)
    {
      assert seen[..i + 1] == seen[..i] + [seen[i]];
      TaskAppends(seen[..i], seen[i]);
      if seen[i].RequestRecord? {
        var r := seen[i].request;
        ghost var before := Requests(seen[..i]);
        assert (before + [r])[..|before|] == before;
        if r.id == id && (latest.None? || IsNewer(r.updatedAt, latest.value.updatedAt)) {
          latest := Some(r);
        }
      }
    }
    assert seen[..|seen|] == seen;
  }

  /** The store over its three files. A query is `None` where reading its file raises. */
  class EventPlaneStore {
    const json: Json
    var tasks: seq<Row<TaskRecord>>
    var waits: seq<Row<Wait>>
    var mailbox: seq<Row<Item>>

    function View(): Files
      reads this
    {
      Files(tasks, waits, mailbox)
    }

    constructor (json: Json)
      ensures View() == NO_FILES && this.json == json
    {
      this.json := json;
      tasks, waits, mailbox := [], [], [];
    }

    // writers

    method AppendRequest(r: Request)
      modifies `tasks
      ensures tasks == old(tasks) + [TaskRow(json, RequestRecord(r))]
    {
      tasks := tasks + [TaskRow(json, RequestRecord(r))];
    }

    method AppendResult(r: Result)
      modifies `tasks
      ensures tasks == old(tasks) + [TaskRow(json, ResultRecord(r))]
    {
      tasks := tasks + [TaskRow(json, ResultRecord(r))];
    }

    method AppendWait(w: Wait)
      modifies `waits
      ensures waits == old(waits) + [WaitRow(json, w)]
    {
      waits := waits + [WaitRow(json, w)];
    }

    /** Stamps the item on the way in. */
    method AppendItem(i: Item, now: Stamp)
      modifies `mailbox
      ensures mailbox == old(mailbox) + [ItemRow(json, i.(updatedAt := now))]
    {
      mailbox := mailbox + [ItemRow(json, i.(updatedAt := now))];
    }

    // queries

    method LatestRequest(id: string) returns (answer: Option<Option<Request>>)
      ensures answer == if Poisoned(tasks) then None else Some(EventPlane.LatestRequest(Seen(View()), id))
    {
      var records := IterRecords(tasks);
      if records.None? {
        return None;
      }
      var latest := LatestOf(records.value, id);
      answer := Some(latest);
    }

    method LatestItem(id: string) returns (answer: Option<Option<Item>>)
      ensures answer == if Poisoned(mailbox) then None else Some(EventPlane.LatestItem(Seen(View()), id))
    {
      var records := IterRecords(mailbox);
      if records.None? {
        return None;
      }
      var seen := records.value;
      var latest: Option<Item> := None;
      for i := 0 to |seen|
        invariant latest == Latest(seen[..i], ItemKey, ItemAt, id)
      {
        assert seen[..i + 1][..i] == seen[..i];
        if seen[i].id == id && (latest.None? || IsNewer(seen[i].updatedAt, latest.value.updatedAt)) {
          latest := Some(seen[i]);
        }
      }
      assert seen[..|seen|] == seen;
      answer := Some(latest);
    }

    /** `list_open_waits`; with a cutoff, only those past their deadline. */
    method ListOpenWaits(cutoff: Option<Stamp>) returns (answer: Option<seq<Wait>>)
      ensures answer == if Poisoned(waits) then None
                        else if cutoff.None? then Some(OpenWaits(Seen(View())))
                        else Some(ListOf(Seen(View()).waits, WaitKey, WaitAt, PastDeadline(cutoff.value)))
    {
      var records := IterRecords(waits);
      if records.None? {
        return None;
      }
      var order, byId := Fold(records.value, WaitKey, WaitAt);
      var out := Filter(order, byId, if cutoff.Some? then PastDeadline(cutoff.value) else IsOpen);
      answer := Some(out);
    }

    method ListMailboxItems(session: string, status: Option<DeliveryStatus>) returns (answer: Option<seq<Item>>)
      ensures answer == if Poisoned(mailbox) then None else Some(Items(Seen(View()), session, status))
    {
      var records := IterRecords(mailbox);
      if records.None? {
        return None;
      }
      var order, byId := Fold(records.value, ItemKey, ItemAt);
      var out := Filter(order, byId, InSession(session, status));
      answer := Some(out);
    }

    method ListRequestsBySession(session: string) returns (answer: Option<seq<Request>>)
      ensures answer == if Poisoned(tasks) then None else Some(SessionRequests(Seen(View()), session))
    {
      var records := IterRecords(tasks);
      if records.None? {
        return None;
      }
      var seen := records.value;
      var mine: seq<Request> := [];
      for i := 0 to |seen|
        invariant mine == Mine(Requests(seen[..i]), OwnRequest(session))
      {
        assert seen[..i + 1] == seen[..i] + [seen[i]];
        TaskAppends(seen[..i], seen[i]);
        if seen[i].RequestRecord? {
          ghost var before := Requests(seen[..i]);
          assert (before + [seen[i].request])[..|before|] == before;
          if seen[i].request.session == session {
            mine := mine + [seen[i].request];
          }
        }
      }
      assert seen[..|seen|] == seen;
      var order, byId := Fold(mine, RequestKey, RequestAt);
      var out := Filter(order, byId, Any);
      answer := Some(out);
    }

    /** The results of a request, and the first of them stamped with the key. */
    method FindResult(requestId: string, key: string) returns (answer: Option<Option<Result>>)
      ensures answer == if Poisoned(tasks) then None else Some(FindStamped(Results(Seen(View()).tasks), requestId, key))
    {
      var records := IterRecords(tasks);
      if records.None? {
        return None;
      }
      var seen := records.value;
      var found: Option<Result> := None;
      for i := 0 to |seen|
        invariant found == FindStamped(Results(seen[..i]), requestId, key)
      {
        assert seen[..i + 1] == seen[..i] + [seen[i]];
        TaskAppends(seen[..i], seen[i]);
        if seen[i].ResultRecord? {
          ghost var before := Results(seen[..i]);
          assert (before + [seen[i].result])[..|before|] == before;
          if found.None? && CarriesKey(seen[i].result, requestId, key) {
            found := Some(seen[i].result);
          }
        }
      }
      assert seen[..|seen|] == seen;
      answer := Some(found);
    }

    /** `summarize_for_session`; it asks for the requests first, then the waits, then the items. */
    method Summarize(session: string) returns (answer: Option<Summary>)
      ensures session == "" ==> answer == Some(NOTHING)
      ensures session != "" ==> (answer.None? <==> !Clean(View()))
      ensures session != "" && answer.Some? ==> Summarizes(answer.value, Seen(View()), session)
    {
      if session == "" {
        return Some(NOTHING);
      }
      var requests := ListRequestsBySession(session);
      var open := ListOpenWaits(None);
      var all := ListMailboxItems(session, None);
      if requests.None? || open.None? || all.None? {
        return None;
      }
      var mine := OwnOf(open.value, session);
      var unread := ListMailboxItems(session, Some(NewItem));
      var acked := ListMailboxItems(session, Some(AcknowledgedItem));
      var s := Summary(|mine|, |unread.value|, |acked.value|, |requests.value|, "", Undecided);
      if all.value != [] {
        var best := MostRecent(all.value);
        s := s.(latestItem := all.value[best].id, latestWake := all.value[best].wake);
      }
      answer := Some(s);
    }
  }

  /** The ingest service with the daemon's wake step. */
  class EventPlaneIngest {
    const store: EventPlaneStore

    constructor (store: EventPlaneStore)
      ensures this.store == store
    {
      this.store := store;
    }

    method RegisterRequest(c: Call) returns (r: Response)
      requires c.Register?
      modifies store
      ensures (store.View(), r) == FileRegister(store.json, old(store.View()), c)
    {
      if c.session == "" || c.provider == "" || c.targetRef == "" {
        return Rejected;
      }
      store.AppendRequest(NewRequest(c));
      store.AppendWait(NewWait(c));
      r := Registered(c.requestId, c.waitId, c.session);
    }

    /** `_latest_wait_for_request`: its own fold, without the guard. */
    method LatestWaitForRequest(requestId: string) returns (answer: Option<Option<Wait>>)
      ensures answer == if Poisoned(store.waits) then None else Some(WaitForRequest(Seen(store.View()), requestId))
    {
      var order, byId: map<string, Wait> := [], map[];
      var records := IterRecords(store.waits);
      if records.None? {
        return None;
      }
      var waits := records.value;
      for i := 0 to |waits|
        invariant order == IdOrder(waits[..i], WaitKey) && byId == LastById(waits[..i], WaitKey)
      {
        assert waits[..i + 1][..i] == waits[..i];
        if waits[i].id != "" {
          if waits[i].id !in order {
            order := order + [waits[i].id];
          }
          byId := byId[waits[i].id := waits[i]];
        }
      }
      assert waits[..|waits|] == waits;
      OrderIsFolded(waits, WaitKey);
      var w: Option<Wait> := None;
      for i := 0 to |order|
        invariant w == LastEntered(order[..i], byId, requestId)
      {
        assert order[..i + 1][..i] == order[..i];
        var x := byId[order[i]];
        if x.requestId == requestId && (w.None? || w.value.enteredAt <= x.enteredAt) {
          w := Some(x);
        }
      }
      assert order[..|order|] == order;
      answer := Some(w);
    }

    /** The checks of an ingest: the request, or the response that ends the call here. */
    method CheckIngest(c: Call) returns (req: Option<Request>, r: Response)
      requires c.Ingest?
      ensures var f := store.View();
              if Poisoned(f.tasks) then req.None? && r == Failed
              else if !IngestOk(Seen(f), c) then req.None? && r == Rejected
              else req == Some(RequestOf(f, c))
    {
      var found := store.LatestRequest(c.requestId);
      if found.None? {
        return None, Failed;
      }
      req, r := found.value, Rejected;
      if req.None? || c.kind !in RESULT_KINDS {
        return None, Rejected;
      }
      if req.value.provider != "" && c.provider != "" && c.provider != req.value.provider {
        return None, Rejected;
      }
    }

    method IngestResult(c: Call) returns (r: Response)
      requires c.Ingest?
      modifies store
      ensures (store.View(), r) == FileIngest(store.json, old(store.View()), c)
    {
      var found, early := CheckIngest(c);
      if found.None? {
        return early;
      }
      var req := found.value;
      if c.key != "" {
        var known := store.FindResult(c.requestId, c.key);
        if known.value.Some? {
          return Deduped(known.value.value.id, StoredItemId(known.value.value), req.session);
        }
      }
      store.AppendItem(NewItemFor(req, c), c.ticks.t1);
      store.AppendResult(NewResult(req, c));
      var wait := LatestWaitForRequest(c.requestId);
      if wait.None? {
        return Failed;
      }
      if wait.value.Some? && wait.value.value.status.Waiting? {
        store.AppendWait(Resolve(wait.value.value, c.ticks.t2));
      }
      store.AppendRequest(Complete(req, c.ticks.t3));
      r := Ingested(c.resultId, c.itemId, req.session);
    }

    method AckMailboxItem(c: Call) returns (r: Response)
      requires c.Ack?
      modifies store
      ensures (store.View(), r) == FileAck(store.json, old(store.View()), c)
    {
      if c.status.NewItem? {
        return Rejected;
      }
      var current := store.LatestItem(c.itemId);
      if current.None? {
        return Failed;
      }
      if current.value.None? {
        return Rejected;
      }
      store.AppendItem(current.value.value.(delivery := c.status), c.ticks.t0);
      r := Acked(c.itemId);
    }

    /** `_apply_wake_policy`. */
    method ApplyWakePolicy(c: Call) returns (r: Response)
      requires c.Wake?
      modifies store
      ensures (store.View(), r) == FileWake(store.json, old(store.View()), c)
    {
      var req := store.LatestRequest(c.requestId);
      if req.None? {
        return Failed;
      }
      if req.value.None? {
        return Rejected;
      }
      var item := store.LatestItem(c.itemId);
      if item.None? {
        return Failed;
      }
      if item.value.None? {
        return Rejected;
      }
      var choice := Evaluate(req.value.value.policy, c.view);
      store.AppendItem(item.value.value.(wake := choice), c.ticks.t0);
      r := Decided(choice);
    }
  }

  // ----- the summary counts what is current ----------------------------------------------

  /** The ids whose current record satisfies `want`. */
  function Chosen<T>(m: map<string, T>, want: T -> bool): set<string> {
    set id | id in m && want(m[id])
  }

  function ChosenOf<T>(order: seq<string>, m: map<string, T>, want: T -> bool): set<string>
    requires forall id :: id in order ==> id in m
  {
    set id | id in order && want(m[id])
  }

  lemma ChosenNext<T>(front: seq<string>, id: string, m: map<string, T>, want: T -> bool)
    requires forall x :: x in front + [id] ==> x in m
    requires id !in front
    ensures ChosenOf(front + [id], m, want) ==
            if want(m[id]) then ChosenOf(front, m, want) + {id} else ChosenOf(front, m, want)
    ensures |ChosenOf(front + [id], m, want)| == |ChosenOf(front, m, want)| + if want(m[id]) then 1 else 0
  {
    var before := ChosenOf(front, m, want);
    assert id !in before;
    assert ChosenOf(front + [id], m, want) == if want(m[id]) then before + {id} else before;
  }

  /** A listing over distinct ids is as long as the set of ids it selects. */
  lemma {:induction false} SelectCounts<T>(order: seq<string>, byId: map<string, T>, want: T -> bool)
    requires forall id :: id in order ==> id in byId
    requires forall i, j :: 0 <= i < j < |order| ==> order[i] != order[j]
    ensures |Select(order, byId, want)| == |ChosenOf(order, byId, want)|
  {
    if order != [] {
      var front, id := order[..|order| - 1], order[|order| - 1];
      assert order == front + [id];
      SelectCounts(front, byId, want);
      ChosenNext(front, id, byId, want);
    }
  }

  lemma ListCounts<T>(log: seq<T>, key: T -> string, at: T -> Stamp, want: T -> bool)
    ensures |ListOf(log, key, at, want)| == |Chosen(ById(log, key, at), want)|
  {
    var m := ById(log, key, at);
    ByIdKeys(log, key, at);
    SelectCounts(IdOrder(log, key), m, want);
    assert ChosenOf(IdOrder(log, key), m, want) == Chosen(m, want);
  }

  function OpenIn(session: string): Wait -> bool {
    (w: Wait) => w.status.Waiting? && w.session == session
  }

  lemma {:induction false} OpenThenSession(order: seq<string>, byId: map<string, Wait>, session: string)
    requires forall id :: id in order ==> id in byId
    ensures Mine(Select(order, byId, IsOpen), OwnWait(session)) == Select(order, byId, OpenIn(session))
  {
    if order != [] {
      var front, w := order[..|order| - 1], byId[order[|order| - 1]];
      OpenThenSession(front, byId, session);
      if IsOpen(w) {
        var before := Select(front, byId, IsOpen);
        assert (before + [w])[..|before|] == before;
      }
    }
  }

  function Restricted(m: map<string, Request>, session: string): map<string, Request> {
    map id | id in m && m[id].session == session :: m[id]
  }

  lemma RestrictedUpdate(m: map<string, Request>, r: Request, session: string)
    requires r.id in m ==> m[r.id].session == r.session
    ensures Restricted(m[r.id := r], session)
         == if r.session == session then Restricted(m, session)[r.id := r] else Restricted(m, session)
  {
  }

  /** Filtering by session before folding loses nothing if ids stay in one session. */
  lemma {:induction false} FilterThenFold(requests: seq<Request>, session: string)
    requires forall r, q :: r in requests && q in requests && r.id == q.id ==> r.session == q.session
    ensures ById(Mine(requests, OwnRequest(session)), RequestKey, RequestAt)
         == Restricted(ById(requests, RequestKey, RequestAt), session)
  {
    if requests != [] {
      var front, r := requests[..|requests| - 1], requests[|requests| - 1];
      assert forall q :: q in front ==> q in requests;
      assert r in requests;
      FilterThenFold(front, session);
      var mine := Mine(front, OwnRequest(session));
      assert (mine + [r])[..|mine|] == mine;
      ByIdMembers(front, RequestKey, RequestAt);
      RestrictedUpdate(ById(front, RequestKey, RequestAt), r, session);
    }
  }

  lemma RequestCounts(p: Plane, session: string)
    requires Tidy(p)
    ensures |SessionRequests(p, session)| == |Chosen(Abstract(p).requests, OwnRequest(session))|
  {
    var requests := Requests(p.tasks);
    FilterThenFold(requests, session);
    ListCounts(Mine(requests, OwnRequest(session)), RequestKey, RequestAt, Any);
    var m := ById(requests, RequestKey, RequestAt);
    assert Chosen(Restricted(m, session), Any) == Chosen(m, OwnRequest(session));
  }

  lemma WaitCounts(p: Plane, session: string)
    ensures |Mine(OpenWaits(p), OwnWait(session))| == |Chosen(Abstract(p).waits, OpenIn(session))|
  {
    ByIdKeys(p.waits, WaitKey, WaitAt);
    OpenThenSession(IdOrder(p.waits, WaitKey), ById(p.waits, WaitKey, WaitAt), session);
    ListCounts(p.waits, WaitKey, WaitAt, OpenIn(session));
    assert Mine(OpenWaits(p), OwnWait(session)) == ListOf(p.waits, WaitKey, WaitAt, OpenIn(session));
  }

  /** After any sound sequence of calls, the summary of a session shows exactly the counts of the
      abstract store: its open waits, its items by status, its requests. */
  lemma SummaryIsExact(calls: seq<Call>, ps: seq<Plane>, ss: seq<Store>, n: nat, session: string,
      status: DeliveryStatus)
    requires IsSoundPlay(calls, ps) && IsStorePlay(calls, ss) && n < |ps|
    ensures |Mine(OpenWaits(ps[n]), OwnWait(session))| == |Chosen(ss[n].waits, OpenIn(session))|
    ensures |Items(ps[n], session, Some(status))| == |Chosen(ss[n].items, InSession(session, Some(status)))|
    ensures |SessionRequests(ps[n], session)| == |Chosen(ss[n].requests, OwnRequest(session))|
  {
    PlaneRefinesStore(calls, ps, ss, n);
    WaitCounts(ps[n], session);
    ListCounts(ps[n].mailbox, ItemKey, ItemAt, InSession(session, Some(status)));
    RequestCounts(ps[n], session);
  }

  /** The same of the files, as long as every call that appended is readable. */
  lemma FilesSummaryIsExact(json: Json, calls: seq<Call>, ps: seq<Plane>, fs: seq<Files>, ss: seq<Store>, n: nat,
      session: string, status: DeliveryStatus)
    requires IsFilePlay(json, calls, fs) && IsSoundPlay(calls, ps) && IsStorePlay(calls, ss) && n <= |calls|
    requires EventReadBack.AllReadable(calls, ps, n)
    ensures var p := Seen(fs[n]);
            && |Mine(OpenWaits(p), OwnWait(session))| == |Chosen(ss[n].waits, OpenIn(session))|
            && |Items(p, session, Some(status))| == |Chosen(ss[n].items, InSession(session, Some(status)))|
            && |SessionRequests(p, session)| == |Chosen(ss[n].requests, OwnRequest(session))|
  {
    EventReadBack.ReadableIsReadBack(json, calls, ps, fs, n);
    SummaryIsExact(calls, ps, ss, n, session, status);
  }
}
