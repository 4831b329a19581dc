/** The event plane: requests, results, waits and mailbox items kept in append-only logs, and the
    ingest service over them (supervisor/event_plane). Every call of the service is one step on a
    `Plane`, the contents of the three logs. */
module EventPlane {
  import opened Options
  import opened StateMachine
  import opened EventFold

  datatype BlockingPolicy = BlockSession | NotifyOnly | AdvisoryOnly

  datatype TaskStatus = PendingTask | CompletedTask

  datatype WaitStatus = Waiting | Satisfied

  datatype DeliveryStatus = NewItem | Surfaced | AcknowledgedItem | Consumed

  datatype WakeChoice = Undecided | NotifyOperator | WakeWorker | Defer | RecordOnly

  datatype Request = Request(
    id: string,
    session: string,
    runId: Option<string>,
    phase: string,
    taskKind: string,
    provider: string,
    targetRef: string,
    policy: BlockingPolicy,
    status: TaskStatus,
    createdAt: Stamp,
    updatedAt: Stamp)

  datatype Result = Result(
    id: string,
    requestId: string,
    session: string,
    runId: Option<string>,
    provider: string,
    kind: string,
    summary: string,
    payload: map<string, string>,
    occurredAt: Stamp)

  datatype Wait = Wait(
    id: string,
    session: string,
    runId: Option<string>,
    requestId: string,
    kind: string,
    status: WaitStatus,
    resumePolicy: string,
    enteredAt: Stamp,
    resolvedAt: Stamp,
    deadlineAt: Stamp)

  datatype Item = Item(
    id: string,
    session: string,
    runId: Option<string>,
    requestId: string,
    sourceKind: string,
    summary: string,
    provider: string,
    kind: string,
    raw: map<string, string>,
    delivery: DeliveryStatus,
    wake: WakeChoice,
    createdAt: Stamp,
    updatedAt: Stamp)

  /** external_tasks.jsonl mixes requests and results. */
  datatype TaskRecord = RequestRecord(request: Request) | ResultRecord(result: Result)

  datatype Plane = Plane(tasks: seq<TaskRecord>, waits: seq<Wait>, mailbox: seq<Item>)

  const EMPTY := Plane([], [], [])

  function RequestKey(r: Request): string { r.id }

  function RequestAt(r: Request): Stamp { r.updatedAt }

  function WaitKey(w: Wait): string { w.id }

  /** A resolved wait is as recent as its resolution, an open one as its start. */
  function WaitAt(w: Wait): Stamp {
    if w.resolvedAt != 0 then w.resolvedAt else w.enteredAt
  }

  function ItemKey(i: Item): string { i.id }

  function ItemAt(i: Item): Stamp { i.updatedAt }

  function Requests(tasks: seq<TaskRecord>): seq<Request> {
    if tasks == [] then []
    else
      var before := Requests(tasks[..|tasks| - 1]);
      var r := tasks[|tasks| - 1];
      if r.RequestRecord? then before + [r.request] else before
  }

  function Results(tasks: seq<TaskRecord>): seq<Result> {
    if tasks == [] then []
    else
      var before := Results(tasks[..|tasks| - 1]);
      var r := tasks[|tasks| - 1];
      if r.ResultRecord? then before + [r.result] else before
  }

  // ----- queries -------------------------------------------------------------------------

  function LatestRequest(p: Plane, id: string): Option<Request> {
    Latest(Requests(p.tasks), RequestKey, RequestAt, id)
  }

  function LatestItem(p: Plane, id: string): Option<Item> {
    Latest(p.mailbox, ItemKey, ItemAt, id)
  }

  /** Of the folded waits of a request, the one entered last, later ones first on a tie. */
  function LastEntered(order: seq<string>, waits: map<string, Wait>, requestId: string): Option<Wait>
    requires forall id :: id in order ==> id in waits
  {
    if order == [] then None
    else
      var before := LastEntered(order[..|order| - 1], waits, requestId);
      var w := waits[order[|order| - 1]];
      if w.requestId == requestId && (before.None? || before.value.enteredAt <= w.enteredAt) then Some(w) else before
  }

  lemma {:induction false} OrderIsFolded<T>(log: seq<T>, key: T -> string)
    ensures forall id :: id in IdOrder(log, key) <==> id in LastById(log, key)
  {
    if log != [] {
      OrderIsFolded(log[..|log| - 1], key);
    }
  }

  /** `_latest_wait_for_request`, over the unguarded fold. */
  function WaitForRequest(p: Plane, requestId: string): Option<Wait> {
    OrderIsFolded(p.waits, WaitKey);
    LastEntered(IdOrder(p.waits, WaitKey), LastById(p.waits, WaitKey), requestId)
  }

  const KEY_FIELD := "_idempotency_key"
  const ITEM_FIELD := "_mailbox_item_id"

  predicate CarriesKey(r: Result, requestId: string, key: string) {
    r.requestId == requestId && KEY_FIELD in r.payload && r.payload[KEY_FIELD] == key
  }

  /** The first result of the request stamped with the key. */
  function FindStamped(results: seq<Result>, requestId: string, key: string): Option<Result> {
    if results == [] then None
    else
      var before := FindStamped(results[..|results| - 1], requestId, key);
      var r := results[|results| - 1];
      if before.Some? then before else if CarriesKey(r, requestId, key) then Some(r) else None
  }

  // ----- operations ----------------------------------------------------------------------

  const RESULT_KINDS: set<string> :=
    {"review_comments", "approval", "change_request", "ci_failure", "ci_success", "analysis"}

  /** The clock readings of one call, in order. */
  datatype Ticks = Ticks(t0: Stamp, t1: Stamp, t2: Stamp, t3: Stamp)

  datatype RunView = NoRun | UnknownTop | Top(top: TopState)

  /** A call with its arguments, its clock readings and the ids it draws. */
  datatype Call =
    | Register(session: string, provider: string, targetRef: string, runId: Option<string>, phase: string,
               taskKind: string, policy: BlockingPolicy, deadlineAt: Stamp, resumePolicy: string,
               requestId: string, waitId: string, ticks: Ticks)
    | Ingest(requestId: string, provider: string, kind: string, summary: string, payload: map<string, string>,
             runId: Option<string>, key: string, resultId: string, itemId: string, ticks: Ticks)
    | Ack(itemId: string, status: DeliveryStatus, ticks: Ticks)
    | Wake(requestId: string, itemId: string, view: RunView, ticks: Ticks)

  /** `Failed`: the call raises on the way. */
  datatype Response =
    | Rejected
    | Failed
    | Registered(requestId: string, waitId: string, session: string)
    | Ingested(resultId: string, itemId: string, session: string)
    | Deduped(resultId: string, itemId: string, session: string)
    | Acked(itemId: string)
    | Decided(choice: WakeChoice)

  function SourceKindFor(taskKind: string): string {
    if taskKind == "review" || taskKind == "" then "external_review" else taskKind
  }

  function WaitKindFor(taskKind: string): string {
    if taskKind == "review" || taskKind == "" then "external_review"
    else if taskKind == "ci_wait" then "ci"
    else if taskKind == "approval_wait" then "approval"
    else taskKind
  }

  /** The request and the wait that a registration appends. */
  function NewRequest(c: Call): Request
    requires c.Register?
  {
    Request(c.requestId, c.session, c.runId, c.phase, c.taskKind, c.provider, c.targetRef, c.policy, PendingTask,
            c.ticks.t0, c.ticks.t0)
  }

  function NewWait(c: Call): Wait
    requires c.Register?
  {
    Wait(c.waitId, c.session, c.runId, c.requestId, WaitKindFor(c.taskKind), Waiting,
         if c.resumePolicy != "" then c.resumePolicy else if c.policy.NotifyOnly? then "operator_ack" else "auto",
         c.ticks.t1, 0, c.deadlineAt)
  }

  predicate RegisterOk(c: Call)
    requires c.Register?
  {
    c.session != "" && c.provider != "" && c.targetRef != ""
  }

  function DoRegister(p: Plane, c: Call): (Plane, Response)
    requires c.Register?
  {
    if !RegisterOk(c) then (p, Rejected)
    else
      (Plane(p.tasks + [RequestRecord(NewRequest(c))], p.waits + [NewWait(c)], p.mailbox),
       Registered(c.requestId, c.waitId, c.session))
  }

  /** The checks before anything is looked up by key. */
  predicate IngestOk(p: Plane, c: Call)
    requires c.Ingest?
  {
    && LatestRequest(p, c.requestId).Some?
    && c.kind in RESULT_KINDS
    && var req := LatestRequest(p, c.requestId).value;
    && !(req.provider != "" && c.provider != "" && c.provider != req.provider)
  }

  function RunIdFor(req: Request, c: Call): Option<string>
    requires c.Ingest?
  {
    if c.runId.Some? then c.runId else req.runId
  }

  function NewItemFor(req: Request, c: Call): Item
    requires c.Ingest?
  {
    Item(c.itemId, req.session, RunIdFor(req, c), c.requestId, SourceKindFor(req.taskKind), c.summary, c.provider,
        c.kind,
         c.payload, NewItem, Undecided, c.ticks.t0, c.ticks.t1)
  }

  function NewResult(req: Request, c: Call): Result
    requires c.Ingest?
  {
    Result(c.resultId, c.requestId, req.session, RunIdFor(req, c), c.provider, c.kind, c.summary,
           if c.key != "" then c.payload[KEY_FIELD := c.key][ITEM_FIELD := c.itemId] else c.payload, c.ticks.t1)
  }

  function Resolve(w: Wait, at: Stamp): Wait {
    w.(status := Satisfied, resolvedAt := at)
  }

  function Complete(r: Request, at: Stamp): Request {
    r.(status := CompletedTask, updatedAt := at)
  }

  function Appended(p: Plane, req: Request, c: Call): Plane
    requires c.Ingest?
  {
    var wait := WaitForRequest(p, c.requestId);
    Plane(p.tasks + [ResultRecord(NewResult(req, c))] + [RequestRecord(Complete(req, c.ticks.t3))],
          if wait.Some? && wait.value.status.Waiting? then p.waits + [Resolve(wait.value, c.ticks.t2)] else p.waits,
          p.mailbox + [NewItemFor(req, c)])
  }

  function StoredItemId(r: Result): string {
    if ITEM_FIELD in r.payload then r.payload[ITEM_FIELD] else ""
  }

  function DoIngest(p: Plane, c: Call): (Plane, Response)
    requires c.Ingest?
  {
    if !IngestOk(p, c) then (p, Rejected)
    else
      var req := LatestRequest(p, c.requestId).value;
      var known := if c.key != "" then FindStamped(Results(p.tasks), c.requestId, c.key) else None;
      if known.Some? then (p, Deduped(known.value.id, StoredItemId(known.value), req.session))
      else (Appended(p, req, c), Ingested(c.resultId, c.itemId, req.session))
  }

  function DoAck(p: Plane, c: Call): (Plane, Response)
    requires c.Ack?
  {
    var item := LatestItem(p, c.itemId);
    if c.status.NewItem? || item.None? then (p, Rejected)
    else (p.(mailbox := p.mailbox + [item.value.(delivery := c.status, updatedAt := c.ticks.t0)]), Acked(c.itemId))
  }

  /** `wake_policy.evaluate`. */
  function Evaluate(policy: BlockingPolicy, view: RunView): WakeChoice {
    match policy
    case AdvisoryOnly => RecordOnly
    case NotifyOnly => NotifyOperator
    case BlockSession =>
      if !view.Top? || IsFinal(view.top) then NotifyOperator
      else if view.top in {Running, Verifying, Gating, Attached} then Defer
      else if view.top in {PausedForHuman, RecoveryNeeded} then WakeWorker
      else NotifyOperator
  }

  function DoWake(p: Plane, c: Call): (Plane, Response)
    requires c.Wake?
  {
    var req := LatestRequest(p, c.requestId);
    var item := LatestItem(p, c.itemId);
    if req.None? || item.None? then (p, Rejected)
    else
      var choice := Evaluate(req.value.policy, c.view);
      (p.(mailbox := p.mailbox + [item.value.(wake := choice, updatedAt := c.ticks.t0)]), Decided(choice))
  }

  function Do(p: Plane, c: Call): (Plane, Response) {
    match c
    case Register(_, _, _, _, _, _, _, _, _, _, _, _) => DoRegister(p, c)
    case Ingest(_, _, _, _, _, _, _, _, _, _) => DoIngest(p, c)
    case Ack(_, _, _) => DoAck(p, c)
    case Wake(_, _, _, _) => DoWake(p, c)
  }

  /** The logs that `calls` lead through, one call each. */
  ghost predicate IsPlay(calls: seq<Call>, ps: seq<Plane>) {
    && |ps| == |calls| + 1
    && forall i {:trigger Do(ps[i], calls[i])} :: 0 <= i < |calls| ==> ps[i + 1] == Do(ps[i], calls[i]).0
  }

  // ----- the setting ---------------------------------------------------------------------

  predicate InSequence(t: Ticks) {
    0 < t.t0 <= t.t1 <= t.t2 <= t.t3
  }

  /** Later than everything written so far. */
  ghost predicate NotBefore(p: Plane, now: Stamp) {
    && (forall r :: r in Requests(p.tasks) ==> r.updatedAt <= now)
    && (forall w :: w in p.waits ==> WaitAt(w) <= now)
    && (forall i :: i in p.mailbox ==> i.updatedAt <= now)
  }

  /** The ids a call draws have not been used. */
  ghost predicate DrawsFresh(p: Plane, c: Call) {
    match c
    case Register(_, _, _, _, _, _, _, _, _, rid, wid, _) =>
      && rid != "" && wid != ""
      && (forall r :: r in Requests(p.tasks) ==> r.id != rid)
      && (forall w :: w in p.waits ==> w.id != wid)
    case Ingest(_, _, _, _, _, _, _, _, iid, _) =>
      iid != "" && forall i :: i in p.mailbox ==> i.id != iid
    case _ => true
  }

  /** The clock does not run backwards and ids are fresh. */
  ghost predicate Sound(p: Plane, c: Call) {
    InSequence(c.ticks) && NotBefore(p, c.ticks.t0) && DrawsFresh(p, c)
  }

  /** From empty logs, with fresh ids and a clock that does not run backwards. */
  ghost predicate IsSoundPlay(calls: seq<Call>, ps: seq<Plane>) {
    && IsPlay(calls, ps) && ps[0] == EMPTY
    && forall i {:trigger Sound(ps[i], calls[i])} :: 0 <= i < |calls| ==> Sound(ps[i], calls[i])
  }
}
