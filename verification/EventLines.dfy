/** The event plane's files as their readers see them (supervisor/event_plane/store.py). A record is
    written as one line of JSON, in which line breaks beyond ASCII stay as they are, and read back
    through `splitlines`, which breaks there. A record with such a character in one of its strings is
    torn. No fragment of it is a record: the first ends and the last begins inside a string, and the
    quotes in between are escaped or belong to other strings. Fragments that are no JSON are skipped,
    but one that is a JSON value and no object makes every reader raise. */
module EventLines {
  import opened Options
  import opened EventPlane
  import TextLines

  /** The breaks of `splitlines` that `json.dumps` does not escape. */
  const TEARS: set<char> := {'\U{85}', '\U{2028}', '\U{2029}'}

  /** Of which torn records some fragment is a JSON value but no object. */
  datatype Json = Json(task: TaskRecord -> bool, wait: Wait -> bool, item: Item -> bool)

  /** What a written record looks like to a reader. */
  datatype Row<+T> = Whole(record: T) | Torn(raises: bool)

  predicate Intact(strings: set<string>) {
    forall s :: s in strings ==> TextLines.Free(s, TEARS)
  }

  // ----- the strings of a record ---------------------------------------------------------

  function Optional(s: Option<string>): set<string> {
    if s.Some? then {s.value} else {}
  }

  function Texts(payload: map<string, string>): set<string> {
    payload.Keys + payload.Values
  }

  function RequestStrings(r: Request): set<string> {
    {r.id, r.session, r.phase, r.taskKind, r.provider, r.targetRef} + Optional(r.runId)
  }

  function ResultStrings(r: Result): set<string> {
    {r.id, r.requestId, r.session, r.provider, r.kind, r.summary} + Optional(r.runId) + Texts(r.payload)
  }

  function TaskStrings(t: TaskRecord): set<string> {
    match t
    case RequestRecord(r) => RequestStrings(r)
    case ResultRecord(r) => ResultStrings(r)
  }

  function WaitStrings(w: Wait): set<string> {
    {w.id, w.session, w.requestId, w.kind, w.resumePolicy} + Optional(w.runId)
  }

  function ItemStrings(i: Item): set<string> {
    {i.id, i.session, i.requestId, i.sourceKind, i.summary, i.provider, i.kind} + Optional(i.runId) + Texts(i.raw)
  }

  function TaskRow(json: Json, t: TaskRecord): Row<TaskRecord> {
    if Intact(TaskStrings(t)) then Whole(t) else Torn(json.task(t))
  }

  function WaitRow(json: Json, w: Wait): Row<Wait> {
    if Intact(WaitStrings(w)) then Whole(w) else Torn(json.wait(w))
  }

  function ItemRow(json: Json, i: Item): Row<Item> {
    if Intact(ItemStrings(i)) then Whole(i) else Torn(json.item(i))
  }

  // ----- reading -------------------------------------------------------------------------

  datatype Files = Files(tasks: seq<Row<TaskRecord>>, waits: seq<Row<Wait>>, mailbox: seq<Row<Item>>)

  const NO_FILES := Files([], [], [])

  /** The records that a reader gets to see, in order. */
  function Records<T>(rows: seq<Row<T>>): seq<T> {
    if rows == [] then []
    else
      var before := Records(rows[..|rows| - 1]);
      var row := rows[|rows| - 1];
      if row.Whole? then before + [row.record] else before
  }

  /** Reading the file raises. */
  predicate Poisoned<T>(rows: seq<Row<T>>) {
    exists i :: 0 <= i < |rows| && rows[i].Torn? && rows[i].raises
  }

  /** No file raises. */
  predicate Clean(f: Files) {
    !Poisoned(f.tasks) && !Poisoned(f.waits) && !Poisoned(f.mailbox)
  }

  function Seen(f: Files): Plane {
    Plane(Records(f.tasks), Records(f.waits), Records(f.mailbox))
  }

  lemma RecordsNext<T>(rows: seq<Row<T>>, row: Row<T>)
    ensures Records(rows + [row]) == if row.Whole? then Records(rows) + [row.record] else Records(rows)
    ensures Poisoned(rows + [row]) <==> Poisoned(rows) || (row.Torn? && row.raises)
  {
    var more := rows + [row];
    assert more[..|rows|] == rows && more[|rows|] == row;
    if i :| 0 <= i < |rows| && rows[i].Torn? && rows[i].raises {
      assert more[i].Torn? && more[i].raises;
    }
  }

  // ----- the calls on the files ----------------------------------------------------------

  function FileRegister(json: Json, f: Files, c: Call): (Files, Response)
    requires c.Register?
  {
    if !RegisterOk(c) then (f, Rejected)
    else
      (f.(tasks := f.tasks + [TaskRow(json, RequestRecord(NewRequest(c)))],
          waits := f.waits + [WaitRow(json, NewWait(c))]),
       Registered(c.requestId, c.waitId, c.session))
  }

  /** The checks of an ingest, on what can be read. */
  predicate FileIngestOk(f: Files, c: Call)
    requires c.Ingest?
  {
    !Poisoned(f.tasks) && IngestOk(Seen(f), c)
  }

  function RequestOf(f: Files, c: Call): Request
    requires c.Ingest? && FileIngestOk(f, c)
  {
    LatestRequest(Seen(f), c.requestId).value
  }

  /** The item and the result of an ingest are on file before the waits are read. */
  function WithResult(json: Json, f: Files, c: Call): Files
    requires c.Ingest? && FileIngestOk(f, c)
  {
    var req := RequestOf(f, c);
    f.(tasks := f.tasks + [TaskRow(json, ResultRecord(NewResult(req, c)))],
       mailbox := f.mailbox + [ItemRow(json, NewItemFor(req, c))])
  }

  function Closed(json: Json, f: Files, req: Request, c: Call): Files
    requires c.Ingest?
  {
    var wait := WaitForRequest(Seen(f), c.requestId);
    f.(tasks := f.tasks + [TaskRow(json, RequestRecord(Complete(req, c.ticks.t3)))],
       waits := if wait.Some? && wait.value.status.Waiting?
                then f.waits + [WaitRow(json, Resolve(wait.value, c.ticks.t2))]
                else f.waits)
  }

  function FileIngest(json: Json, f: Files, c: Call): (Files, Response)
    requires c.Ingest?
  {
    if Poisoned(f.tasks) then (f, Failed)
    else if !IngestOk(Seen(f), c) then (f, Rejected)
    else
      var req := RequestOf(f, c);
      var known := if c.key != "" then FindStamped(Results(Seen(f).tasks), c.requestId, c.key) else None;
      if known.Some? then (f, Deduped(known.value.id, StoredItemId(known.value), req.session))
      else
        var g := WithResult(json, f, c);
        if Poisoned(g.waits) then (g, Failed)
        else (Closed(json, g, req, c), Ingested(c.resultId, c.itemId, req.session))
  }

  function FileRewrite(json: Json, f: Files, item: Item): Files {
    f.(mailbox := f.mailbox + [ItemRow(json, item)])
  }

  function FileAck(json: Json, f: Files, c: Call): (Files, Response)
    requires c.Ack?
  {
    if c.status.NewItem? then (f, Rejected)
    else if Poisoned(f.mailbox) then (f, Failed)
    else
      var item := LatestItem(Seen(f), c.itemId);
      if item.None? then (f, Rejected)
      else (FileRewrite(json, f, item.value.(delivery := c.status, updatedAt := c.ticks.t0)), Acked(c.itemId))
  }

  function FileWake(json: Json, f: Files, c: Call): (Files, Response)
    requires c.Wake?
  {
    if Poisoned(f.tasks) then (f, Failed)
    else
      var req := LatestRequest(Seen(f), c.requestId);
      if req.None? then (f, Rejected)
      else if Poisoned(f.mailbox) then (f, Failed)
      else
        var item := LatestItem(Seen(f), c.itemId);
        if item.None? then (f, Rejected)
        else
          var choice := Evaluate(req.value.policy, c.view);
          (FileRewrite(json, f, item.value.(wake := choice, updatedAt := c.ticks.t0)), Decided(choice))
  }

  function FileDo(json: Json, f: Files, c: Call): (Files, Response) {
    match c
    case Register(_, _, _, _, _, _, _, _, _, _, _, _) => FileRegister(json, f, c)
    case Ingest(_, _, _, _, _, _, _, _, _, _) => FileIngest(json, f, c)
    case Ack(_, _, _) => FileAck(json, f, c)
    case Wake(_, _, _, _) => FileWake(json, f, c)
  }

  /** The files that `calls` lead through, one call each. */
  ghost predicate IsFilePlay(json: Json, calls: seq<Call>, fs: seq<Files>) {
    && |fs| == |calls| + 1 && fs[0] == NO_FILES
    && forall i {:trigger FileDo(json, fs[i], calls[i])} ::
         0 <= i < |calls| ==> fs[i + 1] == FileDo(json, fs[i], calls[i]).0
  }

  // ----- which calls write readable records ----------------------------------------------

  function CallStrings(c: Call): set<string> {
    match c
    case Register(session, provider, targetRef, runId, phase, taskKind, _, _, resumePolicy, rid, wid, _) =>
      {session, provider, targetRef, phase, taskKind, resumePolicy, rid, wid} + Optional(runId)
    case Ingest(rid, provider, kind, summary, payload, runId, key, resultId, itemId, _) =>
      {rid, provider, kind, summary, key, resultId, itemId} + Optional(runId) + Texts(payload)
    case _ => {}
  }

  /** What a caller can check: none of the three characters in its strings. */
  predicate Readable(c: Call) {
    Intact(CallStrings(c))
  }

  predicate TasksFaithful(rows: seq<Row<TaskRecord>>) {
    forall t :: t in Records(rows) ==> Intact(TaskStrings(t))
  }

  predicate WaitsFaithful(rows: seq<Row<Wait>>) {
    forall w :: w in Records(rows) ==> Intact(WaitStrings(w))
  }

  predicate ItemsFaithful(rows: seq<Row<Item>>) {
    forall i :: i in Records(rows) ==> Intact(ItemStrings(i))
  }

  /** Whatever reading shows was written in one piece. */
  predicate Faithful(f: Files) {
    TasksFaithful(f.tasks) && WaitsFaithful(f.waits) && ItemsFaithful(f.mailbox)
  }
}
