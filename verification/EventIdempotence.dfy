/** Ingesting a result is idempotent per idempotency key, as far as the results on file can be read
    back. */
module EventIdempotence {
  import opened Options
  import EventFold
  import opened EventPlane
  import EventRefinement
  import opened EventLines
  import opened EventReadBack
  import TextLines

  /** The results that the lookup of a key gets to see. */
  function SeenResults(f: Files): seq<Result> {
    Results(Records(f.tasks))
  }

  /** The strings that a call contributes to its result record. */
  function OwnStrings(c: Call): set<string>
    requires c.Ingest?
  {
    {c.resultId, c.requestId, c.provider, c.kind, c.summary} + Optional(c.runId)
    + Texts(if c.key != "" then c.payload[KEY_FIELD := c.key][ITEM_FIELD := c.itemId] else c.payload)
  }

  /** The result of the call will be read back. */
  predicate Lasting(c: Call) {
    c.Ingest? && Intact(OwnStrings(c))
  }

  lemma LastingIff(req: Request, c: Call)
    requires c.Ingest? && Intact(RequestStrings(req))
    ensures Lasting(c) <==> Intact(ResultStrings(NewResult(req, c)))
  {
    var own, all := OwnStrings(c), ResultStrings(NewResult(req, c));
    assert own <= all;
    forall s | s in all
      ensures s in own || s in RequestStrings(req)
    {
    }
  }

  /** The call gets past all checks and finds nothing under its key. */
  predicate Appends(f: Files, c: Call) {
    && c.Ingest? && FileIngestOk(f, c)
    && (c.key != "" ==> FindStamped(SeenResults(f), c.requestId, c.key).None?)
  }

  lemma RequestIsRead(f: Files, c: Call)
    requires Faithful(f) && c.Ingest? && FileIngestOk(f, c)
    ensures Intact(RequestStrings(RequestOf(f, c)))
  {
    FoundIsRead(Seen(f), c.requestId, "");
    assert Intact(TaskStrings(RequestRecord(RequestOf(f, c))));
  }

  lemma RequestAddsNoResult(json: Json, rows: seq<Row<TaskRecord>>, r: Request)
    ensures Results(Records(rows + [TaskRow(json, RequestRecord(r))])) == Results(Records(rows))
  {
    TaskNext(json, rows, RequestRecord(r));
    EventRefinement.TaskAppends(Records(rows), RequestRecord(r));
  }

  lemma ResultIsSeen(json: Json, f: Files, c: Call)
    requires Faithful(f) && c.Ingest? && FileIngestOk(f, c)
    ensures SeenResults(WithResult(json, f, c))
         == if Lasting(c) then SeenResults(f) + [NewResult(RequestOf(f, c), c)] else SeenResults(f)
  {
    var req := RequestOf(f, c);
    RequestIsRead(f, c);
    LastingIff(req, c);
    TaskNext(json, f.tasks, ResultRecord(NewResult(req, c)));
    EventRefinement.TaskAppends(Records(f.tasks), ResultRecord(NewResult(req, c)));
  }

  lemma ClosingAddsNoResult(json: Json, f: Files, req: Request, c: Call)
    requires c.Ingest?
    ensures SeenResults(Closed(json, f, req, c)) == SeenResults(f)
  {
    RequestAddsNoResult(json, f.tasks, Complete(req, c.ticks.t3));
  }

  lemma AppendedIs(json: Json, f: Files, c: Call)
    requires Appends(f, c)
    ensures var g, h := WithResult(json, f, c), FileDo(json, f, c).0; h == g || h == Closed(json, g, RequestOf(f, c), c)
  {
  }

  lemma OthersKeepTheTasks(json: Json, f: Files, c: Call)
    requires !c.Register? && !Appends(f, c)
    ensures FileDo(json, f, c).0.tasks == f.tasks
  {
  }

  /** A call adds its result to what can be seen iff it appends one that lasts. */
  lemma SeenAfter(json: Json, f: Files, c: Call)
    requires Faithful(f)
    ensures SeenResults(FileDo(json, f, c).0)
         == if Appends(f, c) && Lasting(c) then SeenResults(f) + [NewResult(RequestOf(f, c), c)] else SeenResults(f)
  {
    if c.Register? {
      RequestAddsNoResult(json, f.tasks, NewRequest(c));
    } else if Appends(f, c) {
      AppendedIs(json, f, c);
      ResultIsSeen(json, f, c);
      ClosingAddsNoResult(json, WithResult(json, f, c), RequestOf(f, c), c);
    } else {
      OthersKeepTheTasks(json, f, c);
    }
  }

  lemma StampsStay(results: seq<Result>, r: Result, requestId: string, key: string)
    ensures FindStamped(results + [r], requestId, key)
         == if FindStamped(results, requestId, key).Some? then FindStamped(results, requestId, key)
            else if CarriesKey(r, requestId, key) then Some(r) else None
  {
    assert (results + [r])[..|results|] == results;
  }

  lemma {:induction false} StampsStayForever(json: Json, calls: seq<Call>, fs: seq<Files>, i: nat, j: nat,
      requestId: string, key: string)
    requires IsFilePlay(json, calls, fs) && i <= j < |fs| && FindStamped(SeenResults(fs[i]), requestId, key).Some?
    ensures FindStamped(SeenResults(fs[j]), requestId, key) == FindStamped(SeenResults(fs[i]), requestId, key)
  {
    if i < j {
      var f, c := fs[j - 1], calls[j - 1];
      StampsStayForever(json, calls, fs, i, j - 1, requestId, key);
      PlayIsFaithful(json, calls, fs, j - 1);
      SeenAfter(json, f, c);
      assert fs[j] == FileDo(json, f, c).0;
      if Appends(f, c) {
        StampsStay(SeenResults(f), NewResult(RequestOf(f, c), c), requestId, key);
      }
    }
  }

  predicate Answers(r: Response, resultId: string, itemId: string) {
    (r.Ingested? || r.Deduped?) && r.resultId == resultId && r.itemId == itemId
  }

  /** The answer to a keyed call is on record from then on, if its result lasts. */
  lemma AnswerIsStamped(json: Json, f: Files, c: Call, resultId: string, itemId: string)
    requires Faithful(f) && c.Ingest? && c.key != "" && Answers(FileDo(json, f, c).1, resultId, itemId)
    requires FileDo(json, f, c).1.Deduped? || Lasting(c)
    ensures var r := FindStamped(SeenResults(FileDo(json, f, c).0), c.requestId, c.key);
            r.Some? && r.value.id == resultId && StoredItemId(r.value) == itemId
  {
    if FileDo(json, f, c).1.Ingested? {
      SeenAfter(json, f, c);
      KeyedResult(SeenResults(f), RequestOf(f, c), c);
    }
  }

  lemma KeyedResult(results: seq<Result>, req: Request, c: Call)
    requires c.Ingest? && c.key != "" && FindStamped(results, c.requestId, c.key).None?
    ensures var r := FindStamped(results + [NewResult(req, c)], c.requestId, c.key);
            r.Some? && r.value.id == c.resultId && StoredItemId(r.value) == c.itemId
  {
    FieldsDiffer();
    StampsStay(results, NewResult(req, c), c.requestId, c.key);
  }

  /** Once a keyed call for a request has been answered by a result that lasts, every later call with
      the same request and key that passes the checks gets the same two ids and leaves all files
      unchanged, whatever happened in between. */
  lemma RepeatsChangeNothing(json: Json, calls: seq<Call>, fs: seq<Files>, i: nat, j: nat,
      resultId: string, itemId: string)
    requires IsFilePlay(json, calls, fs) && i < j < |calls|
    requires calls[i].Ingest? && calls[i].key != ""
    requires var r := FileDo(json, fs[i], calls[i]).1; Answers(r, resultId, itemId) && (r.Deduped? || Lasting(calls[i]))
    requires calls[j].Ingest? && calls[j].requestId == calls[i].requestId && calls[j].key == calls[i].key
    requires FileIngestOk(fs[j], calls[j])
    ensures fs[j + 1] == fs[j]
    ensures var r := FileDo(json, fs[j], calls[j]).1; r.Deduped? && Answers(r, resultId, itemId)
  {
    PlayIsFaithful(json, calls, fs, i);
    AnswerIsStamped(json, fs[i], calls[i], resultId, itemId);
    assert fs[i + 1] == FileDo(json, fs[i], calls[i]).0;
    StampsStayForever(json, calls, fs, i + 1, j, calls[i].requestId, calls[i].key);
    assert fs[j + 1] == FileDo(json, fs[j], calls[j]).0;
  }

  // ----- how many results a key gets -----------------------------------------------------

  function Stamped(results: seq<Result>, requestId: string, key: string): nat {
    if results == [] then 0
    else
      var before := Stamped(results[..|results| - 1], requestId, key);
      if CarriesKey(results[|results| - 1], requestId, key) then before + 1 else before
  }

  lemma {:induction false} NoneStampedMeansZero(results: seq<Result>, requestId: string, key: string)
    requires FindStamped(results, requestId, key).None?
    ensures Stamped(results, requestId, key) == 0
  {
    if results != [] {
      NoneStampedMeansZero(results[..|results| - 1], requestId, key);
    }
  }

  /** If no keyless payload uses the reserved key field, at most one result per request and key can
      ever be read. The payload of a keyed call may: its field is overwritten. */
  lemma {:induction false} OneResultPerKey(json: Json, calls: seq<Call>, fs: seq<Files>, requestId: string,
      key: string, n: nat)
    requires IsFilePlay(json, calls, fs) && n < |fs| && key != ""
    requires forall c :: c in calls && c.Ingest? && c.key == "" ==> KEY_FIELD !in c.payload
    ensures Stamped(SeenResults(fs[n]), requestId, key) <= 1
  {
    if n > 0 {
      var f, c := fs[n - 1], calls[n - 1];
      OneResultPerKey(json, calls, fs, requestId, key, n - 1);
      PlayIsFaithful(json, calls, fs, n - 1);
      SeenAfter(json, f, c);
      assert c in calls && fs[n] == FileDo(json, f, c).0;
      if Appends(f, c) && Lasting(c) {
        var r := NewResult(RequestOf(f, c), c);
        assert (SeenResults(f) + [r])[..|SeenResults(f)|] == SeenResults(f);
        if CarriesKey(r, requestId, key) {
          NewResultCarriesIff(RequestOf(f, c), c, requestId, key);
          NoneStampedMeansZero(SeenResults(f), requestId, key);
        }
      }
    }
  }

  lemma FieldsDiffer()
    ensures KEY_FIELD != ITEM_FIELD
  {
    assert KEY_FIELD[1] != ITEM_FIELD[1];
  }

  /** A call whose result would be found under the key: made with it, or keyless with a payload
      that has it in the reserved field. */
  predicate Brings(c: Call, requestId: string, key: string) {
    && c.Ingest? && c.requestId == requestId
    && (c.key == key || (c.key == "" && KEY_FIELD in c.payload && c.payload[KEY_FIELD] == key))
  }

  lemma NewResultCarriesIff(req: Request, c: Call, requestId: string, key: string)
    requires c.Ingest? && key != ""
    ensures CarriesKey(NewResult(req, c), requestId, key) <==> Brings(c, requestId, key)
  {
    FieldsDiffer();
  }

  /** The call is valid, brings the key, and its result lasts. */
  predicate Plants(f: Files, c: Call, requestId: string, key: string) {
    Brings(c, requestId, key) && FileIngestOk(f, c) && Lasting(c)
  }

  /** What a call does to what is found under a key. */
  lemma FoundAfter(json: Json, f: Files, c: Call, requestId: string, key: string)
    requires Faithful(f) && key != ""
    ensures var before := FindStamped(SeenResults(f), requestId, key);
            var after := FindStamped(SeenResults(FileDo(json, f, c).0), requestId, key);
            after.Some? <==> before.Some? || Plants(f, c, requestId, key)
  {
    SeenAfter(json, f, c);
    if Appends(f, c) {
      NewResultCarriesIff(RequestOf(f, c), c, requestId, key);
      StampsStay(SeenResults(f), NewResult(RequestOf(f, c), c), requestId, key);
    }
  }

  /** One of the first `n` calls plants the key. */
  predicate Planted(calls: seq<Call>, fs: seq<Files>, requestId: string, key: string, n: nat)
    requires n <= |calls| < |fs|
  {
    exists i :: 0 <= i < n && Plants(fs[i], calls[i], requestId, key)
  }

  lemma PlantedNext(calls: seq<Call>, fs: seq<Files>, requestId: string, key: string, m: nat, n: nat)
    requires n == m + 1 <= |calls| < |fs|
    ensures Planted(calls, fs, requestId, key, n) <==>
            Planted(calls, fs, requestId, key, m) || Plants(fs[m], calls[m], requestId, key)
  {
    if Planted(calls, fs, requestId, key, m) {
      var i :| 0 <= i < m && Plants(fs[i], calls[i], requestId, key);
      assert 0 <= i < n;
    }
  }

  predicate FoundExactly(calls: seq<Call>, fs: seq<Files>, requestId: string, key: string, n: nat)
    requires n <= |calls| < |fs|
  {
    FindStamped(SeenResults(fs[n]), requestId, key).Some? <==> Planted(calls, fs, requestId, key, n)
  }

  lemma NextFound(json: Json, calls: seq<Call>, fs: seq<Files>, requestId: string, key: string, m: nat, n: nat)
    requires IsFilePlay(json, calls, fs) && n == m + 1 <= |calls| && key != ""
    ensures FoundExactly(calls, fs, requestId, key, m) ==> FoundExactly(calls, fs, requestId, key, n)
  {
    PlayIsFaithful(json, calls, fs, m);
    FoundAfter(json, fs[m], calls[m], requestId, key);
    assert fs[n] == FileDo(json, fs[m], calls[m]).0;
    PlantedNext(calls, fs, requestId, key, m, n);
  }

  lemma {:induction false} FoundIff(json: Json, calls: seq<Call>, fs: seq<Files>, requestId: string, key: string,
      n: nat)
    requires IsFilePlay(json, calls, fs) && n <= |calls| && key != ""
    ensures FoundExactly(calls, fs, requestId, key, n)
  {
    if n > 0 {
      var m: nat := n - 1;
      FoundIff(json, calls, fs, requestId, key, m);
      NextFound(json, calls, fs, requestId, key, m, n);
    }
  }

  /** A valid call changes the files iff it appends. */
  lemma ChangesIff(json: Json, f: Files, c: Call)
    requires c.Ingest? && FileIngestOk(f, c)
    ensures FileDo(json, f, c).0 != f <==> Appends(f, c)
    ensures FileDo(json, f, c).1.Deduped? <==> !Appends(f, c)
  {
    if Appends(f, c) {
      assert |FileDo(json, f, c).0.mailbox| == |f.mailbox| + 1;
    }
  }

  /** Exactly when a valid keyed call is swallowed, over every play: when an earlier valid call on the
      same request had the same key, or was keyless with that key in the reserved field, and its
      result can be read back. */
  lemma SwallowedIff(json: Json, calls: seq<Call>, fs: seq<Files>, j: nat)
    requires IsFilePlay(json, calls, fs) && j < |calls|
    requires calls[j].Ingest? && calls[j].key != "" && FileIngestOk(fs[j], calls[j])
    ensures fs[j + 1] == fs[j] <==>
            exists i :: 0 <= i < j && Plants(fs[i], calls[i], calls[j].requestId, calls[j].key)
  {
    ChangesIff(json, fs[j], calls[j]);
    FoundIff(json, calls, fs, calls[j].requestId, calls[j].key, j);
    assert fs[j + 1] == FileDo(json, fs[j], calls[j]).0;
  }

  // ----- what can go wrong ---------------------------------------------------------------

  lemma KeylessIsFound(json: Json, f: Files, keyless: Call, key: string)
    requires Faithful(f) && keyless.Ingest? && keyless.key == "" && keyless.payload == map[KEY_FIELD := key]
    requires FileIngestOk(f, keyless) && Lasting(keyless)
    requires FindStamped(SeenResults(f), keyless.requestId, key).None?
    ensures var r := FindStamped(SeenResults(FileDo(json, f, keyless).0), keyless.requestId, key);
            r.Some? && r.value.id == keyless.resultId && StoredItemId(r.value) == ""
  {
    SeenAfter(json, f, keyless);
    KeylessResult(SeenResults(f), RequestOf(f, keyless), keyless, key);
  }

  lemma KeylessResult(results: seq<Result>, req: Request, keyless: Call, key: string)
    requires keyless.Ingest? && keyless.key == "" && keyless.payload == map[KEY_FIELD := key]
    requires FindStamped(results, keyless.requestId, key).None?
    ensures var r := FindStamped(results + [NewResult(req, keyless)], keyless.requestId, key);
            r.Some? && r.value.id == keyless.resultId && StoredItemId(r.value) == ""
  {
    FieldsDiffer();
    StampsStay(results, NewResult(req, keyless), keyless.requestId, key);
  }

  lemma FoundIsDeduped(json: Json, g: Files, keyed: Call)
    requires keyed.Ingest? && keyed.key != "" && FileIngestOk(g, keyed)
    requires FindStamped(SeenResults(g), keyed.requestId, keyed.key).Some?
    ensures var r := FindStamped(SeenResults(g), keyed.requestId, keyed.key).value;
            && FileDo(json, g, keyed).0 == g && FileDo(json, g, keyed).1.Deduped?
            && Answers(FileDo(json, g, keyed).1, r.id, StoredItemId(r))
  {
  }

  /** A collision: a keyless result whose payload carries the reserved field swallows the first keyed
      call with that key. */
  lemma ReservedFieldsCollide(json: Json, f: Files, keyless: Call, keyed: Call)
    requires Faithful(f) && keyless.Ingest? && keyed.Ingest? && keyed.requestId == keyless.requestId
    requires keyless.key == "" && keyed.key != "" && keyless.payload == map[KEY_FIELD := keyed.key]
    requires FileIngestOk(f, keyless) && Lasting(keyless)
    requires FindStamped(SeenResults(f), keyed.requestId, keyed.key).None?
    requires FileIngestOk(FileDo(json, f, keyless).0, keyed)
    ensures var g := FileDo(json, f, keyless).0;
            FileDo(json, g, keyed).0 == g && FileDo(json, g, keyed).1.Deduped?
            && Answers(FileDo(json, g, keyed).1, keyless.resultId, "")
  {
    KeylessIsFound(json, f, keyless, keyed.key);
    FoundIsDeduped(json, FileDo(json, f, keyless).0, keyed);
  }

  /** And a result that cannot be read back is forgotten: the repeat of its call appends again. */
  lemma TornResultsAreForgotten(json: Json, f: Files, c: Call, again: Call)
    requires Faithful(f) && Appends(f, c) && c.key != "" && !Lasting(c)
    requires again.Ingest? && again.requestId == c.requestId && again.key == c.key
    requires FileIngestOk(FileDo(json, f, c).0, again)
    ensures var g := FileDo(json, f, c).0;
            FileDo(json, g, again).0 != g && !FileDo(json, g, again).1.Deduped?
  {
    SeenAfter(json, f, c);
    ChangesIff(json, FileDo(json, f, c).0, again);
  }

  // ----- the same key, twice -------------------------------------------------------------

  const NO_VALUES := Json(t => false, w => false, i => false)

  const OPENING := Register("s", "p", "t", None, "execute", "review", NotifyOnly, 0, "", "r", "w", Ticks(1, 1, 1, 1))
  const TORN_SUMMARY := "a" + ['\U{2028}'] + "b"

  function Report(resultId: string, itemId: string, now: nat): Call {
    Ingest("r", "p", "approval", TORN_SUMMARY, map[], None, "k", resultId, itemId, Ticks(now, now, now, now))
  }

  /** Files whose readers see one request and nothing else. */
  predicate OnlyOpened(f: Files) {
    && !Poisoned(f.tasks) && !Poisoned(f.waits)
    && SeenResults(f) == [] && Faithful(f)
    && LatestRequest(Seen(f), "r").Some?
    && LatestRequest(Seen(f), "r").value.provider == "p" && LatestRequest(Seen(f), "r").value.session == "s"
  }

  lemma OpeningIsReadable()
    ensures Readable(OPENING)
  {
    assert CallStrings(OPENING) == {"s", "p", "t", "execute", "review", "", "r", "w"};
    assert TextLines.Free("execute", TEARS) && TextLines.Free("review", TEARS) && TextLines.Free("s", TEARS);
    assert TextLines.Free("p", TEARS) && TextLines.Free("t", TEARS);
  }

  lemma OpeningOpens()
    ensures OnlyOpened(FileDo(NO_VALUES, NO_FILES, OPENING).0)
  {
    OpeningIsReadable();
    RegisterAgrees(NO_VALUES, NO_FILES, OPENING);
    RegisterKeepsFaithful(NO_VALUES, NO_FILES, OPENING);
    OpeningIsKnown();
  }

  lemma OpeningIsKnown()
    ensures var p := Do(EMPTY, OPENING).0; Results(p.tasks) == [] && LatestRequest(p, "r") == Some(NewRequest(OPENING))
  {
    EventRefinement.TaskAppends([], RequestRecord(NewRequest(OPENING)));
    OneRequest(NewRequest(OPENING));
  }

  lemma OneRequest(r: Request)
    ensures EventFold.Latest([] + [r], RequestKey, RequestAt, r.id) == Some(r)
  {
    assert ([] + [r])[..0] == [];
  }

  lemma TornSummaryIsForgotten(resultId: string, itemId: string, now: nat)
    ensures !Lasting(Report(resultId, itemId, now))
  {
    assert TORN_SUMMARY[1] == '\U{2028}';
    assert TORN_SUMMARY in OwnStrings(Report(resultId, itemId, now));
  }

  lemma CompletedIsStillKnown(json: Json, g: Files, req: Request, c: Call)
    requires c.Ingest? && Intact(RequestStrings(req)) && req.id == "r"
    requires LatestRequest(Seen(g), "r") == Some(req)
    ensures var latest := LatestRequest(Seen(Closed(json, g, req, c)), "r");
            latest == Some(req) || latest == Some(Complete(req, c.ticks.t3))
  {
    var done := RequestRecord(Complete(req, c.ticks.t3));
    assert TaskStrings(done) == RequestStrings(req);
    TaskNext(json, g.tasks, done);
    EventRefinement.TaskAppends(Records(g.tasks), done);
    var before := Requests(Records(g.tasks));
    assert (before + [done.request])[..|before|] == before;
  }

  lemma FoundHasTheId(p: Plane, id: string)
    ensures LatestRequest(p, id).Some? ==> LatestRequest(p, id).value.id == id
  {
    var i := EventFold.SomeoneWins(Requests(p.tasks), RequestKey, RequestAt, id);
  }

  lemma TornResultIsUnseen(f: Files, resultId: string, itemId: string, now: nat)
    requires FileIngestOk(f, Report(resultId, itemId, now)) && Faithful(f)
    ensures var g := WithResult(NO_VALUES, f, Report(resultId, itemId, now));
            Records(g.tasks) == Records(f.tasks) && !Poisoned(g.tasks) && Seen(g).waits == Seen(f).waits
  {
    var c := Report(resultId, itemId, now);
    RequestIsRead(f, c);
    LastingIff(RequestOf(f, c), c);
    TornSummaryIsForgotten(resultId, itemId, now);
    RecordsNext(f.tasks, TaskRow(NO_VALUES, ResultRecord(NewResult(RequestOf(f, c), c))));
  }

  lemma ClosingRaisesNothing(f: Files, req: Request, c: Call)
    requires c.Ingest? && !Poisoned(f.tasks) && !Poisoned(f.waits)
    ensures var g := Closed(NO_VALUES, f, req, c); !Poisoned(g.tasks) && !Poisoned(g.waits)
  {
    RecordsNext(f.tasks, TaskRow(NO_VALUES, RequestRecord(Complete(req, c.ticks.t3))));
    var wait := WaitForRequest(Seen(f), c.requestId);
    if wait.Some? {
      RecordsNext(f.waits, WaitRow(NO_VALUES, Resolve(wait.value, c.ticks.t2)));
    }
  }

  lemma ReportIsValid(f: Files, resultId: string, itemId: string, now: nat)
    requires OnlyOpened(f)
    ensures var c := Report(resultId, itemId, now);
            FileIngestOk(f, c) && Appends(f, c) && RequestOf(f, c).id == "r"
            && RequestOf(f, c).provider == "p" && RequestOf(f, c).session == "s"
  {
    FoundHasTheId(Seen(f), "r");
  }

  lemma ReportAppends(f: Files, resultId: string, itemId: string, now: nat)
    requires OnlyOpened(f)
    ensures var (g, r) := FileDo(NO_VALUES, f, Report(resultId, itemId, now));
            r == Ingested(resultId, itemId, "s") && OnlyOpened(g)
  {
    var c := Report(resultId, itemId, now);
    ReportIsValid(f, resultId, itemId, now);
    var req, g := RequestOf(f, c), WithResult(NO_VALUES, f, c);
    RequestIsRead(f, c);
    TornResultIsUnseen(f, resultId, itemId, now);
    CompletedIsStillKnown(NO_VALUES, g, req, c);
    ClosingRaisesNothing(g, req, c);
    ClosingAddsNoResult(NO_VALUES, g, req, c);
    IngestKeepsFaithful(NO_VALUES, f, c);
    assert FileDo(NO_VALUES, f, c) == (Closed(NO_VALUES, g, req, c), Ingested(resultId, itemId, "s"));
  }

  lemma ThreeCalls(json: Json, a: Call, b: Call, c: Call)
    ensures var f1 := FileDo(json, NO_FILES, a).0;
            var f2 := FileDo(json, f1, b).0;
            IsFilePlay(json, [a, b, c], [NO_FILES, f1, f2, FileDo(json, f2, c).0])
  {
  }

  /** The same keyed call, repeated: its summary holds a line separator, and each time it is answered
      with a new result and a new item. */
  lemma SameKeyTwice() returns (fs: seq<Files>)
    ensures var calls := [OPENING, Report("res1", "i1", 2), Report("res2", "i2", 3)];
            && IsFilePlay(NO_VALUES, calls, fs)
            && FileDo(NO_VALUES, fs[1], calls[1]).1 == Ingested("res1", "i1", "s")
            && FileDo(NO_VALUES, fs[2], calls[2]).1 == Ingested("res2", "i2", "s")
  {
    var b, c := Report("res1", "i1", 2), Report("res2", "i2", 3);
    var f1 := FileDo(NO_VALUES, NO_FILES, OPENING).0;
    var f2 := FileDo(NO_VALUES, f1, b).0;
    OpeningOpens();
    ReportAppends(f1, "res1", "i1", 2);
    ReportAppends(f2, "res2", "i2", 3);
    ThreeCalls(NO_VALUES, OPENING, b, c);
    fs := [NO_FILES, f1, f2, FileDo(NO_VALUES, f2, c).0];
  }
}
