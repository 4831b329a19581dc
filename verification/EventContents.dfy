/** What the event plane shows, in terms of the calls alone: every record comes from a call that was accepted,
    carries what that call said, and keeps it whatever is called afterwards. */
module EventContents {
  import opened Options
  import StateMachine
  import opened EventPlane
  import opened EventRefinement

  // ----- plays ---------------------------------------------------------------------------

  lemma {:induction false} PlayIsGood(calls: seq<Call>, ps: seq<Plane>, n: nat)
    requires IsSoundPlay(calls, ps) && n < |ps|
    ensures Good(ps[n])
  {
    if n > 0 {
      PlayIsGood(calls, ps, n - 1);
      assert Sound(ps[n - 1], calls[n - 1]);
      CallRefines(ps[n - 1], calls[n - 1]);
    }
  }

  /** One call of a play, on the maps. */
  lemma NthCall(calls: seq<Call>, ps: seq<Plane>, n: nat)
    requires IsSoundPlay(calls, ps) && n < |calls|
    ensures Good(ps[n]) && Draws(Abstract(ps[n]), calls[n])
    ensures Abstract(ps[n + 1]) == StoreStep(Abstract(ps[n]), calls[n]).0
  {
    PlayIsGood(calls, ps, n);
    assert Sound(ps[n], calls[n]);
    CallRefines(ps[n], calls[n]);
    FreshIdsAreNew(ps[n], calls[n]);
  }

  lemma NthAnswer(calls: seq<Call>, ps: seq<Plane>, n: nat)
    requires IsSoundPlay(calls, ps) && n < |calls|
    ensures Do(ps[n], calls[n]).1 == StoreStep(Abstract(ps[n]), calls[n]).1
  {
    PlayIsGood(calls, ps, n);
    assert Sound(ps[n], calls[n]);
    CallRefines(ps[n], calls[n]);
  }

  /** The ids that the call draws are new. */
  predicate Draws(s: Store, c: Call) {
    && (c.Register? ==> c.requestId !in s.requests && c.waitId !in s.waits)
    && (c.Ingest? ==> c.itemId !in s.items)
  }

  // ----- registrations -------------------------------------------------------------------

  /** The registration is accepted. */
  predicate Registers(c: Call) {
    c.Register? && c.session != "" && c.provider != "" && c.targetRef != ""
  }

  function WaitKindOf(taskKind: string): string {
    match taskKind
    case "" => "external_review"
    case "review" => "external_review"
    case "ci_wait" => "ci"
    case "approval_wait" => "approval"
    case _ => taskKind
  }

  /** The store has the request and its wait as the registration asked for them, whatever has become of them. */
  ghost predicate ShowsRegistration(s: Store, c: Call)
    requires c.Register?
  {
    && c.requestId in s.requests && c.waitId in s.waits
    && (var r := s.requests[c.requestId];
        r == Request(c.requestId, c.session, c.runId, c.phase, c.taskKind, c.provider, c.targetRef, c.policy, r.status,
                     c.ticks.t0, r.updatedAt))
    && (var w := s.waits[c.waitId];
        var resume := if c.resumePolicy != "" then c.resumePolicy
                      else if c.policy == NotifyOnly then "operator_ack" else "auto";
        w == Wait(c.waitId, c.session, c.runId, c.requestId, WaitKindOf(c.taskKind), w.status, resume, c.ticks.t1,
                  w.resolvedAt, c.deadlineAt))
  }

  lemma RegistrationIsShown(s: Store, c: Call)
    requires Registers(c)
    ensures ShowsRegistration(StoreStep(s, c).0, c)
  {
  }

  lemma StepShowsRegistration(s: Store, c: Call, r: Call)
    requires Consistent(s) && Draws(s, c) && r.Register? && ShowsRegistration(s, r)
    ensures ShowsRegistration(StoreStep(s, c).0, r)
  {
    if c.Ingest? && c.requestId in s.requests {
      WaitOfRequest(s, c.requestId);
    }
  }

  /** Over every sequence of calls: what an accepted registration asked for is what its request and its wait
      show from then on. */
  lemma {:induction false} RegistrationsStay(calls: seq<Call>, ps: seq<Plane>, i: nat, n: nat)
    requires IsSoundPlay(calls, ps) && i < n <= |calls| && Registers(calls[i])
    ensures ShowsRegistration(Abstract(ps[n]), calls[i])
  {
    var m: nat := n - 1;
    NthCall(calls, ps, m);
    if i == m {
      RegistrationIsShown(Abstract(ps[m]), calls[i]);
    } else {
      RegistrationsStay(calls, ps, i, m);
      StepShowsRegistration(Abstract(ps[m]), calls[m], calls[i]);
    }
  }

  lemma NewRequestIsRegistered(s: Store, c: Call, id: string)
    requires id !in s.requests && id in StoreStep(s, c).0.requests
    ensures Registers(c) && c.requestId == id
  {
  }

  /** And there is no request that no registration asked for. */
  lemma {:induction false} RequestsAreRegistered(calls: seq<Call>, ps: seq<Plane>, id: string, n: nat) returns (i: nat)
    requires IsSoundPlay(calls, ps) && n <= |calls| && id in Abstract(ps[n]).requests
    ensures i < n && Registers(calls[i]) && calls[i].requestId == id
  {
    assert n > 0;
    i := n - 1;
    NthCall(calls, ps, i);
    if id in Abstract(ps[i]).requests {
      i := RequestsAreRegistered(calls, ps, id, i);
    } else {
      NewRequestIsRegistered(Abstract(ps[i]), calls[i], id);
    }
  }

  // ----- results -------------------------------------------------------------------------

  function SourceKindOf(taskKind: string): string {
    if taskKind in {"", "review"} then "external_review" else taskKind
  }

  function PayloadOf(c: Call): map<string, string>
    requires c.Ingest?
  {
    if c.key == "" then c.payload
    else c.payload + map["_idempotency_key" := c.key, "_mailbox_item_id" := c.itemId]
  }

  function RunOf(registration: Call, c: Call): Option<string>
    requires registration.Register? && c.Ingest?
  {
    if c.runId == None then registration.runId else c.runId
  }

  /** The store has the result and its mailbox item as the call reported them, under the session of the
      registration, and the request is complete. */
  ghost predicate ShowsResult(s: Store, registration: Call, c: Call)
    requires registration.Register? && c.Ingest?
  {
    && c.itemId in s.items
    && (var i := s.items[c.itemId];
        i == Item(c.itemId, registration.session, RunOf(registration, c), c.requestId,
                  SourceKindOf(registration.taskKind), c.summary, c.provider, c.kind, c.payload, i.delivery, i.wake,
                  c.ticks.t0, i.updatedAt))
    && Result(c.resultId, c.requestId, registration.session, RunOf(registration, c), c.provider, c.kind, c.summary,
              PayloadOf(c), c.ticks.t1) in s.results
    && c.requestId in s.requests && s.requests[c.requestId].status == CompletedTask
  }

  lemma ResultIsShown(s: Store, registration: Call, c: Call)
    requires c.Ingest? && StoreStep(s, c).1.Ingested?
    requires registration.Register? && registration.requestId == c.requestId && ShowsRegistration(s, registration)
    ensures ShowsResult(StoreStep(s, c).0, registration, c)
  {
    assert PayloadOf(c) == if c.key != "" then c.payload[KEY_FIELD := c.key][ITEM_FIELD := c.itemId] else c.payload;
    var t := StoreStep(s, c).0;
    assert t.results[|s.results|] == NewResult(s.requests[c.requestId], c);
  }

  lemma StepShowsResult(s: Store, c: Call, registration: Call, r: Call)
    requires Draws(s, c) && registration.Register? && r.Ingest? && ShowsResult(s, registration, r)
    ensures ShowsResult(StoreStep(s, c).0, registration, r)
  {
  }

  lemma NextShowsResult(calls: seq<Call>, ps: seq<Plane>, registration: Call, r: Call, m: nat)
    requires IsSoundPlay(calls, ps) && m < |calls| && registration.Register? && r.Ingest?
    ensures ShowsResult(Abstract(ps[m]), registration, r) ==> ShowsResult(Abstract(ps[m + 1]), registration, r)
  {
    NthCall(calls, ps, m);
    if ShowsResult(Abstract(ps[m]), registration, r) {
      StepShowsResult(Abstract(ps[m]), calls[m], registration, r);
    }
  }

  /** The call is answered as a new result. */
  predicate Ingests(p: Plane, c: Call) {
    c.Ingest? && Do(p, c).1.Ingested?
  }

  lemma FirstShowsResult(calls: seq<Call>, ps: seq<Plane>, i: nat, j: nat)
    requires IsSoundPlay(calls, ps) && i < j < |calls|
    requires Registers(calls[i]) && Ingests(ps[j], calls[j]) && calls[i].requestId == calls[j].requestId
    ensures ShowsResult(Abstract(ps[j + 1]), calls[i], calls[j])
  {
    NthCall(calls, ps, j);
    NthAnswer(calls, ps, j);
    RegistrationsStay(calls, ps, i, j);
    ResultIsShown(Abstract(ps[j]), calls[i], calls[j]);
  }

  /** Over every sequence of calls: an accepted result is shown as reported from then on, in the mailbox of the
      session that registered the request. */
  lemma {:induction false} ResultsStay(calls: seq<Call>, ps: seq<Plane>, i: nat, j: nat, n: nat)
    requires IsSoundPlay(calls, ps) && i < j < n <= |calls|
    requires Registers(calls[i]) && Ingests(ps[j], calls[j]) && calls[i].requestId == calls[j].requestId
    ensures ShowsResult(Abstract(ps[n]), calls[i], calls[j])
  {
    var m: nat := n - 1;
    if j == m {
      FirstShowsResult(calls, ps, i, j);
    } else {
      ResultsStay(calls, ps, i, j, m);
      NextShowsResult(calls, ps, calls[i], calls[j], m);
    }
  }

  lemma NewItemIsIngested(s: Store, c: Call, id: string)
    requires id !in s.items && id in StoreStep(s, c).0.items
    ensures c.Ingest? && StoreStep(s, c).1.Ingested? && c.itemId == id
  {
  }

  lemma NewlyCompleteIsIngested(s: Store, c: Call, id: string)
    requires id in s.requests ==> s.requests[id].status == PendingTask
    requires id in StoreStep(s, c).0.requests && StoreStep(s, c).0.requests[id].status == CompletedTask
    ensures c.Ingest? && StoreStep(s, c).1.Ingested? && c.requestId == id
  {
  }

  /** And there is no item and no completed request without an accepted result. */
  lemma {:induction false} ItemsAreIngested(calls: seq<Call>, ps: seq<Plane>, id: string, n: nat) returns (j: nat)
    requires IsSoundPlay(calls, ps) && n <= |calls| && id in Abstract(ps[n]).items
    ensures j < n && Ingests(ps[j], calls[j]) && calls[j].itemId == id
  {
    assert n > 0;
    j := n - 1;
    NthCall(calls, ps, j);
    if id in Abstract(ps[j]).items {
      j := ItemsAreIngested(calls, ps, id, j);
    } else {
      NewItemIsIngested(Abstract(ps[j]), calls[j], id);
      NthAnswer(calls, ps, j);
    }
  }

  lemma {:induction false} CompletedIsIngested(calls: seq<Call>, ps: seq<Plane>, id: string, n: nat) returns (j: nat)
    requires IsSoundPlay(calls, ps) && n <= |calls|
    requires id in Abstract(ps[n]).requests && Abstract(ps[n]).requests[id].status == CompletedTask
    ensures j < n && Ingests(ps[j], calls[j]) && calls[j].requestId == id
  {
    assert n > 0;
    j := n - 1;
    NthCall(calls, ps, j);
    var s := Abstract(ps[j]);
    if id in s.requests && s.requests[id].status == CompletedTask {
      j := CompletedIsIngested(calls, ps, id, j);
    } else {
      NewlyCompleteIsIngested(s, calls[j], id);
      NthAnswer(calls, ps, j);
    }
  }

  // ----- answers -------------------------------------------------------------------------

  /** The call `i` registered the request that the call `n` names. */
  predicate RegisteredBy(calls: seq<Call>, i: nat, n: nat, id: string)
    requires n <= |calls|
  {
    i < n && Registers(calls[i]) && calls[i].requestId == id
  }

  /** The call reports a known kind, and no provider or the one that was asked. */
  predicate Fitting(registration: Call, c: Call)
    requires registration.Register? && c.Ingest?
  {
    && c.kind in {"review_comments", "approval", "change_request", "ci_failure", "ci_success", "analysis"}
    && c.provider in {"", registration.provider}
  }

  /** The session's results already have the key. */
  ghost predicate KeyIsKnown(s: Store, requestId: string, key: string) {
    exists r :: r in s.results && r.requestId == requestId && "_idempotency_key" in r.payload
                && r.payload["_idempotency_key"] == key
  }

  lemma {:induction false} StampedIff(results: seq<Result>, requestId: string, key: string)
    ensures FindStamped(results, requestId, key).Some? <==>
            exists r :: r in results && r.requestId == requestId && "_idempotency_key" in r.payload
                        && r.payload["_idempotency_key"] == key
  {
    if results != [] {
      var before, last := results[..|results| - 1], results[|results| - 1];
      StampedIff(before, requestId, key);
      assert results == before + [last];
    }
  }

  /** A result is rejected exactly if its request was never registered, or it does not fit the registration;
      it is a repeat exactly if its key is known; and it is answered with the session of the registration. */
  lemma IngestAnswers(calls: seq<Call>, ps: seq<Plane>, i: nat, n: nat)
    requires IsSoundPlay(calls, ps) && n < |calls| && calls[n].Ingest? && RegisteredBy(calls, i, n, calls[n].requestId)
    ensures var c, response := calls[n], Do(ps[n], calls[n]).1;
            && (response.Rejected? <==> !Fitting(calls[i], c))
            && (response.Deduped? <==>
                  Fitting(calls[i], c) && c.key != "" && KeyIsKnown(Abstract(ps[n]), c.requestId, c.key))
            && (response.Deduped? ==> response.session == calls[i].session && Abstract(ps[n + 1]) == Abstract(ps[n]))
            && (response.Rejected? || response.Deduped? || response == Ingested(c.resultId, c.itemId, calls[i].session))
  {
    RegistrationsStay(calls, ps, i, n);
    NthCall(calls, ps, n);
    NthAnswer(calls, ps, n);
    StampedIff(Abstract(ps[n]).results, calls[n].requestId, calls[n].key);
  }

  lemma UnregisteredIsRejected(calls: seq<Call>, ps: seq<Plane>, n: nat)
    requires IsSoundPlay(calls, ps) && n < |calls| && (calls[n].Ingest? || calls[n].Wake?)
    requires forall i :: 0 <= i < n ==> !RegisteredBy(calls, i, n, calls[n].requestId)
    ensures Do(ps[n], calls[n]).1.Rejected? && Abstract(ps[n + 1]) == Abstract(ps[n])
  {
    NthCall(calls, ps, n);
    NthAnswer(calls, ps, n);
    if calls[n].requestId in Abstract(ps[n]).requests {
      var i := RequestsAreRegistered(calls, ps, calls[n].requestId, n);
      assert RegisteredBy(calls, i, n, calls[n].requestId);
    }
  }

  /** The wake decision, by the policy of the request and what the run is doing. */
  predicate WakesFor(choice: WakeChoice, policy: BlockingPolicy, view: RunView) {
    && (choice == WakeWorker <==>
          policy == BlockSession && view in {Top(StateMachine.PausedForHuman), Top(StateMachine.RecoveryNeeded)})
    && (choice == Defer <==>
          policy == BlockSession && view.Top?
          && view.top in {StateMachine.Running, StateMachine.Verifying, StateMachine.Gating, StateMachine.Attached})
    && (choice == RecordOnly <==> policy == AdvisoryOnly)
    && choice != Undecided
  }

  lemma WakeIsDecided(s: Store, c: Call, registration: Call)
    requires c.Wake? && c.itemId in s.items
    requires registration.Register? && registration.requestId == c.requestId && ShowsRegistration(s, registration)
    ensures var (t, response) := StoreStep(s, c);
            && response.Decided? && WakesFor(response.choice, registration.policy, c.view)
            && c.itemId in t.items && t.items[c.itemId].wake == response.choice
  {
  }

  /** An item wakes the worker exactly if its request blocks the session of a run that waits, and is held back
      exactly if that run is busy; an advisory is only recorded, and all else goes to the operator. The
      decision is what the item then shows. */
  lemma WakeAnswers(calls: seq<Call>, ps: seq<Plane>, i: nat, n: nat)
    requires IsSoundPlay(calls, ps) && n < |calls| && calls[n].Wake? && RegisteredBy(calls, i, n, calls[n].requestId)
    requires calls[n].itemId in Abstract(ps[n]).items
    ensures var response := Do(ps[n], calls[n]).1;
            && response.Decided? && WakesFor(response.choice, calls[i].policy, calls[n].view)
            && calls[n].itemId in Abstract(ps[n + 1]).items
            && Abstract(ps[n + 1]).items[calls[n].itemId].wake == response.choice
  {
    RegistrationsStay(calls, ps, i, n);
    NthCall(calls, ps, n);
    NthAnswer(calls, ps, n);
    WakeIsDecided(Abstract(ps[n]), calls[n], calls[i]);
  }

  /** An acknowledgement is accepted exactly if there is such an item, and sets its status. */
  lemma AckAnswers(calls: seq<Call>, ps: seq<Plane>, n: nat)
    requires IsSoundPlay(calls, ps) && n < |calls| && calls[n].Ack?
    ensures var c, s, t := calls[n], Abstract(ps[n]), Abstract(ps[n + 1]);
            && (Do(ps[n], c).1 == Acked(c.itemId) <==> c.itemId in s.items && c.status != NewItem)
            && (Do(ps[n], c).1 != Acked(c.itemId) ==> Do(ps[n], c).1.Rejected? && t == s)
            && (c.itemId in s.items && c.status != NewItem ==>
                  c.itemId in t.items && t.items[c.itemId].delivery == c.status)
  {
    NthCall(calls, ps, n);
    NthAnswer(calls, ps, n);
  }
}
