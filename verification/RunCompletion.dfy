/** A run is complete only if the finish gate accepts it, and reviews are recorded only by an
    acknowledgement. */
module RunCompletion {
  import opened Options
  import StateMachine
  import opened Plan
  import opened FinishGate
  import opened Gates
  import opened RunModel
  import opened RunSteps
  import opened RunFrames
  import opened RunProgress

  /** All three ways into COMPLETED pass through the finish gate. */
  lemma CompletionIsGated(spec: Spec, s: RunState, d: Decision, ok: bool, reviewer: string, git: GitStatus, fr: bool)
    requires !s.top.Completed?
    ensures var t := ApplyDecision(spec, s, d, git, fr).state; t.top.Completed? ==> FinishOk(spec, t, git)
    ensures var t := ApplyVerification(spec, s, ok, git, fr).state; t.top.Completed? ==> FinishOk(spec, t, git) && ok
    ensures var t := AckReview(spec, s, reviewer, git).state; t.top.Completed? ==> FinishOk(spec, t, git)
  {
    DecisionCompletionIsGated(spec, s, d, git, fr);
    VerificationCompletionIsGated(spec, s, ok, git, fr);
  }

  lemma DecisionCompletionIsGated(spec: Spec, s: RunState, d: Decision, git: GitStatus, fr: bool)
    requires !s.top.Completed?
    ensures var t := ApplyDecision(spec, s, d, git, fr).state;
            t.top.Completed? ==> d.kind.Finish? && FinishOk(spec, t, git)
  {
    if d.kind.Finish? && FinishOk(spec, s, git) {
      assert StandingOf(Transition(s, StateMachine.Completed).state) == StandingOf(s);
    }
  }

  lemma VerificationCompletionIsGated(spec: Spec, s: RunState, ok: bool, git: GitStatus, fr: bool)
    requires !s.top.Completed?
    ensures var t := ApplyVerification(spec, s, ok, git, fr).state; t.top.Completed? ==> FinishOk(spec, t, git) && ok
  {
    var t := ApplyVerification(spec, s, ok, git, fr).state;
    if t.top.Completed? {
      var s1 := s.(verification := Verdict(ok));
      var s2 := if s1.node in s1.done then s1 else s1.(done := s1.done + [s1.node]);
      assert StandingOf(t) == StandingOf(s2);
    }
  }

  /** The parts of the contract that nothing after completion can undo. */
  predicate Earned(spec: Spec, s: RunState) {
    && StepsMet(spec, StandingOf(s))
    && VerificationMet(spec, StandingOf(s))
    && ReviewMet(spec.contract.mustReviewBy, s.reviews)
  }

  function AckedReviewers(log: seq<LogEvent>): (r: set<string>)
    ensures forall x :: x in r <==> ReviewAcked(x) in log
  {
    set e | e in log && e.ReviewAcked? :: e.reviewer
  }

  /** What a record shows about how it came about. */
  ghost predicate Honest(spec: Spec, s: RunState, log: seq<LogEvent>) {
    && (s.top.Completed? ==> Earned(spec, s))
    && s.reviews <= AckedReviewers(log)
    && (s.done != [] ==> s.verification.Verdict?)
  }

  ghost predicate HonestWorld(spec: Spec, w: World) {
    Honest(spec, w.run, w.log) && Honest(spec, w.disk, w.log)
  }

  lemma SameWorkIsHonest(spec: Spec, s: RunState, t: RunState, log: seq<LogEvent>, log2: seq<LogEvent>)
    requires Honest(spec, s, log) && SameWork(s, t) && (t.top.Completed? ==> s.top.Completed?)
    requires forall r :: ReviewAcked(r) in log2 <==> ReviewAcked(r) in log
    ensures Honest(spec, t, log2)
  {
  }

  lemma TakeKeepsHonest(spec: Spec, w: World, cp: Checkpoint, d: Option<Decision>, git: GitStatus, fr: bool)
    requires Linear(spec) && HonestWorld(spec, w)
    ensures HonestWorld(spec, TakeCheckpoint(spec, w, cp, d, git, fr))
  {
    ArrivalIsQuiet(w.run, cp);
    var s := Arrived(w.run, cp);
    var v := TakeCheckpoint(spec, w, cp, d, git, fr);
    SameWorkIsHonest(spec, w.run, s, w.log, w.log);
    if d.Some? && MayDecide(spec, s, d.value) {
      LinearNeverBranches(spec, s, d.value);
      DecisionKeepsWork(spec, s, d.value, git, fr);
      DecisionCompletionIsGated(spec, s, d.value, git, fr);
      assert forall r :: ReviewAcked(r) in v.log <==> ReviewAcked(r) in w.log;
    }
  }

  lemma CheckKeepsHonest(spec: Spec, w: World, ok: bool, git: GitStatus, fr: bool)
    requires Linear(spec) && OnPlan(spec, w.run) && HonestWorld(spec, w) && w.run.top.Verifying?
    ensures HonestWorld(spec, Checked(spec, w, ok, git, fr))
  {
    VerificationAdvances(spec, w.run, ok, git, fr);
    VerificationCompletionIsGated(spec, w.run, ok, git, fr);
    var v := Checked(spec, w, ok, git, fr);
    assert v.log == w.log + [Verified(w.run.node, ok)];
    assert forall r :: ReviewAcked(r) in v.log <==> ReviewAcked(r) in w.log;
  }

  lemma AckKeepsHonest(spec: Spec, w: World, reviewer: string, git: GitStatus)
    requires HonestWorld(spec, w)
    ensures HonestWorld(spec, Acknowledge(spec, w, reviewer, git))
  {
    var t := AckReview(spec, w.disk, reviewer, git).state;
    var v := Acknowledge(spec, w, reviewer, git);
    AckIsQuiet(spec, w.disk, reviewer, git);
    assert v.log == if reviewer in REVIEWERS then w.log + [ReviewAcked(reviewer)] else w.log;
    if AckReview(spec, w.disk, reviewer, git).Raised? {
      assert v.run == w.run && v.disk == w.disk;
    } else if t.top.Completed? && !w.disk.top.Completed? {
      assert StandingOf(t) == StandingOf(w.disk.(reviews := t.reviews));
    } else if t.top.Completed? {
      MoreReviewsStillMeet(spec.contract.mustReviewBy, w.disk.reviews, t.reviews);
    }
  }

  lemma MoreReviewsStillMeet(required: string, before: set<string>, after: set<string>)
    requires ReviewMet(required, before) && before <= after
    ensures ReviewMet(required, after)
  {
  }

  lemma QuietKeepsHonest(spec: Spec, w: World, v: World)
    requires HonestWorld(spec, w)
    requires (SameWork(w.run, v.run) && (v.run.top.Completed? ==> w.run.top.Completed?)) || v.run == w.disk
    requires v.disk in {w.disk, v.run}
    requires forall r :: ReviewAcked(r) in v.log <==> ReviewAcked(r) in w.log
    ensures HonestWorld(spec, v)
  {
    SameWorkIsHonest(spec, w.disk, w.disk, w.log, v.log);
    if v.run != w.disk {
      SameWorkIsHonest(spec, w.run, v.run, w.log, v.log);
    }
  }

  lemma QuietNeverCompletes(spec: Spec, w: World, m: Elem)
    requires !m.Take? && !m.Check? && !m.Stop? && !m.Die? && !OfDaemon(m)
    requires DoElem(spec, w, m).run.top.Completed?
    ensures w.run.top.Completed?
  {
  }

  lemma DaemonKeepsHonest(spec: Spec, w: World, m: Elem)
    requires HonestWorld(spec, w) && OfDaemon(m) && w.phase.Down?
    ensures HonestWorld(spec, DoElem(spec, w, m))
  {
    match m {
      case Ack(r, git) => AckKeepsHonest(spec, w, r, git);
      case Resume => ResumeKeepsHonest(spec, w);
      case Orphan => OrphanKeepsHonest(spec, w);
    }
  }

  lemma ResumeKeepsHonest(spec: Spec, w: World)
    requires HonestWorld(spec, w)
    ensures HonestWorld(spec, Resumed(w))
  {
    RecoveryIsQuiet(w.disk);
    if w.disk.top.PausedForHuman? {
      SameWorkIsHonest(spec, w.disk, ResumePaused(w.disk).state, w.log, w.log);
    }
  }

  lemma OrphanKeepsHonest(spec: Spec, w: World)
    requires HonestWorld(spec, w)
    ensures HonestWorld(spec, OnDisk(w, RecoverOrphan(w.disk)))
  {
    RecoveryIsQuiet(w.disk);
    SameWorkIsHonest(spec, w.disk, RecoverOrphan(w.disk).state, w.log, w.log);
  }

  lemma ElemKeepsHonest(spec: Spec, w: World, m: Elem)
    requires Linear(spec) && HonestWorld(spec, w) && OnPlan(spec, w.run)
    ensures HonestWorld(spec, DoElem(spec, w, m))
  {
    if OfDaemon(m) {
      if w.phase.Down? {
        DaemonKeepsHonest(spec, w, m);
      }
    } else if !w.phase.Down? {
      match m {
        case Take(cp, d, git, fr) => TakeKeepsHonest(spec, w, cp, d, git, fr);
        case Check(ok, git, fr) =>
          if w.run.top.Verifying? {
            CheckKeepsHonest(spec, w, ok, git, fr);
          }
        case Stop => QuietKeepsHonest(spec, w, ShutDown(w));
        case Die => QuietKeepsHonest(spec, w, ShutDown(w));
        case _ => SidecarKeepsHonest(spec, w, m);
      }
    }
  }

  lemma SidecarKeepsHonest(spec: Spec, w: World, m: Elem)
    requires HonestWorld(spec, w)
    requires !m.Take? && !m.Check? && !m.Stop? && !m.Die? && !OfDaemon(m)
    ensures HonestWorld(spec, DoElem(spec, w, m))
  {
    QuietSteps(spec, w, m);
    if DoElem(spec, w, m).run.top.Completed? {
      QuietNeverCompletes(spec, w, m);
    }
    QuietKeepsHonest(spec, w, DoElem(spec, w, m));
  }

  // ----- which reviews are recorded ------------------------------------------------------

  /** The operation acknowledges a review, and the log says so. */
  predicate Acknowledges(w: World, op: Op) {
    Enabled(w, op) && op.AckOp? && op.reviewer in REVIEWERS
  }

  /** The reviewers of those of the first `n` operations that acknowledge a review. */
  function AckedBefore(ops: seq<Op>, ws: seq<World>, n: nat): set<string>
    requires n <= |ops| < |ws|
  {
    if n == 0 then {}
    else
      AckedBefore(ops, ws, n - 1) + (if Acknowledges(ws[n - 1], ops[n - 1]) then {ops[n - 1].reviewer} else {})
  }

  /** The same without those in which the look at the repository raises. */
  function RecordedBefore(spec: Spec, ops: seq<Op>, ws: seq<World>, n: nat): set<string>
    requires n <= |ops| < |ws|
  {
    if n == 0 then {}
    else
      RecordedBefore(spec, ops, ws, n - 1)
      + (if Acknowledges(ws[n - 1], ops[n - 1]) && !GitRaises(spec, ops[n - 1].git) then {ops[n - 1].reviewer} else {})
  }

  ghost predicate Reviewed(w: World, recorded: set<string>, acknowledged: set<string>) {
    && w.run.reviews == w.disk.reviews == recorded
    && forall r :: ReviewAcked(r) in w.log <==> r in acknowledged
  }

  lemma TakeKeepsReviews(spec: Spec, w: World, cp: Checkpoint, d: Option<Decision>, git: GitStatus, fr: bool)
    ensures var v := TakeCheckpoint(spec, w, cp, d, git, fr);
            && v.run.reviews == w.run.reviews && v.disk == w.disk
            && forall r :: ReviewAcked(r) in v.log <==> ReviewAcked(r) in w.log
  {
    ArrivalIsQuiet(w.run, cp);
    var s := Arrived(w.run, cp);
    if d.Some? && MayDecide(spec, s, d.value) {
      DecisionKeepsReviews(spec, s, d.value, git, fr);
    }
  }

  lemma DecisionKeepsReviews(spec: Spec, s: RunState, d: Decision, git: GitStatus, fr: bool)
    ensures ApplyDecision(spec, s, d, git, fr).state.reviews == s.reviews
  {
    if !d.kind.Branch? {
      DecisionKeepsWork(spec, s, d, git, fr);
    }
  }

  lemma CheckKeepsReviews(spec: Spec, w: World, ok: bool, git: GitStatus, fr: bool)
    ensures var v := Checked(spec, w, ok, git, fr);
            && v.run.reviews == w.run.reviews && v.disk == w.disk
            && forall r :: ReviewAcked(r) in v.log <==> ReviewAcked(r) in w.log
  {
    assert Checked(spec, w, ok, git, fr).log == w.log + [Verified(w.run.node, ok)];
  }

  lemma ElemKeepsReviewed(spec: Spec, w: World, m: Elem, recorded: set<string>, acknowledged: set<string>)
    requires Reviewed(w, recorded, acknowledged) && !m.Ack?
    ensures Reviewed(DoElem(spec, w, m), recorded, acknowledged)
  {
    if OfDaemon(m) {
      if w.phase.Down? {
        DaemonSteps(spec, w, m);
        RecoveryIsQuiet(w.disk);
      }
    } else {
      match m {
        case Take(cp, d, git, fr) => TakeKeepsReviews(spec, w, cp, d, git, fr);
        case Check(ok, git, fr) => CheckKeepsReviews(spec, w, ok, git, fr);
        case Stop =>
        case Die =>
        case _ => QuietKeepsReviewed(spec, w, m, recorded, acknowledged);
      }
    }
  }

  lemma QuietKeepsReviewed(spec: Spec, w: World, m: Elem, recorded: set<string>, acknowledged: set<string>)
    requires Reviewed(w, recorded, acknowledged)
    requires !m.Take? && !m.Check? && !m.Stop? && !m.Die? && !OfDaemon(m)
    ensures Reviewed(DoElem(spec, w, m), recorded, acknowledged)
  {
    QuietSteps(spec, w, m);
    var v := DoElem(spec, w, m);
    assert v.log in QuietLogs(w);
  }

  lemma AckRecords(cfg: Config, spec: Spec, w: World, op: Op, recorded: set<string>, acknowledged: set<string>)
    requires Reviewed(w, recorded, acknowledged) && op.AckOp?
    ensures Reviewed(Step(cfg, spec, w, op),
                     recorded + (if Acknowledges(w, op) && !GitRaises(spec, op.git) then {op.reviewer} else {}),
                     acknowledged + (if Acknowledges(w, op) then {op.reviewer} else {}))
  {
    if Enabled(w, op) {
      AckIsQuiet(spec, w.disk, op.reviewer, op.git);
      assert Step(cfg, spec, w, op).log ==
             if op.reviewer in REVIEWERS then w.log + [ReviewAcked(op.reviewer)] else w.log;
    }
  }

  ghost predicate ReviewedAt(spec: Spec, ops: seq<Op>, ws: seq<World>, n: nat)
    requires n <= |ops| < |ws|
  {
    Reviewed(ws[n], RecordedBefore(spec, ops, ws, n), AckedBefore(ops, ws, n))
  }

  lemma NextReviewed(cfg: Config, spec: Spec, ops: seq<Op>, ws: seq<World>, m: nat, n: nat)
    requires IsRun(cfg, spec, ops, ws) && n == m + 1 <= |ops|
    ensures ReviewedAt(spec, ops, ws, m) ==> ReviewedAt(spec, ops, ws, n)
  {
    var w, op := ws[m], ops[m];
    var recorded, acknowledged := RecordedBefore(spec, ops, ws, m), AckedBefore(ops, ws, m);
    assert ws[n] == Step(cfg, spec, w, op);
    if Reviewed(w, recorded, acknowledged) {
      if op.AckOp? {
        AckRecords(cfg, spec, w, op, recorded, acknowledged);
      } else {
        OtherOpsKeepReviewed(cfg, spec, op, recorded, acknowledged);
        RunIsHandedOver(cfg, spec, ops, ws, m);
        StepKeeps(Setting(cfg, spec, op), (v: World) => Reviewed(v, recorded, acknowledged), w);
      }
    }
  }

  /** In every run, the reviews on record are those acknowledged without a raise in between. */
  lemma {:induction false} ReviewsAreTheRecorded(cfg: Config, spec: Spec, ops: seq<Op>, ws: seq<World>, n: nat)
    requires IsRun(cfg, spec, ops, ws) && n <= |ops|
    ensures ReviewedAt(spec, ops, ws, n)
  {
    if n > 0 {
      var m: nat := n - 1;
      ReviewsAreTheRecorded(cfg, spec, ops, ws, m);
      NextReviewed(cfg, spec, ops, ws, m, n);
    }
  }

  lemma OtherOpsKeepReviewed(cfg: Config, spec: Spec, op: Op, recorded: set<string>, acknowledged: set<string>)
    requires !op.AckOp?
    ensures Keeps(Setting(cfg, spec, op), (v: World) => Reviewed(v, recorded, acknowledged))
  {
    forall v, m | Reviewed(v, recorded, acknowledged) && Performs(cfg, op, m)
      ensures Reviewed(DoElem(spec, v, m), recorded, acknowledged)
    {
      ElemKeepsReviewed(spec, v, m, recorded, acknowledged);
    }
  }

  lemma {:induction false} RecordedIff(spec: Spec, ops: seq<Op>, ws: seq<World>, n: nat, r: string)
    requires n <= |ops| < |ws|
    ensures r in AckedBefore(ops, ws, n) <==>
            exists i :: 0 <= i < n && Acknowledges(ws[i], ops[i]) && ops[i].reviewer == r
    ensures r in RecordedBefore(spec, ops, ws, n) <==>
            exists i :: 0 <= i < n && Acknowledges(ws[i], ops[i]) && ops[i].reviewer == r
                        && !GitRaises(spec, ops[i].git)
  {
    if n > 0 {
      RecordedIff(spec, ops, ws, n - 1, r);
    }
  }

  /** So a review that the log shows as acknowledged is on record exactly when git did not raise in
      at least one of its acknowledgements. */
  lemma AcknowledgedIsRecordedIff(cfg: Config, spec: Spec, ops: seq<Op>, ws: seq<World>, n: nat, r: string)
    requires IsRun(cfg, spec, ops, ws) && n < |ws| && ReviewAcked(r) in ws[n].log
    ensures r in ws[n].disk.reviews <==>
            exists i :: 0 <= i < n && Acknowledges(ws[i], ops[i]) && ops[i].reviewer == r
                        && !GitRaises(spec, ops[i].git)
  {
    ReviewsAreTheRecorded(cfg, spec, ops, ws, n);
    RecordedIff(spec, ops, ws, n, r);
  }

  /** Over every run of a linear plan: a completed run has earned its completion, and no review is
      recorded that was not acknowledged. If the contract asks for all steps and a passing
      verification, every node is done, each of them was verified, and the last verification
      passed and is not merely pending. */
  lemma CompletedRunsEarnedIt(cfg: Config, spec: Spec, ops: seq<Op>, ws: seq<World>, w: World)
    requires IsRun(cfg, spec, ops, ws) && w in ws
    requires Linear(spec)
    ensures && w.run.reviews == w.disk.reviews <= AckedReviewers(w.log)
            && (forall s :: s in {w.run, w.disk} && s.top.Completed? ==>
                  && Earned(spec, s)
                  && (spec.contract.requireAllSteps ==> s.done == Ids(spec) && AllVerified(s.done, w.log))
                  && (spec.contract.requireAllSteps && spec.contract.requireVerification
                      ==> s.verification == Verdict(true)))
  {
    var J := (v: World) => Tracked(spec, v) && HonestWorld(spec, v);
    forall op | op in ops
      ensures Keeps(Setting(cfg, spec, op), J)
    {
      forall v, m | Tracked(spec, v) && HonestWorld(spec, v)
        ensures Tracked(spec, DoElem(spec, v, m)) && HonestWorld(spec, DoElem(spec, v, m))
      {
        ElemKeepsTracked(spec, v, m);
        ElemKeepsHonest(spec, v, m);
      }
    }
    RunKeeps(cfg, spec, ops, ws, J, w);
    var n :| 0 <= n < |ws| && ws[n] == w;
    ReviewsAreTheRecorded(cfg, spec, ops, ws, n);
    forall s | s in {w.run, w.disk} && s.top.Completed? && spec.contract.requireAllSteps
      ensures s.done == Ids(spec)
    {
      AllStepsMeansWholePlan(spec, s);
    }
  }

  lemma AllStepsMeansWholePlan(spec: Spec, s: RunState)
    requires Linear(spec) && OnPlan(spec, s) && spec.contract.requireAllSteps && StepsMet(spec, StandingOf(s))
    ensures s.done == Ids(spec)
  {
    var last := spec.nodes[|spec.nodes| - 1];
    assert last in spec.nodes;
    assert last.id in s.done;
  }
}
