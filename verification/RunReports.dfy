/** What a checkpoint on the surface leads to, from the gate's decision to the record, the log and the
    instruction handed over, in every world of a run. */
module RunReports {
  import opened Options
  import opened StateMachine
  import opened Plan
  import opened FinishGate
  import opened Gates
  import opened RunModel
  import opened RunAdmission
  import opened RunOutcomes
  import RunEdges
  import RunFaults
  import RunSafety

  // ----- decisions -----------------------------------------------------------------------

  /** An escalation pauses the run in the class that its reason has; without a known reason it stays paused. */
  lemma EscalationLeads(cfg: Config, spec: Spec, w: World, op: Op)
    requires Judges(cfg, spec, w, op) && Judged(cfg, spec, w, op).kind == EscalateToHuman
    ensures var d, v := Judged(cfg, spec, w, op), Step(cfg, spec, w, op);
            var paused := w.(run := PausedAt(Reported(w.run, op.checkpoint), ClassOf(d.words), d.recoverable));
            if op.env.notesRaise then v == Dead(paused) else PauseLeads(cfg, paused, v, d.recoverable, op.env.auto)
  {
    ReportIsDecided(cfg, spec, w, op);
    EscalationEnds(cfg, spec, AfterReport(w, op), Judged(cfg, spec, w, op), op.env);
  }

  /** A go-ahead leaves the node and its attempt alone; guidance waits for the end of the batch. */
  lemma ContinueLeads(cfg: Config, spec: Spec, w: World, op: Op) returns (u: World)
    requires Judges(cfg, spec, w, op) && Judged(cfg, spec, w, op).kind == Continue
    ensures var d, v := Judged(cfg, spec, w, op), Step(cfg, spec, w, op);
            var on := w.(run := InRunning(Reported(w.run, op.checkpoint)).(reInjects := 0));
            if d.guidance then v == on.(deferred := Some((w.run.node, w.run.attempt)), phase := Batch(false))
            else WorksOn(cfg, on, u, v, op.env.send)
  {
    ReportIsDecided(cfg, spec, w, op);
    u := ContinueEnds(cfg, spec, AfterReport(w, op), Judged(cfg, spec, w, op), op.env);
  }

  /** A retry is charged to both budgets; it is the next attempt while they last, and a pause otherwise. */
  lemma RetryLeads(cfg: Config, spec: Spec, w: World, op: Op) returns (u: World)
    requires Judges(cfg, spec, w, op) && Judged(cfg, spec, w, op).kind == Retry
    ensures var retried := w.(run := Reported(w.run, op.checkpoint).(reInjects := 0),
                              log := w.log + [RetryDecided(w.run.node)]);
            FailureLeads(cfg, retried, u, Step(cfg, spec, w, op), op.env)
  {
    ReportIsDecided(cfg, spec, w, op);
    u := RetryEnds(cfg, spec, AfterReport(w, op), Judged(cfg, spec, w, op), op.env);
  }

  /** A re-inject is counted; on the attach boundary the instruction is repeated, and the fourth in a row
      pauses the run. */
  lemma ReInjectLeads(cfg: Config, spec: Spec, w: World, op: Op) returns (u: World)
    requires Judges(cfg, spec, w, op) && Judged(cfg, spec, w, op).kind == ReInject
    ensures var s, v := Reported(w.run, op.checkpoint).(reInjects := w.run.reInjects + 1), Step(cfg, spec, w, op);
            if s.reInjects > 3 then v == w.(run := PausedAt(s, "recovery", false), phase := Batch(false))
            else if w.run.top != Attached then v == w.(run := s, phase := Batch(false))
            else
              && HandOver(cfg, w.(run := s), u, Prompt(w.run.node, w.run.attempt), op.env.send)
              && v == (if EndsSidecar(cfg, s, op.env.send) then Dead(u) else u.(phase := Batch(true)))
  {
    ReportIsDecided(cfg, spec, w, op);
    u := ReInjectEnds(cfg, spec, AfterReport(w, op), Judged(cfg, spec, w, op), op.env);
  }

  lemma ConfidentBranch(spec: Spec, s: RunState, k: nat, env: GateEnv)
    requires Knows(spec, s.node) && GetNode(spec, s.node).nodeType == DecisionPoint
    requires var options := GetNode(spec, s.node).options;
             && env.branch.confident && k < |options| && options[k].id == env.branch.selected
             && forall j :: k < j < |options| ==> options[j].id != env.branch.selected
    ensures var d := Gate(GetNode(spec, s.node), s.top == Attached, s.checkpoint, s.question, env);
            d.kind == Branch && d.nextNode == GetNode(spec, s.node).options[k].next
  {
    var options := GetNode(spec, s.node).options;
    BranchesIff(GetNode(spec, s.node), s.top == Attached, s.checkpoint, s.question, env);
    assert options[k] in options;
  }

  /** At a decision point, the option that the judge is sure of, the last of that name, moves the run to
      where it leads, with a fresh attempt count and in RUNNING; the agent is told unless it has been told
      about that node last. */
  lemma BranchIsTaken(cfg: Config, spec: Spec, w: World, op: Op, k: nat) returns (u: World)
    requires WellFormed(spec) && Judges(cfg, spec, w, op)
    requires GetNode(spec, w.run.node).nodeType == DecisionPoint
    requires var options := GetNode(spec, w.run.node).options;
             && op.env.gate.branch.confident && k < |options| && options[k].id == op.env.gate.branch.selected
             && forall j :: k < j < |options| ==> options[j].id != op.env.gate.branch.selected
    ensures var next, v := GetNode(spec, w.run.node).options[k].next, Step(cfg, spec, w, op);
            var on := w.(run := InRunning(Reported(w.run, op.checkpoint)).(node := next, attempt := 0));
            && WorksOn(cfg, on, u, v, op.env.send)
            && (w.run.lastNode == Some(next) || !EndsSidecar(cfg, on.run, op.env.send) ==>
                  v.run.node == next && v.run.attempt == 0 && v.run.top == Running)
  {
    var node := GetNode(spec, w.run.node);
    assert node in spec.nodes && node.options[k] in node.options;
    ReportIsDecided(cfg, spec, w, op);
    ConfidentBranch(spec, Reported(w.run, op.checkpoint), k, op.env.gate);
    u := BranchEnds(cfg, spec, AfterReport(w, op), Judged(cfg, spec, w, op), op.env);
    if w.run.lastNode == Some(node.options[k].next) || !EndsSidecar(cfg, Reported(w.run, op.checkpoint), op.env.send) {
      var on := w.(run := InRunning(Reported(w.run, op.checkpoint)).(node := node.options[k].next, attempt := 0));
      WorkingOnStays(cfg, on, u, Step(cfg, spec, w, op), op.env.send);
    }
  }

  // ----- verifications -------------------------------------------------------------------

  /** The record and the log once the step has been verified. */
  function AfterVerification(w: World, op: Op): World
    requires op.CheckpointOp?
  {
    w.(run := InVerification(Reported(w.run, op.checkpoint), op.env.verifyOk),
       log := w.log + [Verified(w.run.node, op.env.verifyOk)])
  }

  /** The record as the verification finds it. */
  function ToVerify(s: RunState): RunState {
    s.(top := Verifying, lastActive := Verifying, reInjects := 0)
  }

  lemma VerificationFollows(cfg: Config, spec: Spec, w: World, op: Op)
    requires Judges(cfg, spec, w, op) && Judged(cfg, spec, w, op).kind == VerifyStep
    ensures var v := w.(run := ToVerify(Reported(w.run, op.checkpoint)));
            Step(cfg, spec, w, op) == Settle(WorkStages(cfg, spec, v, Some(Judged(cfg, spec, w, op)), op.env), true)
  {
    ReportIsDecided(cfg, spec, w, op);
    VerifyStepGoesOn(cfg, spec, AfterReport(w, op), Judged(cfg, spec, w, op), op.env);
  }

  /** A failed verification is charged to both budgets; it leads to the next attempt while they last, and to
      a pause otherwise. */
  lemma FailedVerificationLeads(cfg: Config, spec: Spec, w: World, op: Op) returns (u: World)
    requires Judges(cfg, spec, w, op) && Judged(cfg, spec, w, op).kind == VerifyStep && !op.env.verifyOk
    ensures FailureLeads(cfg, AfterVerification(w, op), u, Step(cfg, spec, w, op), op.env)
  {
    var s := Reported(w.run, op.checkpoint);
    VerificationFollows(cfg, spec, w, op);
    ChargeEnds(InVerification(s, false));
    u := VerifiedGoesOn(cfg, spec, w.(run := ToVerify(s)), Judged(cfg, spec, w, op), op.env);
  }

  lemma EdgeIsNext(spec: Spec, a: string, b: string)
    requires Knows(spec, a) && GetNode(spec, a).nodeType == Task
    ensures RunEdges.TaskEdge(spec, a, b) <==> NextNodeId(spec, a) == Some(Some(b))
  {
    if NextNodeId(spec, a) == Some(Some(b)) {
      RunEdges.NextIsAnEdge(spec, a);
    }
  }

  lemma PassingMoves(spec: Spec, s: RunState, next: string, git: GitStatus, fr: bool)
    requires s.top == Verifying && s.lastActive == Verifying && RunEdges.TaskEdge(spec, s.node, next)
    ensures ApplyVerification(spec, s, true, git, fr) ==
            Done(InRunning(Finished(s.(verification := Verdict(true)))).(node := next, attempt := 0), ())
  {
    EdgeIsNext(spec, s.node, next);
  }

  lemma LastPasses(spec: Spec, s: RunState, git: GitStatus, fr: bool)
    requires s.top == Verifying && Knows(spec, s.node) && GetNode(spec, s.node).nodeType == Task
    requires forall next :: !RunEdges.TaskEdge(spec, s.node, next)
    ensures var t := Finished(s.(verification := Verdict(true)));
            ApplyVerification(spec, s, true, git, fr) ==
            if NeedsGit(spec) && git == Fails then Raised(t, GitError)
            else if Accepts(spec, StandingOf(t), git) then Done(t.(top := Completed), ())
            else Done(PausedAt(t, "review", fr), ())
  {
    var next := NextNodeId(spec, s.node).value;
    if next.Some? {
      EdgeIsNext(spec, s.node, next.value);
    }
  }

  /** A passed verification finishes the step and moves the run along the edge to the next one, with a fresh
      attempt count and in RUNNING. */
  lemma PassedVerificationLeads(cfg: Config, spec: Spec, w: World, op: Op, next: string) returns (u: World)
    requires WellFormed(spec) && Judges(cfg, spec, w, op) && RunEdges.TaskEdge(spec, w.run.node, next)
    requires Judged(cfg, spec, w, op).kind == VerifyStep && op.env.verifyOk
    ensures var verified, v := AfterVerification(w, op), Step(cfg, spec, w, op);
            var on := verified.(run := InRunning(Finished(verified.run)).(node := next, attempt := 0));
            && WorksOn(cfg, on, u, v, op.env.send)
            && (w.run.lastNode == Some(next) || !EndsSidecar(cfg, on.run, op.env.send) ==>
                  v.run.node == next && v.run.attempt == 0 && v.run.top == Running)
  {
    var s, verified := ToVerify(Reported(w.run, op.checkpoint)), AfterVerification(w, op);
    var on := verified.(run := InRunning(Finished(verified.run)).(node := next, attempt := 0));
    EdgeIsNext(spec, w.run.node, next);
    RunFaults.SuccessorIsKnown(spec, w.run.node);
    VerificationFollows(cfg, spec, w, op);
    PassingMoves(spec, s, next, op.env.git, op.env.finishRecoverable);
    u := VerifiedGoesOn(cfg, spec, w.(run := s), Judged(cfg, spec, w, op), op.env);
    assert WorksOn(cfg, on, u, Step(cfg, spec, w, op), op.env.send);
    if w.run.lastNode == Some(next) || !EndsSidecar(cfg, on.run, op.env.send) {
      WorkingOnStays(cfg, on, u, Step(cfg, spec, w, op), op.env.send);
    }
  }

  /** Where the plan ends, a passed verification completes the run exactly if the contract accepts it; it
      asks for a review otherwise, and git may raise first. */
  lemma LastVerificationLeads(cfg: Config, spec: Spec, w: World, op: Op)
    requires Judges(cfg, spec, w, op) && GetNode(spec, w.run.node).nodeType == Task
    requires forall next :: !RunEdges.TaskEdge(spec, w.run.node, next)
    requires Judged(cfg, spec, w, op).kind == VerifyStep && op.env.verifyOk
    ensures var verified, v := AfterVerification(w, op), Step(cfg, spec, w, op);
            var s := Finished(verified.run);
            if NeedsGit(spec) && op.env.git == Fails then v == Dead(verified.(run := s))
            else if Accepts(spec, StandingOf(s), op.env.git) then
              v == verified.(run := s.(top := Completed), phase := Batch(false))
            else PauseLeads(cfg, verified.(run := PausedAt(s, "review", op.env.finishRecoverable)), v,
                            op.env.finishRecoverable, op.env.auto)
  {
    var s := ToVerify(Reported(w.run, op.checkpoint));
    VerificationFollows(cfg, spec, w, op);
    LastPasses(spec, s, op.env.git, op.env.finishRecoverable);
    var u := VerifiedGoesOn(cfg, spec, w.(run := s), Judged(cfg, spec, w, op), op.env);
  }

  // ----- reports that are not about the current node -------------------------------------

  /** A new report about another node, on a surface that takes instructions, is counted and saved; the fifth
      in a row starts recovery. */
  lemma MismatchLeads(cfg: Config, spec: Spec, w: World, op: Op) returns (u: World)
    requires Enabled(w, op) && op.CheckpointOp? && Knows(spec, w.run.node) && w.run.top in {Attached, Running, Gating}
    requires var cp := op.checkpoint;
             && !cp.foreign && NewNumber(w.run, cp.seqNo) && !OnRecord(w.run, cp)
             && cp.node != w.run.node && !cfg.observationOnly
    ensures var s := w.run.(mismatches := w.run.mismatches + 1, lastMismatch := op.checkpoint.node);
            var counted, v := w.(run := s, disk := s), Step(cfg, spec, w, op);
            if s.mismatches < 5 then v == counted.(phase := Batch(false))
            else
              && RecoveryLeads(cfg, counted, u, true, op.env.auto)
              && v == (if Succeeds(cfg, s, true, op.env.auto) then u.(phase := Batch(true)) else Dead(u))
  {
    var s := w.run.(mismatches := w.run.mismatches + 1, lastMismatch := op.checkpoint.node);
    var counted := w.(run := s, disk := s);
    assert Admit(cfg, w.run, op.checkpoint) == Mismatch;
    u := RecoverOrPause(cfg, spec, counted, true, op.env.auto).state;
    RecoveryEnds(cfg, spec, counted, true, op.env.auto);
  }

  /** A surface that takes no instructions and still reports a finished node pauses the run for good. */
  lemma StalledLeads(cfg: Config, spec: Spec, w: World, op: Op)
    requires Enabled(w, op) && op.CheckpointOp? && w.run.top in {Attached, Running, Gating}
    requires var cp := op.checkpoint;
             && !cp.foreign && NewNumber(w.run, cp.seqNo) && !OnRecord(w.run, cp)
             && cp.node != w.run.node && cfg.observationOnly && cp.node in w.run.done
    ensures Step(cfg, spec, w, op) == Dead(w.(run := PausedAt(w.run, "recovery", false)))
  {
    var paused := w.(run := PausedAt(w.run, "recovery", false));
    assert Admit(cfg, w.run, op.checkpoint) == Stalled;
    assert PauseForHuman(w.run, Escalation("recovery", false)) == Done(paused.run, ());
    assert ProcessStalled(cfg, spec, w, op.env) == Done(Save(paused), Exit);
  }

  // ----- reports that lead to no decision ------------------------------------------------

  /** A report whose text cannot be recorded ends the sidecar with the report counted, and so does a judge that
      raises, with the report on record. */
  lemma FaultsLead(cfg: Config, spec: Spec, w: World, op: Op)
    requires Enabled(w, op) && op.CheckpointOp? && TakesUp(cfg, w.run, op.checkpoint)
    ensures !op.env.recorded ==> Step(cfg, spec, w, op) == Dead(w.(run := Noted(w.run, op.checkpoint)))
    ensures var s := Reported(w.run, op.checkpoint);
            op.env.recorded && w.run.top in {Attached, Running, Gating} && Knows(spec, w.run.node)
            && op.env.gate.judgeRaises
            && AsksJudge(GetNode(spec, w.run.node), s.top == Attached, s.checkpoint, NoClass, op.env.gate)
            ==> Step(cfg, spec, w, op) == Dead(w.(run := s))
  {
    TakesUpIff(cfg, w.run, op.checkpoint);
    AcceptedIsNoted(w.run, op.checkpoint);
    if w.run.top in {Attached, Running, Gating} {
      ArrivedIsReported(w.run, op.checkpoint);
    }
  }

  /** A report that a batch takes up after the run has halted is put on record, and nothing follows from it. */
  lemma HaltedReportLeads(cfg: Config, spec: Spec, w: World, op: Op)
    requires Enabled(w, op) && op.CheckpointOp? && op.env.recorded && TakesUp(cfg, w.run, op.checkpoint)
    requires w.run.top in {PausedForHuman, Completed, Failed, Aborted}
    ensures var s := Noted(w.run, op.checkpoint).(checkpoint := Some(op.checkpoint.(node := w.run.node)),
                                                  question := NoClass);
            Step(cfg, spec, w, op) == w.(run := s, phase := Batch(false))
  {
    var bound := op.checkpoint.(node := w.run.node);
    var s := Noted(w.run, op.checkpoint).(checkpoint := Some(bound), question := NoClass);
    TakesUpIff(cfg, w.run, op.checkpoint);
    AcceptedIsNoted(w.run, op.checkpoint);
    assert HandleEvent(Accepted(w.run, bound), AgentOutput(Some(bound))) == Done(s, ());
    RunSafety.HaltedArrivalIsInert(cfg, spec, w, bound, op.env);
  }

  // ----- in every run --------------------------------------------------------------------

  /** What a sidecar at work rests in. */
  lemma AtWork(cfg: Config, spec: Spec, ops: seq<Op>, ws: seq<World>, i: nat)
    requires WellFormed(spec) && IsRun(cfg, spec, ops, ws) && i < |ws|
    requires (ws[i].phase.Polling? || ws[i].phase.Batch?) && !Halted(ws[i].run)
    ensures ws[i].run.top in {Attached, Running, Gating} && Knows(spec, ws[i].run.node)
  {
    RunSafety.RunIsSteady(cfg, spec, ops, ws, i);
  }

  /** An ordinary report on a task, with text in it of a class that asks for a human. */
  predicate Alarming(spec: Spec, w: World, cp: Checkpoint) {
    && Knows(spec, w.run.node) && GetNode(spec, w.run.node).nodeType == Task
    && cp.status in {Working, OtherStatus} && NoFastPath(cp, NoClass) && cp.textClass in ESCALATING
  }

  lemma AlarmIsJudged(cfg: Config, spec: Spec, w: World, op: Op)
    requires Enabled(w, op) && op.CheckpointOp? && op.env.recorded && w.run.top in {Attached, Running, Gating}
    requires TakesUp(cfg, w.run, op.checkpoint) && Alarming(spec, w, op.checkpoint)
    ensures Judges(cfg, spec, w, op) && Alerts(Judged(cfg, spec, w, op), op.checkpoint.textClass, NoClass)
  {
    var bound := op.checkpoint.(node := w.run.node);
    OrdinaryCheckpointsDecide(GetNode(spec, w.run.node), w.run.top == Attached, bound, NoClass, op.env.gate);
  }

  /** In every run: an ordinary report on a task that is under way, with text in it of a class that asks for a
      human, pauses the run, whatever the judge would say, in the class safety exactly if the text is
      dangerous, and no intervention takes it over. */
  lemma AlarmingTextPauses(cfg: Config, spec: Spec, ops: seq<Op>, ws: seq<World>, i: nat)
    requires WellFormed(spec) && IsRun(cfg, spec, ops, ws) && i < |ops|
    requires Enabled(ws[i], ops[i]) && ops[i].CheckpointOp? && ops[i].env.recorded && !Halted(ws[i].run)
    requires TakesUp(cfg, ws[i].run, ops[i].checkpoint) && Alarming(spec, ws[i], ops[i].checkpoint)
    ensures var w, v, cp := ws[i], ws[i + 1], ops[i].checkpoint;
            var pauseClass := if cp.textClass == DangerousAction then "safety" else "business";
            && v.run == PausedAt(Reported(w.run, cp), pauseClass, false) && v.log == w.log
            && (if ops[i].env.notesRaise then v.phase == Down && v.disk == v.run
                else v.phase == Batch(false) && v.disk == w.disk)
  {
    var w, op := ws[i], ops[i];
    assert ws[i + 1] == Step(cfg, spec, w, op);
    AtWork(cfg, spec, ops, ws, i);
    AlarmIsJudged(cfg, spec, w, op);
    EscalationLeads(cfg, spec, w, op);
  }
}
