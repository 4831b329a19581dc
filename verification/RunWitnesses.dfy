/** Whole runs that show what can go wrong, from a fresh start. */
module RunWitnesses {
  import opened Options
  import StateMachine
  import opened Plan
  import opened Gates
  import opened FinishGate
  import opened RunModel
  import RunSteps
  import opened RunFaults
  import opened RunSafety
  import RunBudget

  lemma Begin(cfg: Config, spec: Spec)
    requires spec.nodes != []
    ensures IsRun(cfg, spec, [], [Start(spec)])
  {
  }

  lemma Extend(cfg: Config, spec: Spec, ops: seq<Op>, ws: seq<World>, op: Op)
    requires IsRun(cfg, spec, ops, ws)
    ensures IsRun(cfg, spec, ops + [op], ws + [Step(cfg, spec, ws[|ops|], op)])
  {
    var ws2, ops2 := ws + [Step(cfg, spec, ws[|ops|], op)], ops + [op];
    forall i | 0 <= i < |ops2|
      ensures ws2[i + 1] == Step(cfg, spec, ws2[i], ops2[i])
    {
      if i < |ops| {
        assert ws[i + 1] == Step(cfg, spec, ws[i], ops[i]);
      }
    }
  }

  const SILENT := AutoEnv(Clear, true, Submitted)
  const SENT := SendEnv(false, Clear, false, true, Submitted, Acked, SILENT)
  const FIRST := BootOp(CheckpointSeen, SENT)

  /** The run after a boot that finds the agent at work. */
  function Booted(spec: Spec): World
    requires spec.nodes != []
  {
    var s := Fresh(spec).(top := StateMachine.Attached, lastActive := StateMachine.Attached);
    World(MarkInjected(s), s, Polling, None, [])
  }

  lemma FirstBoot(cfg: Config, spec: Spec)
    requires spec.nodes != []
    ensures IsRun(cfg, spec, [FIRST], [Start(spec), Booted(spec)])
  {
    Begin(cfg, spec);
    Extend(cfg, spec, [], [Start(spec)], FIRST);
    assert Step(cfg, spec, Start(spec), FIRST) == Booted(spec);
  }

  // ----- a fault of the surface ----------------------------------------------------------

  const BROKEN := DeliveryTimeoutOp(AutoEnv(Faulty, true, Submitted))

  /** No checkpoint arrives in time, recovery is entered, and the probe before the intervention
      raises: RECOVERY_NEEDED is what the dead sidecar leaves on disk. */
  lemma AFaultLeavesRecoveryOnDisk(cfg: Config, spec: Spec) returns (ws: seq<World>)
    requires WellFormed(spec) && cfg.autoEnabled && cfg.maxAuto > 0 && !cfg.observationOnly
    ensures IsRun(cfg, spec, [FIRST, BROKEN], ws)
    ensures Iteration(cfg, spec, ws[1], BROKEN).Raised? && ws[2].phase.Down? && ws[2].disk.top.RecoveryNeeded?
  {
    var w := Booted(spec);
    FirstBoot(cfg, spec);
    Extend(cfg, spec, [FIRST], [Start(spec), w], BROKEN);
    assert [FIRST] + [BROKEN] == [FIRST, BROKEN];
    ws := [Start(spec), w] + [Step(cfg, spec, w, BROKEN)];
    assert Knows(spec, w.run.node);
    BootedIsSteady(spec);
    IterationEndsAs(cfg, spec, w, BROKEN);
    LoopSavesIff(cfg, spec, w, BROKEN);
    assert OpTrouble(cfg, spec, w, BROKEN).FaultsRecovering?;
  }

  // ----- text that cannot be parsed ------------------------------------------------------

  /** Over a surface that never raises, a read with an impossible date in it ends the sidecar. */
  lemma UnparsableTextKillsTheSidecar(cfg: Config, spec: Spec) returns (ws: seq<World>)
    requires WellFormed(spec)
    ensures IsRun(cfg, spec, [FIRST, UnparsableOp], ws)
    ensures Iteration(cfg, spec, ws[1], UnparsableOp).Raised? && ws[2].phase.Down? && ws[2].disk.top.Attached?
  {
    var w := Booted(spec);
    FirstBoot(cfg, spec);
    Extend(cfg, spec, [FIRST], [Start(spec), w], UnparsableOp);
    assert [FIRST] + [UnparsableOp] == [FIRST, UnparsableOp];
    ws := [Start(spec), w] + [Step(cfg, spec, w, UnparsableOp)];
  }

  // ----- git raises ----------------------------------------------------------------------

  function PassingOp(spec: Spec): Op
    requires spec.nodes != []
  {
    CheckpointOp(Report(StepDone, spec.nodes[0].id), STILL.(verifyOk := true, git := Fails))
  }

  /** The only node passes its verification, and the finish gate's look at the repository raises:
      VERIFYING is what the dead sidecar leaves on disk. */
  lemma AGitFaultLeavesVerificationOnDisk(cfg: Config, spec: Spec) returns (ws: seq<World>)
    requires WellFormed(spec) && NeedsGit(spec) && |spec.nodes| == 1
    requires spec.nodes[0].nodeType.Task? && spec.nodes[0].next.None?
    ensures IsRun(cfg, spec, [FIRST, PassingOp(spec)], ws)
    ensures Iteration(cfg, spec, ws[1], PassingOp(spec)).Raised? && ws[2].phase.Down? && ws[2].disk.top.Verifying?
  {
    var w, op := Booted(spec), PassingOp(spec);
    FirstBoot(cfg, spec);
    Extend(cfg, spec, [FIRST], [Start(spec), w], op);
    assert [FIRST] + [op] == [FIRST, op];
    ws := [Start(spec), w] + [Step(cfg, spec, w, op)];
    GitFaultsHere(cfg, spec);
    BootedIsSteady(spec);
    IterationEndsAs(cfg, spec, w, op);
    LoopSavesIff(cfg, spec, w, op);
  }

  lemma GitFaultsHere(cfg: Config, spec: Spec)
    requires WellFormed(spec) && NeedsGit(spec) && |spec.nodes| == 1
    requires spec.nodes[0].nodeType.Task? && spec.nodes[0].next.None?
    ensures OpTrouble(cfg, spec, Booted(spec), PassingOp(spec)).FaultsVerifying?
  {
    var s, op := Booted(spec).run, PassingOp(spec);
    var t := RunSteps.Arrived(s, op.checkpoint);
    assert FindNode(spec.nodes, s.node) == Some(0);
    assert Admit(cfg, s, op.checkpoint) == Accept(op.checkpoint);
    assert t == s.(checkpoint := Some(op.checkpoint));
    assert Gate(GetNode(spec, t.node), true, t.checkpoint, t.question, NOBODY) == Plain(VerifyStep);
    assert NextNodeId(spec, t.node) == Some(None);
  }

  /** The finish gate raises on an acknowledgement: the log has it, the record does not. */
  lemma AnAcknowledgementIsLost(cfg: Config, spec: Spec) returns (ws: seq<World>)
    requires WellFormed(spec) && NeedsGit(spec)
    ensures IsRun(cfg, spec, [FIRST, CrashOp, AckOp("human", Fails)], ws)
    ensures ReviewAcked("human") in ws[3].log && ws[3].disk.reviews == {}
  {
    var w := Booted(spec);
    var w2 := Step(cfg, spec, w, CrashOp);
    ThreeSteps(cfg, spec, CrashOp, AckOp("human", Fails));
    ws := [Start(spec), w, w2, Step(cfg, spec, w2, AckOp("human", Fails))];
  }

  lemma BootedIsSteady(spec: Spec)
    requires WellFormed(spec)
    ensures SteadyWorld(spec, Booted(spec))
  {
  }

  // ----- a batch that outlives its run ---------------------------------------------------

  const NOBODY := GateEnv(JudgeAnswer(JudgeContinue, PLAIN, false, false), BranchAnswer("", false, PLAIN, false),
                          false, PLAIN, false)
  const STILL := Env(true, false, NOBODY, false, Clean, false, SILENT, SENT)

  function Report(status: Status, node: string): Checkpoint {
    Checkpoint(status, node, "", 0, false, [], false, NoClass, 1, UNDECLARED)
  }

  /** Paused for a human in an open batch, after `k` reports from another node. */
  predicate PausedInBatch(spec: Spec, w: World, k: nat)
    requires spec.nodes != []
  {
    && w.run.top.PausedForHuman? && w.phase == Batch(false) && w.run.mismatches == k
    && w.run.node == spec.nodes[0].id && w.run.checkpoint == Some(Report(Blocked, spec.nodes[0].id))
    && w.run.checkpointSeq == 0
  }

  function BlockedOp(spec: Spec): Op
    requires spec.nodes != []
  {
    CheckpointOp(Report(Blocked, spec.nodes[0].id), STILL)
  }

  function StrayOp(spec: Spec): Op
    requires spec.nodes != []
  {
    CheckpointOp(Report(Working, spec.nodes[0].id + "x"), STILL)
  }

  lemma EscalationPauses(cfg: Config, spec: Spec, w: World, env: Env)
    requires w.run.top.Attached? && !env.notesRaise
    ensures var r := DecideAndWork(cfg, spec, w, Escalate(PLAIN, false), env);
            r == Done(w.(run := PauseForHuman(w.run, Escalation("business", false)).state), Proceed)
  {
    var v := w.(run := PauseForHuman(w.run, Escalation("business", false)).state);
    assert DecisionStage(cfg, spec, w, Escalate(PLAIN, false), env) == Done(v, Proceed);
    assert VerifyStage(cfg, spec, v, env) == Done(v, Proceed);
  }

  lemma FirstReportIsAccepted(cfg: Config, spec: Spec, status: Status, env: Env)
    requires WellFormed(spec) && env.recorded && env.gate == NOBODY
    ensures var w, cp := Booted(spec), Report(status, spec.nodes[0].id);
            var w1 := w.(run := w.run.(checkpoint := Some(cp)));
            && Knows(spec, w.run.node) && Admit(cfg, w.run, cp) == Accept(cp)
            && ProcessCheckpoint(cfg, spec, w, cp, env) ==
               DecideAndWork(cfg, spec, w1, Gate(GetNode(spec, w.run.node), true, Some(cp), NoClass, NOBODY), env)
  {
    var w, cp := Booted(spec), Report(status, spec.nodes[0].id);
    assert FindNode(spec.nodes, spec.nodes[0].id) == Some(0);
    assert RunSteps.Arrived(w.run, cp) == w.run.(checkpoint := Some(cp));
  }

  /** The first report, paused for a human. */
  function AfterBlocked(spec: Spec): World
    requires spec.nodes != []
  {
    var s := Booted(spec).run.(checkpoint := Some(Report(Blocked, spec.nodes[0].id)));
    Booted(spec).(run := PauseForHuman(s, Escalation("business", false)).state)
  }

  lemma BlockedIsPaused(spec: Spec)
    requires WellFormed(spec)
    ensures PausedInBatch(spec, AfterBlocked(spec).(phase := Batch(false)), 0)
  {
  }

  lemma BlockedPauses(cfg: Config, spec: Spec)
    requires WellFormed(spec)
    ensures PausedInBatch(spec, Step(cfg, spec, Booted(spec), BlockedOp(spec)), 0)
  {
    var w, cp := Booted(spec), Report(Blocked, spec.nodes[0].id);
    FirstReportIsAccepted(cfg, spec, Blocked, STILL);
    var w1 := w.(run := w.run.(checkpoint := Some(cp)));
    assert Gate(GetNode(spec, w.run.node), true, Some(cp), NoClass, NOBODY) == Escalate(PLAIN, false);
    EscalationPauses(cfg, spec, w1, STILL);
    StepProceeds(cfg, spec, w, cp, AfterBlocked(spec));
    BlockedIsPaused(spec);
  }

  lemma StepProceeds(cfg: Config, spec: Spec, w: World, cp: Checkpoint, v: World)
    requires w.phase.Polling? && !Halted(w.run)
    requires ProcessCheckpoint(cfg, spec, w, cp, STILL) == Done(v, Proceed)
    ensures Step(cfg, spec, w, CheckpointOp(cp, STILL)) == v.(phase := Batch(false))
  {
  }

  lemma StrayIsCounted(cfg: Config, spec: Spec, w: World, k: nat)
    requires spec.nodes != [] && PausedInBatch(spec, w, k) && !cfg.observationOnly
    ensures Enabled(w, StrayOp(spec))
    ensures k < 4 ==> PausedInBatch(spec, Step(cfg, spec, w, StrayOp(spec)), k + 1)
    ensures k == 4 ==> HaltRaises(cfg, w, StrayOp(spec))
  {
    assert Admit(cfg, w.run, StrayOp(spec).checkpoint).Mismatch?;
  }

  function Strays(spec: Spec, k: nat): seq<Op>
    requires spec.nodes != []
  {
    if k == 0 then [FIRST, BlockedOp(spec)] else Strays(spec, k - 1) + [StrayOp(spec)]
  }

  lemma {:induction false} StraysPileUp(cfg: Config, spec: Spec, k: nat) returns (ws: seq<World>)
    requires WellFormed(spec) && !cfg.observationOnly && k <= 4
    ensures IsRun(cfg, spec, Strays(spec, k), ws) && PausedInBatch(spec, ws[|Strays(spec, k)|], k)
  {
    if k == 0 {
      FirstBoot(cfg, spec);
      Extend(cfg, spec, [FIRST], [Start(spec), Booted(spec)], BlockedOp(spec));
      BlockedPauses(cfg, spec);
      assert [FIRST] + [BlockedOp(spec)] == Strays(spec, 0);
      ws := [Start(spec), Booted(spec)] + [Step(cfg, spec, Booted(spec), BlockedOp(spec))];
    } else {
      ws := StraysPileUp(cfg, spec, k - 1);
      var n := |Strays(spec, k - 1)|;
      Extend(cfg, spec, Strays(spec, k - 1), ws, StrayOp(spec));
      StrayIsCounted(cfg, spec, ws[n], k - 1);
      ws := ws + [Step(cfg, spec, ws[n], StrayOp(spec))];
    }
  }

  /** One read shows a blocked checkpoint and then five from another node: the first pauses the
      run, and the last asks for a recovery that cannot be entered from a pause. */
  lemma HaltedBatchCanRaise(cfg: Config, spec: Spec) returns (ws: seq<World>)
    requires WellFormed(spec) && !cfg.observationOnly
    ensures var ops := Strays(spec, 4);
            && IsRun(cfg, spec, ops, ws) && ws[|ops|].run.top.PausedForHuman? && Enabled(ws[|ops|], StrayOp(spec))
            && Iteration(cfg, spec, ws[|ops|], StrayOp(spec)).Raised?
  {
    var ops := Strays(spec, 4);
    ws := StraysPileUp(cfg, spec, 4);
    StrayIsCounted(cfg, spec, ws[|ops|], 4);
    RaisesIff(cfg, spec, ops, ws, ws[|ops|], StrayOp(spec));
  }

  // ----- a charge lost to a crash --------------------------------------------------------

  function DoneOp(spec: Spec): Op
    requires spec.nodes != []
  {
    CheckpointOp(Report(StepDone, spec.nodes[0].id), STILL)
  }

  /** A failed verification exhausts the budget and pauses the run; a crash before the end of the
      batch loses the pause and the charge. */
  lemma ACrashLosesACharge(cfg: Config, spec: Spec) returns (ws: seq<World>)
    requires WellFormed(spec) && spec.nodes[0].nodeType.Task? && spec.perNode == 1 && !cfg.autoEnabled
    ensures IsRun(cfg, spec, [FIRST, DoneOp(spec), CrashOp], ws)
    ensures ws[2].run.usedGlobal == 1 && ws[2].disk.usedGlobal == 0
    ensures ws[3].run.usedGlobal == 0 && RunBudget.Failures(ws[3].log) == 1
  {
    var w := Booted(spec);
    var w2 := Step(cfg, spec, w, DoneOp(spec));
    FailureIsCharged(cfg, spec);
    ThreeSteps(cfg, spec, DoneOp(spec), CrashOp);
    ws := [Start(spec), w, w2, Step(cfg, spec, w2, CrashOp)];
    CrashReloads(cfg, spec, w2);
    var failed := Verified(spec.nodes[0].id, false);
    RunBudget.FailuresAfter([], failed);
    assert [] + [failed] == [failed];
  }

  lemma CrashReloads(cfg: Config, spec: Spec, w: World)
    requires !w.phase.Down?
    ensures var v := Step(cfg, spec, w, CrashOp); v.run == w.disk && v.log == w.log
  {
  }

  lemma ThreeSteps(cfg: Config, spec: Spec, op: Op, last: Op)
    requires spec.nodes != []
    ensures var w := Step(cfg, spec, Booted(spec), op);
            IsRun(cfg, spec, [FIRST, op, last], [Start(spec), Booted(spec), w, Step(cfg, spec, w, last)])
  {
    var w0, w1 := Start(spec), Booted(spec);
    var w2 := Step(cfg, spec, w1, op);
    var w3 := Step(cfg, spec, w2, last);
    FirstBoot(cfg, spec);
    Extend(cfg, spec, [FIRST], [w0, w1], op);
    assert [FIRST] + [op] == [FIRST, op] && [w0, w1] + [w2] == [w0, w1, w2];
    Extend(cfg, spec, [FIRST, op], [w0, w1, w2], last);
    assert [FIRST, op] + [last] == [FIRST, op, last] && [w0, w1, w2] + [w3] == [w0, w1, w2, w3];
  }

  lemma FailurePauses(cfg: Config, spec: Spec, w: World) returns (v: World)
    requires w.run.top.Attached? && w.run.perNode == 1 && w.run.usedGlobal == 0 && w.run.attempt == 0
    requires !cfg.autoEnabled && w.log == []
    ensures DecideAndWork(cfg, spec, w, Plain(VerifyStep), STILL) == Done(v, Proceed)
    ensures v.run.usedGlobal == 1 && v.disk == w.disk && v.log == [Verified(w.run.node, false)]
  {
    var w1 := w.(run := ApplyDecision(spec, w.run, Plain(VerifyStep), Clean, false).state);
    assert DecisionStage(cfg, spec, w, Plain(VerifyStep), STILL) == Done(w1, Proceed);
    v := RunSteps.Checked(spec, w1, false, Clean, false);
    assert VerifyStage(cfg, spec, w1, STILL) == Done(v, Proceed);
  }

  lemma FailureIsCharged(cfg: Config, spec: Spec)
    requires WellFormed(spec) && spec.nodes[0].nodeType.Task? && spec.perNode == 1 && !cfg.autoEnabled
    ensures var w := Step(cfg, spec, Booted(spec), DoneOp(spec));
            && !w.phase.Down? && w.run.usedGlobal == 1 && w.disk.usedGlobal == 0
            && w.log == [Verified(spec.nodes[0].id, false)]
  {
    var w, cp := Booted(spec), Report(StepDone, spec.nodes[0].id);
    FirstReportIsAccepted(cfg, spec, StepDone, STILL);
    var w1 := w.(run := w.run.(checkpoint := Some(cp)));
    assert FindNode(spec.nodes, spec.nodes[0].id) == Some(0);
    assert Gate(GetNode(spec, w.run.node), true, Some(cp), NoClass, NOBODY) == Plain(VerifyStep);
    var v := FailurePauses(cfg, spec, w1);
    StepProceeds(cfg, spec, w, cp, v);
  }
}
