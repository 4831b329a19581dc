/** When the loop raises, over whole runs: while a run is being worked on, exactly where something outside
    it does; in a batch that goes on after the run has halted, also where the loop then asks for a
    forbidden transition. And what a raise leaves on disk. */
module RunSafety {
  import opened Options
  import opened StateMachine
  import opened Plan
  import opened Gates
  import opened RunModel
  import opened RunSteps
  import opened RunFaults
  import RunFrames
  import RunPauses

  // ----- whole runs ----------------------------------------------------------------------

  /** What may be saved: a state to rest in, or a recovery or a verification cut short. */
  predicate Kept(spec: Spec, s: RunState) {
    Steady(spec, s) || (Sound(spec, s) && s.top in {RecoveryNeeded, Verifying})
  }

  /** A sidecar at work rests between its operations; only a dead or a booting one may hold a
      recovery cut short, and only a dead one a verification cut short. */
  predicate SteadyWorld(spec: Spec, w: World) {
    && Kept(spec, w.run) && Kept(spec, w.disk)
    && (w.phase.Booting? ==> !w.run.top.Verifying?)
    && (if w.phase.Down? || w.phase.Booting? then w.run == w.disk
        else Steady(spec, w.run) && Steady(spec, w.disk) && !w.run.top.Ready?)
  }

  lemma BootEndsAs(cfg: Config, spec: Spec, w: World, read: FirstRead, env: SendEnv)
    requires SteadyWorld(spec, w) && w.phase.Booting? && !Halted(w.run)
    ensures var r := Boot(cfg, spec, w, read, env);
            && EndsAs(spec, w, r, BootTrouble(cfg, w.run, read, env)) && Steady(spec, r.state.disk)
            && (w.run.top.RecoveryNeeded? ==> r.Done? && r.value.Exit?)
  {
    if w.run.top.Ready? {
      var w1 := Save(w.(run := Transition(w.run, Attached).state));
      SendEndsAs(cfg, spec, w1, false, env);
    }
  }

  lemma EndBatchEndsAs(cfg: Config, spec: Spec, w: World, env: SendEnv)
    requires SteadyWorld(spec, w) && w.phase.Batch?
    ensures var r := EndBatch(cfg, spec, w, env);
            EndsAs(spec, w, r, if SendsDeferred(w) then SendTrouble(cfg, w.run, env) else Smooth)
  {
    if SendsDeferred(w) {
      SendEndsAs(cfg, spec, w, false, env);
    }
  }

  lemma TimeoutsEndAs(cfg: Config, spec: Spec, w: World, env: AutoEnv)
    requires SteadyWorld(spec, w) && w.phase.Polling? && !Halted(w.run)
    ensures EndsAs(spec, w, DeliveryTimeout(cfg, spec, w, env), RecoveryTrouble(cfg, w.run, true, env))
    ensures EndsAs(spec, w, IdleTimeout(cfg, spec, w, env), RecoveryTrouble(cfg, w.run, true, env))
  {
    RecoveryEndsAs(cfg, spec, SetDelivery(w, TimedOut), true, env);
    RecoveryEndsAs(cfg, spec, w.(run := HandleEvent(w.run, Timeout).state), true, env);
  }

  lemma HaltedMismatchIsInert(cfg: Config, spec: Spec, w: World, cp: Checkpoint, env: Env)
    requires SteadyWorld(spec, w) && w.phase.Batch? && Halted(w.run)
    ensures var r := ProcessMismatch(cfg, spec, w, cp, env);
            && Sound(spec, r.state.run) && r.state.run.top == w.run.top
            && Steady(spec, r.state.disk) && r.state.phase == w.phase
  {
    var w1 := Save(w.(run := w.run.(mismatches := w.run.mismatches + 1, lastMismatch := cp.node)));
    assert EnterRecovery(w1.run, "recovery").Raised?;
  }

  lemma HaltedArrivalIsInert(cfg: Config, spec: Spec, w: World, cp: Checkpoint, env: Env)
    requires Halted(w.run)
    ensures var r := ProcessAccepted(cfg, spec, w, cp, env);
            && r == (if env.recorded then Done(w.(run := Arrived(w.run, cp)), Proceed)
                     else Raised(w.(run := Accepted(w.run, cp)), RecordError))
            && r.state.run.top == w.run.top && r.state.run.node == w.run.node
  {
    RunFrames.ArrivalIsQuiet(w.run, cp);
    var v := w.(run := Arrived(w.run, cp));
    assert VerifyStage(cfg, spec, v, env) == Done(v, Proceed);
    assert InjectStage(cfg, spec, v, None, env) == Done(v, Proceed);
  }

  /** A checkpoint that meets a halted run changes neither its state nor its node. */
  lemma HaltedCheckpointIsInert(cfg: Config, spec: Spec, w: World, cp: Checkpoint, env: Env)
    requires SteadyWorld(spec, w) && w.phase.Batch? && Halted(w.run)
    ensures var r := ProcessCheckpoint(cfg, spec, w, cp, env);
            && Sound(spec, r.state.run) && r.state.run.top == w.run.top
            && Steady(spec, r.state.disk) && r.state.phase == w.phase
  {
    match Admit(cfg, w.run, cp) {
      case Skip =>
      case Stalled =>
      case Mismatch => HaltedMismatchIsInert(cfg, spec, w, cp, env);
      case Accept(bound) => HaltedArrivalIsInert(cfg, spec, w, bound, env);
    }
  }

  lemma SettleIsSteady(spec: Spec, o: WorldOutcome, inBatch: bool)
    requires !o.state.phase.Down? && Kept(spec, o.state.run) && !o.state.run.top.Ready? && Steady(spec, o.state.disk)
    requires o.Done? ==> EndState(o.state.run.top)
    ensures SteadyWorld(spec, Settle(o, inBatch))
  {
  }

  lemma DaemonIsSteady(cfg: Config, spec: Spec, w: World, op: Op)
    requires SteadyWorld(spec, w) && Enabled(w, op) && OfDaemonOp(op)
    ensures SteadyWorld(spec, Apply(cfg, spec, w, op))
  {
  }

  predicate OfLoop(op: Op) {
    !OfDaemonOp(op) && !op.CrashOp? && !op.InterruptOp?
  }

  /** What an iteration of the loop does, before it settles. */
  function Iteration(cfg: Config, spec: Spec, w: World, op: Op): WorldOutcome {
    match op
    case BootOp(read, send) => Boot(cfg, spec, w, read, send)
    case CheckpointOp(cp, env) => ProcessCheckpoint(cfg, spec, w, cp, env)
    case EndBatchOp(send) => EndBatch(cfg, spec, w, send)
    case DeliveryTimeoutOp(auto) => DeliveryTimeout(cfg, spec, w, auto)
    case IdleTimeoutOp(auto) => IdleTimeout(cfg, spec, w, auto)
    case RuntimeRetryOp(send) => SaveAndSend(cfg, spec, w, false, send)
    case UnparsableOp => Raised(w, TextError)
    case _ => Done(w, Proceed)
  }

  /** A checkpoint that a batch goes on to process after the run has halted. */
  predicate MeetsHalt(w: World, op: Op) {
    op.CheckpointOp? && Halted(w.run)
  }

  lemma IterationEndsAs(cfg: Config, spec: Spec, w: World, op: Op)
    requires WellFormed(spec) && SteadyWorld(spec, w) && Enabled(w, op) && OfLoop(op) && !MeetsHalt(w, op)
    ensures var r := Iteration(cfg, spec, w, op);
            EndsAs(spec, w, r, OpTrouble(cfg, spec, w, op)) && Steady(spec, r.state.disk)
  {
    match op {
      case BootOp(read, send) => BootEndsAs(cfg, spec, w, read, send);
      case CheckpointOp(cp, env) => CheckpointIsSafe(cfg, spec, w, cp, env);
      case EndBatchOp(send) => EndBatchEndsAs(cfg, spec, w, send);
      case RuntimeRetryOp(send) => SendEndsAs(cfg, spec, w, false, send);
      case DeliveryTimeoutOp(auto) => TimeoutsEndAs(cfg, spec, w, auto);
      case IdleTimeoutOp(auto) => TimeoutsEndAs(cfg, spec, w, auto);
      case UnparsableOp =>
    }
  }

  lemma StepIsSteady(cfg: Config, spec: Spec, w: World, op: Op)
    requires WellFormed(spec) && SteadyWorld(spec, w)
    ensures SteadyWorld(spec, Step(cfg, spec, w, op))
  {
    if Enabled(w, op) {
      if OfDaemonOp(op) {
        DaemonIsSteady(cfg, spec, w, op);
      } else if OfLoop(op) {
        if MeetsHalt(w, op) {
          HaltedCheckpointIsInert(cfg, spec, w, op.checkpoint, op.env);
        } else {
          IterationEndsAs(cfg, spec, w, op);
        }
        var o := Iteration(cfg, spec, w, op);
        SettleIsSteady(spec, o, op.CheckpointOp?);
        assert Apply(cfg, spec, w, op) == Settle(o, op.CheckpointOp?);
      }
    }
  }

  /** Every world of a run of a well-formed specification rests, in memory and on disk, in a state
      the loop can go on from, or holds a recovery cut short, which only a dead or a booting
      sidecar does, or a verification cut short, which only a dead one does. So FAILED and ABORTED
      are never entered. */
  lemma {:induction false} RunIsSteady(cfg: Config, spec: Spec, ops: seq<Op>, ws: seq<World>, n: nat)
    requires WellFormed(spec) && IsRun(cfg, spec, ops, ws) && n < |ws|
    ensures SteadyWorld(spec, ws[n])
  {
    if n == 0 {
      StartIsSteady(spec);
    } else {
      RunIsSteady(cfg, spec, ops, ws, n - 1);
      StepIsSteady(cfg, spec, ws[n - 1], ops[n - 1]);
      assert ws[n] == Step(cfg, spec, ws[n - 1], ops[n - 1]);
    }
  }

  lemma StartIsSteady(spec: Spec)
    requires WellFormed(spec)
    ensures SteadyWorld(spec, Start(spec))
  {
  }

  /** The guard under which a checkpoint that meets a halted run raises. */
  predicate HaltRaises(cfg: Config, w: World, op: Op) {
    && MeetsHalt(w, op)
    && var admitted := Admit(cfg, w.run, op.checkpoint);
    && (|| (admitted.Mismatch? && w.run.mismatches + 1 >= MAX_NODE_MISMATCH)
        || (admitted.Stalled? && IsFinal(w.run.top)))
  }

  /** In every world of a run, an iteration that can happen next raises exactly where something
      outside raises on its way, or where the batch has outlived the run. */
  lemma RaisesIff(cfg: Config, spec: Spec, ops: seq<Op>, ws: seq<World>, w: World, op: Op)
    requires WellFormed(spec) && IsRun(cfg, spec, ops, ws) && w in ws && Enabled(w, op) && OfLoop(op)
    ensures var r, t := Iteration(cfg, spec, w, op), OpTrouble(cfg, spec, w, op);
            && (r.Raised? <==> !t.Smooth? || HaltRaises(cfg, w, op))
            && (r.Raised? ==> r.fault == if HaltRaises(cfg, w, op) then InvalidTopStateTransition else FaultOf(t))
  {
    var n :| 0 <= n < |ws| && ws[n] == w;
    RunIsSteady(cfg, spec, ops, ws, n);
    if MeetsHalt(w, op) {
      HaltedBatchRaisesIff(cfg, spec, w, op.checkpoint, op.env);
    } else {
      IterationEndsAs(cfg, spec, w, op);
    }
  }

  predicate CalmSend(env: SendEnv) {
    !env.probe.Faulty? && !env.auto.probe.Faulty?
  }

  predicate CalmEnv(env: Env) {
    && env.recorded && !env.notesRaise && !env.gate.judgeRaises && !env.git.Fails?
    && !env.auto.probe.Faulty? && CalmSend(env.send)
  }

  /** Nothing outside raises in the operation: no probe, no read, no text, no judge, no notes, no git. */
  predicate Calm(op: Op) {
    match op
    case BootOp(read, send) => !read.ReadFails? && !read.ReadUnparsable? && CalmSend(send)
    case CheckpointOp(_, env) => CalmEnv(env)
    case EndBatchOp(send) => CalmSend(send)
    case DeliveryTimeoutOp(auto) => !auto.probe.Faulty?
    case IdleTimeoutOp(auto) => !auto.probe.Faulty?
    case RuntimeRetryOp(send) => CalmSend(send)
    case UnparsableOp => false
    case _ => true
  }

  /** So where nothing outside raises, only a batch that outlives its run does. */
  lemma CalmOpsNeverRaise(cfg: Config, spec: Spec, ops: seq<Op>, ws: seq<World>, w: World, op: Op)
    requires WellFormed(spec) && IsRun(cfg, spec, ops, ws) && w in ws && Enabled(w, op) && OfLoop(op) && Calm(op)
    ensures Iteration(cfg, spec, w, op).Raised? <==> HaltRaises(cfg, w, op)
  {
    RaisesIff(cfg, spec, ops, ws, w, op);
    if op.CheckpointOp? {
      CalmCheckpointsAreSmooth(cfg, spec, w.run, op.checkpoint, op.env);
    }
  }

  lemma CalmCheckpointsAreSmooth(cfg: Config, spec: Spec, s: RunState, cp: Checkpoint, env: Env)
    requires CalmEnv(env)
    ensures CheckpointTrouble(cfg, spec, s, cp, env).Smooth?
  {
    forall t: RunState, d: Option<Decision>
      ensures WorkTrouble(cfg, spec, t, d, env).Smooth?
    {
    }
  }

  /** RECOVERY_NEEDED gets to disk exactly when a probe raises after the loop has entered recovery,
      and VERIFYING exactly when git raises in the finish gate after the last node has passed its
      verification; no other operation puts them there. */
  lemma CutShortIsSavedIff(cfg: Config, spec: Spec, ops: seq<Op>, ws: seq<World>, w: World, op: Op)
    requires WellFormed(spec) && IsRun(cfg, spec, ops, ws) && w in ws && Enabled(w, op)
    ensures var saved, t := Step(cfg, spec, w, op).disk.top, OpTrouble(cfg, spec, w, op);
            && (OfLoop(op) ==> (saved.RecoveryNeeded? <==> t.FaultsRecovering?))
            && (OfLoop(op) ==> (saved.Verifying? <==> t.FaultsVerifying?))
            && (!OfLoop(op) && saved in {RecoveryNeeded, Verifying} ==> saved == w.disk.top)
  {
    var n :| 0 <= n < |ws| && ws[n] == w;
    RunIsSteady(cfg, spec, ops, ws, n);
    if OfLoop(op) {
      LoopSavesIff(cfg, spec, w, op);
    } else {
      OthersSaveNothingCutShort(cfg, spec, w, op);
    }
  }

  lemma LoopSavesIff(cfg: Config, spec: Spec, w: World, op: Op)
    requires WellFormed(spec) && SteadyWorld(spec, w) && Enabled(w, op) && OfLoop(op)
    ensures var saved, t := Step(cfg, spec, w, op).disk.top, OpTrouble(cfg, spec, w, op);
            (saved.RecoveryNeeded? <==> t.FaultsRecovering?) && (saved.Verifying? <==> t.FaultsVerifying?)
  {
    if MeetsHalt(w, op) {
      HaltedCheckpointIsInert(cfg, spec, w, op.checkpoint, op.env);
    } else {
      IterationEndsAs(cfg, spec, w, op);
    }
    var o := Iteration(cfg, spec, w, op);
    SettleSaves(o, op.CheckpointOp?);
    assert Step(cfg, spec, w, op) == Settle(o, op.CheckpointOp?);
  }

  lemma SettleSaves(o: WorldOutcome, inBatch: bool)
    ensures Settle(o, inBatch).disk == if o.Raised? then o.state.run else o.state.disk
  {
  }

  lemma OthersSaveNothingCutShort(cfg: Config, spec: Spec, w: World, op: Op)
    requires SteadyWorld(spec, w) && Enabled(w, op) && !OfLoop(op)
    ensures var saved := Step(cfg, spec, w, op).disk.top; saved in {RecoveryNeeded, Verifying} ==> saved == w.disk.top
  {
  }

  /** Resuming a recovery cut short and booting it pauses the run for a human, whatever the surface does, and
      keeps the state the supervisor last worked in. */
  lemma RecoveryCutShortIsPaused(cfg: Config, spec: Spec, ops: seq<Op>, ws: seq<World>, w: World, boot: Op)
    requires IsRun(cfg, spec, ops, ws) && w in ws && w.phase.Down? && w.disk.top.RecoveryNeeded? && boot.BootOp?
    ensures var v := Step(cfg, spec, Step(cfg, spec, w, ResumeOp), boot);
            && v.phase.Down? && v.run == v.disk
            && v.disk == w.disk.(top := PausedForHuman,
                                 escalations := w.disk.escalations + [Escalation("recovery", false)])
            && v.disk.prePause == Some(w.disk.lastActive)
  {
    RunPauses.PausesNameTheStateLeft(cfg, spec, ops, ws, w);
  }

  /** A verification cut short cannot be resumed. An acknowledged review may complete it; otherwise
      only an orphan recovery gets it to move, and the run that resumes after it works on in RUNNING
      with the same nodes done. */
  lemma VerificationCutShortNeedsOrphanRecovery(cfg: Config, spec: Spec, ops: seq<Op>, ws: seq<World>, w: World,
                                                op: Op)
    requires WellFormed(spec) && IsRun(cfg, spec, ops, ws) && w in ws && w.disk.top.Verifying?
    ensures w.phase.Down? && !Enabled(w, ResumeOp)
    ensures var v := Step(cfg, spec, w, op);
            match op
            case OrphanOp =>
              v.disk.top.PausedForHuman? && Step(cfg, spec, v, ResumeOp).run.top.Running? && v.disk.done == w.disk.done
            case AckOp(_, _) => v.disk.top in {Verifying, Completed}
            case _ => v == w
  {
    var n :| 0 <= n < |ws| && ws[n] == w;
    RunIsSteady(cfg, spec, ops, ws, n);
    RunPauses.PausesNameTheStateLeft(cfg, spec, ops, ws, w);
  }
}
