/** The attach boundary: a freshly attached run starts working only on evidence. */
module RunAttach {
  import opened Options
  import StateMachine
  import opened Plan
  import FinishGate
  import opened Gates
  import opened RunModel
  import opened RunSteps
  import opened RunAdmission
  import RunFrames
  import RunProgress

  ghost predicate AllTasks(spec: Spec) {
    forall n :: n in spec.nodes ==> n.nodeType.Task?
  }

  /** A checkpoint that may end the attach phase: it shows execution or claims no progress. */
  predicate ShowsWork(cp: Checkpoint) {
    !ClaimsProgress(cp.status) || !cp.adminOnly
  }

  /** Waiting for first evidence, however interrupted; a review may complete the run from here. */
  predicate InAttach(s: RunState) {
    || (s.top in {StateMachine.Ready, StateMachine.Attached} && s.prePause.None?)
    || (s.top in {StateMachine.RecoveryNeeded, StateMachine.PausedForHuman}
        && s.prePause == Some(StateMachine.Attached))
    || s.top.Completed?
  }

  lemma PauseKeepsAttach(s: RunState, e: Escalation)
    requires InAttach(s) && !s.top.Ready?
    ensures InAttach(PauseForHuman(s, e).state)
    ensures InAttach(EnterRecovery(s, "recovery").state)
    ensures InAttach(HandleEvent(s, Timeout).state)
  {
  }

  lemma TakeKeepsAttach(spec: Spec, w: World, cp: Checkpoint, d: Option<Decision>, git: FinishGate.GitStatus, fr: bool)
    requires AllTasks(spec) && InAttach(w.run) && !w.run.top.Ready? && !ShowsWork(cp)
    ensures InAttach(TakeCheckpoint(spec, w, cp, d, git, fr).run)
  {
    RunFrames.ArrivalIsQuiet(w.run, cp);
    var s := Arrived(w.run, cp);
    if d.Some? && MayDecide(spec, s, d.value) {
      assert GetNode(spec, s.node) in spec.nodes;
      assert d.value.kind in {ReInject, EscalateToHuman};
    }
  }

  lemma DaemonKeepsAttach(spec: Spec, w: World, m: Elem)
    requires InAttach(w.run) && InAttach(w.disk) && OfDaemon(m) && !m.Orphan? && w.phase.Down?
    ensures var v := DoElem(spec, w, m); InAttach(v.run) && InAttach(v.disk)
  {
    if m.Ack? {
      RunProgress.AckIsQuiet(spec, w.disk, m.reviewer, m.git);
    }
    RunFrames.DaemonSteps(spec, w, m);
  }

  lemma ElemKeepsAttach(spec: Spec, w: World, m: Elem)
    requires AllTasks(spec) && InAttach(w.run) && InAttach(w.disk)
    requires !m.Orphan? && !m.Intervene? && (m.Take? ==> !ShowsWork(m.checkpoint))
    ensures var v := DoElem(spec, w, m); InAttach(v.run) && InAttach(v.disk)
  {
    if OfDaemon(m) {
      if w.phase.Down? {
        DaemonKeepsAttach(spec, w, m);
      }
    } else if !w.phase.Down? && !(w.run.top.Ready? && NeedsHandOff(m)) {
      match m {
        case Take(cp, d, git, fr) => TakeKeepsAttach(spec, w, cp, d, git, fr);
        case Pause(e) => PauseKeepsAttach(w.run, e);
        case Recover => PauseKeepsAttach(w.run, Escalation("recovery", true));
        case TimeOut => PauseKeepsAttach(w.run, Escalation("recovery", true));
        case _ =>
      }
    }
  }

  ghost predicate BothInAttach(w: World) {
    InAttach(w.run) && InAttach(w.disk)
  }

  /** The operation is a checkpoint that the sidecar takes up and that shows work. */
  predicate TakesUpWork(cfg: Config, w: World, op: Op) {
    Enabled(w, op) && op.CheckpointOp? && TakesUp(cfg, w.run, op.checkpoint) && ShowsWork(op.checkpoint)
  }

  lemma QuietOpsKeepAttach(cfg: Config, spec: Spec, op: Op)
    requires AllTasks(spec) && !(MayIntervene(cfg) && Intervenes(op)) && !op.OrphanOp?
    requires op.CheckpointOp? ==> !ShowsWork(op.checkpoint)
    ensures Keeps(Setting(cfg, spec, op), (v: World) => BothInAttach(v))
  {
    forall v: World, m: Elem | BothInAttach(v) && Performs(cfg, op, m)
      ensures BothInAttach(DoElem(spec, v, m))
    {
      ElemKeepsAttach(spec, v, m);
    }
  }

  /** A checkpoint that is not taken up, however it looks, leaves the run where it was. */
  lemma UntakenKeepsAttach(cfg: Config, spec: Spec, w: World, op: Op)
    requires AllTasks(spec) && !(MayIntervene(cfg) && Intervenes(op)) && BothInAttach(w) && HandedOver(w)
    requires Enabled(w, op) && op.CheckpointOp? && !TakesUp(cfg, w.run, op.checkpoint)
    ensures BothInAttach(Step(cfg, spec, w, op))
  {
    var c := Setting(cfg, spec, op);
    forall v: World, m: Elem | BothInAttach(v) && Performs(cfg, op, m) && !m.Take? && !m.Note?
      ensures BothInAttach(DoElem(spec, v, m))
    {
      ElemKeepsAttach(spec, v, m);
    }
    RunAdmission.TakesUpIff(cfg, w.run, op.checkpoint);
    UntakenKeeps(c, (v: World) => BothInAttach(v), w);
  }

  /** How the attach phase ends, step by step: through a checkpoint that is taken up and shows
      work, or an orphan recovery of a run on the boundary, or an operation whose auto-intervention
      may be planned, finds its probe clear and sends. */
  lemma AttachEndsThrough(cfg: Config, spec: Spec, ops: seq<Op>, ws: seq<World>, i: nat)
    requires IsRun(cfg, spec, ops, ws) && AllTasks(spec) && i < |ops| && BothInAttach(ws[i])
    ensures || BothInAttach(ws[i + 1])
            || TakesUpWork(cfg, ws[i], ops[i])
            || (ops[i].OrphanOp? && ws[i].disk.top.Attached?)
            || (Enabled(ws[i], ops[i]) && MayIntervene(cfg) && Intervenes(ops[i]))
  {
    var w, op := ws[i], ops[i];
    assert ws[i + 1] == Step(cfg, spec, w, op);
    RunIsHandedOver(cfg, spec, ops, ws, i);
    if !Enabled(w, op) || (MayIntervene(cfg) && Intervenes(op)) {
    } else if op.OrphanOp? {
      if !w.disk.top.Attached? {
        OrphanLeavesOnlyTheBoundary(w);
      }
    } else if op.CheckpointOp? && ShowsWork(op.checkpoint) {
      if !TakesUp(cfg, w.run, op.checkpoint) {
        UntakenKeepsAttach(cfg, spec, w, op);
      }
    } else {
      QuietOpsKeepAttach(cfg, spec, op);
      StepKeeps(Setting(cfg, spec, op), (v: World) => BothInAttach(v), w);
    }
  }

  lemma OrphanLeavesOnlyTheBoundary(w: World)
    requires BothInAttach(w) && !w.disk.top.Attached?
    ensures BothInAttach(OnDisk(w, RecoverOrphan(w.disk)))
  {
  }

  /** So without a successful auto-intervention and orphan recovery, a run over task nodes that is past the
      attach phase got there through a checkpoint that was taken up while it was still in that
      phase, and that showed work, however often the run was paused, crashed and resumed. */
  lemma {:induction false} OnlyWorkEndsTheAttachPhase(cfg: Config, spec: Spec, ops: seq<Op>, ws: seq<World>, n: nat)
    returns (i: nat)
    requires IsRun(cfg, spec, ops, ws) && AllTasks(spec) && n < |ws|
    requires OrphanOp !in ops && (forall op :: op in ops && Intervenes(op) ==> !MayIntervene(cfg))
    requires !BothInAttach(ws[n])
    ensures i < n && BothInAttach(ws[i]) && !BothInAttach(ws[i + 1]) && TakesUpWork(cfg, ws[i], ops[i])
  {
    assert n > 0;
    if BothInAttach(ws[n - 1]) {
      i := n - 1;
      assert ops[i] in ops;
      AttachEndsThrough(cfg, spec, ops, ws, i);
    } else {
      i := OnlyWorkEndsTheAttachPhase(cfg, spec, ops, ws, n - 1);
    }
  }

  // ----- the re-inject cap ---------------------------------------------------------------

  predicate Capped(s: RunState) {
    s.top in {StateMachine.Ready, StateMachine.Attached} ==> s.reInjects <= MAX_RE_INJECTS
  }

  lemma DecisionsKeepCapped(spec: Spec, s: RunState, d: Decision, git: FinishGate.GitStatus, fr: bool)
    requires Capped(s)
    ensures Capped(ApplyDecision(spec, s, d, git, fr).state)
  {
  }

  lemma DaemonKeepsCapped(spec: Spec, w: World, m: Elem)
    requires Capped(w.run) && Capped(w.disk) && OfDaemon(m) && w.phase.Down?
    ensures var v := DoElem(spec, w, m); Capped(v.run) && Capped(v.disk)
  {
    RunFrames.DaemonSteps(spec, w, m);
    assert Capped(ResumePaused(w.disk).state) || !w.disk.top.PausedForHuman?;
  }

  lemma TakeKeepsCapped(spec: Spec, w: World, cp: Checkpoint, d: Option<Decision>, git: FinishGate.GitStatus, fr: bool)
    requires Capped(w.run) && !w.run.top.Ready?
    ensures Capped(TakeCheckpoint(spec, w, cp, d, git, fr).run)
  {
    RunFrames.ArrivalIsQuiet(w.run, cp);
    if d.Some? && MayDecide(spec, Arrived(w.run, cp), d.value) {
      DecisionsKeepCapped(spec, Arrived(w.run, cp), d.value, git, fr);
    }
  }

  lemma CheckKeepsCapped(spec: Spec, w: World, ok: bool, git: FinishGate.GitStatus, fr: bool)
    requires w.run.top.Verifying?
    ensures Capped(Checked(spec, w, ok, git, fr).run)
  {
  }

  lemma ElemKeepsCapped(spec: Spec, w: World, m: Elem)
    requires Capped(w.run) && Capped(w.disk)
    ensures var v := DoElem(spec, w, m); Capped(v.run) && Capped(v.disk)
  {
    if OfDaemon(m) {
      if w.phase.Down? {
        DaemonKeepsCapped(spec, w, m);
      }
    } else if !w.phase.Down? && !(w.run.top.Ready? && NeedsHandOff(m)) {
      match m {
        case Take(cp, d, git, fr) => TakeKeepsCapped(spec, w, cp, d, git, fr);
        case Check(ok, git, fr) =>
          if w.run.top.Verifying? {
            CheckKeepsCapped(spec, w, ok, git, fr);
          }
        case _ => QuietKeepsCapped(spec, w, m);
      }
    }
  }

  lemma QuietKeepsCapped(spec: Spec, w: World, m: Elem)
    requires Capped(w.run) && Capped(w.disk) && !OfDaemon(m) && !m.Take? && !m.Check?
    ensures var v := DoElem(spec, w, m); Capped(v.run) && Capped(v.disk)
  {
  }

  /** In every run, a run waiting on the attach boundary has been re-injected at most three
      times since it got there. */
  lemma ReInjectsAreCapped(cfg: Config, spec: Spec, ops: seq<Op>, ws: seq<World>, w: World)
    requires IsRun(cfg, spec, ops, ws) && w in ws
    ensures Capped(w.run) && Capped(w.disk)
  {
    var J := (v: World) => Capped(v.run) && Capped(v.disk);
    forall op | op in ops
      ensures Keeps(Setting(cfg, spec, op), J)
    {
      forall v: World, m: Elem | Capped(v.run) && Capped(v.disk)
        ensures Capped(DoElem(spec, v, m).run) && Capped(DoElem(spec, v, m).disk)
      {
        ElemKeepsCapped(spec, v, m);
      }
    }
    RunKeeps(cfg, spec, ops, ws, J, w);
  }
}
