/** The moment of completion: whatever a run does, the step that takes it into COMPLETED is one that
    asked the finish gate, and the gate accepted what the run was then. */
module RunFinish {
  import opened Options
  import opened Plan
  import FinishGate
  import opened Gates
  import opened RunModel
  import opened RunSteps
  import RunFrames
  import RunCompletion

  // ----- a completed record on disk is the live one --------------------------------------

  /** The saved record is not ahead of the live one. */
  predicate NotAhead(w: World) {
    w.disk.top.Completed? ==> w.run.top.Completed?
  }

  lemma TakeStaysCompleted(spec: Spec, w: World, cp: Checkpoint, d: Option<Decision>,
                           git: FinishGate.GitStatus, fr: bool)
    requires w.run.top.Completed?
    ensures TakeCheckpoint(spec, w, cp, d, git, fr).run.top.Completed?
  {
    RunFrames.ArrivalIsQuiet(w.run, cp);
  }

  lemma QuietKeepsNotAhead(spec: Spec, w: World, m: Elem)
    requires NotAhead(w) && !m.Take? && !m.Check? && !OfDaemon(m)
    ensures NotAhead(DoElem(spec, w, m))
  {
  }

  lemma ElemKeepsNotAhead(spec: Spec, w: World, m: Elem)
    requires NotAhead(w)
    ensures NotAhead(DoElem(spec, w, m))
  {
    if OfDaemon(m) {
      if w.phase.Down? {
        RunFrames.DaemonSteps(spec, w, m);
      }
    } else {
      match m {
        case Take(cp, d, git, fr) =>
          if w.run.top.Completed? && !w.phase.Down? {
            TakeStaysCompleted(spec, w, cp, d, git, fr);
          }
        case Check(_, _, _) =>
        case _ => QuietKeepsNotAhead(spec, w, m);
      }
    }
  }

  lemma RunIsNotAhead(cfg: Config, spec: Spec, ops: seq<Op>, ws: seq<World>, i: nat)
    requires IsRun(cfg, spec, ops, ws) && i < |ws|
    ensures NotAhead(ws[i]) && HandedOver(ws[i])
  {
    var J := (v: World) => NotAhead(v);
    forall op | op in ops
      ensures Keeps(Setting(cfg, spec, op), J)
    {
      forall v, m | NotAhead(v)
        ensures NotAhead(DoElem(spec, v, m))
      {
        ElemKeepsNotAhead(spec, v, m);
      }
    }
    PathKeeps(cfg, spec, ops, ws, J, i);
  }

  // ----- nothing else completes ----------------------------------------------------------

  predicate Unfinished(w: World) {
    !w.run.top.Completed? && !w.disk.top.Completed?
  }

  lemma QuietElemStaysUnfinished(spec: Spec, w: World, m: Elem)
    requires Unfinished(w) && !m.Take? && !m.Check? && !m.Ack?
    ensures Unfinished(DoElem(spec, w, m))
  {
  }

  /** The operation neither processes a checkpoint nor acknowledges a review. */
  predicate AsksNoGate(op: Op) {
    !op.CheckpointOp? && !op.AckOp?
  }

  lemma QuietOpsStayUnfinished(cfg: Config, spec: Spec, op: Op)
    requires AsksNoGate(op)
    ensures Keeps(Setting(cfg, spec, op), (v: World) => Unfinished(v))
  {
    forall v: World, m: Elem | Unfinished(v) && Performs(cfg, op, m)
      ensures Unfinished(DoElem(spec, v, m))
    {
      QuietElemStaysUnfinished(spec, v, m);
    }
  }

  // ----- what completes is accepted ------------------------------------------------------

  predicate Accepted(spec: Spec, git: FinishGate.GitStatus, w: World) {
    w.run.top.Completed? ==> FinishOk(spec, w.run, git)
  }

  /** The steps of an operation that neither takes a checkpoint nor verifies nor reloads. */
  lemma QuietElemKeepsAccepted(spec: Spec, git: FinishGate.GitStatus, w: World, m: Elem)
    requires Accepted(spec, git, w) && !m.Take? && !m.Check? && !m.Die? && !OfDaemon(m)
    ensures Accepted(spec, git, DoElem(spec, w, m))
  {
    if DoElem(spec, w, m).run.top.Completed? {
      QuietElemKeepsStanding(spec, w, m);
    }
  }

  lemma QuietElemKeepsStanding(spec: Spec, w: World, m: Elem)
    requires !m.Take? && !m.Check? && !m.Die? && !OfDaemon(m)
    requires DoElem(spec, w, m).run.top.Completed?
    ensures w.run.top.Completed? && StandingOf(DoElem(spec, w, m).run) == StandingOf(w.run)
  {
  }

  /** Once a checkpoint has been taken up, what completes is accepted. */
  lemma CheckpointsKeepAccepted(c: Setting)
    requires c.op.CheckpointOp?
    ensures Later(c, (v: World) => Accepted(c.spec, c.op.env.git, v))
  {
    forall v: World, m: Elem | Accepted(c.spec, c.op.env.git, v) && Performs(c.cfg, c.op, m) && !m.Take? && !m.Note?
      ensures Accepted(c.spec, c.op.env.git, DoElem(c.spec, v, m))
    {
      if m.Check? {
        CheckKeepsAccepted(c.spec, v, m);
      } else {
        QuietElemKeepsAccepted(c.spec, c.op.env.git, v, m);
      }
    }
  }

  lemma CheckKeepsAccepted(spec: Spec, w: World, m: Elem)
    requires m.Check? && Accepted(spec, m.git, w)
    ensures Accepted(spec, m.git, DoElem(spec, w, m))
  {
    if w.run.top.Verifying? {
      RunCompletion.VerificationCompletionIsGated(spec, w.run, m.ok, m.git, m.finishRecoverable);
    }
  }

  lemma CheckpointIsAccepted(c: Setting, w: World)
    requires c.op.CheckpointOp? && Unfinished(w) && !w.phase.Down? && !w.run.top.Ready?
    ensures StageWell((v: World) => Accepted(c.spec, c.op.env.git, v), w,
                      ProcessCheckpoint(c.cfg, c.spec, w, c.op.checkpoint, c.op.env))
  {
    var J := (v: World) => Accepted(c.spec, c.op.env.git, v);
    CheckpointsKeepAccepted(c);
    match Admit(c.cfg, w.run, c.op.checkpoint) {
      case Skip =>
      case Stalled => StalledKeeps(c, J, w, c.op.env);
      case Mismatch => MismatchKeeps(c, J, w, c.op.checkpoint, c.op.env);
      case Accept(bound) =>
        RunFrames.ArrivalIsQuiet(w.run, bound);
        if c.op.env.recorded {
          TakenIsAccepted(c, w, bound);
        }
    }
  }

  lemma TakenIsAccepted(c: Setting, w: World, cp: Checkpoint)
    requires c.op.CheckpointOp? && c.op.env.recorded && Unfinished(w) && !w.phase.Down? && !w.run.top.Ready?
    ensures StageWell((v: World) => Accepted(c.spec, c.op.env.git, v), w,
                      ProcessAccepted(c.cfg, c.spec, w, cp, c.op.env))
  {
    var env := c.op.env;
    CheckpointsKeepAccepted(c);
    RunFrames.ArrivalIsQuiet(w.run, cp);
    var s := Arrived(w.run, cp);
    if Decides(c.spec, s, env.gate) {
      RunCompletion.DecisionCompletionIsGated(c.spec, s, GateOf(c.spec, s, env.gate), env.git, env.finishRecoverable);
    }
    ArrivedKeeps(c, (v: World) => Accepted(c.spec, env.git, v), w, cp, env);
  }

  /** In every run, a step into COMPLETED is the processing of a checkpoint or the acknowledgement of
      a review, and the finish gate accepts the record that the step leaves, with the state of the
      repository that the step saw: steps, verification, clean tree, forbidden states, evidence and
      review, whatever happened before and however the rest of the step went. */
  lemma CompletionIsAlwaysAccepted(cfg: Config, spec: Spec, ops: seq<Op>, ws: seq<World>, i: nat)
    requires IsRun(cfg, spec, ops, ws) && i < |ops|
    requires !ws[i].run.top.Completed? && ws[i + 1].run.top.Completed?
    ensures match ops[i]
            case CheckpointOp(_, env) => FinishOk(spec, ws[i + 1].run, env.git)
            case AckOp(_, git) => FinishOk(spec, ws[i + 1].run, git)
            case _ => false
  {
    var w, op := ws[i], ops[i];
    assert ws[i + 1] == Step(cfg, spec, w, op);
    RunIsNotAhead(cfg, spec, ops, ws, i);
    match op {
      case CheckpointOp(_, _) => CheckpointIsAccepted(Setting(cfg, spec, op), w);
      case AckOp(reviewer, git) =>
        RunCompletion.CompletionIsGated(spec, w.disk, Plain(Continue), true, reviewer, git, false);
      case _ =>
        QuietOpsStayUnfinished(cfg, spec, op);
        StepKeeps(Setting(cfg, spec, op), (v: World) => Unfinished(v), w);
    }
  }
}
