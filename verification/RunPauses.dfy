/** Pauses remember the state they interrupted, so that a resume can restore the attach boundary;
    finished runs stay finished. */
module RunPauses {
  import opened Options
  import opened StateMachine
  import opened Plan
  import FinishGate
  import opened Gates
  import opened RunModel
  import opened RunSteps
  import RunFrames

  /** The pause snapshot is empty while the supervisor works and otherwise names the state it
      last worked in. Only orphan recovery (`strict` off) pauses without a snapshot. */
  predicate Named(strict: bool, s: RunState) {
    && (IsActive(s.top) ==> s.prePause.None? && s.lastActive == s.top)
    && (s.top.RecoveryNeeded? ==> s.prePause == Some(s.lastActive))
    && (s.top.PausedForHuman? ==> s.prePause == Some(s.lastActive) || (!strict && s.prePause.None?))
  }

  /** A sidecar never runs a pause without a snapshot. */
  predicate NamedWorld(strict: bool, w: World) {
    && Named(strict, w.run)
    && Named(strict, w.disk)
    && (!w.phase.Down? ==> Named(true, w.run))
  }

  lemma TransitionsKeepNamed(s: RunState, e: Escalation)
    requires Named(true, s)
    ensures Named(true, PauseForHuman(s, e).state)
    ensures !s.top.Ready? ==> Named(true, EnterRecovery(s, "recovery").state)
    ensures forall ev :: Named(true, HandleEvent(s, ev).state)
  {
  }

  lemma DecisionsKeepNamed(spec: Spec, s: RunState, d: Decision, git: FinishGate.GitStatus, fr: bool)
    requires Named(true, s) && (s.top.Gating? || s.top.Attached?)
    ensures Named(true, ApplyDecision(spec, s, d, git, fr).state)
  {
  }

  lemma VerificationsKeepNamed(spec: Spec, s: RunState, ok: bool, git: FinishGate.GitStatus, fr: bool)
    requires Named(true, s) && s.top.Verifying?
    ensures Named(true, ApplyVerification(spec, s, ok, git, fr).state)
  {
  }

  lemma TakeKeepsNamed(spec: Spec, w: World, cp: Checkpoint, d: Option<Decision>, git: FinishGate.GitStatus, fr: bool)
    requires Named(true, w.run)
    ensures Named(true, TakeCheckpoint(spec, w, cp, d, git, fr).run)
  {
    RunFrames.ArrivalIsQuiet(w.run, cp);
    var s := Arrived(w.run, cp);
    assert Named(true, s);
    if d.Some? && MayDecide(spec, s, d.value) {
      DecisionsKeepNamed(spec, s, d.value, git, fr);
    }
  }

  lemma DaemonKeepsNamed(spec: Spec, strict: bool, w: World, m: Elem)
    requires NamedWorld(strict, w) && OfDaemon(m) && w.phase.Down? && (strict ==> !m.Orphan?)
    ensures NamedWorld(strict, DoElem(spec, w, m))
  {
  }

  lemma OthersKeepNamed(spec: Spec, strict: bool, w: World, m: Elem)
    requires NamedWorld(strict, w) && !OfDaemon(m)
    requires !m.Take? && !m.Check? && !m.Pause? && !m.Recover? && !m.TimeOut?
    ensures NamedWorld(strict, DoElem(spec, w, m))
  {
  }

  lemma ElemKeepsNamed(spec: Spec, strict: bool, w: World, m: Elem)
    requires NamedWorld(strict, w) && (strict ==> !m.Orphan?)
    ensures NamedWorld(strict, DoElem(spec, w, m))
  {
    if OfDaemon(m) {
      if w.phase.Down? {
        DaemonKeepsNamed(spec, strict, w, m);
      }
    } else if !w.phase.Down? {
      match m {
        case Take(cp, d, git, fr) => TakeKeepsNamed(spec, w, cp, d, git, fr);
        case Check(ok, git, fr) =>
          if w.run.top.Verifying? {
            VerificationsKeepNamed(spec, w.run, ok, git, fr);
          }
        case Pause(e) => TransitionsKeepNamed(w.run, e);
        case Recover => TransitionsKeepNamed(w.run, Escalation("recovery", true));
        case TimeOut => TransitionsKeepNamed(w.run, Escalation("recovery", true));
        case _ => OthersKeepNamed(spec, strict, w, m);
      }
    }
  }

  /** In every reachable world, in memory and on disk, the pause snapshot is empty while the
      supervisor works and names the state left while it does not, through any chain of
      recovery, auto-intervention and pause. */
  lemma PausesNameTheStateLeft(cfg: Config, spec: Spec, ops: seq<Op>, ws: seq<World>, w: World)
    requires IsRun(cfg, spec, ops, ws) && w in ws
    ensures NamedWorld(OrphanOp !in ops, w)
  {
    var strict := OrphanOp !in ops;
    var J := (v: World) => NamedWorld(strict, v);
    forall op | op in ops
      ensures Keeps(Setting(cfg, spec, op), J)
    {
      forall v, m | NamedWorld(strict, v) && Performs(cfg, op, m)
        ensures NamedWorld(strict, DoElem(spec, v, m))
      {
        ElemKeepsNamed(spec, strict, v, m);
      }
    }
    RunKeeps(cfg, spec, ops, ws, J, w);
  }

  /** Where the supervisor last worked, as far as a resume can restore it. */
  function StateLeft(s: RunState): TopState {
    if s.lastActive.Attached? then Attached else Running
  }

  /** In every run, resuming a paused run restores the state left, unless the run was left on the
      attach boundary and the pause did not record it. A replay of the resume gives the same
      record, and a restored boundary comes with a fresh re-inject count. */
  lemma ResumeRestoresTheStateLeftIff(cfg: Config, spec: Spec, ops: seq<Op>, ws: seq<World>, w: World)
    requires IsRun(cfg, spec, ops, ws) && w in ws
    requires w.phase.Down? && w.disk.top.PausedForHuman?
    ensures var v := Step(cfg, spec, w, ResumeOp);
            && v.run == v.disk && v.phase.Booting? && ReplayResume(w.disk) == Done(v.run, ())
            && (v.run.top == StateLeft(w.disk) <==> !(w.disk.lastActive.Attached? && w.disk.prePause.None?))
            && (v.run.top.Attached? ==> v.run.reInjects == 0)
  {
    PausesNameTheStateLeft(cfg, spec, ops, ws, w);
  }

  /** Only an orphan recovery leaves such a pause behind, and only of a run that it finds in
      ATTACHED: of any other state, and of a recovery cut short, it leaves one that resumes to
      the state left. */
  lemma OrphanRecoveryDropsTheBoundaryIff(s: RunState)
    requires Named(true, s) && IsOrphaned(s.top)
    ensures ResumePaused(RecoverOrphan(s).state).state.top == StateLeft(s) <==> !s.top.Attached?
  {
  }

  // ----- finality ------------------------------------------------------------------------

  predicate FinalOnDisk(t: TopState, w: World) {
    w.disk.top == t && w.run.top == t
  }

  lemma TakeKeepsFinal(spec: Spec, w: World, cp: Checkpoint, d: Option<Decision>, git: FinishGate.GitStatus, fr: bool)
    requires IsFinal(w.run.top)
    ensures TakeCheckpoint(spec, w, cp, d, git, fr).run.top == w.run.top
  {
    RunFrames.ArrivalIsQuiet(w.run, cp);
  }

  lemma ElemKeepsFinal(spec: Spec, t: TopState, w: World, m: Elem)
    requires IsFinal(t) && FinalOnDisk(t, w)
    ensures FinalOnDisk(t, DoElem(spec, w, m))
  {
    if OfDaemon(m) {
    } else if !w.phase.Down? {
      match m {
        case Take(cp, d, git, fr) => TakeKeepsFinal(spec, w, cp, d, git, fr);
        case Check(_, _, _) =>
        case _ => OthersKeepFinal(spec, t, w, m);
      }
    }
  }

  lemma OthersKeepFinal(spec: Spec, t: TopState, w: World, m: Elem)
    requires IsFinal(t) && FinalOnDisk(t, w) && !OfDaemon(m) && !m.Take? && !m.Check?
    ensures FinalOnDisk(t, DoElem(spec, w, m))
  {
  }

  /** A run recorded as finished stays finished in that state, whatever the loop, the daemon or a
      crash does afterwards. */
  lemma FinishedRunsStayFinished(cfg: Config, spec: Spec, ops: seq<Op>, ws: seq<World>, w: World)
    requires IsPath(cfg, spec, ops, ws) && w in ws
    requires IsFinal(ws[0].disk.top) && ws[0].run.top == ws[0].disk.top && HandedOver(ws[0])
    ensures w.disk.top == w.run.top == ws[0].disk.top
  {
    var t := ws[0].disk.top;
    var J := (v: World) => FinalOnDisk(t, v);
    forall op | op in ops
      ensures Keeps(Setting(cfg, spec, op), J)
    {
      forall v, m | FinalOnDisk(t, v) && Performs(cfg, op, m)
        ensures FinalOnDisk(t, DoElem(spec, v, m))
      {
        ElemKeepsFinal(spec, t, v, m);
      }
    }
    var n :| 0 <= n < |ws| && ws[n] == w;
    PathKeeps(cfg, spec, ops, ws, J, n);
  }

  // ----- pause classes -------------------------------------------------------------------

  /** A review that the worker itself declares never pauses the run as a review: the classifier
      reads the reason text, and no text the gate gives has a review phrase in it. The pause is a
      safety pause iff the worker also declares that it needs authorization, or denies it while
      its text or question is classified as dangerous; otherwise it is a business pause. */
  lemma DeclaredReviewIsNeverTaggedReview(spec: Spec, s: RunState, node: Node, cp: Checkpoint, env: GateEnv,
                                          git: FinishGate.GitStatus, fr: bool)
    requires node.nodeType.Task? && (s.top.Gating? || s.top.Attached?)
    requires cp.schemaVersion == 2 && !cp.status.OtherStatus? && cp.declared.escalation == Some(Review)
    ensures var d := Gate(node, s.top.Attached?, Some(cp), s.question, env);
            var o := ApplyDecision(spec, s, d, git, fr);
            var auth := cp.declared.requiresAuthorization;
            var dangerous := s.question.DangerousAction? || cp.textClass.DangerousAction?;
            && o.Done? && o.state.top.PausedForHuman?
            && o.state.escalations == s.escalations +
                 [Escalation(if auth == Some(true) || (auth == Some(false) && dangerous) then "safety" else "business",
                             false)]
  {
    var d := StructuredDecision(cp, s.question, env);
    assert d.Some? && d.value.kind.EscalateToHuman? && !d.value.recoverable && !d.value.words.review;
  }
}
