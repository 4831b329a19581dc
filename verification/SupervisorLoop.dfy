/** The operations of supervisor/loop.py and supervisor/daemon/server.py as they are: updates of a
    mutable record, one field at a time. Each is proved to compute the step on values of RunModel
    about which the theorems on whole runs speak. */
module SupervisorLoop {
  import opened Options
  import opened StateMachine
  import opened Plan
  import opened FinishGate
  import opened Gates
  import opened RunModel

  /** The persisted record of a run. */
  class SupervisorState {
    var top: TopState
    var lastActive: TopState
    var node: string
    var attempt: nat
    var done: seq<string>
    var perNode: int
    var globalLimit: int
    var usedGlobal: nat
    var checkpoint: Option<Checkpoint>
    var question: TextClass
    var verification: Verification
    var reviews: set<string>
    var lastNode: Option<string>
    var lastAttempt: int
    var lastInjectionSeq: nat
    var delivery: DeliveryState
    var checkpointSeq: nat
    var autoCount: nat
    var mismatches: nat
    var lastMismatch: string
    var reInjects: nat
    var prePause: Option<TopState>
    var escalations: seq<Escalation>

    function Record(): RunState
      reads this
    {
      RunState(top, lastActive, node, attempt, done, perNode, globalLimit, usedGlobal, checkpoint, question,
               verification, reviews, lastNode, lastAttempt, lastInjectionSeq, delivery, checkpointSeq, autoCount,
               mismatches, lastMismatch, reInjects, prePause, escalations)
    }

    /** A fresh run of a specification. */
    constructor (spec: Spec)
      requires spec.nodes != []
      ensures Record() == Fresh(spec)
    {
      top, lastActive, node, attempt, done := Ready, Ready, spec.nodes[0].id, 0, [];
      perNode, globalLimit, usedGlobal := spec.perNode, spec.globalLimit, 0;
      checkpoint, question, verification, reviews := None, NoClass, Pending, {};
      lastNode, lastAttempt, lastInjectionSeq, delivery, checkpointSeq := None, -1, 0, Idle, 0;
      autoCount, mismatches, lastMismatch, reInjects, prePause, escalations := 0, 0, "", 0, None, [];
    }

    /** A record read back from state.json. */
    constructor Load(saved: RunState)
      ensures Record() == saved
    {
      top, lastActive, node, attempt, done := saved.top, saved.lastActive, saved.node, saved.attempt, saved.done;
      perNode, globalLimit, usedGlobal := saved.perNode, saved.globalLimit, saved.usedGlobal;
      checkpoint, question := saved.checkpoint, saved.question;
      verification, reviews := saved.verification, saved.reviews;
      lastNode, lastAttempt, lastInjectionSeq := saved.lastNode, saved.lastAttempt, saved.lastInjectionSeq;
      delivery, checkpointSeq := saved.delivery, saved.checkpointSeq;
      autoCount, mismatches, lastMismatch := saved.autoCount, saved.mismatches, saved.lastMismatch;
      reInjects, prePause, escalations := saved.reInjects, saved.prePause, saved.escalations;
    }

    /** The record and the exception, if any, are what the step on values gives. */
    predicate Yields(o: RunOutcome, fault: Option<Fault>)
      reads this
    {
      Record() == o.state && fault == if o.Raised? then Some(o.fault) else None
    }

    method SetTop(to: TopState)
      modifies `top
      ensures Record() == old(Record()).(top := to)
    {
      top := to;
    }

    method SetLastActive(to: TopState)
      modifies `lastActive
      ensures Record() == old(Record()).(lastActive := to)
    {
      lastActive := to;
    }

    method TransitionTopState(to: TopState) returns (fault: Option<Fault>)
      modifies `top, `lastActive
      ensures Yields(Transition(old(Record()), to), fault)
    {
      if top != to && to !in AllowedTargets(top) {
        return Some(InvalidTopStateTransition);
      }
      SetTop(to);
      if IsActive(to) {
        SetLastActive(to);
      }
      fault := None;
    }

    method AddEscalation(e: Escalation)
      modifies `escalations
      ensures Record() == old(Record()).(escalations := old(escalations) + [e])
    {
      escalations := escalations + [e];
    }

    method PauseForHuman(e: Escalation) returns (fault: Option<Fault>)
      modifies this
      ensures Yields(RunModel.PauseForHuman(old(Record()), e), fault)
    {
      if e.pauseClass !in PAUSE_CLASSES {
        return Some(UntaggedPause);
      }
      if prePause.None? {
        prePause := Some(top);
      }
      fault := TransitionTopState(PausedForHuman);
      if fault.None? {
        AddEscalation(e);
      }
    }

    method EnterRecovery(pauseClass: string) returns (fault: Option<Fault>)
      modifies this
      ensures Yields(RunModel.EnterRecovery(old(Record()), pauseClass), fault)
    {
      if pauseClass != "recovery" {
        return Some(UntaggedPause);
      }
      if prePause.None? {
        prePause := Some(top);
      }
      fault := TransitionTopState(RecoveryNeeded);
    }

    method HandleEvent(ev: Event) returns (fault: Option<Fault>)
      modifies this
      ensures Yields(RunModel.HandleEvent(old(Record()), ev), fault)
    {
      fault := None;
      question := if ev.AgentAsk? then ev.question else NoClass;
      if ev.AgentOutput? {
        if ev.checkpoint.Some? {
          checkpoint := ev.checkpoint;
          if !PreservesState(top) {
            fault := TransitionTopState(Gating);
          }
        }
      } else if !PreservesState(top) {
        fault := TransitionTopState(Gating);
      }
    }

    method ChargeBudgets()
      modifies `attempt, `usedGlobal
      ensures Record() == old(Record()).(attempt := old(attempt) + 1, usedGlobal := old(usedGlobal) + 1)
    {
      attempt := attempt + 1;
      usedGlobal := usedGlobal + 1;
    }

    method ChargeFailure() returns (fault: Option<Fault>)
      modifies this
      ensures Yields(RunModel.ChargeFailure(old(Record())), fault)
    {
      ChargeBudgets();
      if attempt >= perNode || usedGlobal >= globalLimit {
        fault := PauseForHuman(Escalation("recovery", true));
      } else {
        fault := TransitionTopState(Running);
      }
    }

    /** Consult the finish gate, then complete or ask for a review. */
    method TryToFinish(spec: Spec, git: GitStatus, finishRecoverable: bool) returns (fault: Option<Fault>)
      modifies this
      ensures var s := old(Record());
              Yields(if GitRaises(spec, git) then Raised(s, GitError)
                     else if FinishOk(spec, s, git) then Transition(s, Completed)
                     else RunModel.PauseForHuman(s, Escalation("review", finishRecoverable)), fault)
    {
      var failures := FinishGate.Evaluate(spec, StandingOf(Record()), git);
      if failures.None? {
        fault := Some(GitError);
      } else if failures.value == [] {
        fault := TransitionTopState(Completed);
      } else {
        fault := PauseForHuman(Escalation("review", finishRecoverable));
      }
    }

    method SetReInjects(n: nat)
      modifies `reInjects
      ensures Record() == old(Record()).(reInjects := n)
    {
      reInjects := n;
    }

    method MoveTo(id: string)
      modifies `node, `attempt
      ensures Record() == old(Record()).(node := id, attempt := 0)
    {
      node := id;
      attempt := 0;
    }

    method MoveOn(to: TopState) returns (fault: Option<Fault>)
      modifies this
      ensures Yields(Transition(old(Record()).(reInjects := 0), to), fault)
    {
      SetReInjects(0);
      fault := TransitionTopState(to);
    }

    method ReInjectOnce() returns (fault: Option<Fault>)
      modifies this
      ensures var s := old(Record()).(reInjects := old(reInjects) + 1);
              Yields(if s.reInjects > MAX_RE_INJECTS then RunModel.PauseForHuman(s, Escalation("recovery", false))
                     else Done(s, ()), fault)
    {
      fault := None;
      SetReInjects(reInjects + 1);
      if reInjects > MAX_RE_INJECTS {
        fault := PauseForHuman(Escalation("recovery", false));
      }
    }

    method RetryNode() returns (fault: Option<Fault>)
      modifies this
      ensures Yields(RunModel.ChargeFailure(old(Record()).(reInjects := 0)), fault)
    {
      SetReInjects(0);
      fault := ChargeFailure();
    }

    method TakeBranch(id: string) returns (fault: Option<Fault>)
      modifies this
      ensures Yields(Transition(old(Record()).(node := id, attempt := 0), Running), fault)
    {
      MoveTo(id);
      fault := TransitionTopState(Running);
    }

    method ApplyDecision(spec: Spec, d: Decision, git: GitStatus, finishRecoverable: bool)
      returns (fault: Option<Fault>)
      modifies this
      ensures Yields(RunModel.ApplyDecision(spec, old(Record()), d, git, finishRecoverable), fault)
    {
      match d.kind {
        case Continue => fault := MoveOn(Running);
        case VerifyStep => fault := MoveOn(Verifying);
        case ReInject => fault := ReInjectOnce();
        case Retry => fault := RetryNode();
        case Branch => fault := TakeBranch(d.nextNode);
        case EscalateToHuman => fault := PauseForHuman(Escalation(PauseClassOf(d.words), d.recoverable));
        case Abort => fault := TransitionTopState(Aborted);
        case Finish => fault := TryToFinish(spec, git, finishRecoverable);
        case AdvanceStep => fault := Some(UnsupportedDecision);
      }
    }

    method RecordVerification(ok: bool)
      modifies `verification
      ensures Record() == old(Record()).(verification := Verdict(ok))
    {
      verification := Verdict(ok);
    }

    method MarkDone()
      modifies `done
      ensures Record() == if old(node in done) then old(Record()) else old(Record()).(done := old(done) + [node])
    {
      if node !in done {
        done := done + [node];
      }
    }

    method ApplyVerification(spec: Spec, ok: bool, git: GitStatus, finishRecoverable: bool)
      returns (fault: Option<Fault>)
      modifies this
      ensures Yields(RunModel.ApplyVerification(spec, old(Record()), ok, git, finishRecoverable), fault)
    {
      RecordVerification(ok);
      if !ok {
        fault := ChargeFailure();
        return;
      }
      MarkDone();
      var next := NextNodeId(spec, node);
      if next.None? {
        fault := Some(UnknownNode(node));
      } else if next.value.None? {
        fault := TryToFinish(spec, git, finishRecoverable);
      } else {
        fault := TakeBranch(next.value.value);
      }
    }

    /** `_reset_recovery_tracking`. */
    method ResetRecoveryTracking()
      modifies `autoCount, `mismatches, `lastMismatch
      ensures Record() == old(Record()).(autoCount := 0, mismatches := 0, lastMismatch := "")
    {
      autoCount := 0;
      mismatches := 0;
      lastMismatch := "";
    }

    method ForgetPause()
      modifies `delivery, `escalations, `prePause
      ensures Record() == old(Record()).(delivery := Idle, escalations := [], prePause := None)
    {
      delivery := Idle;
      escalations := [];
      prePause := None;
    }

    method SetDelivery(d: DeliveryState)
      modifies `delivery
      ensures Record() == old(Record()).(delivery := d)
    {
      delivery := d;
    }

    /** The resume branch of `_do_resume` for a paused run. */
    method ResumePaused() returns (fault: Option<Fault>)
      requires top.PausedForHuman?
      modifies this
      ensures Yields(RunModel.ResumePaused(old(Record())), fault)
    {
      if prePause == Some(Attached) {
        fault := TransitionTopState(Attached);
        SetReInjects(0);
      } else {
        fault := TransitionTopState(Running);
      }
      ResetRecoveryTracking();
      ForgetPause();
    }

    /** `_apply_replay_resume`: written separately in the source, and the same step. */
    method ReplayResume() returns (fault: Option<Fault>)
      modifies this
      ensures Yields(RunModel.ReplayResume(old(Record())), fault)
    {
      fault := None;
      if !top.PausedForHuman? {
        return;
      }
      if prePause == Some(Attached) {
        fault := TransitionTopState(Attached);
        SetReInjects(0);
      } else {
        fault := TransitionTopState(Running);
      }
      ForgetPause();
      ResetRecoveryTracking();
    }

    /** `_recover_orphaned_runs` on one run. */
    method RecoverOrphan() returns (fault: Option<Fault>)
      modifies this
      ensures Yields(RunModel.RecoverOrphan(old(Record())), fault)
    {
      fault := None;
      if !IsOrphaned(top) {
        return;
      }
      fault := TransitionTopState(PausedForHuman);
      SetDelivery(Idle);
      AddEscalation(Escalation("recovery", false));
    }

    /** `_do_ack_review` on the loaded record. */
    method AckReview(spec: Spec, reviewer: string, git: GitStatus) returns (fault: Option<Fault>)
      modifies this
      ensures Yields(RunModel.AckReview(spec, old(Record()), reviewer, git), fault)
    {
      fault := None;
      if reviewer !in REVIEWERS {
        return;
      }
      reviews := reviews + {reviewer};
      var failures := FinishGate.Evaluate(spec, StandingOf(Record()), git);
      if failures.None? {
        fault := Some(GitError);
      } else if failures.value == [] && !IsFinal(top) {
        fault := TransitionTopState(Completed);
      }
    }

    method ClearMismatches()
      modifies `mismatches, `lastMismatch
      ensures Record() == old(Record()).(mismatches := 0, lastMismatch := "")
    {
      mismatches := 0;
      lastMismatch := "";
    }

    method ObserveSeq(n: nat)
      modifies `checkpointSeq
      ensures Record() == old(Record()).(checkpointSeq := n)
    {
      checkpointSeq := n;
    }

    method CountMismatch(id: string)
      modifies `mismatches, `lastMismatch
      ensures Record() == old(Record()).(mismatches := old(mismatches) + 1, lastMismatch := id)
    {
      mismatches := mismatches + 1;
      lastMismatch := id;
    }

    method CountIntervention()
      modifies `autoCount
      ensures Record() == old(Record()).(autoCount := old(autoCount) + 1)
    {
      autoCount := autoCount + 1;
    }

    method ClearPrePause()
      modifies `prePause
      ensures Record() == old(Record()).(prePause := None)
    {
      prePause := None;
    }

    /** The acceptance bookkeeping of the sidecar loop. */
    method Accept(cp: Checkpoint)
      modifies this
      ensures Record() == Accepted(old(Record()), cp)
    {
      ClearMismatches();
      if cp.seqNo > 0 {
        ObserveSeq(cp.seqNo);
      }
      if checkpointSeq > lastInjectionSeq && delivery != Idle && delivery != StartedProcessing {
        SetDelivery(StartedProcessing);
      }
      if ClaimsProgress(cp.status) {
        ResetRecoveryTracking();
      }
    }

    method SyncInjectionSeq()
      modifies `lastInjectionSeq
      ensures Record() == old(Record()).(lastInjectionSeq := checkpointSeq)
    {
      lastInjectionSeq := checkpointSeq;
    }

    method MarkInjected()
      modifies this
      ensures Record() == RunModel.MarkInjected(old(Record()))
    {
      lastNode := Some(node);
      lastAttempt := attempt;
      lastInjectionSeq := checkpointSeq;
    }
  }

  /** The sidecar loop over one run, with its state file and its session log. */
  class Sidecar {
    const cfg: Config
    const spec: Spec
    const state: SupervisorState
    var disk: RunState
    var phase: Phase
    var deferred: Option<(string, nat)>
    var log: seq<LogEvent>

    function View(): World
      reads this, state
    {
      World(state.Record(), disk, phase, deferred, log)
    }

    predicate Yields(o: WorldOutcome, control: Control, fault: Option<Fault>)
      reads this, state
    {
      && View() == o.state
      && fault == (if o.Raised? then Some(o.fault) else None)
      && (o.Done? ==> control == o.value)
    }

    constructor (cfg: Config, spec: Spec)
      requires spec.nodes != []
      ensures View() == Start(spec) && this.cfg == cfg && this.spec == spec && fresh(state)
    {
      this.cfg, this.spec := cfg, spec;
      state := new SupervisorState(spec);
      disk, phase, deferred, log := Fresh(spec), Booting, None, [];
    }

    method Save()
      modifies this
      ensures View() == RunModel.Save(old(View()))
    {
      disk := state.Record();
    }

    /** `_attempt_auto_intervention`: `Break` when it took the run over. */
    method AttemptAuto(recoverable: bool, env: AutoEnv) returns (control: Control, fault: Option<Fault>)
      modifies this, state
      ensures Yields(RunModel.AttemptAuto(cfg, spec, old(View()), recoverable, env), control, fault)
    {
      control, fault := Proceed, None;
      if !Plans(cfg, state.Record(), recoverable) {
        return;
      }
      if !Knows(spec, state.node) {
        fault := Some(UnknownNode(state.node));
        return;
      }
      if env.probe.Faulty? {
        fault := Some(SurfaceError);
        return;
      }
      if !env.probe.Clear? {
        state.SetDelivery(DeliveryFailed);
        return;
      }
      state.SetDelivery(Injected);
      if !env.sends {
        state.SetDelivery(DeliveryFailed);
        return;
      }
      state.SetDelivery(env.delivered);
      state.CountIntervention();
      fault := state.TransitionTopState(Running);
      if fault.None? {
        state.ClearPrePause();
        log := log + [AutoIntervened(state.node)];
        Save();
        control := Break;
      }
    }

    /** Enter recovery, try auto-intervention, otherwise pause: the shape every recovery site of
        the loop repeats. */
    method RecoverOrPause(recoverable: bool, env: AutoEnv) returns (control: Control, fault: Option<Fault>)
      modifies this, state
      ensures Yields(RunModel.RecoverOrPause(cfg, spec, old(View()), recoverable, env), control, fault)
    {
      control := Exit;
      fault := state.EnterRecovery("recovery");
      if fault.Some? {
        return;
      }
      control, fault := AttemptAuto(recoverable, env);
      if fault.Some? {
        return;
      }
      if control.Break? {
        Save();
        return;
      }
      fault := state.PauseForHuman(Escalation("recovery", recoverable));
      if fault.None? {
        Save();
        control := Exit;
      }
    }

    method PauseAndExit(d: DeliveryState) returns (control: Control, fault: Option<Fault>)
      modifies this, state
      ensures Yields(RunModel.PauseAndExit(old(View()), d), control, fault)
    {
      control := Exit;
      state.SetDelivery(d);
      fault := state.PauseForHuman(Escalation("recovery", false));
      if fault.None? {
        Save();
      }
    }

    /** `_inject_via_hook_handoff`. */
    method InjectViaHook(env: SendEnv) returns (control: Control, fault: Option<Fault>)
      modifies this, state
      ensures Yields(SendViaHook(old(View()), env), control, fault)
    {
      control, fault := Exit, None;
      state.SetDelivery(Injected);
      match env.handoff {
        case WriteFailed => control, fault := PauseAndExit(DeliveryFailed);
        case NoPoll => control, fault := PauseAndExit(DeliveryFailed);
        case Interrupted => Save();
        case Acked =>
          state.SetDelivery(Acknowledged);
          Save();
          control := Proceed;
        case PollErrors => control, fault := PauseAndExit(DeliveryFailed);
        case AckTimeout => control, fault := PauseAndExit(TimedOut);
      }
    }

    /** `_inject_or_pause`. */
    method InjectOrPause(env: SendEnv) returns (control: Control, fault: Option<Fault>)
      modifies this, state
      ensures Yields(RunModel.InjectOrPause(cfg, spec, old(View()), env), control, fault)
    {
      if cfg.observationOnly {
        control, fault := InjectViaHook(env);
        return;
      }
      if env.probe.Faulty? {
        return Proceed, Some(SurfaceError);
      }
      if !env.probe.Clear? || !env.sends {
        state.SetDelivery(DeliveryFailed);
        control, fault := RecoverOrPause(if env.probe.Clear? then true else env.busyRecoverable, env.auto);
        if control.Break? {
          control := Proceed;
        }
        return;
      }
      state.SetDelivery(env.delivered);
      control, fault := Proceed, None;
    }

    /** Mark, save, hand over. */
    method SaveAndSend(direct: bool, env: SendEnv) returns (control: Control, fault: Option<Fault>)
      modifies this, state
      ensures Yields(RunModel.SaveAndSend(cfg, spec, old(View()), direct, env), control, fault)
    {
      state.MarkInjected();
      Save();
      if env.dies {
        return Exit, None;
      }
      log := log + [if direct then Direct(state.node, state.attempt) else Prompt(state.node, state.attempt)];
      control, fault := InjectOrPause(env);
    }

    method MaybeIntervene(env: AutoEnv) returns (control: Control, fault: Option<Fault>)
      modifies this, state
      ensures Yields(RunModel.MaybeIntervene(cfg, spec, old(View()), env), control, fault)
    {
      control, fault := Proceed, None;
      if state.top.PausedForHuman? {
        control, fault := AttemptAuto(LatestRecoverable(state.Record()), env);
      }
    }

    method LogAndApply(d: Decision, env: Env) returns (fault: Option<Fault>)
      modifies this, state
      ensures var w := old(View());
              Yields(Lift(LogDecision(w, d), RunModel.ApplyDecision(spec, w.run, d, env.git, env.finishRecoverable)),
                  Proceed, fault)
    {
      if d.kind.Retry? {
        log := log + [RetryDecided(state.node)];
      }
      fault := state.ApplyDecision(spec, d, env.git, env.finishRecoverable);
    }

    /** Step 4 of the loop: apply the decision, intervene, re-inject. */
    method DecisionStage(d: Decision, env: Env) returns (control: Control, fault: Option<Fault>)
      modifies this, state
      ensures Yields(RunModel.DecisionStage(cfg, spec, old(View()), d, env), control, fault)
    {
      control := Proceed;
      fault := LogAndApply(d, env);
      if fault.None? && d.kind.EscalateToHuman? && env.notesRaise {
        fault := Some(NotesError);
      }
      if fault.Some? {
        return;
      }
      control, fault := MaybeIntervene(env.auto);
      if fault.Some? || control.Break? {
        return;
      }
      if d.kind.ReInject? && state.top.Attached? {
        if !Knows(spec, state.node) {
          fault := Some(UnknownNode(state.node));
          return;
        }
        control, fault := SaveAndSend(false, env.send);
        if !control.Exit? {
          control := Break;
        }
      }
    }

    /** Step 5: verify. */
    method VerifyStage(env: Env) returns (control: Control, fault: Option<Fault>)
      modifies this, state
      ensures Yields(RunModel.VerifyStage(cfg, spec, old(View()), env), control, fault)
    {
      control, fault := Proceed, None;
      if state.top != Verifying {
        return;
      }
      var ok := env.verifyOk && Knows(spec, state.node);
      log := log + [Verified(state.node, ok)];
      fault := state.ApplyVerification(spec, ok, env.git, env.finishRecoverable);
      if fault.None? {
        control, fault := MaybeIntervene(env.auto);
      }
    }

    /** Step 6: inject. */
    method InjectStage(d: Option<Decision>, env: Env) returns (control: Control, fault: Option<Fault>)
      modifies this, state
      ensures Yields(RunModel.InjectStage(cfg, spec, old(View()), d, env), control, fault)
    {
      control, fault := Proceed, None;
      if state.top != Running {
        return;
      }
      var nodeChanged := Some(state.node) != state.lastNode;
      var newRetry := state.attempt > 0 && state.attempt != state.lastAttempt;
      if !nodeChanged && !newRetry && !Guides(d) {
        return;
      }
      if !Knows(spec, state.node) {
        fault := Some(UnknownNode(state.node));
        return;
      }
      if Guides(d) {
        deferred := Some((state.node, state.attempt));
        return;
      }
      control, fault := SaveAndSend(true, env.send);
      control := if control.Exit? || state.top.PausedForHuman? then Exit else Break;
    }

    method WorkStages(d: Option<Decision>, env: Env) returns (control: Control, fault: Option<Fault>)
      modifies this, state
      ensures Yields(RunModel.WorkStages(cfg, spec, old(View()), d, env), control, fault)
    {
      control, fault := VerifyStage(env);
      if fault.None? && control.Proceed? {
        control, fault := InjectStage(d, env);
      }
    }

    method ProcessAccepted(cp: Checkpoint, env: Env) returns (control: Control, fault: Option<Fault>)
      modifies this, state
      ensures Yields(RunModel.ProcessAccepted(cfg, spec, old(View()), cp, env), control, fault)
    {
      control := Proceed;
      state.Accept(cp);
      if !env.recorded {
        fault := Some(RecordError);
        return;
      }
      fault := state.HandleEvent(AgentOutput(Some(cp)));
      if fault.None? {
        control, fault := GateAndWork(env);
      }
    }

    method GateAndWork(env: Env) returns (control: Control, fault: Option<Fault>)
      modifies this, state
      ensures Yields(RunModel.GateAndWork(cfg, spec, old(View()), env), control, fault)
    {
      control, fault := Proceed, None;
      if state.top.Gating? || state.top.Attached? {
        if !Knows(spec, state.node) {
          fault := Some(UnknownNode(state.node));
          return;
        }
        if JudgeFaults(GetNode(spec, state.node), state.Record(), env.gate) {
          fault := Some(JudgeError);
          return;
        }
        var d := Gate(GetNode(spec, state.node), state.top.Attached?, state.checkpoint, state.question, env.gate);
        control, fault := DecideAndWork(d, env);
      } else {
        control, fault := WorkStages(None, env);
      }
    }

    method DecideAndWork(d: Decision, env: Env) returns (control: Control, fault: Option<Fault>)
      modifies this, state
      ensures Yields(RunModel.DecideAndWork(cfg, spec, old(View()), d, env), control, fault)
    {
      control, fault := DecisionStage(d, env);
      if fault.None? && control.Proceed? {
        control, fault := WorkStages(Some(d), env);
      }
    }

    method ProcessStalled(env: Env) returns (control: Control, fault: Option<Fault>)
      modifies this, state
      ensures Yields(RunModel.ProcessStalled(cfg, spec, old(View()), env), control, fault)
    {
      control := Exit;
      fault := state.PauseForHuman(Escalation("recovery", false));
      if fault.None? {
        control, fault := AttemptAuto(false, env.auto);
        if fault.None? {
          Save();
          control := Exit;
        }
      }
    }

    method ProcessMismatch(cp: Checkpoint, env: Env) returns (control: Control, fault: Option<Fault>)
      modifies this, state
      ensures Yields(RunModel.ProcessMismatch(cfg, spec, old(View()), cp, env), control, fault)
    {
      control, fault := Proceed, None;
      state.CountMismatch(cp.node);
      Save();
      if state.mismatches >= MAX_NODE_MISMATCH {
        control, fault := RecoverOrPause(true, env.auto);
      }
    }

    /** One checkpoint of a batch: deduplication, node binding, mismatch recovery, the stages. */
    method ProcessCheckpoint(cp: Checkpoint, env: Env) returns (control: Control, fault: Option<Fault>)
      modifies this, state
      ensures Yields(RunModel.ProcessCheckpoint(cfg, spec, old(View()), cp, env), control, fault)
    {
      control, fault := Proceed, None;
      match Admit(cfg, state.Record(), cp) {
        case Skip =>
        case Stalled => control, fault := ProcessStalled(env);
        case Mismatch => control, fault := ProcessMismatch(cp, env);
        case Accept(bound) => control, fault := ProcessAccepted(bound, env);
      }
    }

    // ----- the other iterations of the loop ----------------------------------------------

    /** Before the loop: the crash-in-recovery fail-safe and the initial handoff. */
    method Boot(read: FirstRead, env: SendEnv) returns (control: Control, fault: Option<Fault>)
      modifies this, state
      ensures Yields(RunModel.Boot(cfg, spec, old(View()), read, env), control, fault)
    {
      control, fault := Proceed, None;
      if state.top == RecoveryNeeded {
        fault := state.PauseForHuman(Escalation("recovery", false));
        if fault.None? {
          Save();
          control := Exit;
        }
      } else if state.top == Ready {
        fault := state.TransitionTopState(Attached);
        Save();
        if read.ReadFails? {
          fault := Some(SurfaceError);
        } else if read.ReadUnparsable? {
          fault := Some(TextError);
        } else if read.CheckpointSeen? {
          state.MarkInjected();
        } else if !cfg.observationOnly {
          control, fault := InitialHandoff(env);
        }
      }
    }

    method InitialHandoff(env: SendEnv) returns (control: Control, fault: Option<Fault>)
      modifies this, state
      ensures Yields(if Knows(spec, old(state.node)) then RunModel.SaveAndSend(cfg, spec, old(View()), false, env)
                     else Raised(old(View()), UnknownNode(old(state.node))), control, fault)
    {
      control, fault := Proceed, None;
      if !Knows(spec, state.node) {
        fault := Some(UnknownNode(state.node));
      } else {
        control, fault := SaveAndSend(false, env);
      }
    }

    /** After the checkpoints of one read: the deferred continue instruction, then persist. */
    method EndBatch(env: SendEnv) returns (control: Control, fault: Option<Fault>)
      modifies this, state
      ensures Yields(RunModel.EndBatch(cfg, spec, old(View()), env), control, fault)
    {
      control, fault := Proceed, None;
      if && deferred.Some?
         && state.top == Running
         && phase == Batch(false)
         && deferred.value == (state.node, state.attempt)
      {
        control, fault := SaveAndSend(false, env);
        if fault.Some? || control.Exit? {
          return;
        }
      }
      Save();
      control := Proceed;
    }

    method DeliveryTimeout(env: AutoEnv) returns (control: Control, fault: Option<Fault>)
      modifies this, state
      ensures Yields(RunModel.DeliveryTimeout(cfg, spec, old(View()), env), control, fault)
    {
      state.SetDelivery(TimedOut);
      control, fault := RecoverOrPause(true, env);
      if fault.None? && control.Break? {
        state.SyncInjectionSeq();
        Save();
      }
    }

    method IdleTimeout(env: AutoEnv) returns (control: Control, fault: Option<Fault>)
      modifies this, state
      ensures Yields(RunModel.IdleTimeout(cfg, spec, old(View()), env), control, fault)
    {
      control := Proceed;
      fault := state.HandleEvent(Timeout);
      if fault.None? {
        control, fault := RecoverOrPause(true, env);
      }
    }
  }
}
