/** Where something outside the loop raises (the surface, text that cannot be parsed or recorded, the
    judge, the shared notes, git), and how each operation of the loop that meets it ends. */
module RunFaults {
  import opened Options
  import opened StateMachine
  import opened Plan
  import FinishGate
  import opened Gates
  import opened RunModel
  import opened RunSteps
  import RunFrames

  /** A run at a node its specification knows. */
  predicate Sound(spec: Spec, s: RunState) {
    Knows(spec, s.node)
  }

  /** The states a run rests in between two operations. */
  predicate EndState(t: TopState) {
    t in {Attached, Gating, Running, PausedForHuman, Completed}
  }

  predicate Steady(spec: Spec, s: RunState) {
    Sound(spec, s) && (s.top.Ready? || EndState(s.top))
  }

  // ----- where something outside raises --------------------------------------------------

  /** Nothing raises; something outside does; the surface does after the loop has entered recovery;
      git does in mid-verification. */
  datatype Trouble = Smooth | Faults(fault: Fault) | FaultsRecovering | FaultsVerifying

  function FaultOf(t: Trouble): Fault
    requires !t.Smooth?
  {
    match t
    case Faults(fault) => fault
    case FaultsRecovering => SurfaceError
    case FaultsVerifying => GitError
  }

  /** An intervention is planned and the probe before it raises. */
  predicate AutoFaults(cfg: Config, s: RunState, recoverable: bool, env: AutoEnv) {
    Plans(cfg, s, recoverable) && env.probe.Faulty?
  }

  function RecoveryTrouble(cfg: Config, s: RunState, recoverable: bool, env: AutoEnv): Trouble {
    if AutoFaults(cfg, s, recoverable, env) then FaultsRecovering else Smooth
  }

  function SendTrouble(cfg: Config, s: RunState, env: SendEnv): Trouble {
    if env.dies || cfg.observationOnly then Smooth
    else if env.probe.Faulty? then Faults(SurfaceError)
    else if env.probe.Unavailable? then RecoveryTrouble(cfg, s, env.busyRecoverable, env.auto)
    else if !env.sends then RecoveryTrouble(cfg, s, true, env.auto)
    else Smooth
  }

  function PauseTrouble(cfg: Config, s: RunState, env: AutoEnv): Trouble {
    if s.top.PausedForHuman? && AutoFaults(cfg, s, LatestRecoverable(s), env) then Faults(SurfaceError) else Smooth
  }

  /** `s` is the record after the decision. */
  function DecisionTrouble(cfg: Config, s: RunState, d: Decision, env: Env): Trouble {
    if NotesFault(d, env) then Faults(NotesError)
    else if d.kind.ReInject? && s.top.Attached? then SendTrouble(cfg, s, env.send) else PauseTrouble(cfg, s, env.auto)
  }

  function InjectTrouble(cfg: Config, s: RunState, d: Option<Decision>, env: Env): Trouble {
    if s.top.Running? && NeedsInstruction(s) && !Guides(d) then SendTrouble(cfg, s, env.send) else Smooth
  }

  /** A passing verification of the last node asks the finish gate, and git raises there. */
  predicate GitFaults(spec: Spec, s: RunState, env: Env) {
    env.verifyOk && NextNodeId(spec, s.node) == Some(None) && FinishGate.GitRaises(spec, env.git)
  }

  function WorkTrouble(cfg: Config, spec: Spec, s: RunState, d: Option<Decision>, env: Env): Trouble {
    if !s.top.Verifying? then InjectTrouble(cfg, s, d, env)
    else if GitFaults(spec, s, env) then FaultsVerifying
    else
      var t := ApplyVerification(spec, s, env.verifyOk && Knows(spec, s.node), env.git, env.finishRecoverable).state;
      if t.top.PausedForHuman? then PauseTrouble(cfg, t, env.auto) else InjectTrouble(cfg, t, d, env)
  }

  function DecideTrouble(cfg: Config, spec: Spec, s: RunState, d: Decision, env: Env): Trouble {
    var t := ApplyDecision(spec, s, d, env.git, env.finishRecoverable).state;
    if t.top.PausedForHuman? || t.top.Attached? then DecisionTrouble(cfg, t, d, env)
    else WorkTrouble(cfg, spec, t, Some(d), env)
  }

  function CheckpointTrouble(cfg: Config, spec: Spec, s: RunState, cp: Checkpoint, env: Env): Trouble {
    match Admit(cfg, s, cp)
    case Skip => Smooth
    case Stalled => Smooth
    case Mismatch =>
      if s.mismatches + 1 >= MAX_NODE_MISMATCH then RecoveryTrouble(cfg, s, true, env.auto) else Smooth
    case Accept(bound) =>
      if !env.recorded then Faults(RecordError) else ArrivedTrouble(cfg, spec, Arrived(s, bound), env)
  }

  function ArrivedTrouble(cfg: Config, spec: Spec, s: RunState, env: Env): Trouble {
    if !Knows(spec, s.node) then Smooth
    else if JudgeFaults(GetNode(spec, s.node), s, env.gate) then Faults(JudgeError)
    else
      var d := Gate(GetNode(spec, s.node), s.top.Attached?, s.checkpoint, s.question, env.gate);
      DecideTrouble(cfg, spec, s, d, env)
  }

  function BootTrouble(cfg: Config, s: RunState, read: FirstRead, env: SendEnv): Trouble {
    if !s.top.Ready? || read.CheckpointSeen? then Smooth
    else if read.ReadFails? then Faults(SurfaceError)
    else if read.ReadUnparsable? then Faults(TextError)
    else SendTrouble(cfg, s, env)
  }

  predicate SendsDeferred(w: World) {
    && w.deferred.Some? && w.run.top.Running? && w.phase == Batch(false)
    && w.deferred.value == (w.run.node, w.run.attempt)
  }

  /** A batch still records the checkpoints that reach it after the run has halted. */
  function HaltedTrouble(cfg: Config, s: RunState, cp: Checkpoint, env: Env): Trouble {
    if Admit(cfg, s, cp).Accept? && !env.recorded then Faults(RecordError) else Smooth
  }

  /** Where, if at all, an operation of the loop meets a fault: at the probe of an instruction it
      sends or of an intervention it plans, at the first read, in text it parses or records, in the
      judge it asks, in the notes it looks through, or in the finish gate's look at the repository. */
  function OpTrouble(cfg: Config, spec: Spec, w: World, op: Op): Trouble {
    match op
    case BootOp(read, send) => BootTrouble(cfg, w.run, read, send)
    case CheckpointOp(cp, env) =>
      if Halted(w.run) then HaltedTrouble(cfg, w.run, cp, env) else CheckpointTrouble(cfg, spec, w.run, cp, env)
    case EndBatchOp(send) => if SendsDeferred(w) then SendTrouble(cfg, w.run, send) else Smooth
    case DeliveryTimeoutOp(auto) => RecoveryTrouble(cfg, w.run, true, auto)
    case IdleTimeoutOp(auto) => RecoveryTrouble(cfg, w.run, true, auto)
    case RuntimeRetryOp(send) => SendTrouble(cfg, w.run, send)
    case UnparsableOp => Faults(TextError)
    case _ => Smooth
  }

  /** How an operation that meets `t` ends: raising exactly if it meets a fault, in recovery or in
      mid-verification exactly if that happens there, and otherwise in a state to rest in. */
  predicate EndsAs(spec: Spec, w: World, r: WorldOutcome, t: Trouble) {
    && Sound(spec, r.state.run) && r.state.phase == w.phase
    && (Steady(spec, w.disk) ==> Steady(spec, r.state.disk))
    && (r.Raised? <==> !t.Smooth?)
    && (r.Raised? ==> r.fault == FaultOf(t))
    && (match t
        case FaultsRecovering => r.state.run.top.RecoveryNeeded?
        case FaultsVerifying => r.state.run.top.Verifying?
        case _ => EndState(r.state.run.top))
  }

  // ----- operation by operation ----------------------------------------------------------

  lemma AutoEndsAs(cfg: Config, spec: Spec, w: World, recoverable: bool, env: AutoEnv)
    requires Sound(spec, w.run) && w.run.top in {PausedForHuman, RecoveryNeeded}
    ensures var r := AttemptAuto(cfg, spec, w, recoverable, env);
            && (r.Raised? <==> AutoFaults(cfg, w.run, recoverable, env))
            && (r.Raised? ==> r.fault == SurfaceError && r.state == w)
            && r.state.run.node == w.run.node && r.state.phase == w.phase
            && (r.Done? ==> if r.value.Break? then r.state.run.top.Running? && r.state.disk == r.state.run
                            else r.value.Proceed? && r.state.run.top == w.run.top && r.state.disk == w.disk)
  {
  }

  lemma RecoveryEndsAs(cfg: Config, spec: Spec, w: World, recoverable: bool, env: AutoEnv)
    requires Sound(spec, w.run) && w.run.top in {Attached, Running, Gating}
    ensures var r := RecoverOrPause(cfg, spec, w, recoverable, env);
            && EndsAs(spec, w, r, RecoveryTrouble(cfg, w.run, recoverable, env))
            && r.state.run.top in {Running, PausedForHuman, RecoveryNeeded}
            && (r.Done? ==> (r.value.Break? && r.state.run.top.Running?)
                            || (r.value.Exit? && r.state.run.top.PausedForHuman?))
  {
    var entered := EnterRecovery(w.run, "recovery");
    AutoEndsAs(cfg, spec, w.(run := entered.state), recoverable, env);
  }

  lemma PauseAndExitEndsAs(spec: Spec, w: World, d: DeliveryState)
    requires Sound(spec, w.run) && w.run.top in {Attached, Running, Gating}
    ensures EndsAs(spec, w, PauseAndExit(w, d), Smooth)
  {
  }

  lemma HookEndsAs(spec: Spec, w: World, env: SendEnv)
    requires Sound(spec, w.run) && w.run.top in {Attached, Running, Gating}
    ensures EndsAs(spec, w, SendViaHook(w, env), Smooth)
  {
    var w1 := SetDelivery(w, Injected);
    match env.handoff {
      case Interrupted =>
      case Acked =>
      case AckTimeout => PauseAndExitEndsAs(spec, w1, TimedOut);
      case _ => PauseAndExitEndsAs(spec, w1, DeliveryFailed);
    }
  }

  lemma InjectEndsAs(cfg: Config, spec: Spec, w: World, env: SendEnv)
    requires Sound(spec, w.run) && w.run.top in {Attached, Running, Gating} && !env.dies
    ensures EndsAs(spec, w, InjectOrPause(cfg, spec, w, env), SendTrouble(cfg, w.run, env))
  {
    if cfg.observationOnly {
      HookEndsAs(spec, w, env);
    } else if !env.probe.Faulty? {
      var recoverable := if env.probe.Clear? then true else env.busyRecoverable;
      RecoveryEndsAs(cfg, spec, SetDelivery(w, DeliveryFailed), recoverable, env.auto);
    }
  }

  lemma SendEndsAs(cfg: Config, spec: Spec, w: World, direct: bool, env: SendEnv)
    requires Sound(spec, w.run) && w.run.top in {Attached, Running, Gating}
    ensures EndsAs(spec, w, SaveAndSend(cfg, spec, w, direct, env), SendTrouble(cfg, w.run, env))
  {
    var w1 := Save(Marked(w));
    var e := if direct then Direct(w1.run.node, w1.run.attempt) else Prompt(w1.run.node, w1.run.attempt);
    if !env.dies {
      InjectEndsAs(cfg, spec, Log(w1, e), env);
    }
  }

  lemma PauseIsSafe(s: RunState, e: Escalation)
    requires s.top in {Attached, Running, Gating, Verifying} && e.pauseClass in PAUSE_CLASSES
    ensures var r := PauseForHuman(s, e); r.Done? && r.state.node == s.node && r.state.top.PausedForHuman?
  {
  }

  lemma ChargeIsSafe(s: RunState)
    requires s.top in {Attached, Gating, Verifying}
    ensures var r := ChargeFailure(s); r.Done? && r.state.node == s.node && r.state.top in {Running, PausedForHuman}
  {
  }

  lemma DecisionIsSafe(spec: Spec, s: RunState, d: Decision, git: FinishGate.GitStatus, fr: bool)
    requires WellFormed(spec) && Sound(spec, s) && MayDecide(spec, s, d)
    ensures var r := ApplyDecision(spec, s, d, git, fr);
            && r.Done? && Knows(spec, r.state.node)
            && r.state.top in {Running, Verifying, PausedForHuman, s.top}
            && (r.state.top in {Gating, Attached} ==> d.kind.ReInject?)
  {
    match d.kind {
      case Branch => BranchTargetIsKnown(spec, s, d);
      case Retry => ChargeIsSafe(s.(reInjects := 0));
      case EscalateToHuman => PauseIsSafe(s, Escalation(PauseClassOf(d.words), d.recoverable));
      case ReInject => PauseIsSafe(s.(reInjects := s.reInjects + 1), Escalation("recovery", false));
      case _ =>
    }
  }

  lemma BranchTargetIsKnown(spec: Spec, s: RunState, d: Decision)
    requires WellFormed(spec) && Sound(spec, s) && MayDecide(spec, s, d) && d.kind.Branch?
    ensures Knows(spec, d.nextNode)
  {
    var node := GetNode(spec, s.node);
    var o :| o in node.options && d.nextNode == o.next;
    assert node in spec.nodes && Knows(spec, o.next);
  }

  lemma FailedVerificationIsSafe(spec: Spec, s: RunState, git: FinishGate.GitStatus, fr: bool)
    requires s.top.Verifying?
    ensures var r := ApplyVerification(spec, s, false, git, fr);
            r.Done? && r.state.node == s.node && r.state.top in {Running, PausedForHuman}
  {
    ChargeIsSafe(s.(verification := FinishGate.Verdict(false)));
  }

  lemma PassedVerificationIsSafe(spec: Spec, s: RunState, git: FinishGate.GitStatus, fr: bool)
    requires WellFormed(spec) && Sound(spec, s) && s.top.Verifying?
    ensures var r := ApplyVerification(spec, s, true, git, fr);
            var raises := NextNodeId(spec, s.node) == Some(None) && FinishGate.GitRaises(spec, git);
            && (r.Raised? <==> raises) && Knows(spec, r.state.node)
            && (if raises then r.fault == GitError && r.state.top.Verifying?
                else r.state.top in {Running, PausedForHuman, Completed})
  {
    SuccessorIsKnown(spec, s.node);
    var s1 := s.(verification := FinishGate.Verdict(true));
    PauseIsSafe(if s1.node in s1.done then s1 else s1.(done := s1.done + [s1.node]), Escalation("review", fr));
  }

  lemma VerificationIsSafe(spec: Spec, s: RunState, ok: bool, git: FinishGate.GitStatus, fr: bool)
    requires WellFormed(spec) && Sound(spec, s) && s.top.Verifying?
    ensures var r := ApplyVerification(spec, s, ok, git, fr);
            var raises := ok && NextNodeId(spec, s.node) == Some(None) && FinishGate.GitRaises(spec, git);
            && (r.Raised? <==> raises) && Knows(spec, r.state.node)
            && (if raises then r.fault == GitError && r.state.top.Verifying?
                else r.state.top in {Running, PausedForHuman, Completed})
  {
    if ok {
      PassedVerificationIsSafe(spec, s, git, fr);
    } else {
      FailedVerificationIsSafe(spec, s, git, fr);
    }
  }

  lemma SuccessorIsKnown(spec: Spec, id: string)
    requires WellFormed(spec) && Knows(spec, id)
    ensures NextNodeId(spec, id).Some?
    ensures NextNodeId(spec, id).value.Some? ==> Knows(spec, NextNodeId(spec, id).value.value)
  {
    var at := FindNode(spec.nodes, id).value;
    assert spec.nodes[at] in spec.nodes;
  }

  lemma InterveneEndsAs(cfg: Config, spec: Spec, w: World, env: AutoEnv)
    requires Sound(spec, w.run)
    ensures var r := MaybeIntervene(cfg, spec, w, env);
            && (if w.run.top.PausedForHuman? then EndsAs(spec, w, r, PauseTrouble(cfg, w.run, env))
                else r == Done(w, Proceed))
            && (w.run.top.PausedForHuman? && r.Done? ==>
                  (r.value.Break? && r.state.run.top.Running?) || (r.value.Proceed? && r.state.run.top.PausedForHuman?))
  {
    if w.run.top.PausedForHuman? {
      AutoEndsAs(cfg, spec, w, LatestRecoverable(w.run), env);
    }
  }

  lemma InjectStageEndsAs(cfg: Config, spec: Spec, w: World, d: Option<Decision>, env: Env)
    requires Sound(spec, w.run) && EndState(w.run.top)
    ensures EndsAs(spec, w, InjectStage(cfg, spec, w, d, env), InjectTrouble(cfg, w.run, d, env))
  {
    if w.run.top.Running? {
      SendEndsAs(cfg, spec, w, true, env.send);
    }
  }

  lemma WorkEndsAs(cfg: Config, spec: Spec, w: World, d: Option<Decision>, env: Env)
    requires WellFormed(spec) && Sound(spec, w.run) && (EndState(w.run.top) || w.run.top.Verifying?)
    ensures EndsAs(spec, w, WorkStages(cfg, spec, w, d, env), WorkTrouble(cfg, spec, w.run, d, env))
  {
    if w.run.top.Verifying? {
      VerificationIsSafe(spec, w.run, env.verifyOk, env.git, env.finishRecoverable);
      if !GitFaults(spec, w.run, env) {
        var v := Checked(spec, w, env.verifyOk, env.git, env.finishRecoverable);
        InterveneEndsAs(cfg, spec, v, env.auto);
        InjectStageEndsAs(cfg, spec, MaybeIntervene(cfg, spec, v, env.auto).state, d, env);
      }
    } else {
      InjectStageEndsAs(cfg, spec, w, d, env);
    }
  }

  /** What follows a decision that was applied. */
  function Onwards(cfg: Config, spec: Spec, applied: World, d: Decision, env: Env): WorldOutcome {
    if NotesFault(d, env) then Raised(applied, NotesError)
    else
      var (w1, c1) :- AfterDecision(cfg, spec, applied, d, env);
      if !c1.Proceed? then Done(w1, c1) else WorkStages(cfg, spec, w1, Some(d), env)
  }

  lemma DecidedGoesOn(cfg: Config, spec: Spec, w: World, d: Decision, env: Env)
    requires ApplyDecision(spec, w.run, d, env.git, env.finishRecoverable).Done?
    ensures DecideAndWork(cfg, spec, w, d, env)
         == Onwards(cfg, spec, Decided(spec, w, d, env.git, env.finishRecoverable), d, env)
  {
  }

  lemma AttachedEndsAs(cfg: Config, spec: Spec, w: World, d: Decision, env: Env)
    requires Sound(spec, w.run) && w.run.top.Attached? && d.kind.ReInject?
    ensures EndsAs(spec, w, Onwards(cfg, spec, w, d, env), DecisionTrouble(cfg, w.run, d, env))
  {
    SendEndsAs(cfg, spec, w, false, env.send);
  }

  lemma PausedEndsAs(cfg: Config, spec: Spec, w: World, d: Decision, env: Env)
    requires WellFormed(spec) && Sound(spec, w.run) && w.run.top.PausedForHuman?
    ensures EndsAs(spec, w, Onwards(cfg, spec, w, d, env), DecisionTrouble(cfg, w.run, d, env))
  {
    if !NotesFault(d, env) {
      InterveneEndsAs(cfg, spec, w, env.auto);
      var r := MaybeIntervene(cfg, spec, w, env.auto);
      WorkEndsAs(cfg, spec, r.state, Some(d), env);
    }
  }

  lemma WorkingEndsAs(cfg: Config, spec: Spec, w: World, d: Decision, env: Env)
    requires WellFormed(spec) && Sound(spec, w.run) && !d.kind.EscalateToHuman?
    requires w.run.top in {Running, Verifying, Gating}
    ensures EndsAs(spec, w, Onwards(cfg, spec, w, d, env), WorkTrouble(cfg, spec, w.run, Some(d), env))
  {
    WorkEndsAs(cfg, spec, w, Some(d), env);
  }

  lemma EscalationsPause(spec: Spec, s: RunState, d: Decision, git: FinishGate.GitStatus, fr: bool)
    requires d.kind.EscalateToHuman? && (s.top.Gating? || s.top.Attached?)
    ensures ApplyDecision(spec, s, d, git, fr).state.top.PausedForHuman?
  {
    PauseIsSafe(s, Escalation(PauseClassOf(d.words), d.recoverable));
  }

  /** An operation that first changes the record and then ends as `r` ends as `r`. */
  lemma EndsAsBefore(spec: Spec, w: World, v: World, r: WorldOutcome, t: Trouble)
    requires EndsAs(spec, v, r, t) && v.phase == w.phase && v.disk == w.disk
    ensures EndsAs(spec, w, r, t)
  {
  }

  lemma DecideEndsAs(cfg: Config, spec: Spec, w: World, d: Decision, env: Env)
    requires WellFormed(spec) && Sound(spec, w.run) && MayDecide(spec, w.run, d)
    ensures EndsAs(spec, w, DecideAndWork(cfg, spec, w, d, env), DecideTrouble(cfg, spec, w.run, d, env))
  {
    DecisionIsSafe(spec, w.run, d, env.git, env.finishRecoverable);
    DecidedGoesOn(cfg, spec, w, d, env);
    var applied := Decided(spec, w, d, env.git, env.finishRecoverable);
    if d.kind.EscalateToHuman? {
      EscalationsPause(spec, w.run, d, env.git, env.finishRecoverable);
    }
    if applied.run.top.PausedForHuman? {
      PausedEndsAs(cfg, spec, applied, d, env);
    } else if applied.run.top.Attached? {
      AttachedEndsAs(cfg, spec, applied, d, env);
    } else {
      WorkingEndsAs(cfg, spec, applied, d, env);
    }
    EndsAsBefore(spec, w, applied, DecideAndWork(cfg, spec, w, d, env), DecideTrouble(cfg, spec, w.run, d, env));
  }

  lemma AcceptedEndsAs(cfg: Config, spec: Spec, w: World, cp: Checkpoint, env: Env)
    requires WellFormed(spec) && Sound(spec, w.run) && w.run.top in {Attached, Running, Gating}
    ensures EndsAs(spec, w, ProcessAccepted(cfg, spec, w, cp, env),
                   if !env.recorded then Faults(RecordError) else ArrivedTrouble(cfg, spec, Arrived(w.run, cp), env))
  {
    if env.recorded {
      RunFrames.ArrivalIsQuiet(w.run, cp);
      GatedEndsAs(cfg, spec, w.(run := Arrived(w.run, cp)), env);
    }
  }

  lemma GatedEndsAs(cfg: Config, spec: Spec, w1: World, env: Env)
    requires WellFormed(spec) && Sound(spec, w1.run) && w1.run.top in {Attached, Gating}
    ensures EndsAs(spec, w1, GateAndWork(cfg, spec, w1, env), ArrivedTrouble(cfg, spec, w1.run, env))
  {
    var node := GetNode(spec, w1.run.node);
    var d := Gate(node, w1.run.top.Attached?, w1.run.checkpoint, w1.run.question, env.gate);
    GateIsLegal(node, w1.run.top.Attached?, w1.run.checkpoint, w1.run.question, env.gate);
    if !JudgeFaults(node, w1.run, env.gate) {
      DecideEndsAs(cfg, spec, w1, d, env);
    }
  }

  lemma StalledEndsAs(cfg: Config, spec: Spec, w: World, env: Env)
    requires Sound(spec, w.run) && w.run.top in {Attached, Running, Gating}
    ensures EndsAs(spec, w, ProcessStalled(cfg, spec, w, env), Smooth)
  {
    AutoEndsAs(cfg, spec, w.(run := PauseForHuman(w.run, Escalation("recovery", false)).state), false, env.auto);
  }

  lemma MismatchEndsAs(cfg: Config, spec: Spec, w: World, cp: Checkpoint, env: Env)
    requires Sound(spec, w.run) && w.run.top in {Attached, Running, Gating}
    ensures EndsAs(spec, w, ProcessMismatch(cfg, spec, w, cp, env),
                   if w.run.mismatches + 1 >= MAX_NODE_MISMATCH then RecoveryTrouble(cfg, w.run, true, env.auto)
                   else Smooth)
  {
    var w1 := Save(w.(run := w.run.(mismatches := w.run.mismatches + 1, lastMismatch := cp.node)));
    if w1.run.mismatches >= MAX_NODE_MISMATCH {
      assert ProcessMismatch(cfg, spec, w, cp, env) == RecoverOrPause(cfg, spec, w1, true, env.auto);
      RecoveryEndsAs(cfg, spec, w1, true, env.auto);
    }
  }

  /** Whatever the checkpoint, the judge and the verifier do: from ATTACHED, RUNNING or GATING,
      the loop never requests a forbidden transition, an unsupported decision, an untagged pause
      or an unknown node. It raises exactly where something outside does, and otherwise ends in a
      state from which it can go on, or paused, or complete. */
  lemma CheckpointIsSafe(cfg: Config, spec: Spec, w: World, cp: Checkpoint, env: Env)
    requires WellFormed(spec) && Sound(spec, w.run) && w.run.top in {Attached, Running, Gating}
    ensures EndsAs(spec, w, ProcessCheckpoint(cfg, spec, w, cp, env), CheckpointTrouble(cfg, spec, w.run, cp, env))
  {
    match Admit(cfg, w.run, cp) {
      case Skip =>
      case Stalled => StalledEndsAs(cfg, spec, w, env);
      case Mismatch => MismatchEndsAs(cfg, spec, w, cp, env);
      case Accept(bound) =>
        RunFrames.ArrivalIsQuiet(w.run, bound);
        AcceptedEndsAs(cfg, spec, w, bound, env);
    }
  }

  lemma HaltedMismatch(cfg: Config, spec: Spec, w: World, cp: Checkpoint, env: Env)
    requires Halted(w.run)
    ensures var r := ProcessMismatch(cfg, spec, w, cp, env);
            && (r.Raised? <==> w.run.mismatches + 1 >= MAX_NODE_MISMATCH)
            && (r.Raised? ==> r.fault == InvalidTopStateTransition)
            && r.state.run.top == w.run.top
  {
  }

  lemma HaltedStall(cfg: Config, spec: Spec, w: World, env: Env)
    requires Halted(w.run)
    ensures var r := ProcessStalled(cfg, spec, w, env);
            && (r.Raised? <==> IsFinal(w.run.top))
            && (r.Raised? ==> r.fault == InvalidTopStateTransition)
            && r.state.run.top == w.run.top
  {
  }

  lemma HaltedAcceptance(cfg: Config, spec: Spec, w: World, cp: Checkpoint, env: Env)
    requires Halted(w.run)
    ensures var r := ProcessAccepted(cfg, spec, w, cp, env);
            && (r.Raised? <==> !env.recorded)
            && (r.Raised? ==> r.fault == RecordError)
            && r.state.run.top == w.run.top
  {
    RunFrames.ArrivalIsQuiet(w.run, cp);
  }

  /** The loop over a batch does not stop when the run pauses or completes. A later checkpoint of
      the same batch then raises, exactly if it is the fifth node mismatch in a row, if an
      observation-only surface reports a finished node of a finished run, or if it cannot be
      recorded. The state survives. */
  lemma HaltedBatchRaisesIff(cfg: Config, spec: Spec, w: World, cp: Checkpoint, env: Env)
    requires Halted(w.run)
    ensures var r := ProcessCheckpoint(cfg, spec, w, cp, env);
            var admitted := Admit(cfg, w.run, cp);
            && (r.Raised? <==> || (admitted.Mismatch? && w.run.mismatches + 1 >= MAX_NODE_MISMATCH)
                               || (admitted.Stalled? && IsFinal(w.run.top))
                               || (admitted.Accept? && !env.recorded))
            && (r.Raised? ==> r.fault == if admitted.Accept? then RecordError else InvalidTopStateTransition)
            && r.state.run.top == w.run.top
  {
    match Admit(cfg, w.run, cp) {
      case Skip =>
      case Stalled => HaltedStall(cfg, spec, w, env);
      case Mismatch => HaltedMismatch(cfg, spec, w, cp, env);
      case Accept(bound) => HaltedAcceptance(cfg, spec, w, bound, env);
    }
  }
}
