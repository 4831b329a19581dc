/** Every operation on a run is a composition of a few elementary steps. A property of runs that
    every elementary step keeps is therefore kept by every operation (`StepKeeps`) and holds
    throughout every run (`RunKeeps`). */
module RunSteps {
  import opened Options
  import opened StateMachine
  import opened Plan
  import opened FinishGate
  import opened Gates
  import opened RunModel

  datatype Elem =
    | Deliver(delivery: DeliveryState)
    | Miss(node: string)
    | Note(checkpoint: Checkpoint)
    | Take(checkpoint: Checkpoint, decision: Option<Decision>, git: GitStatus, finishRecoverable: bool)
    | Check(ok: bool, git: GitStatus, finishRecoverable: bool)
    | Pause(escalation: Escalation)
    | Recover
    | Intervene(delivery: DeliveryState, limit: int)
    | TimeOut
    | HandOff
    | Persist
    | Mark
    | SendDirect(dies: bool)
    | SendPrompt
    | SyncSeq
    | Defer(node: string, attempt: nat)
    | Enter(phase: Phase, deferred: Option<(string, nat)>)
    | Stop
    | Die
    | Orphan
    | Resume
    | Ack(reviewer: string, git: GitStatus)

  predicate OfDaemon(m: Elem) {
    m.Orphan? || m.Resume? || m.Ack?
  }

  /** The record after an accepted checkpoint has arrived, before any decision. */
  function Arrived(s: RunState, cp: Checkpoint): RunState {
    HandleEvent(Accepted(s, cp), AgentOutput(Some(cp))).state
  }

  /** A decision the gate may issue in this state. */
  predicate MayDecide(spec: Spec, s: RunState, d: Decision) {
    && (s.top.Gating? || s.top.Attached?)
    && Knows(spec, s.node)
    && Legal(GetNode(spec, s.node), s.top.Attached?, s.checkpoint, d)
  }

  function Decided(spec: Spec, w: World, d: Decision, git: GitStatus, fr: bool): World {
    LogDecision(w, d).(run := ApplyDecision(spec, w.run, d, git, fr).state)
  }

  /** Accept a checkpoint and apply the decision taken on it, if any. */
  function TakeCheckpoint(spec: Spec, w: World, cp: Checkpoint, d: Option<Decision>, git: GitStatus, fr: bool): World {
    var w1 := w.(run := Arrived(w.run, cp));
    if d.Some? && MayDecide(spec, w1.run, d.value) then Decided(spec, w1, d.value, git, fr) else w1
  }

  function Checked(spec: Spec, w: World, ok: bool, git: GitStatus, fr: bool): World {
    Log(w, Verified(w.run.node, ok)).(run := ApplyVerification(spec, w.run, ok, git, fr).state)
  }

  function Intervened(w: World, d: DeliveryState): World {
    var s := Transition(w.run.(delivery := d, autoCount := w.run.autoCount + 1), Running).state;
    Save(Log(w, AutoIntervened(w.run.node)).(run := s.(prePause := None)))
  }

  function Marked(w: World): World {
    w.(run := MarkInjected(w.run))
  }

  function Resumed(w: World): World {
    (if w.disk.top.PausedForHuman? then OnDisk(w, ResumePaused(w.disk)) else w.(run := w.disk)).(phase := Booting)
  }

  function Acknowledge(spec: Spec, w: World, reviewer: string, git: GitStatus): World {
    OnDisk(if reviewer in REVIEWERS then Log(w, ReviewAcked(reviewer)) else w, AckReview(spec, w.disk, reviewer, git))
  }

  /** Steps that only happen once the run has been handed over. */
  predicate NeedsHandOff(m: Elem) {
    m.Take? || m.Pause? || m.Recover? || m.TimeOut?
  }

  function DoElem(spec: Spec, w: World, m: Elem): World {
    if OfDaemon(m) != w.phase.Down? || (w.run.top.Ready? && NeedsHandOff(m)) then w
    else
      match m
      case Deliver(d) => SetDelivery(w, d)
      case Miss(node) => w.(run := w.run.(mismatches := w.run.mismatches + 1, lastMismatch := node))
      case Note(cp) => w.(run := Accepted(w.run, cp))
      case Take(cp, d, git, fr) => TakeCheckpoint(spec, w, cp, d, git, fr)
      case Check(ok, git, fr) => if w.run.top.Verifying? then Checked(spec, w, ok, git, fr) else w
      case Pause(e) => w.(run := PauseForHuman(w.run, e).state)
      case Recover => w.(run := EnterRecovery(w.run, "recovery").state)
      case Intervene(d, limit) =>
        if (w.run.top.PausedForHuman? || w.run.top.RecoveryNeeded?) && w.run.autoCount < limit then Intervened(w, d)
        else w
      case TimeOut => w.(run := HandleEvent(w.run, Timeout).state)
      case HandOff => if w.run.top.Ready? then w.(run := Transition(w.run, Attached).state) else w
      case Persist => Save(w)
      case Mark => Marked(w)
      case SendDirect(dies) =>
        if !(w.run.top.Running? && NeedsInstruction(w.run)) then w
        else if dies then Save(Marked(w))
        else Log(Save(Marked(w)), Direct(w.run.node, w.run.attempt))
      case SendPrompt => Log(w, Prompt(w.run.node, w.run.attempt))
      case SyncSeq => w.(run := w.run.(lastInjectionSeq := w.run.checkpointSeq))
      case Defer(node, attempt) => w.(deferred := Some((node, attempt)))
      case Enter(p, deferred) =>
        if p.Down? || p.Booting? || w.run.top.Ready? then w else w.(phase := p, deferred := deferred)
      case Stop => if w.run == w.disk then ShutDown(w) else w
      case Die => ShutDown(w)
      case Orphan => OnDisk(w, RecoverOrphan(w.disk))
      case Resume => if Resumable(w.disk.top) then Resumed(w) else w
      case Ack(reviewer, git) => Acknowledge(spec, w, reviewer, git)
  }

  predicate OfDaemonOp(op: Op) {
    op.OrphanOp? || op.ResumeOp? || op.AckOp?
  }

  predicate MayIntervene(cfg: Config) {
    cfg.autoEnabled && cfg.maxAuto > 0 && !cfg.observationOnly
  }

  predicate Works(env: AutoEnv) {
    env.probe.Clear? && env.sends
  }

  /** An intervention that is attempted in the operation may succeed: its probe is clear and it sends. */
  predicate Intervenes(op: Op) {
    match op
    case BootOp(_, send) => Works(send.auto)
    case CheckpointOp(_, env) => Works(env.auto) || Works(env.send.auto)
    case EndBatchOp(send) => Works(send.auto)
    case DeliveryTimeoutOp(auto) => Works(auto)
    case IdleTimeoutOp(auto) => Works(auto)
    case RuntimeRetryOp(send) => Works(send.auto)
    case _ => false
  }

  /** The checkpoint as the loop takes it up: an observation-only surface may have it bound to another node. */
  predicate Presents(shown: Checkpoint, cp: Checkpoint) {
    cp == shown.(node := cp.node)
  }

  /** Which elementary steps an operation may use. */
  predicate Performs(cfg: Config, op: Op, m: Elem) {
    match m
    case Take(cp, _, git, _) => op.CheckpointOp? && Presents(op.checkpoint, cp) && git == op.env.git
    case Note(cp) => op.CheckpointOp? && Presents(op.checkpoint, cp)
    case Check(ok, git, _) => op.CheckpointOp? && (ok ==> op.env.verifyOk) && git == op.env.git
    case Intervene(_, limit) => MayIntervene(cfg) && Intervenes(op) && limit == cfg.maxAuto
    case Die => op.CrashOp?
    case Orphan => op.OrphanOp?
    case Resume => op.ResumeOp?
    case Ack(r, g) => op == AckOp(r, g)
    case _ => !OfDaemonOp(op)
  }

  /** The setting in which elementary steps are composed. */
  datatype Setting = Setting(cfg: Config, spec: Spec, op: Op)

  type Property = World -> bool

  /** Every elementary step of the operation keeps the property. */
  ghost predicate Keeps(c: Setting, J: Property) {
    forall w, m :: J(w) && Performs(c.cfg, c.op, m) ==> J(DoElem(c.spec, w, m))
  }

  /** An intervention that succeeds is one that the operation may use. */
  predicate Allows(c: Setting, env: AutoEnv) {
    MayIntervene(c.cfg) && Works(env) ==> Intervenes(c.op)
  }

  /** What a checkpoint operation meets is what it says it meets. */
  predicate Meets(c: Setting, env: Env) {
    c.op.CheckpointOp? && c.op.env == env
  }

  /** So does every elementary step after the checkpoint, if there is one, has been taken up. */
  ghost predicate Later(c: Setting, J: Property) {
    forall w, m :: J(w) && Performs(c.cfg, c.op, m) && !m.Take? && !m.Note? ==> J(DoElem(c.spec, w, m))
  }

  lemma KeepsLater(c: Setting, J: Property)
    requires Keeps(c, J)
    ensures Later(c, J)
  {
  }

  ghost predicate Holds(c: Setting, J: Property, w: World) {
    Later(c, J) && J(w) && !w.phase.Down? && !OfDaemonOp(c.op)
  }

  // ----- elementary steps, one by one ----------------------------------------------------

  lemma KeepDeliver(c: Setting, J: Property, w: World, d: DeliveryState)
    requires Holds(c, J, w)
    ensures J(SetDelivery(w, d))
  {
    assert DoElem(c.spec, w, Deliver(d)) == SetDelivery(w, d);
  }

  lemma KeepPersist(c: Setting, J: Property, w: World)
    requires Holds(c, J, w)
    ensures J(Save(w))
  {
    assert DoElem(c.spec, w, Persist) == Save(w);
  }

  lemma KeepPause(c: Setting, J: Property, w: World, e: Escalation)
    requires Holds(c, J, w) && !w.run.top.Ready?
    ensures J(w.(run := PauseForHuman(w.run, e).state))
  {
    assert DoElem(c.spec, w, Pause(e)) == w.(run := PauseForHuman(w.run, e).state);
  }

  lemma KeepRecover(c: Setting, J: Property, w: World)
    requires Holds(c, J, w) && !w.run.top.Ready?
    ensures J(w.(run := EnterRecovery(w.run, "recovery").state))
  {
    assert DoElem(c.spec, w, Recover) == w.(run := EnterRecovery(w.run, "recovery").state);
  }

  lemma KeepIntervene(c: Setting, J: Property, w: World, d: DeliveryState)
    requires Holds(c, J, w) && MayIntervene(c.cfg) && Intervenes(c.op)
    requires (w.run.top.PausedForHuman? || w.run.top.RecoveryNeeded?) && w.run.autoCount < c.cfg.maxAuto
    ensures J(Intervened(w, d))
  {
    assert DoElem(c.spec, w, Intervene(d, c.cfg.maxAuto)) == Intervened(w, d);
  }

  lemma KeepMark(c: Setting, J: Property, w: World)
    requires Holds(c, J, w)
    ensures J(Marked(w))
  {
    assert DoElem(c.spec, w, Mark) == Marked(w);
  }

  lemma KeepDirect(c: Setting, J: Property, w: World, dies: bool)
    requires Holds(c, J, w) && w.run.top.Running? && NeedsInstruction(w.run)
    ensures J(if dies then Save(Marked(w)) else Log(Save(Marked(w)), Direct(w.run.node, w.run.attempt)))
  {
    assert DoElem(c.spec, w, SendDirect(dies))
        == if dies then Save(Marked(w)) else Log(Save(Marked(w)), Direct(w.run.node, w.run.attempt));
  }

  lemma KeepPrompt(c: Setting, J: Property, w: World)
    requires Holds(c, J, w)
    ensures J(Log(w, Prompt(w.run.node, w.run.attempt)))
  {
    assert DoElem(c.spec, w, SendPrompt) == Log(w, Prompt(w.run.node, w.run.attempt));
  }

  lemma KeepTake(c: Setting, J: Property, w: World, cp: Checkpoint, d: Option<Decision>, git: GitStatus, fr: bool)
    requires Keeps(c, J) && J(w) && !w.phase.Down? && !w.run.top.Ready?
    requires c.op.CheckpointOp? && Presents(c.op.checkpoint, cp) && git == c.op.env.git
    ensures J(TakeCheckpoint(c.spec, w, cp, d, git, fr))
  {
    assert DoElem(c.spec, w, Take(cp, d, git, fr)) == TakeCheckpoint(c.spec, w, cp, d, git, fr);
  }

  lemma KeepNote(c: Setting, J: Property, w: World, cp: Checkpoint)
    requires Keeps(c, J) && J(w) && !w.phase.Down? && c.op.CheckpointOp? && Presents(c.op.checkpoint, cp)
    ensures J(w.(run := Accepted(w.run, cp)))
  {
    assert DoElem(c.spec, w, Note(cp)) == w.(run := Accepted(w.run, cp));
  }

  lemma KeepCheck(c: Setting, J: Property, w: World, ok: bool, git: GitStatus, fr: bool)
    requires Holds(c, J, w) && c.op.CheckpointOp? && w.run.top.Verifying?
    requires (ok ==> c.op.env.verifyOk) && git == c.op.env.git
    ensures J(Checked(c.spec, w, ok, git, fr))
  {
    assert DoElem(c.spec, w, Check(ok, git, fr)) == Checked(c.spec, w, ok, git, fr);
  }

  lemma KeepMiss(c: Setting, J: Property, w: World, node: string)
    requires Holds(c, J, w)
    ensures J(w.(run := w.run.(mismatches := w.run.mismatches + 1, lastMismatch := node)))
  {
    assert DoElem(c.spec, w, Miss(node)) == w.(run := w.run.(mismatches := w.run.mismatches + 1, lastMismatch := node));
  }

  lemma KeepTimeOut(c: Setting, J: Property, w: World)
    requires Holds(c, J, w) && !w.run.top.Ready?
    ensures J(w.(run := HandleEvent(w.run, Timeout).state))
  {
    assert DoElem(c.spec, w, TimeOut) == w.(run := HandleEvent(w.run, Timeout).state);
  }

  lemma KeepHandOff(c: Setting, J: Property, w: World)
    requires Holds(c, J, w) && w.run.top.Ready?
    ensures J(w.(run := Transition(w.run, Attached).state))
  {
    assert DoElem(c.spec, w, HandOff) == w.(run := Transition(w.run, Attached).state);
  }

  lemma KeepSyncSeq(c: Setting, J: Property, w: World)
    requires Holds(c, J, w)
    ensures J(w.(run := w.run.(lastInjectionSeq := w.run.checkpointSeq)))
  {
    assert DoElem(c.spec, w, SyncSeq) == w.(run := w.run.(lastInjectionSeq := w.run.checkpointSeq));
  }

  lemma KeepDefer(c: Setting, J: Property, w: World, node: string, attempt: nat)
    requires Holds(c, J, w)
    ensures J(w.(deferred := Some((node, attempt))))
  {
    assert DoElem(c.spec, w, Defer(node, attempt)) == w.(deferred := Some((node, attempt)));
  }

  lemma KeepEnter(c: Setting, J: Property, w: World, p: Phase, deferred: Option<(string, nat)>)
    requires Holds(c, J, w) && !p.Down? && !p.Booting? && !w.run.top.Ready?
    ensures J(w.(phase := p, deferred := deferred))
  {
    assert DoElem(c.spec, w, Enter(p, deferred)) == w.(phase := p, deferred := deferred);
  }

  lemma KeepStop(c: Setting, J: Property, w: World)
    requires Holds(c, J, w) && Saved(w)
    ensures J(ShutDown(w))
  {
    assert DoElem(c.spec, w, Stop) == ShutDown(w);
  }

  // ----- the building blocks of the loop -------------------------------------------------

  /** The record on disk is the live one. */
  predicate Saved(w: World) {
    w.run == w.disk
  }

  predicate SamePhase(w: World, v: World) {
    w.phase == v.phase
  }

  lemma AutoKeeps(c: Setting, J: Property, w: World, recoverable: bool, env: AutoEnv)
    requires Allows(c, env) && Holds(c, J, w) && (w.run.top.PausedForHuman? || w.run.top.RecoveryNeeded?)
    ensures var r := AttemptAuto(c.cfg, c.spec, w, recoverable, env);
            && J(r.state) && SamePhase(w, r.state)
            && r.state.run.top in {w.run.top, Running}
            && (r.Done? ==> r.value in {Break, Proceed} && (r.value.Break? ==> r.state.run.top.Running?))
  {
    if Plans(c.cfg, w.run, recoverable) && Knows(c.spec, w.run.node) {
      if env.probe.Faulty? {
      } else if !env.probe.Clear? || !env.sends {
        KeepDeliver(c, J, w, DeliveryFailed);
      } else {
        KeepIntervene(c, J, w, env.delivered);
      }
    }
  }

  lemma PauseKeeps(c: Setting, J: Property, w: World, recoverable: bool)
    requires Holds(c, J, w) && !w.run.top.Ready?
    ensures var o := PauseForHuman(w.run, Escalation("recovery", recoverable));
            && J(w.(run := o.state)) && J(Save(w.(run := o.state)))
            && o.state.top in {w.run.top, PausedForHuman}
  {
    var e := Escalation("recovery", recoverable);
    KeepPause(c, J, w, e);
    KeepPersist(c, J, w.(run := PauseForHuman(w.run, e).state));
  }

  lemma RecoverKeeps(c: Setting, J: Property, w: World, recoverable: bool, env: AutoEnv)
    requires Allows(c, env) && Holds(c, J, w) && !w.run.top.Ready?
    ensures var r := RecoverOrPause(c.cfg, c.spec, w, recoverable, env);
            && J(r.state) && SamePhase(w, r.state)
            && r.state.run.top in {w.run.top, Running, PausedForHuman, RecoveryNeeded}
            && (r.Done? ==> (r.value.Break? && r.state.run.top.Running?) || (r.value.Exit? && Saved(r.state)))
  {
    KeepRecover(c, J, w);
    var entered := EnterRecovery(w.run, "recovery");
    if entered.Done? {
      var w1 := w.(run := entered.state);
      AutoKeeps(c, J, w1, recoverable, env);
      var tried := AttemptAuto(c.cfg, c.spec, w1, recoverable, env);
      if tried.Done? {
        if tried.value.Break? {
          KeepPersist(c, J, tried.state);
        } else {
          PauseKeeps(c, J, tried.state, recoverable);
        }
      }
    }
  }

  lemma PauseAndExitKeeps(c: Setting, J: Property, w: World, d: DeliveryState)
    requires Holds(c, J, w) && !w.run.top.Ready?
    ensures var r := PauseAndExit(w, d);
            && J(r.state) && SamePhase(w, r.state)
            && r.state.run.top in {w.run.top, PausedForHuman}
            && (r.Done? ==> r.value.Exit? && Saved(r.state))
  {
    KeepDeliver(c, J, w, d);
    PauseKeeps(c, J, SetDelivery(w, d), false);
  }

  /** What handing over an instruction can lead to. */
  ghost predicate SendsWell(J: Property, w: World, r: WorldOutcome) {
    && J(r.state) && SamePhase(w, r.state)
    && r.state.run.top in {w.run.top, Running, PausedForHuman, RecoveryNeeded}
    && (r.Done? ==> if r.value.Exit? then Saved(r.state)
                    else r.value.Proceed? && r.state.run.top in {w.run.top, Running})
  }

  lemma HookKeeps(c: Setting, J: Property, w: World, env: SendEnv)
    requires Holds(c, J, w) && !w.run.top.Ready?
    ensures SendsWell(J, w, SendViaHook(w, env))
  {
    KeepDeliver(c, J, w, Injected);
    var w1 := SetDelivery(w, Injected);
    match env.handoff {
      case Interrupted => KeepPersist(c, J, w1);
      case Acked =>
        KeepDeliver(c, J, w1, Acknowledged);
        KeepPersist(c, J, SetDelivery(w1, Acknowledged));
      case AckTimeout => PauseAndExitKeeps(c, J, w1, TimedOut);
      case _ => PauseAndExitKeeps(c, J, w1, DeliveryFailed);
    }
  }

  lemma InjectKeeps(c: Setting, J: Property, w: World, env: SendEnv)
    requires Allows(c, env.auto) && Holds(c, J, w) && !w.run.top.Ready?
    ensures SendsWell(J, w, InjectOrPause(c.cfg, c.spec, w, env))
  {
    if c.cfg.observationOnly {
      HookKeeps(c, J, w, env);
    } else if env.probe.Unavailable? || (env.probe.Clear? && !env.sends) {
      var recoverable := if env.probe.Clear? then true else env.busyRecoverable;
      KeepDeliver(c, J, w, DeliveryFailed);
      RecoverKeeps(c, J, SetDelivery(w, DeliveryFailed), recoverable, env.auto);
    } else if env.probe.Clear? {
      KeepDeliver(c, J, w, env.delivered);
    }
  }

  lemma SendKeeps(c: Setting, J: Property, w: World, direct: bool, env: SendEnv)
    requires Allows(c, env.auto) && Holds(c, J, w) && !w.run.top.Ready?
    requires direct ==> w.run.top.Running? && NeedsInstruction(w.run)
    ensures SendsWell(J, w, SaveAndSend(c.cfg, c.spec, w, direct, env))
  {
    var w1 := Save(Marked(w));
    if direct {
      KeepDirect(c, J, w, env.dies);
      if !env.dies {
        InjectKeeps(c, J, Log(w1, Direct(w.run.node, w.run.attempt)), env);
      }
    } else {
      KeepMark(c, J, w);
      KeepPersist(c, J, Marked(w));
      if !env.dies {
        KeepPrompt(c, J, w1);
        InjectKeeps(c, J, Log(w1, Prompt(w.run.node, w.run.attempt)), env);
      }
    }
  }

  // ----- one checkpoint ------------------------------------------------------------------

  /** What a stage of the loop body can lead to. */
  ghost predicate StageWell(J: Property, w: World, r: WorldOutcome) {
    && J(r.state) && SamePhase(w, r.state)
    && !r.state.run.top.Ready?
    && (r.Done? && r.value.Exit? ==> Saved(r.state))
  }

  lemma InterveneKeeps(c: Setting, J: Property, w: World, env: AutoEnv)
    requires Allows(c, env) && Holds(c, J, w) && !w.run.top.Ready?
    ensures StageWell(J, w, MaybeIntervene(c.cfg, c.spec, w, env))
    ensures var r := MaybeIntervene(c.cfg, c.spec, w, env); r.Done? ==> !r.value.Exit?
  {
    if w.run.top.PausedForHuman? {
      AutoKeeps(c, J, w, LatestRecoverable(w.run), env);
    }
  }

  lemma VerificationLeavesReady(spec: Spec, s: RunState, ok: bool, git: GitStatus, fr: bool)
    requires s.top.Verifying?
    ensures !ApplyVerification(spec, s, ok, git, fr).state.top.Ready?
  {
  }

  lemma DecisionsStayOutOfReady(spec: Spec, s: RunState, d: Decision, git: GitStatus, fr: bool)
    requires !s.top.Ready?
    ensures !ApplyDecision(spec, s, d, git, fr).state.top.Ready?
  {
  }

  lemma VerifyStageKeeps(c: Setting, J: Property, w: World, env: Env)
    requires Meets(c, env) && Holds(c, J, w) && !w.run.top.Ready?
    ensures StageWell(J, w, VerifyStage(c.cfg, c.spec, w, env))
    ensures var r := VerifyStage(c.cfg, c.spec, w, env); r.Done? ==> !r.value.Exit?
  {
    if w.run.top.Verifying? {
      var ok := env.verifyOk && Knows(c.spec, w.run.node);
      KeepCheck(c, J, w, ok, env.git, env.finishRecoverable);
      VerificationLeavesReady(c.spec, w.run, ok, env.git, env.finishRecoverable);
      if ApplyVerification(c.spec, w.run, ok, env.git, env.finishRecoverable).Done? {
        InterveneKeeps(c, J, Checked(c.spec, w, ok, env.git, env.finishRecoverable), env.auto);
      }
    }
  }

  lemma InjectStageKeeps(c: Setting, J: Property, w: World, d: Option<Decision>, env: Env)
    requires Meets(c, env) && Holds(c, J, w) && !w.run.top.Ready?
    ensures StageWell(J, w, InjectStage(c.cfg, c.spec, w, d, env))
  {
    if w.run.top.Running? && (NeedsInstruction(w.run) || Guides(d)) && Knows(c.spec, w.run.node) {
      if Guides(d) {
        KeepDefer(c, J, w, w.run.node, w.run.attempt);
      } else {
        SendKeeps(c, J, w, true, env.send);
      }
    }
  }

  lemma WorkKeeps(c: Setting, J: Property, w: World, d: Option<Decision>, env: Env)
    requires Meets(c, env) && Holds(c, J, w) && !w.run.top.Ready?
    ensures StageWell(J, w, WorkStages(c.cfg, c.spec, w, d, env))
  {
    VerifyStageKeeps(c, J, w, env);
    var r := VerifyStage(c.cfg, c.spec, w, env);
    if r.Done? && r.value.Proceed? {
      InjectStageKeeps(c, J, r.state, d, env);
    }
  }

  lemma DecisionStageKeeps(c: Setting, J: Property, w: World, d: Decision, env: Env)
    requires Meets(c, env) && Later(c, J) && !w.phase.Down? && !w.run.top.Ready?
    requires J(Decided(c.spec, w, d, env.git, env.finishRecoverable))
    ensures StageWell(J, w, DecisionStage(c.cfg, c.spec, w, d, env))
  {
    var applied := Decided(c.spec, w, d, env.git, env.finishRecoverable);
    DecisionsStayOutOfReady(c.spec, w.run, d, env.git, env.finishRecoverable);
    if ApplyDecision(c.spec, w.run, d, env.git, env.finishRecoverable).Done? && !NotesFault(d, env) {
      InterveneKeeps(c, J, applied, env.auto);
      var r := MaybeIntervene(c.cfg, c.spec, applied, env.auto);
      if && r.Done? && !r.value.Break? && d.kind.ReInject?
         && r.state.run.top.Attached? && Knows(c.spec, r.state.run.node) {
        SendKeeps(c, J, r.state, false, env.send);
      }
    }
  }

  lemma DecideAndWorkKeeps(c: Setting, J: Property, w: World, d: Decision, env: Env)
    requires Meets(c, env) && Later(c, J) && !w.phase.Down? && !w.run.top.Ready?
    requires J(Decided(c.spec, w, d, env.git, env.finishRecoverable))
    ensures StageWell(J, w, DecideAndWork(c.cfg, c.spec, w, d, env))
  {
    DecisionStageKeeps(c, J, w, d, env);
    var r := DecisionStage(c.cfg, c.spec, w, d, env);
    if r.Done? && r.value.Proceed? {
      WorkKeeps(c, J, r.state, Some(d), env);
    }
  }

  /** What the gate decides about the record. */
  function GateOf(spec: Spec, s: RunState, env: GateEnv): Decision
    requires Knows(spec, s.node)
  {
    Gate(GetNode(spec, s.node), s.top.Attached?, s.checkpoint, s.question, env)
  }

  /** The gate gets to decide about the record. */
  predicate Decides(spec: Spec, s: RunState, env: GateEnv) {
    (s.top.Gating? || s.top.Attached?) && Knows(spec, s.node) && !JudgeFaults(GetNode(spec, s.node), s, env)
  }

  lemma GateMayDecide(spec: Spec, s: RunState, env: GateEnv)
    requires Decides(spec, s, env)
    ensures MayDecide(spec, s, GateOf(spec, s, env))
  {
    GateIsLegal(GetNode(spec, s.node), s.top.Attached?, s.checkpoint, s.question, env);
  }

  /** A property of the record that a checkpoint leaves on arrival, and of the one that the decision
      on it leaves, is one of the checkpoint's outcome if the later steps keep it. */
  lemma ArrivedKeeps(c: Setting, J: Property, w: World, cp: Checkpoint, env: Env)
    requires Meets(c, env) && Later(c, J) && !w.phase.Down? && !w.run.top.Ready? && env.recorded
    requires J(w.(run := Arrived(w.run, cp)))
    requires var w1 := w.(run := Arrived(w.run, cp));
             Decides(c.spec, w1.run, env.gate) ==>
               J(Decided(c.spec, w1, GateOf(c.spec, w1.run, env.gate), env.git, env.finishRecoverable))
    ensures StageWell(J, w, ProcessAccepted(c.cfg, c.spec, w, cp, env))
  {
    var w1 := w.(run := Arrived(w.run, cp));
    if !(w1.run.top.Gating? || w1.run.top.Attached?) {
      WorkKeeps(c, J, w1, None, env);
    } else if Decides(c.spec, w1.run, env.gate) {
      DecideAndWorkKeeps(c, J, w1, GateOf(c.spec, w1.run, env.gate), env);
    }
  }

  lemma TakenKeeps(c: Setting, J: Property, w: World, cp: Checkpoint, env: Env)
    requires Meets(c, env) && Keeps(c, J) && J(w) && !w.phase.Down? && !w.run.top.Ready?
    requires env.recorded && Presents(c.op.checkpoint, cp)
    ensures StageWell(J, w, ProcessAccepted(c.cfg, c.spec, w, cp, env))
  {
    var w1 := w.(run := Arrived(w.run, cp));
    KeepTake(c, J, w, cp, None, env.git, env.finishRecoverable);
    if Decides(c.spec, w1.run, env.gate) {
      GateMayDecide(c.spec, w1.run, env.gate);
      KeepTake(c, J, w, cp, Some(GateOf(c.spec, w1.run, env.gate)), env.git, env.finishRecoverable);
    }
    ArrivedKeeps(c, J, w, cp, env);
  }

  lemma AcceptedKeeps(c: Setting, J: Property, w: World, cp: Checkpoint, env: Env)
    requires Meets(c, env) && Keeps(c, J) && J(w) && !w.phase.Down? && !w.run.top.Ready?
    requires Presents(c.op.checkpoint, cp)
    ensures StageWell(J, w, ProcessAccepted(c.cfg, c.spec, w, cp, env))
  {
    if !env.recorded {
      KeepNote(c, J, w, cp);
    } else {
      TakenKeeps(c, J, w, cp, env);
    }
  }

  lemma MismatchKeeps(c: Setting, J: Property, w: World, cp: Checkpoint, env: Env)
    requires Allows(c, env.auto) && Holds(c, J, w) && !w.run.top.Ready?
    ensures StageWell(J, w, ProcessMismatch(c.cfg, c.spec, w, cp, env))
  {
    var w1 := w.(run := w.run.(mismatches := w.run.mismatches + 1, lastMismatch := cp.node));
    KeepMiss(c, J, w, cp.node);
    KeepPersist(c, J, w1);
    if w1.run.mismatches >= MAX_NODE_MISMATCH {
      RecoverKeeps(c, J, Save(w1), true, env.auto);
    }
  }

  lemma StalledKeeps(c: Setting, J: Property, w: World, env: Env)
    requires Allows(c, env.auto) && Holds(c, J, w) && !w.run.top.Ready?
    ensures StageWell(J, w, ProcessStalled(c.cfg, c.spec, w, env))
  {
    PauseKeeps(c, J, w, false);
    var paused := PauseForHuman(w.run, Escalation("recovery", false));
    if paused.Done? {
      AutoKeeps(c, J, w.(run := paused.state), false, env.auto);
    }
  }

  lemma CheckpointKeeps(c: Setting, J: Property, w: World)
    requires Keeps(c, J) && J(w) && !w.phase.Down? && !w.run.top.Ready? && c.op.CheckpointOp?
    ensures StageWell(J, w, ProcessCheckpoint(c.cfg, c.spec, w, c.op.checkpoint, c.op.env))
  {
    var cp, env := c.op.checkpoint, c.op.env;
    match Admit(c.cfg, w.run, cp) {
      case Skip =>
      case Stalled => StalledKeeps(c, J, w, env);
      case Mismatch => MismatchKeeps(c, J, w, cp, env);
      case Accept(bound) => AcceptedKeeps(c, J, w, bound, env);
    }
  }

  /** Past boot, the run is no longer waiting to be handed over. */
  predicate HandedOver(w: World) {
    w.phase.Polling? || w.phase.Batch? ==> !w.run.top.Ready?
  }

  lemma SettleKeeps(c: Setting, J: Property, w: World, o: WorldOutcome, inBatch: bool)
    requires Later(c, J) && !OfDaemonOp(c.op) && !w.phase.Down?
    requires J(o.state) && SamePhase(w, o.state) && (o.Done? ==> !o.state.run.top.Ready?)
    requires o.Done? && (o.value.Exit? || (o.value.Proceed? && !inBatch && Halted(o.state.run))) ==> Saved(o.state)
    ensures J(Settle(o, inBatch))
  {
    var v := o.state;
    if o.Raised? {
      KeepPersist(c, J, v);
      KeepStop(c, J, Save(v));
    } else if o.value.Exit? || (o.value.Proceed? && !inBatch && Halted(v.run)) {
      KeepStop(c, J, v);
    } else {
      KeepEnter(c, J, v, Settle(o, inBatch).phase, Settle(o, inBatch).deferred);
    }
  }

  /** A checkpoint that is not taken up leads to later steps only. */
  lemma UntakenKeeps(c: Setting, J: Property, w: World)
    requires Later(c, J) && J(w) && HandedOver(w) && Enabled(w, c.op) && c.op.CheckpointOp?
    requires !Admit(c.cfg, w.run, c.op.checkpoint).Accept?
    ensures J(Step(c.cfg, c.spec, w, c.op))
  {
    var cp, env := c.op.checkpoint, c.op.env;
    match Admit(c.cfg, w.run, cp) {
      case Skip =>
      case Stalled => StalledKeeps(c, J, w, env);
      case Mismatch => MismatchKeeps(c, J, w, cp, env);
    }
    SettleKeeps(c, J, w, ProcessCheckpoint(c.cfg, c.spec, w, cp, env), true);
  }

  /** One that is taken up arrives, is decided on, and then leads to later steps. */
  lemma TakenUpKeeps(c: Setting, J: Property, w: World, cp: Checkpoint)
    requires Later(c, J) && HandedOver(w) && Enabled(w, c.op) && c.op.CheckpointOp?
    requires Admit(c.cfg, w.run, c.op.checkpoint) == Accept(cp)
    requires if !c.op.env.recorded then J(w.(run := Accepted(w.run, cp)))
             else var w1 := w.(run := Arrived(w.run, cp));
                  && J(w1)
                  && (Decides(c.spec, w1.run, c.op.env.gate) ==>
                        J(Decided(c.spec, w1, GateOf(c.spec, w1.run, c.op.env.gate), c.op.env.git,
                                  c.op.env.finishRecoverable)))
    ensures J(Step(c.cfg, c.spec, w, c.op))
  {
    if c.op.env.recorded {
      ArrivedKeeps(c, J, w, cp, c.op.env);
    }
    SettleKeeps(c, J, w, ProcessCheckpoint(c.cfg, c.spec, w, c.op.checkpoint, c.op.env), true);
  }

  // ----- the other operations ------------------------------------------------------------

  lemma BootKeeps(c: Setting, J: Property, w: World, read: FirstRead, env: SendEnv)
    requires Allows(c, env.auto) && Holds(c, J, w) && !Halted(w.run)
    ensures var r := Boot(c.cfg, c.spec, w, read, env);
            && J(r.state) && SamePhase(w, r.state)
            && (r.Done? ==> !r.state.run.top.Ready?
                            && (r.value.Exit? || (r.value.Proceed? && Halted(r.state.run)) ==> Saved(r.state)))
  {
    if w.run.top.RecoveryNeeded? {
      PauseKeeps(c, J, w, false);
    } else if w.run.top.Ready? {
      KeepHandOff(c, J, w);
      var w1 := w.(run := Transition(w.run, Attached).state);
      KeepPersist(c, J, w1);
      var w2 := Save(w1);
      if read.ReadFails? || read.ReadUnparsable? {
      } else if read.CheckpointSeen? {
        KeepMark(c, J, w2);
      } else if !c.cfg.observationOnly && Knows(c.spec, w2.run.node) {
        SendKeeps(c, J, w2, false, env);
      }
    }
  }

  lemma EndBatchKeeps(c: Setting, J: Property, w: World, env: SendEnv)
    requires Allows(c, env.auto) && Holds(c, J, w) && !w.run.top.Ready?
    ensures var r := EndBatch(c.cfg, c.spec, w, env);
            && StageWell(J, w, r)
            && (r.Done? ==> Saved(r.state))
  {
    KeepPersist(c, J, w);
    SendKeeps(c, J, w, false, env);
    var r := SaveAndSend(c.cfg, c.spec, w, false, env);
    if r.Done? {
      KeepPersist(c, J, r.state);
    }
  }

  lemma TimeoutsKeep(c: Setting, J: Property, w: World, env: AutoEnv)
    requires Allows(c, env) && Holds(c, J, w) && !w.run.top.Ready?
    ensures var r := DeliveryTimeout(c.cfg, c.spec, w, env);
            StageWell(J, w, r) && (r.Done? ==> !r.value.Proceed?)
    ensures var r := IdleTimeout(c.cfg, c.spec, w, env);
            StageWell(J, w, r) && (r.Done? ==> !r.value.Proceed?)
  {
    KeepDeliver(c, J, w, TimedOut);
    RecoverKeeps(c, J, SetDelivery(w, TimedOut), true, env);
    var r := RecoverOrPause(c.cfg, c.spec, SetDelivery(w, TimedOut), true, env);
    if r.Done? && r.value.Break? {
      KeepSyncSeq(c, J, r.state);
      KeepPersist(c, J, r.state.(run := r.state.run.(lastInjectionSeq := r.state.run.checkpointSeq)));
    }
    KeepTimeOut(c, J, w);
    RecoverKeeps(c, J, w.(run := HandleEvent(w.run, Timeout).state), true, env);
  }

  // ----- every operation and every run ---------------------------------------------------

  /** A property kept by the elementary steps of an operation is kept by the operation. */
  lemma StepKeeps(c: Setting, J: Property, w: World)
    requires Keeps(c, J) && J(w) && HandedOver(w)
    ensures J(Step(c.cfg, c.spec, w, c.op))
  {
    if Enabled(w, c.op) {
      if OfDaemonOp(c.op) {
        DaemonKeeps(c, J, w);
      } else {
        LoopKeeps(c, J, w);
      }
    }
  }

  /** What a daemon operation does is one elementary step. */
  function DaemonElem(op: Op): Elem
    requires OfDaemonOp(op)
  {
    match op
    case OrphanOp => Orphan
    case ResumeOp => Resume
    case AckOp(r, git) => Ack(r, git)
  }

  lemma OrphanIsElem(cfg: Config, spec: Spec, w: World)
    requires w.phase.Down?
    ensures DoElem(spec, w, Orphan) == Apply(cfg, spec, w, OrphanOp)
  {
  }

  lemma ResumeIsElem(cfg: Config, spec: Spec, w: World)
    requires w.phase.Down? && Resumable(w.disk.top)
    ensures DoElem(spec, w, Resume) == Apply(cfg, spec, w, ResumeOp)
  {
  }

  lemma AckIsElem(cfg: Config, spec: Spec, w: World, reviewer: string, git: GitStatus)
    requires w.phase.Down?
    ensures DoElem(spec, w, Ack(reviewer, git)) == Apply(cfg, spec, w, AckOp(reviewer, git))
  {
  }

  lemma DaemonOpIsElem(cfg: Config, spec: Spec, w: World, op: Op)
    requires Enabled(w, op) && OfDaemonOp(op)
    ensures DoElem(spec, w, DaemonElem(op)) == Apply(cfg, spec, w, op)
  {
    match op {
      case OrphanOp => OrphanIsElem(cfg, spec, w);
      case ResumeOp => ResumeIsElem(cfg, spec, w);
      case AckOp(reviewer, git) => AckIsElem(cfg, spec, w, reviewer, git);
    }
  }

  lemma DaemonKeeps(c: Setting, J: Property, w: World)
    requires Keeps(c, J) && J(w) && Enabled(w, c.op) && OfDaemonOp(c.op)
    ensures J(Apply(c.cfg, c.spec, w, c.op))
  {
    DaemonOpIsElem(c.cfg, c.spec, w, c.op);
    assert Performs(c.cfg, c.op, DaemonElem(c.op));
  }

  lemma LoopKeeps(c: Setting, J: Property, w: World)
    requires Keeps(c, J) && J(w) && !OfDaemonOp(c.op) && Enabled(w, c.op) && HandedOver(w)
    ensures J(Apply(c.cfg, c.spec, w, c.op))
  {
    match c.op {
      case BootOp(read, send) =>
        BootKeeps(c, J, w, read, send);
        SettleKeeps(c, J, w, Boot(c.cfg, c.spec, w, read, send), false);
      case CheckpointOp(cp, env) =>
        CheckpointKeeps(c, J, w);
        SettleKeeps(c, J, w, ProcessCheckpoint(c.cfg, c.spec, w, cp, env), true);
      case EndBatchOp(send) =>
        EndBatchKeeps(c, J, w, send);
        SettleKeeps(c, J, w, EndBatch(c.cfg, c.spec, w, send), false);
      case RuntimeRetryOp(send) =>
        SendKeeps(c, J, w, false, send);
        SettleKeeps(c, J, w, SaveAndSend(c.cfg, c.spec, w, false, send), false);
      case DeliveryTimeoutOp(auto) =>
        TimeoutsKeep(c, J, w, auto);
        SettleKeeps(c, J, w, DeliveryTimeout(c.cfg, c.spec, w, auto), false);
      case IdleTimeoutOp(auto) =>
        TimeoutsKeep(c, J, w, auto);
        SettleKeeps(c, J, w, IdleTimeout(c.cfg, c.spec, w, auto), false);
      case UnparsableOp => SettleKeeps(c, J, w, Raised(w, TextError), false);
      case InterruptOp =>
        KeepPersist(c, J, w);
        KeepStop(c, J, Save(w));
      case CrashOp => assert DoElem(c.spec, w, Die) == ShutDown(w);
    }
  }

  lemma HandedOverIsKept(c: Setting)
    ensures Keeps(c, (w: World) => HandedOver(w))
  {
    forall w, m | HandedOver(w) && Performs(c.cfg, c.op, m)
      ensures HandedOver(DoElem(c.spec, w, m))
    {
      ElemKeepsHandedOver(c.spec, w, m);
    }
  }

  lemma ElemKeepsHandedOver(spec: Spec, w: World, m: Elem)
    requires HandedOver(w)
    ensures HandedOver(DoElem(spec, w, m))
  {
    if !w.phase.Down? {
      match m {
        case Take(cp, d, git, fr) =>
          if d.Some? && !w.run.top.Ready? {
            DecisionsStayOutOfReady(spec, Arrived(w.run, cp), d.value, git, fr);
          }
        case Check(ok, git, fr) =>
          if w.run.top.Verifying? {
            VerificationLeavesReady(spec, w.run, ok, git, fr);
          }
        case _ => OthersKeepHandedOver(spec, w, m);
      }
    }
  }

  lemma OthersKeepHandedOver(spec: Spec, w: World, m: Elem)
    requires HandedOver(w) && !m.Take? && !m.Check?
    ensures HandedOver(DoElem(spec, w, m))
  {
  }

  /** A property that holds at the start and is kept by the elementary steps of every operation
      of a path holds all along it. */
  lemma {:induction false} PathKeeps(cfg: Config, spec: Spec, ops: seq<Op>, ws: seq<World>, J: Property, n: nat)
    requires IsPath(cfg, spec, ops, ws) && n < |ws| && J(ws[0]) && HandedOver(ws[0])
    requires forall op :: op in ops ==> Keeps(Setting(cfg, spec, op), J)
    ensures J(ws[n]) && HandedOver(ws[n])
  {
    if n > 0 {
      PathKeeps(cfg, spec, ops, ws, J, n - 1);
      var c := Setting(cfg, spec, ops[n - 1]);
      assert ops[n - 1] in ops;
      StepKeeps(c, J, ws[n - 1]);
      HandedOverIsKept(c);
      StepKeeps(c, (w: World) => HandedOver(w), ws[n - 1]);
      assert ws[n] == Step(cfg, spec, ws[n - 1], ops[n - 1]);
    }
  }

  /** So a property of a fresh run that every operation keeps holds in every world of the run. */
  lemma RunKeeps(cfg: Config, spec: Spec, ops: seq<Op>, ws: seq<World>, J: Property, w: World)
    requires IsRun(cfg, spec, ops, ws) && w in ws && J(Start(spec))
    requires forall op :: op in ops ==> Keeps(Setting(cfg, spec, op), J)
    ensures J(w) && HandedOver(w)
  {
    var n :| 0 <= n < |ws| && ws[n] == w;
    PathKeeps(cfg, spec, ops, ws, J, n);
  }

  lemma RunIsHandedOver(cfg: Config, spec: Spec, ops: seq<Op>, ws: seq<World>, i: nat)
    requires IsRun(cfg, spec, ops, ws) && i < |ws|
    ensures HandedOver(ws[i])
  {
    var J := (v: World) => true;
    PathKeeps(cfg, spec, ops, ws, J, i);
  }
}
