/** The supervised run as a state machine on values: every operation of the sidecar loop and of
    the daemon as a function from record to record. `SupervisorLoop.dfy` proves that the imperative
    operations compute these functions; the theorems about whole runs are stated on them. */
module RunModel {
  import opened Options
  import opened StateMachine
  import opened Plan
  import opened Gates
  import opened FinishGate

  datatype DeliveryState = Idle | Injected | Submitted | Acknowledged | StartedProcessing | DeliveryFailed | TimedOut

  /** `recoverable`: the pause reason is one that auto-intervention recognises. */
  datatype Escalation = Escalation(pauseClass: string, recoverable: bool)

  const PAUSE_CLASSES: set<string> := {"business", "safety", "review", "recovery"}
  const REVIEWERS: set<string> := {"human", "stronger_reviewer"}
  const MAX_RE_INJECTS: nat := 3
  const MAX_NODE_MISMATCH: nat := 5

  /** The persisted record of a run. `lastActive` is a history variable: the last state entered
      in which the supervisor was working. */
  datatype RunState = RunState(
    top: TopState,
    lastActive: TopState,
    node: string,
    attempt: nat,
    done: seq<string>,
    perNode: int,
    globalLimit: int,
    usedGlobal: nat,
    checkpoint: Option<Checkpoint>,
    question: TextClass,
    verification: Verification,
    reviews: set<string>,
    lastNode: Option<string>,
    lastAttempt: int,
    lastInjectionSeq: nat,
    delivery: DeliveryState,
    checkpointSeq: nat,
    autoCount: nat,
    mismatches: nat,
    lastMismatch: string,
    reInjects: nat,
    prePause: Option<TopState>,
    escalations: seq<Escalation>)

  function Fresh(spec: Spec): RunState
    requires spec.nodes != []
  {
    RunState(Ready, Ready, spec.nodes[0].id, 0, [], spec.perNode, spec.globalLimit, 0, None, NoClass, Pending, {},
             None, -1, 0, Idle, 0, 0, 0, "", 0, None, [])
  }

  function StandingOf(s: RunState): Standing {
    Standing(s.node, s.done, s.verification, if s.checkpoint.Some? then s.checkpoint.value.evidence else [], s.reviews)
  }

  predicate FinishOk(spec: Spec, s: RunState, git: GitStatus) {
    !GitRaises(spec, git) && Accepts(spec, StandingOf(s), git)
  }

  // ----- transitions, pauses, recovery ---------------------------------------------------

  type RunOutcome = Outcome<RunState, ()>

  function Transition(s: RunState, to: TopState): RunOutcome {
    if !CanTransition(s.top, to) then Raised(s, InvalidTopStateTransition)
    else Done(s.(top := to, lastActive := if IsActive(to) then to else s.lastActive), ())
  }

  function CapturePrePause(s: RunState): RunState {
    if s.prePause.None? then s.(prePause := Some(s.top)) else s
  }

  function PauseForHuman(s: RunState, e: Escalation): RunOutcome {
    if e.pauseClass !in PAUSE_CLASSES then Raised(s, UntaggedPause)
    else
      var (s1, _) :- Transition(CapturePrePause(s), PausedForHuman);
      Done(s1.(escalations := s1.escalations + [e]), ())
  }

  function EnterRecovery(s: RunState, pauseClass: string): RunOutcome {
    if pauseClass != "recovery" then Raised(s, UntaggedPause)
    else Transition(CapturePrePause(s), RecoveryNeeded)
  }

  // ----- events, decisions, verification -------------------------------------------------

  datatype Event = AgentOutput(checkpoint: Option<Checkpoint>) | AgentAsk(question: TextClass) | AgentStop | Timeout

  predicate PreservesState(t: TopState) {
    t in {Attached, Verifying, RecoveryNeeded, PausedForHuman, Completed, Failed, Aborted}
  }

  function HandleEvent(s: RunState, ev: Event): RunOutcome {
    var s1 := s.(question := if ev.AgentAsk? then ev.question else NoClass);
    var s2 := if ev.AgentOutput? && ev.checkpoint.Some? then s1.(checkpoint := ev.checkpoint) else s1;
    if (ev.AgentOutput? && ev.checkpoint.None?) || PreservesState(s2.top) then Done(s2, ())
    else Transition(s2, Gating)
  }

  function PauseClassOf(words: Words): string {
    if words.review then "review" else if words.safety then "safety" else "business"
  }

  predicate Exhausted(s: RunState) {
    s.attempt >= s.perNode || s.usedGlobal >= s.globalLimit
  }

  /** One more failed attempt on the current node: charge both budgets, then pause or retry. */
  function ChargeFailure(s: RunState): RunOutcome {
    var s1 := s.(attempt := s.attempt + 1, usedGlobal := s.usedGlobal + 1);
    if Exhausted(s1) then PauseForHuman(s1, Escalation("recovery", true))
    else Transition(s1, Running)
  }

  /** `git` and `finishRecoverable` (whether the rejection text names a recoverable condition)
      are consulted only where the finish gate is evaluated. */
  function ApplyDecision(spec: Spec, s: RunState, d: Decision, git: GitStatus, finishRecoverable: bool): RunOutcome {
    match d.kind
    case Continue => Transition(s.(reInjects := 0), Running)
    case VerifyStep => Transition(s.(reInjects := 0), Verifying)
    case ReInject =>
      var s1 := s.(reInjects := s.reInjects + 1);
      if s1.reInjects > MAX_RE_INJECTS then PauseForHuman(s1, Escalation("recovery", false)) else Done(s1, ())
    case Retry => ChargeFailure(s.(reInjects := 0))
    case Branch => Transition(s.(node := d.nextNode, attempt := 0), Running)
    case EscalateToHuman => PauseForHuman(s, Escalation(PauseClassOf(d.words), d.recoverable))
    case Abort => Transition(s, Aborted)
    case Finish =>
      if GitRaises(spec, git) then Raised(s, GitError)
      else if FinishOk(spec, s, git) then Transition(s, Completed)
      else PauseForHuman(s, Escalation("review", finishRecoverable))
    case AdvanceStep => Raised(s, UnsupportedDecision)
  }

  function ApplyVerification(spec: Spec, s: RunState, ok: bool, git: GitStatus, finishRecoverable: bool): RunOutcome {
    var s1 := s.(verification := Verdict(ok));
    if !ok then ChargeFailure(s1)
    else
      var s2 := if s1.node in s1.done then s1 else s1.(done := s1.done + [s1.node]);
      var next := NextNodeId(spec, s2.node);
      if next.None? then Raised(s2, UnknownNode(s2.node))
      else if next.value.None? then
        if GitRaises(spec, git) then Raised(s2, GitError)
        else if FinishOk(spec, s2, git) then Transition(s2, Completed)
        else PauseForHuman(s2, Escalation("review", finishRecoverable))
      else Transition(s2.(node := next.value.value, attempt := 0), Running)
  }

  // ----- daemon operations on the persisted record ---------------------------------------

  /** What `_do_resume` does to a paused run, and what replay repeats. */
  function ResumePaused(s: RunState): RunOutcome {
    var (s1, _) :- if s.prePause == Some(Attached) then Transition(s, Attached) else Transition(s, Running);
    Done(s1.(reInjects := if s.prePause == Some(Attached) then 0 else s1.reInjects, delivery := Idle, autoCount := 0,
             mismatches := 0, lastMismatch := "", escalations := [], prePause := None), ())
  }

  /** `_apply_replay_resume`. */
  function ReplayResume(s: RunState): RunOutcome {
    if !s.top.PausedForHuman? then Done(s, ()) else ResumePaused(s)
  }

  predicate IsOrphaned(t: TopState) {
    t in {Running, Gating, Verifying, Attached, RecoveryNeeded}
  }

  function RecoverOrphan(s: RunState): RunOutcome {
    if !IsOrphaned(s.top) then Done(s, ())
    else
      var (s1, _) :- Transition(s, PausedForHuman);
      Done(s1.(delivery := Idle, escalations := s1.escalations + [Escalation("recovery", false)]), ())
  }

  function AckReview(spec: Spec, s: RunState, reviewer: string, git: GitStatus): RunOutcome {
    if reviewer !in REVIEWERS then Done(s, ())
    else
      var s1 := s.(reviews := s.reviews + {reviewer});
      if GitRaises(spec, git) then Raised(s1, GitError)
      else if FinishOk(spec, s1, git) && !IsFinal(s1.top) then Transition(s1, Completed) else Done(s1, ())
  }

  // ----- the sidecar with its disk and session log ---------------------------------------

  /** Durable session-log entries; a crash does not take them back. `Direct` is an instruction
      handed to the surface because the run reached a new node or a new attempt; `Prompt` is
      any other instruction. */
  datatype LogEvent =
    | Verified(node: string, ok: bool)
    | RetryDecided(node: string)
    | Direct(node: string, attempt: nat)
    | Prompt(node: string, attempt: nat)
    | ReviewAcked(reviewer: string)
    | AutoIntervened(node: string)

  /** `Batch(restart)`: inside the loop over the checkpoints of one read; `restart` once the
      batch was cut short. */
  datatype Phase = Down | Booting | Polling | Batch(restart: bool)

  /** `disk` is state.json; `deferred` the batch-local continue instruction still to be sent. */
  datatype World = World(
    run: RunState,
    disk: RunState,
    phase: Phase,
    deferred: Option<(string, nat)>,
    log: seq<LogEvent>)

  datatype Config = Config(autoEnabled: bool, maxAuto: int, observationOnly: bool)

  /** How the readiness probe of a surface ends: the window is clear, it stays busy or is gone,
      or the probe itself raises. */
  datatype Probe = Clear | Unavailable | Faulty

  datatype AutoEnv = AutoEnv(probe: Probe, sends: bool, delivered: DeliveryState)

  datatype Handoff = WriteFailed | NoPoll | Interrupted | Acked | PollErrors | AckTimeout

  /** What the surface does with one instruction. `dies` is a crash after the state was saved
      and before anything was handed over. */
  datatype SendEnv = SendEnv(
    dies: bool,
    probe: Probe,
    busyRecoverable: bool,
    sends: bool,
    delivered: DeliveryState,
    handoff: Handoff,
    auto: AutoEnv)

  datatype Control = Proceed | Break | Exit

  type WorldOutcome = Outcome<World, Control>

  function Lift(w: World, o: RunOutcome): WorldOutcome {
    match o
    case Done(s, _) => Done(w.(run := s), Proceed)
    case Raised(s, f) => Raised(w.(run := s), f)
  }

  function Save(w: World): World {
    w.(disk := w.run)
  }

  function Log(w: World, e: LogEvent): World {
    w.(log := w.log + [e])
  }

  function SetDelivery(w: World, d: DeliveryState): World {
    w.(run := w.run.(delivery := d))
  }

  predicate Plans(cfg: Config, s: RunState, recoverable: bool) {
    cfg.autoEnabled && s.autoCount < cfg.maxAuto && !cfg.observationOnly && recoverable
  }

  /** Auto-intervention; `Break` means it took over, `Proceed` that the caller falls through. */
  function AttemptAuto(cfg: Config, spec: Spec, w: World, recoverable: bool, env: AutoEnv): WorldOutcome {
    if !Plans(cfg, w.run, recoverable) then Done(w, Proceed)
    else if !Knows(spec, w.run.node) then Raised(w, UnknownNode(w.run.node))
    else if env.probe.Faulty? then Raised(w, SurfaceError)
    else if !env.probe.Clear? || !env.sends then Done(SetDelivery(w, DeliveryFailed), Proceed)
    else
      var w1 := w.(run := w.run.(delivery := env.delivered, autoCount := w.run.autoCount + 1));
      var (w2, _) :- Lift(w1, Transition(w1.run, Running));
      Done(Save(Log(w2, AutoIntervened(w2.run.node)).(run := w2.run.(prePause := None))), Break)
  }

  /** Recovery first, a human only when no recipe applies. */
  function RecoverOrPause(cfg: Config, spec: Spec, w: World, recoverable: bool, env: AutoEnv): WorldOutcome {
    var (w1, _) :- Lift(w, EnterRecovery(w.run, "recovery"));
    var (w2, taken) :- AttemptAuto(cfg, spec, w1, recoverable, env);
    if taken.Break? then Done(Save(w2), Break)
    else
      var (w3, _) :- Lift(w2, PauseForHuman(w2.run, Escalation("recovery", recoverable)));
      Done(Save(w3), Exit)
  }

  function PauseAndExit(w: World, d: DeliveryState): WorldOutcome {
    var (w1, _) :- Lift(w, PauseForHuman(w.run.(delivery := d), Escalation("recovery", false)));
    Done(Save(w1), Exit)
  }

  /** `_inject_via_hook_handoff`. */
  function SendViaHook(w: World, env: SendEnv): WorldOutcome {
    var w1 := SetDelivery(w, Injected);
    match env.handoff
    case WriteFailed => PauseAndExit(w1, DeliveryFailed)
    case NoPoll => PauseAndExit(w1, DeliveryFailed)
    case Interrupted => Done(Save(w1), Exit)
    case Acked => Done(Save(SetDelivery(w1, Acknowledged)), Proceed)
    case PollErrors => PauseAndExit(w1, DeliveryFailed)
    case AckTimeout => PauseAndExit(w1, TimedOut)
  }

  /** `_inject_or_pause`: `Exit` when the instruction was not delivered. */
  function InjectOrPause(cfg: Config, spec: Spec, w: World, env: SendEnv): WorldOutcome {
    if cfg.observationOnly then SendViaHook(w, env)
    else if env.probe.Faulty? then Raised(w, SurfaceError)
    else if !env.probe.Clear? then
      var (w1, c) :- RecoverOrPause(cfg, spec, SetDelivery(w, DeliveryFailed), env.busyRecoverable, env.auto);
      Done(w1, if c.Break? then Proceed else Exit)
    else if !env.sends then
      var (w1, c) :- RecoverOrPause(cfg, spec, SetDelivery(w, DeliveryFailed), true, env.auto);
      Done(w1, if c.Break? then Proceed else Exit)
    else Done(SetDelivery(w, env.delivered), Proceed)
  }

  function MarkInjected(s: RunState): RunState {
    s.(lastNode := Some(s.node), lastAttempt := s.attempt, lastInjectionSeq := s.checkpointSeq)
  }

  /** Record the instruction, save, then hand it over. */
  function SaveAndSend(cfg: Config, spec: Spec, w: World, direct: bool, env: SendEnv): WorldOutcome {
    var w1 := Save(w.(run := MarkInjected(w.run)));
    if env.dies then Done(w1, Exit)
    else
      var e := if direct then Direct(w1.run.node, w1.run.attempt) else Prompt(w1.run.node, w1.run.attempt);
      InjectOrPause(cfg, spec, Log(w1, e), env)
  }

  // ----- one checkpoint ------------------------------------------------------------------

  /** `recorded`: the checkpoint can be written to the event log, which its text may prevent.
      `notesRaise`: looking through the shared notes raises, as it does on a line that is no object. */
  datatype Env = Env(
    recorded: bool,
    notesRaise: bool,
    gate: GateEnv,
    verifyOk: bool,
    git: GitStatus,
    finishRecoverable: bool,
    auto: AutoEnv,
    send: SendEnv)

  datatype Admission = Skip | Stalled | Mismatch | Accept(checkpoint: Checkpoint)

  predicate StaleSeq(s: RunState, cp: Checkpoint) {
    && cp.seqNo > 0
    && cp.seqNo <= s.checkpointSeq
    && !(cp.seqNo == 1 && s.checkpointSeq > 0)
    && !(s.checkpointSeq - cp.seqNo >= 100)
  }

  predicate SameContent(s: RunState, cp: Checkpoint) {
    && s.checkpoint.Some?
    && var last := s.checkpoint.value;
    && cp.status == last.status
    && cp.node == last.node
    && cp.summary == last.summary
    && cp.seqNo == last.seqNo
  }

  function Admit(cfg: Config, s: RunState, cp: Checkpoint): Admission {
    if cp.foreign || StaleSeq(s, cp) || SameContent(s, cp) then Skip
    else if cp.node == s.node then Accept(cp)
    else if !cfg.observationOnly then Mismatch
    else if cp.node in s.done then Stalled
    else Accept(cp.(node := s.node))
  }

  /** Bookkeeping of an accepted checkpoint, before any decision. */
  function Accepted(s: RunState, cp: Checkpoint): RunState {
    var seen := if cp.seqNo > 0 then cp.seqNo else s.checkpointSeq;
    var s1 := s.(mismatches := 0, lastMismatch := "", checkpointSeq := seen);
    var s2 := if seen > s1.lastInjectionSeq && !s1.delivery.Idle? then s1.(delivery := StartedProcessing) else s1;
    if ClaimsProgress(cp.status) then s2.(autoCount := 0) else s2
  }

  function LatestRecoverable(s: RunState): bool {
    s.escalations != [] && s.escalations[|s.escalations| - 1].recoverable
  }

  /** After a decision or a verification: a pause may be taken over by auto-intervention. */
  function MaybeIntervene(cfg: Config, spec: Spec, w: World, env: AutoEnv): WorldOutcome {
    if w.run.top.PausedForHuman? then AttemptAuto(cfg, spec, w, LatestRecoverable(w.run), env) else Done(w, Proceed)
  }

  function LogDecision(w: World, d: Decision): World {
    if d.kind.Retry? then Log(w, RetryDecided(w.run.node)) else w
  }

  /** Gate, apply, intervene, re-inject. */
  function DecisionStage(cfg: Config, spec: Spec, w: World, d: Decision, env: Env): WorldOutcome {
    var (w1, _) :- Lift(LogDecision(w, d), ApplyDecision(spec, w.run, d, env.git, env.finishRecoverable));
    if NotesFault(d, env) then Raised(w1, NotesError) else AfterDecision(cfg, spec, w1, d, env)
  }

  /** An escalation looks up the latest consultation in the notes, after it has paused the run. */
  predicate NotesFault(d: Decision, env: Env) {
    d.kind.EscalateToHuman? && env.notesRaise
  }

  function AfterDecision(cfg: Config, spec: Spec, w1: World, d: Decision, env: Env): WorldOutcome {
    var (w2, taken) :- MaybeIntervene(cfg, spec, w1, env.auto);
    if taken.Break? then Done(w2, Break)
    else if d.kind.ReInject? && w2.run.top.Attached? then
      if !Knows(spec, w2.run.node) then Raised(w2, UnknownNode(w2.run.node))
      else
        var (w3, sent) :- SaveAndSend(cfg, spec, w2, false, env.send);
        Done(w3, if sent.Exit? then Exit else Break)
    else Done(w2, Proceed)
  }

  /** A verifier that raises counts as a failed verification, and so does an unknown node. */
  function VerifyStage(cfg: Config, spec: Spec, w: World, env: Env): WorldOutcome {
    if !w.run.top.Verifying? then Done(w, Proceed)
    else
      var ok := env.verifyOk && Knows(spec, w.run.node);
      var (w1, _) :- Lift(Log(w, Verified(w.run.node, ok)),
                          ApplyVerification(spec, w.run, ok, env.git, env.finishRecoverable));
      MaybeIntervene(cfg, spec, w1, env.auto)
  }

  predicate NeedsInstruction(s: RunState) {
    Some(s.node) != s.lastNode || (s.attempt > 0 && s.attempt != s.lastAttempt)
  }

  predicate Guides(d: Option<Decision>) {
    d.Some? && d.value.kind.Continue? && d.value.guidance
  }

  function InjectStage(cfg: Config, spec: Spec, w: World, d: Option<Decision>, env: Env): WorldOutcome {
    if !w.run.top.Running? || !(NeedsInstruction(w.run) || Guides(d)) then Done(w, Proceed)
    else if !Knows(spec, w.run.node) then Raised(w, UnknownNode(w.run.node))
    else if Guides(d) then Done(w.(deferred := Some((w.run.node, w.run.attempt))), Proceed)
    else
      var (w1, sent) :- SaveAndSend(cfg, spec, w, true, env.send);
      Done(w1, if sent.Exit? || w1.run.top.PausedForHuman? then Exit else Break)
  }

  /** Everything the loop does with one accepted checkpoint. */
  function ProcessAccepted(cfg: Config, spec: Spec, w: World, cp: Checkpoint, env: Env): WorldOutcome {
    if !env.recorded then Raised(w.(run := Accepted(w.run, cp)), RecordError)
    else
      var (w1, _) :- Lift(w, HandleEvent(Accepted(w.run, cp), AgentOutput(Some(cp))));
      GateAndWork(cfg, spec, w1, env)
  }

  predicate JudgeFaults(node: Node, s: RunState, env: GateEnv) {
    env.judgeRaises && AsksJudge(node, s.top.Attached?, s.checkpoint, s.question, env)
  }

  function GateAndWork(cfg: Config, spec: Spec, w1: World, env: Env): WorldOutcome {
    if w1.run.top.Gating? || w1.run.top.Attached? then
      if !Knows(spec, w1.run.node) then Raised(w1, UnknownNode(w1.run.node))
      else if JudgeFaults(GetNode(spec, w1.run.node), w1.run, env.gate) then Raised(w1, JudgeError)
      else
        var d := Gate(GetNode(spec, w1.run.node), w1.run.top.Attached?, w1.run.checkpoint, w1.run.question, env.gate);
        DecideAndWork(cfg, spec, w1, d, env)
    else WorkStages(cfg, spec, w1, None, env)
  }

  function DecideAndWork(cfg: Config, spec: Spec, w: World, d: Decision, env: Env): WorldOutcome {
    var (w1, c1) :- DecisionStage(cfg, spec, w, d, env);
    if !c1.Proceed? then Done(w1, c1) else WorkStages(cfg, spec, w1, Some(d), env)
  }

  function WorkStages(cfg: Config, spec: Spec, w: World, d: Option<Decision>, env: Env): WorldOutcome {
    var (w1, c1) :- VerifyStage(cfg, spec, w, env);
    if !c1.Proceed? then Done(w1, c1) else InjectStage(cfg, spec, w1, d, env)
  }

  function ProcessMismatch(cfg: Config, spec: Spec, w: World, cp: Checkpoint, env: Env): WorldOutcome {
    var w1 := Save(w.(run := w.run.(mismatches := w.run.mismatches + 1, lastMismatch := cp.node)));
    if w1.run.mismatches >= MAX_NODE_MISMATCH then RecoverOrPause(cfg, spec, w1, true, env.auto) else Done(w1, Proceed)
  }

  /** An observation-only surface that still reports a finished node. */
  function ProcessStalled(cfg: Config, spec: Spec, w: World, env: Env): WorldOutcome {
    var (w1, _) :- Lift(w, PauseForHuman(w.run, Escalation("recovery", false)));
    var (w2, _) :- AttemptAuto(cfg, spec, w1, false, env.auto);
    Done(Save(w2), Exit)
  }

  function ProcessCheckpoint(cfg: Config, spec: Spec, w: World, cp: Checkpoint, env: Env): WorldOutcome {
    match Admit(cfg, w.run, cp)
    case Skip => Done(w, Proceed)
    case Stalled => ProcessStalled(cfg, spec, w, env)
    case Mismatch => ProcessMismatch(cfg, spec, w, cp, env)
    case Accept(bound) => ProcessAccepted(cfg, spec, w, bound, env)
  }

  // ----- the other iterations of the loop ------------------------------------------------

  predicate Halted(s: RunState) {
    IsFinal(s.top) || s.top.PausedForHuman?
  }

  /** The first look at the surface: it shows no checkpoint of the run, shows one, raises, or shows
      text whose parsing raises. */
  datatype FirstRead = NoCheckpoint | CheckpointSeen | ReadFails | ReadUnparsable

  /** Boot: the crash-in-recovery fail-safe, the initial handoff, or straight to polling. */
  function Boot(cfg: Config, spec: Spec, w: World, read: FirstRead, env: SendEnv): WorldOutcome {
    if w.run.top.RecoveryNeeded? then
      var (w1, _) :- Lift(w, PauseForHuman(w.run, Escalation("recovery", false)));
      Done(Save(w1), Exit)
    else if w.run.top.Ready? then
      var (w1, _) :- Lift(w, Transition(w.run, Attached));
      var w2 := Save(w1);
      if read.ReadFails? then Raised(w2, SurfaceError)
      else if read.ReadUnparsable? then Raised(w2, TextError)
      else if read.CheckpointSeen? then Done(w2.(run := MarkInjected(w2.run)), Proceed)
      else if cfg.observationOnly then Done(w2, Proceed)
      else if !Knows(spec, w2.run.node) then Raised(w2, UnknownNode(w2.run.node))
      else SaveAndSend(cfg, spec, w2, false, env)
    else Done(w, Proceed)
  }

  /** End of a batch: send the deferred continue instruction if it still applies, then save. */
  function EndBatch(cfg: Config, spec: Spec, w: World, env: SendEnv): WorldOutcome {
    if && w.deferred.Some?
       && w.run.top.Running?
       && w.phase == Batch(false)
       && w.deferred.value == (w.run.node, w.run.attempt)
    then
      var (w1, sent) :- SaveAndSend(cfg, spec, w, false, env);
      if sent.Exit? then Done(w1, Exit) else Done(Save(w1), Proceed)
    else Done(Save(w), Proceed)
  }

  function DeliveryTimeout(cfg: Config, spec: Spec, w: World, env: AutoEnv): WorldOutcome {
    var (w1, c) :- RecoverOrPause(cfg, spec, SetDelivery(w, TimedOut), true, env);
    Done(if c.Break? then Save(w1.(run := w1.run.(lastInjectionSeq := w1.run.checkpointSeq))) else w1, c)
  }

  function IdleTimeout(cfg: Config, spec: Spec, w: World, env: AutoEnv): WorldOutcome {
    var (w1, _) :- Lift(w, HandleEvent(w.run, Timeout));
    RecoverOrPause(cfg, spec, w1, true, env)
  }

  // ----- whole runs ----------------------------------------------------------------------

  /** `UnparsableOp` is a read whose text, or a date in it, raises where it is parsed. */
  datatype Op =
    | BootOp(read: FirstRead, send: SendEnv)
    | CheckpointOp(checkpoint: Checkpoint, env: Env)
    | EndBatchOp(send: SendEnv)
    | DeliveryTimeoutOp(auto: AutoEnv)
    | IdleTimeoutOp(auto: AutoEnv)
    | RuntimeRetryOp(send: SendEnv)
    | UnparsableOp
    | InterruptOp
    | CrashOp
    | OrphanOp
    | ResumeOp
    | AckOp(reviewer: string, git: GitStatus)

  /** A run caught in GATING or VERIFYING cannot be resumed safely, a finished one not at all. */
  predicate Resumable(t: TopState) {
    t in {PausedForHuman, Running, Ready, Attached, RecoveryNeeded}
  }

  /** Whether the operation can happen now. A booting run is never halted: `Resume` has just
      reactivated it. */
  predicate Enabled(w: World, op: Op) {
    match op
    case BootOp(_, _) => w.phase.Booting? && !Halted(w.run)
    case CheckpointOp(_, _) => (w.phase.Polling? && !Halted(w.run)) || w.phase == Batch(false)
    case EndBatchOp(_) => w.phase.Batch?
    case DeliveryTimeoutOp(_) => w.phase.Polling? && !Halted(w.run) && w.run.checkpointSeq <= w.run.lastInjectionSeq
    case IdleTimeoutOp(_) => w.phase.Polling? && !Halted(w.run)
    case RuntimeRetryOp(_) => w.phase.Polling? && !Halted(w.run)
    case UnparsableOp => w.phase.Polling? && !Halted(w.run)
    case InterruptOp => w.phase.Polling? && !Halted(w.run)
    case CrashOp => !w.phase.Down?
    case OrphanOp => w.phase.Down?
    case ResumeOp => w.phase.Down? && Resumable(w.disk.top)
    case AckOp(_, _) => w.phase.Down?
  }

  /** The sidecar thread ends: what counts from now on is the saved record. */
  function ShutDown(w: World): World {
    w.(run := w.disk, phase := Down, deferred := None)
  }

  /** Where the loop goes next. An exception escaping the loop saves the record and ends the
      thread; at the loop head a halted run ends it too. */
  function Settle(o: WorldOutcome, inBatch: bool): World {
    match o
    case Raised(w, _) => ShutDown(Save(w))
    case Done(w, Exit) => ShutDown(w)
    case Done(w, Break) => if inBatch then w.(phase := Batch(true)) else w.(phase := Polling)
    case Done(w, Proceed) =>
      if inBatch then w.(phase := Batch(false))
      else if Halted(w.run) then ShutDown(w)
      else w.(phase := Polling, deferred := None)
  }

  /** A daemon operation: on success the changed record is saved. */
  function OnDisk(w: World, o: RunOutcome): World {
    match o
    case Raised(_, _) => w
    case Done(s, _) => w.(run := s, disk := s)
  }

  function Apply(cfg: Config, spec: Spec, w: World, op: Op): World {
    match op
    case BootOp(read, send) => Settle(Boot(cfg, spec, w, read, send), false)
    case CheckpointOp(cp, env) => Settle(ProcessCheckpoint(cfg, spec, w, cp, env), true)
    case EndBatchOp(send) => Settle(EndBatch(cfg, spec, w, send), false)
    case DeliveryTimeoutOp(auto) => Settle(DeliveryTimeout(cfg, spec, w, auto), false)
    case IdleTimeoutOp(auto) => Settle(IdleTimeout(cfg, spec, w, auto), false)
    case RuntimeRetryOp(send) => Settle(SaveAndSend(cfg, spec, w, false, send), false)
    case UnparsableOp => Settle(Raised(w, TextError), false)
    case InterruptOp => ShutDown(Save(w))
    case CrashOp => ShutDown(w)
    case OrphanOp => OnDisk(w, RecoverOrphan(w.disk))
    case ResumeOp =>
      var w1 := if w.disk.top.PausedForHuman? then OnDisk(w, ResumePaused(w.disk)) else w.(run := w.disk);
      w1.(phase := Booting)
    case AckOp(reviewer, git) =>
      var w1 := if reviewer in REVIEWERS then Log(w, ReviewAcked(reviewer)) else w;
      OnDisk(w1, AckReview(spec, w.disk, reviewer, git))
  }

  function Step(cfg: Config, spec: Spec, w: World, op: Op): World {
    if Enabled(w, op) then Apply(cfg, spec, w, op) else w
  }

  function Start(spec: Spec): World
    requires spec.nodes != []
  {
    World(Fresh(spec), Fresh(spec), Booting, None, [])
  }

  /** The worlds that `ops` lead through, one step each. */
  ghost predicate IsPath(cfg: Config, spec: Spec, ops: seq<Op>, ws: seq<World>) {
    && |ws| == |ops| + 1
    && forall i {:trigger Step(cfg, spec, ws[i], ops[i])} ::
         0 <= i < |ops| ==> ws[i + 1] == Step(cfg, spec, ws[i], ops[i])
  }

  /** The worlds of a whole run. */
  ghost predicate IsRun(cfg: Config, spec: Spec, ops: seq<Op>, ws: seq<World>) {
    spec.nodes != [] && IsPath(cfg, spec, ops, ws) && ws[0] == Start(spec)
  }
}
