/** What the operations of a run come to, end to end: which world a report, a decision on it, an instruction
    and a timeout lead to, stated without the functions that compute it. */
module RunOutcomes {
  import opened Options
  import opened StateMachine
  import opened Plan
  import opened FinishGate
  import opened Gates
  import opened RunModel
  import opened RunSteps
  import opened RunAdmission

  // ----- auto-intervention ---------------------------------------------------------------

  /** An intervention is planned: the configuration allows one more, and the reason is one it knows. */
  predicate Planned(cfg: Config, s: RunState, recoverable: bool) {
    cfg.autoEnabled && !cfg.observationOnly && s.autoCount < cfg.maxAuto && recoverable
  }

  /** The run works on as if nothing had interrupted it. */
  function TakenOver(s: RunState, delivery: DeliveryState): RunState {
    s.(top := Running, lastActive := Running, prePause := None, autoCount := s.autoCount + 1, delivery := delivery)
  }

  /** Where a run that waits for a human or for recovery gets by itself. */
  predicate Intervention(cfg: Config, w: World, v: World, recoverable: bool, env: AutoEnv) {
    if Planned(cfg, w.run, recoverable) && env.probe == Clear && env.sends then
      var s := TakenOver(w.run, env.delivered);
      v == w.(run := s, disk := s, log := w.log + [AutoIntervened(w.run.node)])
    else
      v == w.(run := if Planned(cfg, w.run, recoverable) && env.probe != Faulty
                     then w.run.(delivery := DeliveryFailed) else w.run)
  }

  predicate Succeeds(cfg: Config, s: RunState, recoverable: bool, env: AutoEnv) {
    Planned(cfg, s, recoverable) && env.probe == Clear && env.sends
  }

  predicate ProbeRaises(cfg: Config, s: RunState, recoverable: bool, env: AutoEnv) {
    Planned(cfg, s, recoverable) && env.probe == Faulty
  }

  lemma AttemptEnds(cfg: Config, spec: Spec, w: World, recoverable: bool, env: AutoEnv)
    requires Knows(spec, w.run.node) && w.run.top in {PausedForHuman, RecoveryNeeded}
    ensures var r := AttemptAuto(cfg, spec, w, recoverable, env);
            && Intervention(cfg, w, r.state, recoverable, env)
            && (r.Raised? <==> ProbeRaises(cfg, w.run, recoverable, env))
            && (r.Done? ==> r.value == if Succeeds(cfg, w.run, recoverable, env) then Break else Proceed)
  {
  }

  /** The record paused for a human, remembering where it worked. */
  function PausedAt(s: RunState, pauseClass: string, recoverable: bool): RunState {
    s.(top := PausedForHuman,
       prePause := if s.prePause.None? then Some(s.top) else s.prePause,
       escalations := s.escalations + [Escalation(pauseClass, recoverable)])
  }

  function InRecovery(s: RunState): RunState {
    s.(top := RecoveryNeeded, prePause := if s.prePause.None? then Some(s.top) else s.prePause)
  }

  /** Where recovery leads: on, to a human, or, if the probe raises, nowhere. */
  predicate RecoveryLeads(cfg: Config, w: World, v: World, recoverable: bool, env: AutoEnv) {
    var s := InRecovery(w.run);
    if Succeeds(cfg, w.run, recoverable, env) then Intervention(cfg, w.(run := s), v, recoverable, env)
    else if ProbeRaises(cfg, w.run, recoverable, env) then v == w.(run := s)
    else
      var t := if Planned(cfg, w.run, recoverable) then s.(delivery := DeliveryFailed) else s;
      v == w.(run := PausedAt(t, "recovery", recoverable), disk := PausedAt(t, "recovery", recoverable))
  }

  lemma RecoveryEnds(cfg: Config, spec: Spec, w: World, recoverable: bool, env: AutoEnv)
    requires Knows(spec, w.run.node) && w.run.top in {Attached, Running, Gating}
    ensures var r := RecoverOrPause(cfg, spec, w, recoverable, env);
            && RecoveryLeads(cfg, w, r.state, recoverable, env)
            && (r.Raised? <==> ProbeRaises(cfg, w.run, recoverable, env))
            && (r.Done? ==> r.value == if Succeeds(cfg, w.run, recoverable, env) then Break else Exit)
  {
    AttemptEnds(cfg, spec, w.(run := InRecovery(w.run)), recoverable, env);
    assert EnterRecovery(w.run, "recovery").state == InRecovery(w.run);
  }

  // ----- handing over an instruction -----------------------------------------------------

  /** The agent gets the instruction. */
  predicate Arrives(cfg: Config, env: SendEnv) {
    if cfg.observationOnly then env.handoff == Acked else env.probe == Clear && env.sends
  }

  /** The record remembers what the agent was told last. */
  function Told(s: RunState): RunState {
    s.(lastNode := Some(s.node), lastAttempt := s.attempt, lastInjectionSeq := s.checkpointSeq)
  }

  /** What a failed handover through the Stop hook leaves. */
  function HookFailed(s: RunState, handoff: Handoff): RunState {
    if handoff == Interrupted then s.(delivery := Injected)
    else PausedAt(s.(delivery := if handoff == AckTimeout then TimedOut else DeliveryFailed), "recovery", false)
  }

  /** Where handing over `e` leads from `w`, the record saved and the instruction logged. */
  predicate HandOver(cfg: Config, w: World, v: World, e: LogEvent, env: SendEnv) {
    var s := Told(w.run);
    var sent := w.(run := s, disk := s, log := w.log + [e]);
    if env.dies then v == w.(run := s, disk := s)
    else if cfg.observationOnly then
      var t := if Arrives(cfg, env) then s.(delivery := Acknowledged) else HookFailed(s, env.handoff);
      v == sent.(run := t, disk := t)
    else if env.probe == Faulty then v == sent
    else if Arrives(cfg, env) then v == sent.(run := s.(delivery := env.delivered))
    else
      var failed := sent.(run := s.(delivery := DeliveryFailed));
      RecoveryLeads(cfg, failed, v, env.probe == Clear || env.busyRecoverable, env.auto)
  }

  /** The handover ends the sidecar. */
  predicate EndsSidecar(cfg: Config, s: RunState, env: SendEnv) {
    || env.dies
    || (!Arrives(cfg, env)
        && (cfg.observationOnly || env.probe == Faulty
            || !Succeeds(cfg, s, env.probe == Clear || env.busyRecoverable, env.auto)))
  }

  lemma HookEnds(cfg: Config, w: World, env: SendEnv)
    requires cfg.observationOnly && w.run.top in {Attached, Running, Gating}
    ensures var r, t := SendViaHook(w, env),
                        if Arrives(cfg, env) then w.run.(delivery := Acknowledged) else HookFailed(w.run, env.handoff);
            r == Done(w.(run := t, disk := t), if Arrives(cfg, env) then Proceed else Exit)
  {
  }

  /** Where an instruction on record gets; `s` is the record before. */
  lemma InjectEnds(cfg: Config, spec: Spec, sent: World, env: SendEnv)
    requires Knows(spec, sent.run.node) && sent.run.top in {Attached, Running, Gating}
    requires !cfg.observationOnly && sent.run == sent.disk
    ensures var r := InjectOrPause(cfg, spec, sent, env);
            var recoverable := env.probe == Clear || env.busyRecoverable;
            var failed := sent.(run := sent.run.(delivery := DeliveryFailed));
            && (if env.probe == Faulty then r == Raised(sent, SurfaceError)
                else if env.probe == Clear && env.sends then
                  r == Done(sent.(run := sent.run.(delivery := env.delivered)), Proceed)
                else RecoveryLeads(cfg, failed, r.state, recoverable, env.auto))
            && (r.Raised? ==> env.probe == Faulty || ProbeRaises(cfg, sent.run, recoverable, env.auto))
            && (r.Done? && r.value.Exit? ==> r.state.run == r.state.disk)
            && (r.Done? && !Arrives(cfg, env) ==>
                  r.value == if Succeeds(cfg, sent.run, recoverable, env.auto) then Proceed else Exit)
  {
    if !env.probe.Faulty? && !(env.probe.Clear? && env.sends) {
      RecoveryEnds(cfg, spec, sent.(run := sent.run.(delivery := DeliveryFailed)),
                   env.probe == Clear || env.busyRecoverable, env.auto);
    }
  }

  lemma HandOverEnds(cfg: Config, spec: Spec, w: World, direct: bool, env: SendEnv)
    requires Knows(spec, w.run.node) && w.run.top in {Attached, Running, Gating}
    ensures var r := SaveAndSend(cfg, spec, w, direct, env);
            var e := if direct then Direct(w.run.node, w.run.attempt) else Prompt(w.run.node, w.run.attempt);
            && HandOver(cfg, w, r.state, e, env)
            && (r.Raised? ==> EndsSidecar(cfg, w.run, env))
            && (r.Done? ==> r.value == if EndsSidecar(cfg, w.run, env) then Exit else Proceed)
            && (r.Done? && r.value.Exit? ==> r.state.run == r.state.disk)
  {
    var e := if direct then Direct(w.run.node, w.run.attempt) else Prompt(w.run.node, w.run.attempt);
    var s := Told(w.run);
    var sent := w.(run := s, disk := s, log := w.log + [e]);
    assert !env.dies ==> SaveAndSend(cfg, spec, w, direct, env) == InjectOrPause(cfg, spec, sent, env);
    if !env.dies {
      if cfg.observationOnly {
        HookEnds(cfg, sent, env);
      } else {
        InjectEnds(cfg, spec, sent, env);
      }
    }
  }

  // ----- a report ------------------------------------------------------------------------

  /** The record once a report has been counted. */
  function Noted(s: RunState, cp: Checkpoint): RunState {
    var seqNo := if cp.seqNo > 0 then cp.seqNo else s.checkpointSeq;
    s.(checkpointSeq := seqNo,
       mismatches := 0,
       lastMismatch := "",
       autoCount := if cp.status in {Working, StepDone, WorkflowDone} then 0 else s.autoCount,
       delivery := if s.delivery != Idle && seqNo > s.lastInjectionSeq then StartedProcessing else s.delivery)
  }

  /** And once it is on record, before any decision. */
  function Reported(s: RunState, cp: Checkpoint): RunState {
    Noted(s, cp).(checkpoint := Some(cp.(node := s.node)),
                  question := NoClass,
                  top := if s.top == Attached then Attached else Gating,
                  lastActive := if s.top == Attached then s.lastActive else Gating)
  }

  lemma AcceptedIsNoted(s: RunState, cp: Checkpoint)
    ensures Accepted(s, cp.(node := s.node)) == Noted(s, cp)
  {
  }

  lemma ArrivedIsReported(s: RunState, cp: Checkpoint)
    requires s.top in {Attached, Running, Gating}
    ensures Arrived(s, cp.(node := s.node)) == Reported(s, cp)
  {
    var bound, t := cp.(node := s.node), Noted(s, cp);
    AcceptedIsNoted(s, cp);
    assert Arrived(s, bound) == HandleEvent(t, AgentOutput(Some(bound))).state;
  }

  /** A working sidecar takes up a report, and nothing outside keeps it from a decision. */
  predicate Judges(cfg: Config, spec: Spec, w: World, op: Op) {
    && Enabled(w, op) && op.CheckpointOp? && op.env.recorded
    && TakesUp(cfg, w.run, op.checkpoint)
    && w.run.top in {Attached, Running, Gating}
    && Knows(spec, w.run.node)
    && !JudgeFaults(GetNode(spec, w.run.node), Reported(w.run, op.checkpoint), op.env.gate)
  }

  /** What the gate makes of it. */
  function Judged(cfg: Config, spec: Spec, w: World, op: Op): Decision
    requires Judges(cfg, spec, w, op)
  {
    var bound := op.checkpoint.(node := w.run.node);
    Gate(GetNode(spec, w.run.node), w.run.top == Attached, Some(bound), NoClass, op.env.gate)
  }

  function AfterReport(w: World, op: Op): World
    requires op.CheckpointOp?
  {
    w.(run := Reported(w.run, op.checkpoint))
  }

  lemma ReportIsDecided(cfg: Config, spec: Spec, w: World, op: Op)
    requires Judges(cfg, spec, w, op)
    ensures var d := Judged(cfg, spec, w, op);
            && Step(cfg, spec, w, op) == Settle(DecideAndWork(cfg, spec, AfterReport(w, op), d, op.env), true)
            && MayDecide(spec, AfterReport(w, op).run, d)
  {
    var s := Reported(w.run, op.checkpoint);
    TakesUpIff(cfg, w.run, op.checkpoint);
    ArrivedIsReported(w.run, op.checkpoint);
    GateMayDecide(spec, s, op.env.gate);
  }

  /** A sidecar that has saved its record and died. */
  function Dead(w: World): World {
    w.(disk := w.run, phase := Down, deferred := None)
  }

  /** Where a pause in the middle of a batch leads: it stands, or the loop takes the run over. */
  predicate PauseLeads(cfg: Config, paused: World, v: World, recoverable: bool, env: AutoEnv) {
    if ProbeRaises(cfg, paused.run, recoverable, env) then v == Dead(paused)
    else
      && Intervention(cfg, paused, v.(phase := paused.phase), recoverable, env)
      && v.phase == Batch(Succeeds(cfg, paused.run, recoverable, env))
  }

  lemma PauseEnds(cfg: Config, spec: Spec, w: World, d: Option<Decision>, env: Env)
    requires Knows(spec, w.run.node) && w.run.top.PausedForHuman? && w.run.escalations != []
    ensures var r := MaybeIntervene(cfg, spec, w, env.auto);
            var recoverable := w.run.escalations[|w.run.escalations| - 1].recoverable;
            && (r.Done? && r.value.Proceed? ==> WorkStages(cfg, spec, r.state, d, env) == r)
            && (r.Done? ==> r.value in {Proceed, Break})
            && PauseLeads(cfg, w, Settle(r, true), recoverable, env.auto)
  {
    AttemptEnds(cfg, spec, w, w.run.escalations[|w.run.escalations| - 1].recoverable, env.auto);
  }

  function ClassOf(words: Words): string {
    if words.review then "review" else if words.safety then "safety" else "business"
  }

  lemma EscalationEnds(cfg: Config, spec: Spec, w: World, d: Decision, env: Env)
    requires Knows(spec, w.run.node) && w.run.top in {Attached, Gating} && d.kind == EscalateToHuman
    ensures var paused := w.(run := PausedAt(w.run, ClassOf(d.words), d.recoverable));
            var v := Settle(DecideAndWork(cfg, spec, w, d, env), true);
            if env.notesRaise then v == Dead(paused) else PauseLeads(cfg, paused, v, d.recoverable, env.auto)
  {
    var paused := w.(run := PausedAt(w.run, ClassOf(d.words), d.recoverable));
    assert ApplyDecision(spec, w.run, d, env.git, env.finishRecoverable) == Done(paused.run, ());
    if !env.notesRaise {
      PauseEnds(cfg, spec, paused, Some(d), env);
    }
  }

  // ----- working on ----------------------------------------------------------------------

  /** The agent has not been told about this node or this attempt. */
  predicate IsDue(s: RunState) {
    s.lastNode != Some(s.node) || (s.attempt > 0 && s.attempt != s.lastAttempt)
  }

  /** Where a record in RUNNING gets at the end of a report: an instruction that is due is handed over, which
      cuts the batch short. `u` is the world right after the handover. */
  predicate WorksOn(cfg: Config, w: World, u: World, v: World, env: SendEnv) {
    if IsDue(w.run) then
      && HandOver(cfg, w, u, Direct(w.run.node, w.run.attempt), env)
      && v == (if EndsSidecar(cfg, w.run, env) then Dead(u) else u.(phase := Batch(true)))
    else v == w.(phase := Batch(false))
  }

  lemma WorkingOnStays(cfg: Config, w: World, u: World, v: World, env: SendEnv)
    requires WorksOn(cfg, w, u, v, env) && w.run.top == Running && w.run.attempt == 0
    requires w.run.lastNode == Some(w.run.node) || !EndsSidecar(cfg, w.run, env)
    ensures v.run.node == w.run.node && v.run.attempt == w.run.attempt && v.run.top == Running
  {
  }

  lemma RunningEnds(cfg: Config, spec: Spec, w: World, d: Option<Decision>, env: Env) returns (u: World)
    requires Knows(spec, w.run.node) && w.run.top == Running && !Guides(d)
    ensures WorksOn(cfg, w, u, Settle(WorkStages(cfg, spec, w, d, env), true), env.send)
  {
    assert VerifyStage(cfg, spec, w, env) == Done(w, Proceed);
    u := SaveAndSend(cfg, spec, w, true, env.send).state;
    HandOverEnds(cfg, spec, w, true, env.send);
  }

  function InRunning(s: RunState): RunState {
    s.(top := Running, lastActive := Running)
  }

  lemma ContinueEnds(cfg: Config, spec: Spec, w: World, d: Decision, env: Env) returns (u: World)
    requires Knows(spec, w.run.node) && w.run.top in {Attached, Gating} && d.kind == Continue
    ensures var on := w.(run := InRunning(w.run).(reInjects := 0));
            var v := Settle(DecideAndWork(cfg, spec, w, d, env), true);
            if d.guidance then v == on.(deferred := Some((w.run.node, w.run.attempt)), phase := Batch(false))
            else WorksOn(cfg, on, u, v, env.send)
  {
    var on := w.(run := InRunning(w.run).(reInjects := 0));
    assert DecisionStage(cfg, spec, w, d, env) == Done(on, Proceed);
    if d.guidance {
      u := on;
      assert VerifyStage(cfg, spec, on, env) == Done(on, Proceed);
    } else {
      u := RunningEnds(cfg, spec, on, Some(d), env);
    }
  }

  lemma BranchEnds(cfg: Config, spec: Spec, w: World, d: Decision, env: Env) returns (u: World)
    requires Knows(spec, d.nextNode) && w.run.top in {Attached, Gating} && d.kind == Branch
    ensures WorksOn(cfg, w.(run := InRunning(w.run).(node := d.nextNode, attempt := 0)), u,
                    Settle(DecideAndWork(cfg, spec, w, d, env), true), env.send)
  {
    var on := w.(run := InRunning(w.run).(node := d.nextNode, attempt := 0));
    assert DecisionStage(cfg, spec, w, d, env) == Done(on, Proceed);
    u := RunningEnds(cfg, spec, on, Some(d), env);
  }

  /** One more attempt on the node has failed. */
  function FailedOnce(s: RunState): RunState {
    s.(attempt := s.attempt + 1, usedGlobal := s.usedGlobal + 1)
  }

  /** Where a failure leads: the next attempt while both budgets last, and otherwise a pause for recovery. */
  predicate FailureLeads(cfg: Config, w: World, u: World, v: World, env: Env) {
    var s := FailedOnce(w.run);
    if s.attempt < s.perNode && s.usedGlobal < s.globalLimit then WorksOn(cfg, w.(run := InRunning(s)), u, v, env.send)
    else PauseLeads(cfg, w.(run := PausedAt(s, "recovery", true)), v, true, env.auto)
  }

  lemma ChargeEnds(s: RunState)
    requires s.top in {Attached, Gating, Verifying}
    ensures var t := FailedOnce(s);
            ChargeFailure(s) == Done(if t.attempt < t.perNode && t.usedGlobal < t.globalLimit then InRunning(t)
                                     else PausedAt(t, "recovery", true), ())
  {
  }

  lemma RetryEnds(cfg: Config, spec: Spec, w: World, d: Decision, env: Env) returns (u: World)
    requires Knows(spec, w.run.node) && w.run.top in {Attached, Gating} && d.kind == Retry
    ensures FailureLeads(cfg, w.(run := w.run.(reInjects := 0), log := w.log + [RetryDecided(w.run.node)]), u,
                         Settle(DecideAndWork(cfg, spec, w, d, env), true), env)
  {
    var s := w.run.(reInjects := 0);
    ChargeEnds(s);
    var w1 := w.(run := ChargeFailure(s).state, log := w.log + [RetryDecided(w.run.node)]);
    u := w1;
    if w1.run.top == Running {
      assert DecisionStage(cfg, spec, w, d, env) == Done(w1, Proceed);
      u := RunningEnds(cfg, spec, w1, Some(d), env);
    } else {
      assert DecisionStage(cfg, spec, w, d, env) == MaybeIntervene(cfg, spec, w1, env.auto);
      PauseEnds(cfg, spec, w1, Some(d), env);
    }
  }

  lemma ReInjectEnds(cfg: Config, spec: Spec, w: World, d: Decision, env: Env) returns (u: World)
    requires Knows(spec, w.run.node) && w.run.top in {Attached, Gating} && d.kind == ReInject
    ensures var s := w.run.(reInjects := w.run.reInjects + 1);
            var v := Settle(DecideAndWork(cfg, spec, w, d, env), true);
            if s.reInjects > 3 then v == w.(run := PausedAt(s, "recovery", false), phase := Batch(false))
            else if s.top == Gating then v == w.(run := s, phase := Batch(false))
            else
              && HandOver(cfg, w.(run := s), u, Prompt(s.node, s.attempt), env.send)
              && v == (if EndsSidecar(cfg, s, env.send) then Dead(u) else u.(phase := Batch(true)))
  {
    var s := w.run.(reInjects := w.run.reInjects + 1);
    var w1 := w.(run := if s.reInjects > 3 then PausedAt(s, "recovery", false) else s);
    u := w1;
    if s.reInjects > 3 {
      PauseEnds(cfg, spec, w1, Some(d), env);
    } else if s.top == Gating {
      assert DecisionStage(cfg, spec, w, d, env) == Done(w1, Proceed);
    } else {
      HandOverEnds(cfg, spec, w1, false, env.send);
      u := SaveAndSend(cfg, spec, w1, false, env.send).state;
    }
  }

  // ----- verification --------------------------------------------------------------------

  /** The record while a step is verified, with the result. */
  function InVerification(s: RunState, ok: bool): RunState {
    s.(top := Verifying, lastActive := Verifying, reInjects := 0, verification := Verdict(ok))
  }

  function Finished(s: RunState): RunState {
    if s.node in s.done then s else s.(done := s.done + [s.node])
  }

  lemma VerifyStepGoesOn(cfg: Config, spec: Spec, w: World, d: Decision, env: Env)
    requires Knows(spec, w.run.node) && w.run.top in {Attached, Gating} && d.kind == VerifyStep
    ensures var s := w.run.(top := Verifying, lastActive := Verifying, reInjects := 0);
            DecideAndWork(cfg, spec, w, d, env) == WorkStages(cfg, spec, w.(run := s), Some(d), env)
  {
    var s := w.run.(top := Verifying, lastActive := Verifying, reInjects := 0);
    assert DecisionStage(cfg, spec, w, d, env) == Done(w.(run := s), Proceed);
  }

  /** After a verification: the run works on, or stands paused, or is complete, or git has raised. */
  lemma VerifiedGoesOn(cfg: Config, spec: Spec, w: World, d: Decision, env: Env) returns (u: World)
    requires w.run.top == Verifying && d.kind == VerifyStep && Knows(spec, w.run.node)
    requires var o := ApplyVerification(spec, w.run, env.verifyOk, env.git, env.finishRecoverable);
             o.Done? ==> Knows(spec, o.state.node) && (o.state.top.PausedForHuman? ==> o.state.escalations != [])
    ensures var o := ApplyVerification(spec, w.run, env.verifyOk, env.git, env.finishRecoverable);
            var w1 := w.(run := o.state, log := w.log + [Verified(w.run.node, env.verifyOk)]);
            var v := Settle(WorkStages(cfg, spec, w, Some(d), env), true);
            if o.Raised? then v == Dead(w1)
            else if o.state.top == Running then WorksOn(cfg, w1, u, v, env.send)
            else if o.state.top == PausedForHuman then
              PauseLeads(cfg, w1, v, o.state.escalations[|o.state.escalations| - 1].recoverable, env.auto)
            else v == w1.(phase := Batch(false))
  {
    var o := ApplyVerification(spec, w.run, env.verifyOk, env.git, env.finishRecoverable);
    var w1 := w.(run := o.state, log := w.log + [Verified(w.run.node, env.verifyOk)]);
    u := w1;
    if o.Done? {
      assert VerifyStage(cfg, spec, w, env) == MaybeIntervene(cfg, spec, w1, env.auto);
      if w1.run.top == PausedForHuman {
        PauseEnds(cfg, spec, w1, Some(d), env);
      } else {
        assert WorkStages(cfg, spec, w, Some(d), env) == InjectStage(cfg, spec, w1, Some(d), env);
        if w1.run.top == Running {
          u := RunningEnds(cfg, spec, w1, Some(d), env);
        }
      }
    }
  }
}
