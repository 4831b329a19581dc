/** What the other iterations of the loop and the operations of the daemon lead to: boot, the end of a batch,
    timeouts, a retry by the runtime, resume, orphan recovery and review. */
module RunIterations {
  import opened Options
  import opened StateMachine
  import opened Plan
  import opened FinishGate
  import Gates
  import opened RunModel
  import opened RunOutcomes

  // ----- the loop ------------------------------------------------------------------------

  /** A sidecar that polls again, with nothing left to send. */
  function Polls(w: World): World {
    w.(phase := Polling, deferred := None)
  }

  /** Where a handover outside a batch leads: on, or to the end of the sidecar. */
  predicate Sends(cfg: Config, w: World, u: World, v: World, env: SendEnv) {
    && HandOver(cfg, w, u, Prompt(w.run.node, w.run.attempt), env)
    && v == (if EndsSidecar(cfg, w.run, env) then Dead(u) else Polls(u))
  }

  /** Where a fresh run gets, once it is saved as attached. */
  predicate FreshBoot(cfg: Config, attached: World, u: World, v: World, read: FirstRead, env: SendEnv) {
    if read in {ReadFails, ReadUnparsable} then v == Dead(attached)
    else if read == CheckpointSeen then v == Polls(attached.(run := Told(attached.run)))
    else if cfg.observationOnly then v == Polls(attached)
    else Sends(cfg, attached, u, v, env)
  }

  lemma FreshBootLeads(cfg: Config, spec: Spec, w: World, op: Op) returns (u: World)
    requires Enabled(w, op) && op.BootOp? && Knows(spec, w.run.node) && w.run.top == Ready
    ensures var s := w.run.(top := Attached, lastActive := Attached);
            FreshBoot(cfg, w.(run := s, disk := s), u, Step(cfg, spec, w, op), op.read, op.send)
  {
    var s := w.run.(top := Attached, lastActive := Attached);
    var attached := w.(run := s, disk := s);
    u := SaveAndSend(cfg, spec, attached, false, op.send).state;
    HandOverEnds(cfg, spec, attached, false, op.send);
  }

  /** A booting sidecar pauses a recovery cut short; it hands a fresh run over, once the record is saved as
      attached, unless the agent is already at work or the surface takes nothing; and it goes on with any
      other. */
  lemma BootLeads(cfg: Config, spec: Spec, w: World, op: Op) returns (u: World)
    requires Enabled(w, op) && op.BootOp? && Knows(spec, w.run.node)
    ensures var v, s := Step(cfg, spec, w, op), w.run.(top := Attached, lastActive := Attached);
            if w.run.top == RecoveryNeeded then v == Dead(w.(run := PausedAt(w.run, "recovery", false)))
            else if w.run.top == Ready then FreshBoot(cfg, w.(run := s, disk := s), u, v, op.read, op.send)
            else v == Polls(w)
  {
    u := w;
    if w.run.top == RecoveryNeeded {
      assert PauseForHuman(w.run, Escalation("recovery", false)) == Done(PausedAt(w.run, "recovery", false), ());
    } else if w.run.top == Ready {
      u := FreshBootLeads(cfg, spec, w, op);
    }
  }

  /** At the end of a batch that was not cut short, guidance that still applies is sent; then the record is
      saved, and the sidecar of a run that has halted ends. */
  lemma EndBatchLeads(cfg: Config, spec: Spec, w: World, op: Op) returns (u: World)
    requires Enabled(w, op) && op.EndBatchOp? && Knows(spec, w.run.node)
    ensures var v := Step(cfg, spec, w, op);
            if w.run.top == Running && w.phase == Batch(false) && w.deferred == Some((w.run.node, w.run.attempt)) then
              && HandOver(cfg, w, u, Prompt(w.run.node, w.run.attempt), op.send)
              && v == (if EndsSidecar(cfg, w.run, op.send) then Dead(u) else Polls(u.(disk := u.run)))
            else if w.run.top in {PausedForHuman, Completed, Failed, Aborted} then v == Dead(w)
            else v == Polls(w.(disk := w.run))
  {
    u := SaveAndSend(cfg, spec, w, false, op.send).state;
    if w.run.top == Running {
      HandOverEnds(cfg, spec, w, false, op.send);
    }
  }

  /** A retry by the runtime hands the instruction over once more. */
  lemma RuntimeRetryLeads(cfg: Config, spec: Spec, w: World, op: Op) returns (u: World)
    requires Enabled(w, op) && op.RuntimeRetryOp? && Knows(spec, w.run.node) && w.run.top in {Attached, Running, Gating}
    ensures Sends(cfg, w, u, Step(cfg, spec, w, op), op.send)
  {
    u := SaveAndSend(cfg, spec, w, false, op.send).state;
    HandOverEnds(cfg, spec, w, false, op.send);
  }

  /** A delivery that times out starts recovery; if that works, the loop waits anew from the last report. */
  lemma DeliveryTimeoutLeads(cfg: Config, spec: Spec, w: World, op: Op) returns (u: World)
    requires Enabled(w, op) && op.DeliveryTimeoutOp? && Knows(spec, w.run.node)
    requires w.run.top in {Attached, Running, Gating}
    ensures var v := Step(cfg, spec, w, op);
            && RecoveryLeads(cfg, w.(run := w.run.(delivery := TimedOut)), u, true, op.auto)
            && (if Succeeds(cfg, w.run, true, op.auto) then
                  var s := u.run.(lastInjectionSeq := w.run.checkpointSeq);
                  v == u.(run := s, disk := s, phase := Polling)
                else v == Dead(u))
  {
    var late := w.(run := w.run.(delivery := TimedOut));
    u := RecoverOrPause(cfg, spec, late, true, op.auto).state;
    RecoveryEnds(cfg, spec, late, true, op.auto);
  }

  /** So does an agent that shows no sign of life; away from the attach boundary, the run is gated first. */
  lemma IdleTimeoutLeads(cfg: Config, spec: Spec, w: World, op: Op) returns (u: World)
    requires Enabled(w, op) && op.IdleTimeoutOp? && Knows(spec, w.run.node) && w.run.top in {Attached, Running, Gating}
    ensures var v, s := Step(cfg, spec, w, op), w.run.(question := Gates.NoClass);
            var idle := if s.top == Attached then s else s.(top := Gating, lastActive := Gating);
            && RecoveryLeads(cfg, w.(run := idle), u, true, op.auto)
            && v == (if Succeeds(cfg, w.run, true, op.auto) then u.(phase := Polling) else Dead(u))
  {
    var s := w.run.(question := Gates.NoClass);
    var idle := if s.top == Attached then s else s.(top := Gating, lastActive := Gating);
    assert HandleEvent(w.run, Timeout) == Done(idle, ());
    u := RecoverOrPause(cfg, spec, w.(run := idle), true, op.auto).state;
    RecoveryEnds(cfg, spec, w.(run := idle), true, op.auto);
  }

  /** An interrupt and text that cannot be parsed end the sidecar with its record saved; a crash loses what was
      not. */
  lemma EndsLead(cfg: Config, spec: Spec, w: World, op: Op)
    requires Enabled(w, op) && (op.InterruptOp? || op.UnparsableOp? || op.CrashOp?)
    ensures Step(cfg, spec, w, op) ==
            if op.CrashOp? then w.(run := w.disk, phase := Down, deferred := None) else Dead(w)
  {
  }

  // ----- events and pauses ---------------------------------------------------------------

  /** An event sets the question and, if it brings one, the checkpoint; and it takes a run that is fresh, at work
      or gated to GATING, unless it is an output without a checkpoint. */
  lemma EventLeads(s: RunState, ev: Event)
    ensures var asked := s.(question := if ev.AgentAsk? then ev.question else Gates.NoClass);
            var t := if ev.AgentOutput? && ev.checkpoint != None then asked.(checkpoint := ev.checkpoint) else asked;
            var gated := if s.top in {Ready, Running, Gating} then t.(top := Gating, lastActive := Gating) else t;
            HandleEvent(s, ev) == Done(if ev == AgentOutput(None) then t else gated, ())
  {
  }

  /** A pause needs a known class and a run that is not over. */
  lemma PausesIff(s: RunState, e: Escalation)
    ensures var o := PauseForHuman(s, e);
            if e.pauseClass !in {"business", "safety", "review", "recovery"} then o == Raised(s, UntaggedPause)
            else if s.top in {Completed, Failed, Aborted} then
              o == Raised(PausedAt(s, e.pauseClass, e.recoverable).(top := s.top, escalations := s.escalations),
                          InvalidTopStateTransition)
            else o == Done(PausedAt(s, e.pauseClass, e.recoverable), ())
  {
  }

  /** Recovery can be entered from where the supervisor works, once the run has been handed over. */
  lemma RecoversIff(s: RunState, pauseClass: string)
    ensures var o := EnterRecovery(s, pauseClass);
            if pauseClass != "recovery" then o == Raised(s, UntaggedPause)
            else if s.top in {Attached, Running, Gating, Verifying, RecoveryNeeded} then o == Done(InRecovery(s), ())
            else o == Raised(InRecovery(s).(top := s.top), InvalidTopStateTransition)
  {
  }

  // ----- the daemon ----------------------------------------------------------------------

  /** Resuming a paused record puts it back on the attach boundary if it was paused there, and to work
      otherwise, with nothing pending and nothing counted. Any other record that can be resumed is booted as
      it is. */
  lemma ResumeLeads(cfg: Config, spec: Spec, w: World)
    requires Enabled(w, ResumeOp)
    ensures var v, s := Step(cfg, spec, w, ResumeOp), w.disk;
            var t := s.(delivery := Idle, autoCount := 0, mismatches := 0, lastMismatch := "", escalations := [],
                        prePause := None);
            var back := if s.prePause == Some(Attached) then t.(top := Attached, lastActive := Attached, reInjects := 0)
                        else t.(top := Running, lastActive := Running);
            if s.top == PausedForHuman then v == w.(run := back, disk := back, phase := Booting)
            else v == w.(run := s, phase := Booting)
  {
  }

  /** Orphan recovery pauses a record in which a sidecar was at work. */
  lemma OrphanLeads(cfg: Config, spec: Spec, w: World)
    requires w.phase == Down
    ensures var v, s := Step(cfg, spec, w, OrphanOp), w.disk;
            var paused := s.(top := PausedForHuman, delivery := Idle,
                             escalations := s.escalations + [Escalation("recovery", false)]);
            var orphaned := s.top in {Attached, Running, Gating, Verifying, RecoveryNeeded};
            v == if orphaned then w.(run := paused, disk := paused) else w.(run := s)
  {
  }

  /** An acknowledgement by a known reviewer is logged and, unless git raises, recorded; it completes a run that
      is not over yet exactly if the contract then accepts it. */
  lemma AckLeads(cfg: Config, spec: Spec, w: World, reviewer: string, git: GitStatus)
    requires w.phase == Down
    ensures var v, s := Step(cfg, spec, w, AckOp(reviewer, git)), w.disk.(reviews := w.disk.reviews + {reviewer});
            var logged := w.(log := w.log + [ReviewAcked(reviewer)]);
            var t := if s.top !in {Completed, Failed, Aborted} && Accepts(spec, StandingOf(s), git)
                     then s.(top := Completed) else s;
            if reviewer !in {"human", "stronger_reviewer"} then v == w.(run := w.disk)
            else if NeedsGit(spec) && git == Fails then v == logged
            else v == logged.(run := t, disk := t)
  {
  }
}
