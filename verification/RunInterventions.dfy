/** Auto-intervention: how often the loop takes a paused or recovering run over by itself before the agent
    makes progress or a human resumes the run (supervisor/interventions.py). */
module RunInterventions {
  import opened Plan
  import FinishGate
  import Gates
  import opened RunModel
  import opened RunSteps
  import opened RunAdmission
  import RunFrames
  import RunProgress

  // ----- the counter ---------------------------------------------------------------------

  /** The counter of a record stays within the limit of the configuration. */
  predicate WithinLimit(cfg: Config, s: RunState) {
    s.autoCount > 0 ==> s.autoCount <= cfg.maxAuto
  }

  predicate LimitedWorld(cfg: Config, w: World) {
    WithinLimit(cfg, w.run) && WithinLimit(cfg, w.disk)
  }

  /** A step that neither takes up a checkpoint nor intervenes nor resumes moves counts between memory
      and disk at most. */
  predicate KeepsCounts(w: World, v: World) {
    {v.run.autoCount, v.disk.autoCount} <= {w.run.autoCount, w.disk.autoCount}
  }

  lemma QuietKeepsCounts(spec: Spec, w: World, m: Elem)
    requires !m.Take? && !m.Note? && !m.Check? && !m.Intervene? && !OfDaemon(m)
    ensures KeepsCounts(w, DoElem(spec, w, m))
  {
  }

  lemma CheckKeepsCounts(spec: Spec, w: World, m: Elem)
    requires m.Check?
    ensures KeepsCounts(w, DoElem(spec, w, m))
  {
  }

  lemma DaemonKeepsCounts(spec: Spec, w: World, m: Elem)
    requires OfDaemon(m)
    ensures var v := DoElem(spec, w, m);
            KeepsCounts(w, v) || (m.Resume? && v.run == v.disk && v.run.autoCount == 0)
  {
    if w.phase.Down? {
      RunFrames.DaemonSteps(spec, w, m);
      if m.Ack? {
        RunProgress.AckIsQuiet(spec, w.disk, m.reviewer, m.git);
      }
    }
  }

  lemma DecisionKeepsCount(spec: Spec, s: RunState, d: Gates.Decision, git: FinishGate.GitStatus, fr: bool)
    ensures ApplyDecision(spec, s, d, git, fr).state.autoCount == s.autoCount
  {
  }

  /** A checkpoint that claims progress resets the count, any other keeps it. */
  lemma TakeCounts(spec: Spec, w: World, m: Elem)
    requires m.Take? || m.Note?
    ensures var v := DoElem(spec, w, m);
            && v.disk == w.disk
            && (|| v.run.autoCount == w.run.autoCount
                || (Gates.ClaimsProgress(m.checkpoint.status) && v.run.autoCount == 0))
  {
    if m.Take? && m.decision.Some? {
      DecisionKeepsCount(spec, Arrived(w.run, m.checkpoint), m.decision.value, m.git, m.finishRecoverable);
    }
  }

  lemma InterventionCounts(spec: Spec, w: World, m: Elem)
    requires m.Intervene?
    ensures var v := DoElem(spec, w, m);
            v == w || (v.run == v.disk && v.run.autoCount == w.run.autoCount + 1 <= m.limit
                       && v.log == w.log + [AutoIntervened(w.run.node)])
  {
  }

  lemma ElemKeepsLimited(cfg: Config, spec: Spec, w: World, m: Elem)
    requires LimitedWorld(cfg, w) && (m.Intervene? ==> m.limit == cfg.maxAuto)
    ensures LimitedWorld(cfg, DoElem(spec, w, m))
  {
    if OfDaemon(m) {
      DaemonKeepsCounts(spec, w, m);
    } else {
      match m {
        case Take(_, _, _, _) => TakeCounts(spec, w, m);
        case Note(_) => TakeCounts(spec, w, m);
        case Check(_, _, _) => CheckKeepsCounts(spec, w, m);
        case Intervene(_, _) => InterventionCounts(spec, w, m);
        case _ => QuietKeepsCounts(spec, w, m);
      }
    }
  }

  /** In every world of a run, in memory and on disk, the counter of auto-interventions is at most the
      number that the configuration allows. */
  lemma AutoCountIsLimited(cfg: Config, spec: Spec, ops: seq<Op>, ws: seq<World>, w: World)
    requires IsRun(cfg, spec, ops, ws) && w in ws
    ensures LimitedWorld(cfg, w)
  {
    var J := (v: World) => LimitedWorld(cfg, v);
    forall op | op in ops
      ensures Keeps(Setting(cfg, spec, op), J)
    {
      forall v, m | LimitedWorld(cfg, v) && Performs(cfg, op, m)
        ensures LimitedWorld(cfg, DoElem(spec, v, m))
      {
        ElemKeepsLimited(cfg, spec, v, m);
      }
    }
    RunKeeps(cfg, spec, ops, ws, J, w);
  }

  // ----- between two resets --------------------------------------------------------------

  /** The interventions on record. */
  function Interventions(log: seq<LogEvent>): nat {
    if log == [] then 0
    else Interventions(log[..|log| - 1]) + if log[|log| - 1].AutoIntervened? then 1 else 0
  }

  lemma InterventionsAfter(log: seq<LogEvent>, e: LogEvent)
    ensures Interventions(log + [e]) == Interventions(log) + if e.AutoIntervened? then 1 else 0
  {
    assert (log + [e])[..|log|] == log;
  }

  /** The operation resumes a paused run, or has a checkpoint taken up that claims progress. */
  predicate Resets(cfg: Config, w: World, op: Op) {
    && Enabled(w, op)
    && (|| (op.ResumeOp? && w.disk.top.PausedForHuman?)
        || (op.CheckpointOp? && TakesUp(cfg, w.run, op.checkpoint) && Gates.ClaimsProgress(op.checkpoint.status)))
  }

  /** All but `base` of the interventions on record are counted, in memory and on disk. */
  predicate Counted(base: nat, w: World) {
    Interventions(w.log) <= base + w.run.autoCount && Interventions(w.log) <= base + w.disk.autoCount
  }

  lemma QuietKeepsCounted(spec: Spec, base: nat, w: World, m: Elem)
    requires Counted(base, w)
    requires !m.Take? && !m.Note? && !m.Check? && !m.Intervene? && !OfDaemon(m)
    ensures Counted(base, DoElem(spec, w, m))
  {
    QuietKeepsCounts(spec, w, m);
    if !m.Stop? && !m.Die? {
      RunFrames.QuietSteps(spec, w, m);
    }
    InterventionsAfter(w.log, Prompt(w.run.node, w.run.attempt));
    InterventionsAfter(w.log, Direct(w.run.node, w.run.attempt));
  }

  lemma TakeKeepsCounted(spec: Spec, base: nat, w: World, m: Elem)
    requires Counted(base, w) && (m.Take? || m.Note?) && !Gates.ClaimsProgress(m.checkpoint.status)
    ensures Counted(base, DoElem(spec, w, m))
  {
    TakeCounts(spec, w, m);
    InterventionsAfter(w.log, RetryDecided(w.run.node));
  }

  lemma CheckKeepsCounted(spec: Spec, base: nat, w: World, m: Elem)
    requires Counted(base, w) && m.Check?
    ensures Counted(base, DoElem(spec, w, m))
  {
    CheckKeepsCounts(spec, w, m);
    InterventionsAfter(w.log, Verified(w.run.node, m.ok));
  }

  lemma DaemonKeepsCounted(spec: Spec, base: nat, w: World, m: Elem)
    requires Counted(base, w) && OfDaemon(m) && !m.Resume?
    ensures Counted(base, DoElem(spec, w, m))
  {
    DaemonKeepsCounts(spec, w, m);
    if w.phase.Down? {
      RunFrames.DaemonSteps(spec, w, m);
      if m.Ack? {
        InterventionsAfter(w.log, ReviewAcked(m.reviewer));
      }
    }
  }

  lemma ElemKeepsCounted(spec: Spec, base: nat, w: World, m: Elem)
    requires Counted(base, w) && !m.Resume?
    requires m.Take? || m.Note? ==> !Gates.ClaimsProgress(m.checkpoint.status)
    ensures Counted(base, DoElem(spec, w, m))
  {
    if OfDaemon(m) {
      DaemonKeepsCounted(spec, base, w, m);
    } else {
      match m {
        case Take(_, _, _, _) => TakeKeepsCounted(spec, base, w, m);
        case Note(_) => TakeKeepsCounted(spec, base, w, m);
        case Check(_, _, _) => CheckKeepsCounted(spec, base, w, m);
        case Intervene(_, _) =>
          InterventionCounts(spec, w, m);
          InterventionsAfter(w.log, AutoIntervened(w.run.node));
        case _ => QuietKeepsCounted(spec, base, w, m);
      }
    }
  }

  lemma LaterKeepsCounted(c: Setting, base: nat)
    requires !c.op.ResumeOp?
    ensures Later(c, (v: World) => Counted(base, v))
  {
    forall v: World, m: Elem | Counted(base, v) && Performs(c.cfg, c.op, m) && !m.Take? && !m.Note?
      ensures Counted(base, DoElem(c.spec, v, m))
    {
      ElemKeepsCounted(c.spec, base, v, m);
    }
  }

  lemma OpKeepsCounted(c: Setting, base: nat)
    requires !c.op.ResumeOp? && (c.op.CheckpointOp? ==> !Gates.ClaimsProgress(c.op.checkpoint.status))
    ensures Keeps(c, (v: World) => Counted(base, v))
  {
    forall v: World, m: Elem | Counted(base, v) && Performs(c.cfg, c.op, m)
      ensures Counted(base, DoElem(c.spec, v, m))
    {
      ElemKeepsCounted(c.spec, base, v, m);
    }
  }

  lemma StepKeepsCounted(cfg: Config, spec: Spec, w: World, op: Op, base: nat)
    requires HandedOver(w) && !Resets(cfg, w, op) && Counted(base, w)
    ensures Counted(base, Step(cfg, spec, w, op))
  {
    var c, J := Setting(cfg, spec, op), (v: World) => Counted(base, v);
    if !Enabled(w, op) || op.ResumeOp? {
    } else if op.CheckpointOp? && !TakesUp(cfg, w.run, op.checkpoint) {
      TakesUpIff(cfg, w.run, op.checkpoint);
      LaterKeepsCounted(c, base);
      UntakenKeeps(c, J, w);
    } else {
      OpKeepsCounted(c, base);
      StepKeeps(c, J, w);
    }
  }

  lemma {:induction false} StaysCounted(cfg: Config, spec: Spec, ops: seq<Op>, ws: seq<World>, i: nat, j: nat)
    requires IsRun(cfg, spec, ops, ws) && i <= j < |ws|
    requires forall k :: i <= k < j ==> !Resets(cfg, ws[k], ops[k])
    ensures Counted(Interventions(ws[i].log), ws[j])
  {
    if i < j {
      StaysCounted(cfg, spec, ops, ws, i, j - 1);
      RunIsHandedOver(cfg, spec, ops, ws, j - 1);
      StepKeepsCounted(cfg, spec, ws[j - 1], ops[j - 1], Interventions(ws[i].log));
      assert ws[j] == Step(cfg, spec, ws[j - 1], ops[j - 1]);
    }
  }

  /** From one reset of a run to the next, however often it crashes in between, the loop intervenes at most
      as often as the configuration allows. */
  lemma InterventionsAreBounded(cfg: Config, spec: Spec, ops: seq<Op>, ws: seq<World>, i: nat, j: nat)
    requires IsRun(cfg, spec, ops, ws) && i <= j < |ws|
    requires forall k :: i <= k < j ==> !Resets(cfg, ws[k], ops[k])
    ensures var n := Interventions(ws[j].log) - Interventions(ws[i].log);
            n > 0 ==> n <= cfg.maxAuto
  {
    StaysCounted(cfg, spec, ops, ws, i, j);
    AutoCountIsLimited(cfg, spec, ops, ws, ws[j]);
  }
}
