/** Which of the checkpoints on the surface the loop takes up: old numbers and repeated reports change
    nothing, and every other report is put on record (supervisor/loop.py:1160-1256). */
module RunAdmission {
  import opened Options
  import opened Plan
  import FinishGate
  import opened Gates
  import opened RunModel
  import opened RunSteps

  // ----- one checkpoint ------------------------------------------------------------------

  /** The number says nothing against the checkpoint: there is none, it is beyond the last one, or the
      agent has started to count again. */
  predicate NewNumber(s: RunState, seqNo: nat) {
    seqNo == 0 || seqNo > s.checkpointSeq || seqNo == 1 || s.checkpointSeq - seqNo >= 100
  }

  /** The record already has this report. */
  predicate OnRecord(s: RunState, cp: Checkpoint) {
    match s.checkpoint
    case None => false
    case Some(last) => (cp.status, cp.node, cp.summary, cp.seqNo) == (last.status, last.node, last.summary, last.seqNo)
  }

  /** A new report of this run about the current node, or one that an observation-only surface shows
      about a node that is not finished, which is bound to the current one. */
  predicate TakesUp(cfg: Config, s: RunState, cp: Checkpoint) {
    && !cp.foreign && NewNumber(s, cp.seqNo) && !OnRecord(s, cp)
    && (cp.node == s.node || (cfg.observationOnly && cp.node !in s.done))
  }

  lemma TakesUpIff(cfg: Config, s: RunState, cp: Checkpoint)
    ensures Admit(cfg, s, cp) == Accept(cp.(node := s.node)) <==> TakesUp(cfg, s, cp)
    ensures !TakesUp(cfg, s, cp) ==> !Admit(cfg, s, cp).Accept?
  {
    assert cp.node == s.node ==> cp.(node := s.node) == cp;
  }

  // ----- in every run --------------------------------------------------------------------

  /** In every run: a checkpoint of another run, one with a number that the record has passed, unless it
      is 1 or at least 100 behind, and one that the record already has change nothing at all; the batch
      goes on. */
  lemma OldReportsChangeNothing(cfg: Config, spec: Spec, ops: seq<Op>, ws: seq<World>, i: nat)
    requires IsRun(cfg, spec, ops, ws) && i < |ops| && ops[i].CheckpointOp? && Enabled(ws[i], ops[i])
    requires var s, cp := ws[i].run, ops[i].checkpoint;
             || cp.foreign
             || (0 < cp.seqNo <= s.checkpointSeq && cp.seqNo != 1 && s.checkpointSeq - cp.seqNo < 100)
             || OnRecord(s, cp)
    ensures ws[i + 1] == ws[i].(phase := Batch(false))
  {
    assert ws[i + 1] == Step(cfg, spec, ws[i], ops[i]);
  }

  /** The record as far as admission goes. */
  predicate Shows(s: RunState, seqNo: nat, checkpoint: Option<Checkpoint>) {
    s.checkpointSeq == seqNo && s.checkpoint == checkpoint
  }

  lemma LaterKeepsShown(c: Setting, seqNo: nat, checkpoint: Option<Checkpoint>)
    requires !OfDaemonOp(c.op) && !c.op.CrashOp?
    ensures Later(c, (v: World) => Shows(v.run, seqNo, checkpoint))
  {
    forall v: World, m: Elem
        | Shows(v.run, seqNo, checkpoint) && Performs(c.cfg, c.op, m) && !m.Take? && !m.Note?
      ensures Shows(DoElem(c.spec, v, m).run, seqNo, checkpoint)
    {
      if m.Check? {
        CheckKeepsShown(c.spec, v, m);
      } else {
        QuietKeepsShown(c.spec, v, m);
      }
    }
  }

  lemma QuietKeepsShown(spec: Spec, w: World, m: Elem)
    requires !m.Take? && !m.Note? && !m.Check? && !m.Die? && !OfDaemon(m)
    ensures Shows(DoElem(spec, w, m).run, w.run.checkpointSeq, w.run.checkpoint)
  {
  }

  lemma CheckKeepsShown(spec: Spec, w: World, m: Elem)
    requires m.Check?
    ensures Shows(DoElem(spec, w, m).run, w.run.checkpointSeq, w.run.checkpoint)
  {
  }

  lemma DecisionKeepsShown(spec: Spec, s: RunState, d: Decision, git: FinishGate.GitStatus, fr: bool)
    ensures Shows(ApplyDecision(spec, s, d, git, fr).state, s.checkpointSeq, s.checkpoint)
  {
  }

  lemma ArrivalIsShown(s: RunState, cp: Checkpoint)
    ensures Shows(Accepted(s, cp), if cp.seqNo > 0 then cp.seqNo else s.checkpointSeq, s.checkpoint)
    ensures Shows(Arrived(s, cp), if cp.seqNo > 0 then cp.seqNo else s.checkpointSeq, Some(cp))
  {
  }

  lemma TakenIsShown(c: Setting, w: World, seqNo: nat, checkpoint: Option<Checkpoint>)
    requires HandedOver(w) && Enabled(w, c.op) && c.op.CheckpointOp? && TakesUp(c.cfg, w.run, c.op.checkpoint)
    requires seqNo == if c.op.checkpoint.seqNo > 0 then c.op.checkpoint.seqNo else w.run.checkpointSeq
    requires checkpoint == if c.op.env.recorded then Some(c.op.checkpoint.(node := w.run.node)) else w.run.checkpoint
    ensures Shows(Step(c.cfg, c.spec, w, c.op).run, seqNo, checkpoint)
  {
    var bound, env := c.op.checkpoint.(node := w.run.node), c.op.env;
    TakesUpIff(c.cfg, w.run, c.op.checkpoint);
    ArrivalIsShown(w.run, bound);
    LaterKeepsShown(c, seqNo, checkpoint);
    var s := Arrived(w.run, bound);
    if env.recorded && Decides(c.spec, s, env.gate) {
      DecisionKeepsShown(c.spec, s, GateOf(c.spec, s, env.gate), env.git, env.finishRecoverable);
    }
    TakenUpKeeps(c, (v: World) => Shows(v.run, seqNo, checkpoint), w, bound);
  }

  lemma UntakenIsNotShown(c: Setting, w: World, seqNo: nat, checkpoint: Option<Checkpoint>)
    requires HandedOver(w) && Enabled(w, c.op) && c.op.CheckpointOp? && !TakesUp(c.cfg, w.run, c.op.checkpoint)
    requires Shows(w.run, seqNo, checkpoint)
    ensures Shows(Step(c.cfg, c.spec, w, c.op).run, seqNo, checkpoint)
  {
    TakesUpIff(c.cfg, w.run, c.op.checkpoint);
    LaterKeepsShown(c, seqNo, checkpoint);
    UntakenKeeps(c, (v: World) => Shows(v.run, seqNo, checkpoint), w);
  }

  /** In every run: a report that is taken up is put on record with its number, under the current node;
      one whose text cannot be recorded leaves its number alone. Any other leaves both as they were. */
  lemma ReportsAreRecordedIff(cfg: Config, spec: Spec, ops: seq<Op>, ws: seq<World>, i: nat)
    requires IsRun(cfg, spec, ops, ws) && i < |ops| && ops[i].CheckpointOp? && Enabled(ws[i], ops[i])
    ensures var s, t, cp := ws[i].run, ws[i + 1].run, ops[i].checkpoint;
            if TakesUp(cfg, s, cp) then
              && t.checkpointSeq == (if cp.seqNo > 0 then cp.seqNo else s.checkpointSeq)
              && t.checkpoint == (if ops[i].env.recorded then Some(cp.(node := s.node)) else s.checkpoint)
            else
              t.checkpointSeq == s.checkpointSeq && t.checkpoint == s.checkpoint
  {
    var s, cp := ws[i].run, ops[i].checkpoint;
    assert ws[i + 1] == Step(cfg, spec, ws[i], ops[i]);
    RunIsHandedOver(cfg, spec, ops, ws, i);
    if TakesUp(cfg, s, cp) {
      TakenIsShown(Setting(cfg, spec, ops[i]), ws[i], if cp.seqNo > 0 then cp.seqNo else s.checkpointSeq,
                   if ops[i].env.recorded then Some(cp.(node := s.node)) else s.checkpoint);
    } else {
      UntakenIsNotShown(Setting(cfg, spec, ops[i]), ws[i], s.checkpointSeq, s.checkpoint);
    }
  }

  // ----- numbers over a run --------------------------------------------------------------

  /** The operation shows a numbered checkpoint that is taken up. */
  predicate TakesNumber(cfg: Config, w: World, op: Op) {
    Enabled(w, op) && op.CheckpointOp? && op.checkpoint.seqNo > 0 && TakesUp(cfg, w.run, op.checkpoint)
  }

  /** With it, the agent starts to count again. */
  predicate Restarts(cfg: Config, w: World, op: Op) {
    TakesNumber(cfg, w, op) && op.checkpoint.seqNo <= w.run.checkpointSeq
  }

  lemma NumberNeverFalls(cfg: Config, spec: Spec, ops: seq<Op>, ws: seq<World>, i: nat)
    requires IsRun(cfg, spec, ops, ws) && i < |ops|
    requires !ws[i].phase.Down? && !ws[i + 1].phase.Down? && !Restarts(cfg, ws[i], ops[i])
    ensures ws[i].run.checkpointSeq <= ws[i + 1].run.checkpointSeq
  {
    var w, op := ws[i], ops[i];
    assert ws[i + 1] == Step(cfg, spec, w, op);
    if Enabled(w, op) && op.CheckpointOp? {
      ReportsAreRecordedIff(cfg, spec, ops, ws, i);
    } else if Enabled(w, op) && !op.CrashOp? {
      var c, J := Setting(cfg, spec, op), (v: World) => Shows(v.run, w.run.checkpointSeq, w.run.checkpoint);
      LaterKeepsShown(c, w.run.checkpointSeq, w.run.checkpoint);
      RunIsHandedOver(cfg, spec, ops, ws, i);
      StepKeeps(c, J, w);
    }
  }

  lemma {:induction false} NumberStaysReached(cfg: Config, spec: Spec, ops: seq<Op>, ws: seq<World>, i: nat, j: nat)
    requires IsRun(cfg, spec, ops, ws) && i < j < |ws| && TakesNumber(cfg, ws[i], ops[i])
    requires forall k :: i < k <= j ==> !ws[k].phase.Down?
    requires forall k :: i < k < j ==> !Restarts(cfg, ws[k], ops[k])
    ensures ops[i].checkpoint.seqNo <= ws[j].run.checkpointSeq
  {
    if j == i + 1 {
      ReportsAreRecordedIff(cfg, spec, ops, ws, i);
    } else {
      NumberStaysReached(cfg, spec, ops, ws, i, j - 1);
      NumberNeverFalls(cfg, spec, ops, ws, j - 1);
    }
  }

  /** While a sidecar lives and the agent does not start to count again, the numbers of the checkpoints that
      are taken up strictly increase, whatever the surface shows in between. */
  lemma NumbersIncrease(cfg: Config, spec: Spec, ops: seq<Op>, ws: seq<World>, i: nat, j: nat)
    requires IsRun(cfg, spec, ops, ws) && i < j < |ops|
    requires TakesNumber(cfg, ws[i], ops[i]) && TakesNumber(cfg, ws[j], ops[j])
    requires forall k :: i < k <= j ==> !ws[k].phase.Down? && !Restarts(cfg, ws[k], ops[k])
    ensures ops[i].checkpoint.seqNo < ops[j].checkpoint.seqNo
  {
    NumberStaysReached(cfg, spec, ops, ws, i, j);
  }
}
