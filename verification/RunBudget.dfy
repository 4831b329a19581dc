/** Retry budgets: what is charged, how often a run can fail, and why it terminates. */
module RunBudget {
  import opened Options
  import StateMachine
  import opened Plan
  import opened FinishGate
  import opened Gates
  import opened RunModel
  import opened RunSteps
  import RunFrames
  import opened RunProgress

  predicate IsFailure(e: LogEvent) {
    e.RetryDecided? || (e.Verified? && !e.ok)
  }

  /** Failed verifications and retry decisions so far. */
  function Failures(log: seq<LogEvent>): nat {
    if log == [] then 0 else Failures(log[..|log| - 1]) + if IsFailure(log[|log| - 1]) then 1 else 0
  }

  lemma FailuresAfter(log: seq<LogEvent>, e: LogEvent)
    ensures Failures(log + [e]) == Failures(log) + if IsFailure(e) then 1 else 0
  {
    assert (log + [e])[..|log|] == log;
  }

  // ----- accounting, over all runs -------------------------------------------------------

  /** Every failure is charged, or among the `lost`; nothing is saved that was not charged, and a
      sidecar that is down has only what was saved. */
  predicate Charged(lost: nat, w: World) {
    && w.run.attempt <= w.run.usedGlobal && w.disk.attempt <= w.disk.usedGlobal
    && w.disk.usedGlobal <= w.run.usedGlobal
    && w.run.usedGlobal + lost == Failures(w.log)
    && (w.phase.Down? ==> w.run == w.disk)
  }

  lemma TakeKeepsCharged(spec: Spec, lost: nat, w: World, cp: Checkpoint, d: Option<Decision>, git: GitStatus,
      fr: bool)
    requires Charged(lost, w) && !w.phase.Down?
    ensures Charged(lost, TakeCheckpoint(spec, w, cp, d, git, fr))
  {
    RunFrames.ArrivalIsQuiet(w.run, cp);
    var s := Arrived(w.run, cp);
    if d.Some? && MayDecide(spec, s, d.value) {
      DecisionCharges(spec, s, d.value, git, fr);
      FailuresAfter(w.log, RetryDecided(s.node));
    }
  }

  lemma DecisionCharges(spec: Spec, s: RunState, d: Decision, git: GitStatus, fr: bool)
    ensures var t := ApplyDecision(spec, s, d, git, fr).state;
            if d.kind.Retry? then t.usedGlobal == s.usedGlobal + 1 && t.attempt == s.attempt + 1
            else t.usedGlobal == s.usedGlobal && t.attempt in {0, s.attempt}
  {
    if !d.kind.Branch? {
      DecisionKeepsWork(spec, s, d, git, fr);
    }
  }

  lemma VerificationCharges(spec: Spec, s: RunState, ok: bool, git: GitStatus, fr: bool)
    ensures var t := ApplyVerification(spec, s, ok, git, fr).state;
            if ok then t.usedGlobal == s.usedGlobal && t.attempt in {0, s.attempt}
            else t.usedGlobal == s.usedGlobal + 1 && t.attempt == s.attempt + 1
  {
    var s1 := s.(verification := Verdict(ok));
    if !ok {
      FailureStaysPut(s1);
    } else {
      FinishingStaysPut(spec, if s1.node in s1.done then s1 else s1.(done := s1.done + [s1.node]), git, fr);
    }
  }

  lemma CheckKeepsCharged(spec: Spec, lost: nat, w: World, ok: bool, git: GitStatus, fr: bool)
    requires Charged(lost, w) && !w.phase.Down?
    ensures Charged(lost, Checked(spec, w, ok, git, fr))
  {
    VerificationCharges(spec, w.run, ok, git, fr);
    FailuresAfter(w.log, Verified(w.run.node, ok));
  }

  lemma DaemonKeepsCharged(spec: Spec, lost: nat, w: World, m: Elem)
    requires Charged(lost, w) && OfDaemon(m) && w.phase.Down?
    ensures Charged(lost, DoElem(spec, w, m))
  {
    RunFrames.DaemonSteps(spec, w, m);
    RunFrames.RecoveryIsQuiet(w.disk);
    if m.Ack? {
      AckIsQuiet(spec, w.disk, m.reviewer, m.git);
      FailuresAfter(w.log, ReviewAcked(m.reviewer));
    }
  }

  lemma SidecarKeepsCharged(spec: Spec, lost: nat, w: World, m: Elem)
    requires Charged(lost, w) && !w.phase.Down?
    requires !m.Take? && !m.Check? && !m.Stop? && !m.Die? && !OfDaemon(m)
    ensures Charged(lost, DoElem(spec, w, m))
  {
    RunFrames.QuietSteps(spec, w, m);
    var v := DoElem(spec, w, m);
    FailuresAfter(w.log, Prompt(w.run.node, w.run.attempt));
    FailuresAfter(w.log, Direct(w.run.node, w.run.attempt));
    FailuresAfter(w.log, AutoIntervened(w.run.node));
    NeverDown(spec, w, m);
  }

  lemma NeverDown(spec: Spec, w: World, m: Elem)
    requires !w.phase.Down? && !m.Stop? && !m.Die?
    ensures !DoElem(spec, w, m).phase.Down?
  {
  }

  lemma ElemKeepsCharged(spec: Spec, lost: nat, w: World, m: Elem)
    requires Charged(lost, w) && !m.Die?
    ensures Charged(lost, DoElem(spec, w, m))
  {
    if OfDaemon(m) {
      if w.phase.Down? {
        DaemonKeepsCharged(spec, lost, w, m);
      }
    } else if !w.phase.Down? {
      match m {
        case Take(cp, d, git, fr) => TakeKeepsCharged(spec, lost, w, cp, d, git, fr);
        case Check(ok, git, fr) => CheckKeepsCharged(spec, lost, w, ok, git, fr);
        case Stop =>
        case _ => SidecarKeepsCharged(spec, lost, w, m);
      }
    }
  }

  /** What a crash in this world loses: the charges not yet saved. */
  function Unsaved(w: World): nat {
    if w.disk.usedGlobal < w.run.usedGlobal then w.run.usedGlobal - w.disk.usedGlobal else 0
  }

  /** The charges lost to the crashes among the first `n` operations. */
  function Lost(ops: seq<Op>, ws: seq<World>, n: nat): nat
    requires n <= |ops| && |ws| == |ops| + 1
  {
    if n == 0 then 0 else Lost(ops, ws, n - 1) + if ops[n - 1].CrashOp? then Unsaved(ws[n - 1]) else 0
  }

  lemma CrashLoses(cfg: Config, spec: Spec, lost: nat, w: World)
    requires Charged(lost, w)
    ensures Charged(lost + Unsaved(w), Step(cfg, spec, w, CrashOp))
  {
  }

  /** In every run, every failure is charged to the global budget or was lost to a crash before it
      was saved; and the charge bounds the attempts on the current node. */
  lemma {:induction false} ChargesCountFailures(cfg: Config, spec: Spec, ops: seq<Op>, ws: seq<World>, n: nat)
    requires IsRun(cfg, spec, ops, ws) && n < |ws|
    ensures ws[n].run.usedGlobal + Lost(ops, ws, n) == Failures(ws[n].log)
    ensures ws[n].run.attempt <= ws[n].run.usedGlobal
    ensures Charged(Lost(ops, ws, n), ws[n])
  {
    if n > 0 {
      var w, op, lost := ws[n - 1], ops[n - 1], Lost(ops, ws, n - 1);
      ChargesCountFailures(cfg, spec, ops, ws, n - 1);
      assert ws[n] == Step(cfg, spec, w, op);
      if op.CrashOp? {
        CrashLoses(cfg, spec, lost, w);
      } else {
        var J := (v: World) => Charged(lost, v);
        forall v, m | Charged(lost, v) && Performs(cfg, op, m)
          ensures Charged(lost, DoElem(spec, v, m))
        {
          ElemKeepsCharged(spec, lost, v, m);
        }
        RunIsHandedOver(cfg, spec, ops, ws, n - 1);
        StepKeeps(Setting(cfg, spec, op), J, w);
      }
    }
  }

  lemma {:induction false} NothingLostIff(ops: seq<Op>, ws: seq<World>, n: nat)
    requires n <= |ops| && |ws| == |ops| + 1
    ensures Lost(ops, ws, n) == 0 <==> forall i :: 0 <= i < n && ops[i].CrashOp? ==> Unsaved(ws[i]) == 0
  {
    if n > 0 {
      NothingLostIff(ops, ws, n - 1);
    }
  }

  /** So the charge is the number of failures exactly when every crash found it saved. */
  lemma ChargesAreExactIff(cfg: Config, spec: Spec, ops: seq<Op>, ws: seq<World>, n: nat)
    requires IsRun(cfg, spec, ops, ws) && n < |ws|
    ensures ws[n].run.usedGlobal == Failures(ws[n].log)
       <==> forall i :: 0 <= i < n && ops[i].CrashOp? ==> ws[i].disk.usedGlobal == ws[i].run.usedGlobal
  {
    ChargesCountFailures(cfg, spec, ops, ws, n);
    NothingLostIff(ops, ws, n);
    forall i | 0 <= i < n
      ensures Unsaved(ws[i]) == 0 <==> ws[i].disk.usedGlobal == ws[i].run.usedGlobal
    {
      ChargesCountFailures(cfg, spec, ops, ws, i);
    }
  }

  // ----- termination ---------------------------------------------------------------------

  /** What is left to spend: global retries and unfinished nodes. */
  function Remaining(spec: Spec, s: RunState): int {
    (s.globalLimit - s.usedGlobal) + (|spec.nodes| - |s.done|)
  }

  /** Every verification that leaves the run neither halted nor raising uses up something, and
      something is left; where it raises, the whole plan is done. */
  lemma VerificationSpends(spec: Spec, s: RunState, ok: bool, git: GitStatus, fr: bool)
    requires Linear(spec) && OnPlan(spec, s) && s.top.Verifying?
    requires !Halted(ApplyVerification(spec, s, ok, git, fr).state)
    ensures var o := ApplyVerification(spec, s, ok, git, fr);
            var t := o.state;
            if o.Raised? then ok && t.done == Ids(spec) && t.attempt == s.attempt && t.usedGlobal == s.usedGlobal
            else && Remaining(spec, t) == Remaining(spec, s) - 1
                 && (if ok then |t.done| < |spec.nodes| else t.usedGlobal < t.globalLimit && t.attempt < t.perNode)
  {
    VerificationAdvances(spec, s, ok, git, fr);
    WorkingMeansUnfinished(spec, s, ok, git, fr);
  }

  lemma WorkingMeansUnfinished(spec: Spec, s: RunState, ok: bool, git: GitStatus, fr: bool)
    requires Linear(spec) && OnPlan(spec, s) && s.top.Verifying?
    requires !Halted(ApplyVerification(spec, s, ok, git, fr).state)
    ensures ok ==> (|s.done| + 1 < |spec.nodes| <==> ApplyVerification(spec, s, ok, git, fr).Done?)
    ensures !ok ==> ApplyVerification(spec, s, ok, git, fr).Done?
                    && s.attempt + 1 < s.perNode && s.usedGlobal + 1 < s.globalLimit
  {
    CurrentIsNew(spec, s);
  }

  /** So does every retry decision. */
  lemma RetrySpends(spec: Spec, s: RunState, d: Decision, git: GitStatus, fr: bool)
    requires d.kind.Retry? && (s.top.Gating? || s.top.Attached?)
    requires !Halted(ApplyDecision(spec, s, d, git, fr).state)
    ensures var t := ApplyDecision(spec, s, d, git, fr).state;
            Remaining(spec, t) == Remaining(spec, s) - 1 && t.usedGlobal < t.globalLimit && t.attempt < t.perNode
  {
  }

  /** The most failures a run of `n` nodes can see. */
  function Bound(spec: Spec): int {
    var perPlan := |spec.nodes| * (spec.perNode - 1) + 1;
    if spec.globalLimit <= perPlan then spec.globalLimit else perPlan
  }

  predicate Budgeted(spec: Spec) {
    spec.perNode >= 1 && spec.globalLimit >= 1
  }

  /** A run that still works has kept inside both budgets on every node so far. */
  ghost predicate WithinBudget(spec: Spec, s: RunState) {
    && spec.nodes != []
    && s.attempt < spec.perNode
    && s.usedGlobal < spec.globalLimit
    && s.usedGlobal <= Position(spec, s) * (spec.perNode - 1) + s.attempt
  }

  ghost predicate Frugal(spec: Spec, w: World) {
    && Failures(w.log) <= Bound(spec)
    && (!w.phase.Down? ==>
          && OnPlan(spec, w.run)
          && w.run.perNode == spec.perNode && w.run.globalLimit == spec.globalLimit
          && w.run.usedGlobal == Failures(w.log)
          && (!Halted(w.run) ==> WithinBudget(spec, w.run)))
  }

  lemma PlanProduct(k: nat, n: nat, p: int)
    requires k < n && p >= 0
    ensures (k + 1) * p == k * p + p && (k + 1) * p <= n * p
  {
    assert (n - (k + 1)) * p >= 0;
    assert n * p == (k + 1) * p + (n - (k + 1)) * p;
  }

  /** One more failure stays within the bound, and pauses the run unless both budgets allow it. */
  lemma FailureFits(spec: Spec, s: RunState)
    requires Linear(spec) && Budgeted(spec) && WithinBudget(spec, s)
    requires s.perNode == spec.perNode && s.globalLimit == spec.globalLimit
    requires s.top in {StateMachine.Attached, StateMachine.Gating, StateMachine.Verifying}
    ensures s.usedGlobal + 1 <= Bound(spec)
    ensures var t := ChargeFailure(s).state; !Halted(t) ==> t.attempt < spec.perNode && t.usedGlobal < spec.globalLimit
  {
    PlanProduct(Position(spec, s), |spec.nodes|, spec.perNode - 1);
  }

  lemma DecisionKeepsFrugal(spec: Spec, w: World, d: Decision, git: GitStatus, fr: bool)
    requires Linear(spec) && Budgeted(spec) && Frugal(spec, w) && !w.phase.Down? && MayDecide(spec, w.run, d)
    ensures Frugal(spec, Decided(spec, w, d, git, fr))
  {
    LinearNeverBranches(spec, w.run, d);
    DecisionKeepsWork(spec, w.run, d, git, fr);
    if d.kind.Retry? {
      FailureFits(spec, w.run.(reInjects := 0));
      FailuresAfter(w.log, RetryDecided(w.run.node));
    }
  }

  lemma TakeKeepsFrugal(spec: Spec, w: World, cp: Checkpoint, d: Option<Decision>, git: GitStatus, fr: bool)
    requires Linear(spec) && Budgeted(spec) && Frugal(spec, w) && !w.phase.Down?
    ensures Frugal(spec, TakeCheckpoint(spec, w, cp, d, git, fr))
  {
    RunFrames.ArrivalIsQuiet(w.run, cp);
    var w1 := w.(run := Arrived(w.run, cp));
    assert Frugal(spec, w1);
    if d.Some? && MayDecide(spec, w1.run, d.value) {
      DecisionKeepsFrugal(spec, w1, d.value, git, fr);
    }
  }

  /** One more node, or one more failure, within both budgets. */
  lemma SpentWithinBudget(spec: Spec, s: RunState, ok: bool, t: RunState)
    requires Budgeted(spec) && WithinBudget(spec, s)
    requires if ok then |t.done| == |s.done| + 1 < |spec.nodes| && t.attempt == 0 && t.usedGlobal == s.usedGlobal
             else Position(spec, t) == Position(spec, s) && t.attempt == s.attempt + 1 < spec.perNode
                  && t.usedGlobal == s.usedGlobal + 1 < spec.globalLimit
    ensures WithinBudget(spec, t)
  {
    PlanProduct(Position(spec, s), |spec.nodes|, spec.perNode - 1);
  }

  lemma VerificationStaysWithinBudget(spec: Spec, s: RunState, ok: bool, git: GitStatus, fr: bool)
    requires Linear(spec) && Budgeted(spec) && OnPlan(spec, s) && WithinBudget(spec, s) && s.top.Verifying?
    requires s.perNode == spec.perNode && s.globalLimit == spec.globalLimit
    ensures var t := ApplyVerification(spec, s, ok, git, fr).state; !Halted(t) ==> WithinBudget(spec, t)
    ensures !ok ==> s.usedGlobal + 1 <= Bound(spec)
  {
    var t := ApplyVerification(spec, s, ok, git, fr).state;
    if !ok {
      FailureFits(spec, s.(verification := Verdict(ok)));
    }
    if !Halted(t) {
      VerificationAdvances(spec, s, ok, git, fr);
      WorkingMeansUnfinished(spec, s, ok, git, fr);
      if ApplyVerification(spec, s, ok, git, fr).Done? {
        SpentWithinBudget(spec, s, ok, t);
      }
    }
  }

  lemma CheckKeepsFrugal(spec: Spec, w: World, ok: bool, git: GitStatus, fr: bool)
    requires Linear(spec) && Budgeted(spec) && Frugal(spec, w) && !w.phase.Down? && w.run.top.Verifying?
    ensures Frugal(spec, Checked(spec, w, ok, git, fr))
  {
    VerificationAdvances(spec, w.run, ok, git, fr);
    VerificationStaysOnPlan(spec, w.run, ok, git, fr);
    VerificationStaysWithinBudget(spec, w.run, ok, git, fr);
    FailuresAfter(w.log, Verified(w.run.node, ok));
  }

  lemma HaltedStays(spec: Spec, w: World, m: Elem)
    requires Halted(w.run) && !w.phase.Down?
    requires !m.Take? && !m.Check? && !m.Stop? && !m.Die? && !m.Intervene? && !OfDaemon(m)
    ensures Halted(DoElem(spec, w, m).run)
  {
  }

  lemma SidecarKeepsFrugal(spec: Spec, w: World, m: Elem)
    requires Frugal(spec, w) && !w.phase.Down?
    requires !m.Take? && !m.Check? && !m.Stop? && !m.Die? && !m.Intervene? && !OfDaemon(m)
    ensures Frugal(spec, DoElem(spec, w, m))
  {
    RunFrames.QuietSteps(spec, w, m);
    FailuresAfter(w.log, Prompt(w.run.node, w.run.attempt));
    FailuresAfter(w.log, Direct(w.run.node, w.run.attempt));
    FailuresAfter(w.log, AutoIntervened(w.run.node));
    var v := DoElem(spec, w, m);
    if Halted(w.run) {
      HaltedStays(spec, w, m);
    }
  }

  lemma DaemonKeepsFrugal(spec: Spec, w: World, m: Elem)
    requires Frugal(spec, w) && w.phase.Down? && OfDaemon(m) && !m.Resume?
    ensures Frugal(spec, DoElem(spec, w, m))
  {
    RunFrames.DaemonSteps(spec, w, m);
    if m.Ack? {
      FailuresAfter(w.log, ReviewAcked(m.reviewer));
    }
  }

  lemma ElemKeepsFrugal(spec: Spec, w: World, m: Elem)
    requires Linear(spec) && Budgeted(spec) && Frugal(spec, w)
    requires !m.Resume? && !m.Intervene?
    ensures Frugal(spec, DoElem(spec, w, m))
  {
    if OfDaemon(m) {
      if w.phase.Down? {
        DaemonKeepsFrugal(spec, w, m);
      }
    } else if !w.phase.Down? {
      match m {
        case Take(cp, d, git, fr) => TakeKeepsFrugal(spec, w, cp, d, git, fr);
        case Check(ok, git, fr) =>
          if w.run.top.Verifying? {
            CheckKeepsFrugal(spec, w, ok, git, fr);
          }
        case Stop =>
        case Die =>
        case _ => SidecarKeepsFrugal(spec, w, m);
      }
    }
  }

  /** With both budgets at least one, and without auto-intervention or resume, a linear run of n
      nodes sees at most min(G, n * (P - 1) + 1) failures before it stops working. */
  lemma FailuresAreBounded(cfg: Config, spec: Spec, ops: seq<Op>, ws: seq<World>, w: World)
    requires IsRun(cfg, spec, ops, ws) && w in ws
    requires Linear(spec) && Budgeted(spec)
    requires !cfg.autoEnabled && ResumeOp !in ops
    ensures Failures(w.log) <= Bound(spec)
  {
    var J := (v: World) => Frugal(spec, v);
    forall op | op in ops
      ensures Keeps(Setting(cfg, spec, op), J)
    {
      forall v, m | Frugal(spec, v) && Performs(cfg, op, m)
        ensures Frugal(spec, DoElem(spec, v, m))
      {
        ElemKeepsFrugal(spec, v, m);
      }
    }
    StartIsFrugal(spec);
    RunKeeps(cfg, spec, ops, ws, J, w);
  }

  lemma StartIsFrugal(spec: Spec)
    requires Linear(spec) && Budgeted(spec)
    ensures Frugal(spec, Start(spec))
  {
    assert |spec.nodes| * (spec.perNode - 1) >= 0;
  }
}
