/** Progress through a linear plan: over every interleaving of operations, the finished nodes are
    exactly the part of the plan before the current node, and each was verified. */
module RunProgress {
  import opened Options
  import StateMachine
  import opened Plan
  import opened FinishGate
  import opened Gates
  import opened RunModel
  import opened RunSteps
  import opened RunFrames

  /** The finished nodes are the plan prefix before the current node, or the whole plan once the
      last node, which stays current, is finished. */
  ghost predicate OnPlan(spec: Spec, s: RunState) {
    && spec.nodes != []
    && |s.done| <= |spec.nodes|
    && (forall i :: 0 <= i < |s.done| ==> s.done[i] == spec.nodes[i].id)
    && s.node == spec.nodes[Position(spec, s)].id
  }

  /** The plan index of the current node. */
  function Position(spec: Spec, s: RunState): nat
    requires spec.nodes != []
  {
    if |s.done| < |spec.nodes| then |s.done| else |spec.nodes| - 1
  }

  ghost predicate AllVerified(done: seq<string>, log: seq<LogEvent>) {
    forall id :: id in done ==> Verified(id, true) in log
  }

  ghost predicate Tracked(spec: Spec, w: World) {
    && OnPlan(spec, w.run) && AllVerified(w.run.done, w.log)
    && OnPlan(spec, w.disk) && AllVerified(w.disk.done, w.log)
  }

  lemma DecisionKeepsWork(spec: Spec, s: RunState, d: Decision, git: GitStatus, fr: bool)
    requires !d.kind.Branch?
    ensures var t := ApplyDecision(spec, s, d, git, fr).state;
            && t.node == s.node && t.done == s.done && t.reviews == s.reviews && t.verification == s.verification
            && SameLast(s, t)
            && t.perNode == s.perNode && t.globalLimit == s.globalLimit
            && (d.kind.Retry? ==> t.attempt == s.attempt + 1 && t.usedGlobal == s.usedGlobal + 1)
            && (!d.kind.Retry? ==> t.attempt == s.attempt && t.usedGlobal == s.usedGlobal)
  {
    match d.kind {
      case Retry => FailureStaysPut(s.(reInjects := 0));
      case Finish => FinishingStaysPut(spec, s, git, fr);
      case ReInject => PauseStaysPut(s.(reInjects := s.reInjects + 1), Escalation("recovery", false));
      case EscalateToHuman => PauseStaysPut(s, Escalation(PauseClassOf(d.words), d.recoverable));
      case _ =>
    }
  }

  lemma PauseStaysPut(s: RunState, e: Escalation)
    ensures var t := PauseForHuman(s, e).state; SameWork(s, t) && SameLast(s, t)
  {
  }

  lemma LinearNeverBranches(spec: Spec, s: RunState, d: Decision)
    requires Linear(spec) && MayDecide(spec, s, d)
    ensures !d.kind.Branch?
  {
    assert GetNode(spec, s.node) in spec.nodes;
  }

  lemma CurrentIsNew(spec: Spec, s: RunState)
    requires Linear(spec) && OnPlan(spec, s)
    ensures s.node in s.done <==> |s.done| == |spec.nodes|
    ensures NextNodeId(spec, s.node)
         == Some(if Position(spec, s) + 1 < |spec.nodes| then Some(spec.nodes[Position(spec, s) + 1].id) else None)
  {
    var p := Position(spec, s);
    FindInLinear(spec, p);
    if |s.done| == |spec.nodes| {
      assert s.done[p] == s.node;
    } else {
      forall i | 0 <= i < |s.done|
        ensures s.done[i] != s.node
      {
        assert spec.nodes[i].id != spec.nodes[p].id;
      }
    }
  }

  /** Pausing and charging a failure leave the plan position alone. */
  lemma FailureStaysPut(s: RunState)
    ensures var t := ChargeFailure(s).state;
            && t.node == s.node && t.done == s.done && t.reviews == s.reviews && t.verification == s.verification
            && SameLast(s, t) && t.perNode == s.perNode && t.globalLimit == s.globalLimit
            && t.attempt == s.attempt + 1 && t.usedGlobal == s.usedGlobal + 1
  {
  }

  lemma FinishingStaysPut(spec: Spec, s: RunState, git: GitStatus, fr: bool)
    ensures var o := if FinishOk(spec, s, git) then Transition(s, StateMachine.Completed)
                     else PauseForHuman(s, Escalation("review", fr));
            SameWork(s, o.state) && SameLast(s, o.state)
  {
  }

  /** A successful verification finishes the current node, once, and moves to its successor. */
  lemma VerificationAdvances(spec: Spec, s: RunState, ok: bool, git: GitStatus, fr: bool)
    requires Linear(spec) && OnPlan(spec, s)
    ensures var t := ApplyVerification(spec, s, ok, git, fr).state;
            && t.done == (if ok && |s.done| < |spec.nodes| then s.done + [s.node] else s.done)
            && t.node == (if ok && |s.done| + 1 < |spec.nodes| then spec.nodes[|s.done| + 1].id else s.node)
            && t.reviews == s.reviews && t.verification == Verdict(ok)
            && SameLast(s, t)
            && t.perNode == s.perNode && t.globalLimit == s.globalLimit
            && t.usedGlobal == (if ok then s.usedGlobal else s.usedGlobal + 1)
            && t.attempt == (if !ok then s.attempt + 1 else if |s.done| + 1 < |spec.nodes| then 0 else s.attempt)
  {
    CurrentIsNew(spec, s);
    var s1 := s.(verification := Verdict(ok));
    if !ok {
      FailureStaysPut(s1);
    } else {
      var s2 := if s1.node in s1.done then s1 else s1.(done := s1.done + [s1.node]);
      FinishingStaysPut(spec, s2, git, fr);
    }
  }

  lemma AdvancedIsOnPlan(spec: Spec, s: RunState, ok: bool, t: RunState)
    requires OnPlan(spec, s)
    requires t.done == if ok && |s.done| < |spec.nodes| then s.done + [s.node] else s.done
    requires t.node == if ok && |s.done| + 1 < |spec.nodes| then spec.nodes[|s.done| + 1].id else s.node
    ensures OnPlan(spec, t)
  {
  }

  lemma VerificationStaysOnPlan(spec: Spec, s: RunState, ok: bool, git: GitStatus, fr: bool)
    requires Linear(spec) && OnPlan(spec, s)
    ensures OnPlan(spec, ApplyVerification(spec, s, ok, git, fr).state)
  {
    VerificationAdvances(spec, s, ok, git, fr);
    AdvancedIsOnPlan(spec, s, ok, ApplyVerification(spec, s, ok, git, fr).state);
  }

  /** Steps that only reload a record or leave the work alone. */
  lemma QuietKeepsTracked(spec: Spec, w: World, v: World)
    requires Tracked(spec, w)
    requires SameWork(v.run, w.run) || SameWork(v.run, w.disk)
    requires v.disk == w.disk || v.disk == v.run
    requires forall e :: e in w.log ==> e in v.log
    ensures Tracked(spec, v)
  {
  }

  lemma AckIsQuiet(spec: Spec, s: RunState, reviewer: string, git: GitStatus)
    ensures var t := AckReview(spec, s, reviewer, git).state;
            && SameWork(s.(reviews := t.reviews), t) && SameLast(s, t)
            && t.reviews == (if reviewer in REVIEWERS then s.reviews + {reviewer} else s.reviews)
            && t.prePause == s.prePause && t.lastActive == s.lastActive
            && t.top in {s.top, StateMachine.Completed}
  {
  }

  lemma DaemonKeepsTracked(spec: Spec, w: World, m: Elem)
    requires Tracked(spec, w) && OfDaemon(m) && w.phase.Down?
    ensures Tracked(spec, DoElem(spec, w, m))
  {
    DaemonSteps(spec, w, m);
    RecoveryIsQuiet(w.disk);
    if m.Ack? {
      AckIsQuiet(spec, w.disk, m.reviewer, m.git);
    }
  }

  lemma CheckKeepsTracked(spec: Spec, w: World, ok: bool, git: GitStatus, fr: bool)
    requires Linear(spec) && Tracked(spec, w)
    ensures Tracked(spec, Checked(spec, w, ok, git, fr))
  {
    VerificationAdvances(spec, w.run, ok, git, fr);
    VerificationStaysOnPlan(spec, w.run, ok, git, fr);
    assert Checked(spec, w, ok, git, fr).log == w.log + [Verified(w.run.node, ok)];
  }

  lemma ElemKeepsTracked(spec: Spec, w: World, m: Elem)
    requires Linear(spec) && Tracked(spec, w)
    ensures Tracked(spec, DoElem(spec, w, m))
  {
    if OfDaemon(m) {
      if w.phase.Down? {
        DaemonKeepsTracked(spec, w, m);
      }
    } else if !w.phase.Down? {
      match m {
        case Take(cp, d, git, fr) => TakeKeepsTracked(spec, w, cp, d, git, fr);
        case Check(ok, git, fr) => CheckKeepsTracked(spec, w, ok, git, fr);
        case Stop => QuietKeepsTracked(spec, w, ShutDown(w));
        case Die => QuietKeepsTracked(spec, w, ShutDown(w));
        case _ =>
          QuietSteps(spec, w, m);
          QuietKeepsTracked(spec, w, DoElem(spec, w, m));
      }
    }
  }

  lemma TakeKeepsTracked(spec: Spec, w: World, cp: Checkpoint, d: Option<Decision>, git: GitStatus, fr: bool)
    requires Linear(spec) && Tracked(spec, w)
    ensures Tracked(spec, TakeCheckpoint(spec, w, cp, d, git, fr))
  {
    ArrivalIsQuiet(w.run, cp);
    var s := Arrived(w.run, cp);
    if d.Some? && MayDecide(spec, s, d.value) {
      LinearNeverBranches(spec, s, d.value);
      DecisionKeepsWork(spec, s, d.value, git, fr);
    }
  }

  /** In every reachable world of a linear plan, in memory and on disk, the finished nodes are
      the plan prefix before the current node, and each of them was the current node of a
      successful verification. */
  lemma DoneIsTheVerifiedPrefix(cfg: Config, spec: Spec, ops: seq<Op>, ws: seq<World>, w: World)
    requires IsRun(cfg, spec, ops, ws) && w in ws
    requires Linear(spec)
    ensures Tracked(spec, w)
  {
    var J := (v: World) => Tracked(spec, v);
    forall op | op in ops
      ensures Keeps(Setting(cfg, spec, op), J)
    {
      forall v, m | Tracked(spec, v)
        ensures Tracked(spec, DoElem(spec, v, m))
      {
        ElemKeepsTracked(spec, v, m);
      }
    }
    RunKeeps(cfg, spec, ops, ws, J, w);
  }
}
