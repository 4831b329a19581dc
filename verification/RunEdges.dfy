/** The node of a run moves along the edges of its specification only: to the successor of a task that
    has just been verified, or to where the option leads that the judge selected. */
module RunEdges {
  import opened Options
  import opened Plan
  import FinishGate
  import opened Gates
  import opened RunModel
  import opened RunSteps
  import opened RunAdmission
  import RunFrames
  import RunSafety

  // ----- edges ---------------------------------------------------------------------------

  /** `a` is a task, and `b` comes after it: in plan order, or as its `next` in a conditional workflow. */
  predicate TaskEdge(spec: Spec, a: string, b: string) {
    && Knows(spec, a) && GetNode(spec, a).nodeType.Task?
    && (if spec.kind.ConditionalWorkflow? then GetNode(spec, a).next == Some(b)
        else exists k :: 0 < k < |spec.nodes| && FindNode(spec.nodes, a) == Some(k - 1) && spec.nodes[k].id == b)
  }

  /** `a` is a decision point, and its option `id` leads to `b`. */
  predicate OptionEdge(spec: Spec, a: string, id: string, b: string) {
    && Knows(spec, a) && GetNode(spec, a).nodeType.DecisionPoint?
    && BranchOption(id, b) in GetNode(spec, a).options
  }

  /** What a checkpoint may do to the node: a step passes its verification, or the judge is sure of an
      option. `log` is the session log, of which the first `before` entries were there before. */
  predicate Moves(spec: Spec, env: Env, a: string, b: string, log: seq<LogEvent>, before: nat) {
    || (env.verifyOk && TaskEdge(spec, a, b) && exists k :: before <= k < |log| && log[k] == Verified(a, true))
    || (env.gate.branch.confident && OptionEdge(spec, a, env.gate.branch.selected, b))
  }

  lemma NextIsAnEdge(spec: Spec, a: string)
    requires Knows(spec, a) && GetNode(spec, a).nodeType.Task? && NextNodeId(spec, a).value.Some?
    ensures TaskEdge(spec, a, NextNodeId(spec, a).value.value)
  {
    var k := FindNode(spec.nodes, a).value + 1;
    assert FindNode(spec.nodes, a) == Some(k - 1);
  }

  lemma BranchIsAnEdge(spec: Spec, a: string, answer: BranchAnswer)
    requires Knows(spec, a) && GetNode(spec, a).nodeType.DecisionPoint?
    requires BranchGate(GetNode(spec, a), answer).kind.Branch?
    ensures answer.confident && OptionEdge(spec, a, answer.selected, BranchGate(GetNode(spec, a), answer).nextNode)
  {
    var o := FindOption(GetNode(spec, a).options, answer.selected).value;
    assert o == BranchOption(answer.selected, o.next);
  }

  // ----- one checkpoint ------------------------------------------------------------------

  /** Where a checkpoint sets out: the nodes in memory and on disk, and the length of the log. */
  datatype Origin = Origin(node: string, disk: string, before: nat)

  predicate Placed(spec: Spec, env: Env, from: Origin, id: string, log: seq<LogEvent>) {
    id == from.node || Moves(spec, env, from.node, id, log, from.before)
  }

  /** The node has moved along one edge at most, and a verification that is still due is one of the step
      where it was. */
  predicate PlacedWorld(spec: Spec, env: Env, from: Origin, w: World) {
    && from.before <= |w.log|
    && Placed(spec, env, from, w.run.node, w.log)
    && (w.disk.node == from.disk || Placed(spec, env, from, w.disk.node, w.log))
    && (w.run.top.Verifying? ==>
          w.run.node == from.node && Knows(spec, from.node) && GetNode(spec, from.node).nodeType.Task?)
  }

  lemma PlacedInLonger(spec: Spec, env: Env, from: Origin, id: string, log: seq<LogEvent>, more: seq<LogEvent>)
    requires Placed(spec, env, from, id, log) && log <= more
    ensures Placed(spec, env, from, id, more)
  {
    if k :| from.before <= k < |log| && log[k] == Verified(from.node, true) {
      assert more[k] == Verified(from.node, true);
    }
  }

  /** What a step other than a decision or a verification leaves. */
  predicate StaysPut(w: World, v: World) {
    && w.log <= v.log
    && v.run.node == w.run.node
    && v.disk.node in {w.disk.node, w.run.node}
    && (v.run.top.Verifying? ==> w.run.top.Verifying?)
  }

  lemma QuietStaysPut(spec: Spec, w: World, m: Elem)
    requires !m.Take? && !m.Note? && !m.Check? && !m.Die? && !OfDaemon(m)
    ensures StaysPut(w, DoElem(spec, w, m))
  {
  }

  lemma QuietKeepsPlaced(spec: Spec, env: Env, from: Origin, w: World, v: World)
    requires PlacedWorld(spec, env, from, w) && StaysPut(w, v)
    ensures PlacedWorld(spec, env, from, v)
  {
    PlacedInLonger(spec, env, from, w.run.node, w.log, v.log);
    if w.disk.node != from.disk {
      PlacedInLonger(spec, env, from, w.disk.node, w.log, v.log);
    }
  }

  lemma VerifiedNode(spec: Spec, s: RunState, ok: bool, git: FinishGate.GitStatus, fr: bool)
    requires s.top.Verifying? && Knows(spec, s.node)
    ensures var t := ApplyVerification(spec, s, ok, git, fr).state;
            t.node == s.node || (ok && NextNodeId(spec, s.node).value == Some(t.node) && t.top.Running?)
  {
  }

  lemma CheckKeepsPlaced(spec: Spec, env: Env, from: Origin, w: World, ok: bool, git: FinishGate.GitStatus, fr: bool)
    requires PlacedWorld(spec, env, from, w) && w.run.top.Verifying? && (ok ==> env.verifyOk)
    ensures PlacedWorld(spec, env, from, Checked(spec, w, ok, git, fr))
  {
    var v := Checked(spec, w, ok, git, fr);
    VerifiedNode(spec, w.run, ok, git, fr);
    if v.run.node != from.node {
      NextIsAnEdge(spec, from.node);
      assert v.log[|w.log|] == Verified(from.node, true);
    }
    if w.disk.node != from.disk {
      PlacedInLonger(spec, env, from, w.disk.node, w.log, v.log);
    }
  }

  lemma LaterKeepsPlaced(c: Setting, from: Origin)
    requires c.op.CheckpointOp?
    ensures Later(c, (v: World) => PlacedWorld(c.spec, c.op.env, from, v))
  {
    var env := c.op.env;
    forall v: World, m: Elem
        | PlacedWorld(c.spec, env, from, v) && Performs(c.cfg, c.op, m) && !m.Take? && !m.Note?
      ensures PlacedWorld(c.spec, env, from, DoElem(c.spec, v, m))
    {
      if !m.Check? {
        QuietStaysPut(c.spec, v, m);
        QuietKeepsPlaced(c.spec, env, from, v, DoElem(c.spec, v, m));
      } else if v.run.top.Verifying? && !v.phase.Down? {
        CheckKeepsPlaced(c.spec, env, from, v, m.ok, m.git, m.finishRecoverable);
      }
    }
  }

  lemma DecidedNode(spec: Spec, s: RunState, d: Decision, git: FinishGate.GitStatus, fr: bool)
    requires s.top.Gating? || s.top.Attached?
    ensures var t := ApplyDecision(spec, s, d, git, fr).state;
            && t.node == (if d.kind.Branch? then d.nextNode else s.node)
            && (t.top.Verifying? ==> d.kind.VerifyStep?)
  {
  }

  lemma DecidedIsPlaced(c: Setting, from: Origin, w: World)
    requires c.op.CheckpointOp? && PlacedWorld(c.spec, c.op.env, from, w) && w.run.node == from.node
    requires Decides(c.spec, w.run, c.op.env.gate)
    ensures PlacedWorld(c.spec, c.op.env, from, Decided(c.spec, w, GateOf(c.spec, w.run, c.op.env.gate), c.op.env.git,
                                                        c.op.env.finishRecoverable))
  {
    var env, d := c.op.env, GateOf(c.spec, w.run, c.op.env.gate);
    var v := Decided(c.spec, w, d, env.git, env.finishRecoverable);
    DecidedNode(c.spec, w.run, d, env.git, env.finishRecoverable);
    if d.kind.Branch? {
      BranchIsAnEdge(c.spec, from.node, env.gate.branch);
    }
    if w.disk.node != from.disk {
      PlacedInLonger(c.spec, env, from, w.disk.node, w.log, v.log);
    }
  }

  function OriginOf(w: World): Origin {
    Origin(w.run.node, w.disk.node, |w.log|)
  }

  lemma CheckpointIsPlaced(c: Setting, w: World)
    requires HandedOver(w) && Enabled(w, c.op) && c.op.CheckpointOp? && !w.run.top.Verifying?
    ensures PlacedWorld(c.spec, c.op.env, OriginOf(w), Step(c.cfg, c.spec, w, c.op))
  {
    var env, from := c.op.env, OriginOf(w);
    var J := (v: World) => PlacedWorld(c.spec, env, from, v);
    LaterKeepsPlaced(c, from);
    TakesUpIff(c.cfg, w.run, c.op.checkpoint);
    if TakesUp(c.cfg, w.run, c.op.checkpoint) {
      var bound := c.op.checkpoint.(node := w.run.node);
      RunFrames.ArrivalIsQuiet(w.run, bound);
      var w1 := w.(run := Arrived(w.run, bound));
      if Decides(c.spec, w1.run, env.gate) {
        DecidedIsPlaced(c, from, w1);
      }
      TakenUpKeeps(c, J, w, bound);
    } else {
      UntakenKeeps(c, J, w);
    }
  }

  // ----- other operations ----------------------------------------------------------------

  lemma LoopStaysPut(c: Setting, w: World)
    requires HandedOver(w) && !c.op.CheckpointOp? && !c.op.CrashOp? && !OfDaemonOp(c.op)
    ensures StaysPut(w, Step(c.cfg, c.spec, w, c.op))
  {
    forall v: World, m: Elem | StaysPut(w, v) && Performs(c.cfg, c.op, m)
      ensures StaysPut(w, DoElem(c.spec, v, m))
    {
      QuietStaysPut(c.spec, v, m);
    }
    StepKeeps(c, (v: World) => StaysPut(w, v), w);
  }

  lemma OthersReload(cfg: Config, spec: Spec, w: World, op: Op)
    requires op.CrashOp? || OfDaemonOp(op)
    ensures var v := Step(cfg, spec, w, op);
            v.run.node in {w.run.node, w.disk.node} && v.disk.node == w.disk.node
  {
    if Enabled(w, op) && OfDaemonOp(op) {
      DaemonOpIsElem(cfg, spec, w, op);
      RunFrames.DaemonSteps(spec, w, DaemonElem(op));
      RunFrames.RecoveryIsQuiet(w.disk);
    }
  }

  // ----- in every run --------------------------------------------------------------------

  /** In every run of a well-formed specification, the node changes only by a checkpoint, along an edge:
      from a task that this checkpoint has verified to its successor, or from a decision point to where
      the option leads that the judge selected with confidence. Otherwise it stays or is read back from
      disk, where it has got by a save. */
  lemma NodesFollowEdges(cfg: Config, spec: Spec, ops: seq<Op>, ws: seq<World>, i: nat)
    requires WellFormed(spec) && IsRun(cfg, spec, ops, ws) && i < |ops|
    ensures var w, v, op := ws[i], ws[i + 1], ops[i];
            && (|| v.run.node == w.run.node
                || (op.CheckpointOp? && Moves(spec, op.env, w.run.node, v.run.node, v.log, |w.log|))
                || ((op.CrashOp? || OfDaemonOp(op)) && v.run.node == w.disk.node))
            && (|| v.disk.node in {w.disk.node, w.run.node}
                || (op.CheckpointOp? && Moves(spec, op.env, w.run.node, v.disk.node, v.log, |w.log|)))
  {
    var w, op := ws[i], ops[i];
    var c := Setting(cfg, spec, op);
    assert ws[i + 1] == Step(cfg, spec, w, op);
    RunIsHandedOver(cfg, spec, ops, ws, i);
    if op.CrashOp? || OfDaemonOp(op) {
      OthersReload(cfg, spec, w, op);
    } else if !op.CheckpointOp? {
      LoopStaysPut(c, w);
    } else if Enabled(w, op) {
      RunSafety.RunIsSteady(cfg, spec, ops, ws, i);
      CheckpointIsPlaced(c, w);
    }
  }

  // ----- reachability --------------------------------------------------------------------

  ghost predicate Edge(spec: Spec, a: string, b: string) {
    TaskEdge(spec, a, b) || exists id :: OptionEdge(spec, a, id, b)
  }

  /** A way from the first node along the edges. */
  ghost predicate Walk(spec: Spec, path: seq<string>) {
    && path != [] && spec.nodes != [] && path[0] == spec.nodes[0].id
    && forall i :: 0 < i < |path| ==> Edge(spec, path[i - 1], path[i])
  }

  ghost predicate Reached(spec: Spec, id: string) {
    exists path :: Walk(spec, path) && path[|path| - 1] == id
  }

  lemma ReachedNext(spec: Spec, env: Env, a: string, b: string, log: seq<LogEvent>, before: nat)
    requires Reached(spec, a) && Moves(spec, env, a, b, log, before)
    ensures Reached(spec, b)
  {
    var path :| Walk(spec, path) && path[|path| - 1] == a;
    var more := path + [b];
    assert Edge(spec, a, b);
    assert Walk(spec, more) && more[|more| - 1] == b;
  }

  /** In every world of a run of a well-formed specification, in memory and on disk, there is a way to the
      current node along the edges. */
  lemma {:induction false} NodesAreReached(cfg: Config, spec: Spec, ops: seq<Op>, ws: seq<World>, n: nat)
    requires WellFormed(spec) && IsRun(cfg, spec, ops, ws) && n < |ws|
    ensures Reached(spec, ws[n].run.node) && Reached(spec, ws[n].disk.node)
  {
    if n == 0 {
      var path := [spec.nodes[0].id];
      assert Walk(spec, path) && path[|path| - 1] == spec.nodes[0].id;
    } else {
      var m: nat := n - 1;
      NodesAreReached(cfg, spec, ops, ws, m);
      NodesFollowEdges(cfg, spec, ops, ws, m);
      var w, v, op := ws[m], ws[n], ops[m];
      if op.CheckpointOp? {
        if v.run.node != w.run.node {
          ReachedNext(spec, op.env, w.run.node, v.run.node, v.log, |w.log|);
        }
        if v.disk.node !in {w.disk.node, w.run.node} {
          ReachedNext(spec, op.env, w.run.node, v.disk.node, v.log, |w.log|);
        }
      }
    }
  }
}
