/** Instructions are not repeated: every instruction sent because the run reached a new node or a
    new attempt carries a (node, attempt) pair beyond all pairs sent before, across crashes. */
module RunInjections {
  import opened Options
  import opened Plan
  import FinishGate
  import Gates
  import opened RunModel
  import opened RunSteps
  import RunFrames
  import opened RunProgress

  /** A plan position and an attempt on it, ordered lexicographically. */
  datatype Pair = Pair(position: nat, attempt: int)

  predicate Before(a: Pair, b: Pair) {
    a.position < b.position || (a.position == b.position && a.attempt < b.attempt)
  }

  predicate NotAfter(a: Pair, b: Pair) {
    a == b || Before(a, b)
  }

  function PairOf(spec: Spec, node: string, attempt: int): Pair {
    Pair(if Knows(spec, node) then FindNode(spec.nodes, node).value else 0, attempt)
  }

  /** Everything sent directly so far is covered by the record's last injected pair, which in turn
      does not exceed the pair the run is working on. */
  ghost predicate Covers(spec: Spec, s: RunState, log: seq<LogEvent>) {
    && (s.lastNode.Some? ==> NotAfter(PairOf(spec, s.lastNode.value, s.lastAttempt), PairOf(spec, s.node, s.attempt))
                             && Knows(spec, s.lastNode.value))
    && (forall e :: e in log && e.Direct? ==>
          s.lastNode.Some? && NotAfter(PairOf(spec, e.node, e.attempt), PairOf(spec, s.lastNode.value, s.lastAttempt)))
  }

  ghost predicate Increasing(spec: Spec, log: seq<LogEvent>) {
    forall i, j :: 0 <= i < j < |log| && log[i].Direct? && log[j].Direct? ==>
      Before(PairOf(spec, log[i].node, log[i].attempt), PairOf(spec, log[j].node, log[j].attempt))
  }

  ghost predicate Ordered(spec: Spec, w: World) {
    && OnPlan(spec, w.run) && OnPlan(spec, w.disk)
    && Covers(spec, w.run, w.log) && Covers(spec, w.disk, w.log)
    && Increasing(spec, w.log)
  }

  lemma CurrentPair(spec: Spec, s: RunState)
    requires Linear(spec) && OnPlan(spec, s)
    ensures Knows(spec, s.node) && PairOf(spec, s.node, s.attempt) == Pair(Position(spec, s), s.attempt)
  {
    FindInLinear(spec, Position(spec, s));
  }

  /** Moving on keeps the cover. */
  lemma AdvanceKeepsCover(spec: Spec, s: RunState, t: RunState, log: seq<LogEvent>, log2: seq<LogEvent>)
    requires Linear(spec) && OnPlan(spec, s) && OnPlan(spec, t) && Covers(spec, s, log) && RunFrames.SameLast(s, t)
    requires NotAfter(Pair(Position(spec, s), s.attempt), Pair(Position(spec, t), t.attempt))
    requires forall e :: e in log2 && e.Direct? ==> e in log
    ensures Covers(spec, t, log2)
  {
    CurrentPair(spec, s);
    CurrentPair(spec, t);
  }

  lemma AppendKeepsIncreasing(spec: Spec, log: seq<LogEvent>, e: LogEvent)
    requires Increasing(spec, log)
    requires e.Direct? ==> forall d :: d in log && d.Direct? ==>
                             Before(PairOf(spec, d.node, d.attempt), PairOf(spec, e.node, e.attempt))
    ensures Increasing(spec, log + [e])
  {
  }

  lemma MarkKeepsCover(spec: Spec, s: RunState, log: seq<LogEvent>)
    requires Linear(spec) && OnPlan(spec, s) && Covers(spec, s, log)
    ensures OnPlan(spec, MarkInjected(s)) && Covers(spec, MarkInjected(s), log)
  {
    CurrentPair(spec, s);
  }

  lemma DirectIsBeyond(spec: Spec, s: RunState, log: seq<LogEvent>, e: LogEvent)
    requires Linear(spec) && OnPlan(spec, s) && Covers(spec, s, log) && NeedsInstruction(s)
    requires e in log && e.Direct?
    ensures Before(PairOf(spec, e.node, e.attempt), PairOf(spec, s.node, s.attempt))
  {
    CurrentPair(spec, s);
    var last := PairOf(spec, s.lastNode.value, s.lastAttempt);
    if s.lastNode == Some(s.node) {
      assert Before(last, PairOf(spec, s.node, s.attempt));
    } else {
      assert last.position != Position(spec, s);
    }
  }

  lemma SendKeepsOrdered(spec: Spec, w: World, dies: bool)
    requires Linear(spec) && Ordered(spec, w) && NeedsInstruction(w.run)
    ensures Ordered(spec, if dies then Save(Marked(w)) else Log(Save(Marked(w)), Direct(w.run.node, w.run.attempt)))
  {
    MarkKeepsCover(spec, w.run, w.log);
    if !dies {
      var e := Direct(w.run.node, w.run.attempt);
      forall d | d in w.log && d.Direct?
        ensures Before(PairOf(spec, d.node, d.attempt), PairOf(spec, e.node, e.attempt))
      {
        DirectIsBeyond(spec, w.run, w.log, d);
      }
      AppendKeepsIncreasing(spec, w.log, e);
      assert Covers(spec, MarkInjected(w.run), w.log + [e]);
    }
  }

  lemma TakeKeepsOrdered(spec: Spec, w: World, cp: Gates.Checkpoint, d: Option<Gates.Decision>,
                         git: FinishGate.GitStatus, fr: bool)
    requires Linear(spec) && Ordered(spec, w)
    ensures Ordered(spec, TakeCheckpoint(spec, w, cp, d, git, fr))
  {
    RunFrames.ArrivalIsQuiet(w.run, cp);
    var s := Arrived(w.run, cp);
    var v := TakeCheckpoint(spec, w, cp, d, git, fr);
    if d.Some? && MayDecide(spec, s, d.value) {
      LinearNeverBranches(spec, s, d.value);
      DecisionKeepsWork(spec, s, d.value, git, fr);
      if d.value.kind.Retry? {
        AppendKeepsIncreasing(spec, w.log, RetryDecided(s.node));
      }
      AdvanceKeepsCover(spec, w.disk, w.disk, w.log, v.log);
    }
    AdvanceKeepsCover(spec, w.run, v.run, w.log, v.log);
  }

  lemma CheckKeepsOrdered(spec: Spec, w: World, ok: bool, git: FinishGate.GitStatus, fr: bool)
    requires Linear(spec) && Ordered(spec, w)
    ensures Ordered(spec, Checked(spec, w, ok, git, fr))
  {
    var v := Checked(spec, w, ok, git, fr);
    VerificationAdvances(spec, w.run, ok, git, fr);
    VerificationStaysOnPlan(spec, w.run, ok, git, fr);
    assert v.log == w.log + [Verified(w.run.node, ok)];
    AppendKeepsIncreasing(spec, w.log, Verified(w.run.node, ok));
    AdvanceKeepsCover(spec, w.run, v.run, w.log, v.log);
    AdvanceKeepsCover(spec, w.disk, w.disk, w.log, v.log);
  }

  /** Reloading, saving, and steps that leave the work and the last injected pair alone. */
  lemma QuietKeepsOrdered(spec: Spec, w: World, v: World)
    requires Linear(spec) && Ordered(spec, w)
    requires (RunFrames.SameWork(w.run, v.run) && RunFrames.SameLast(w.run, v.run)) || v.run == w.disk
    requires v.disk in {w.disk, v.run}
    requires v.log == w.log || (exists e :: v.log == w.log + [e] && !e.Direct?)
    ensures Ordered(spec, v)
  {
    if v.log != w.log {
      var e :| v.log == w.log + [e] && !e.Direct?;
      AppendKeepsIncreasing(spec, w.log, e);
    }
    AdvanceKeepsCover(spec, w.disk, w.disk, w.log, v.log);
    if v.run != w.disk {
      AdvanceKeepsCover(spec, w.run, v.run, w.log, v.log);
    }
  }

  lemma DaemonKeepsOrdered(spec: Spec, w: World, m: Elem)
    requires Linear(spec) && Ordered(spec, w) && OfDaemon(m) && w.phase.Down?
    ensures Ordered(spec, DoElem(spec, w, m))
  {
    var v := DoElem(spec, w, m);
    RunFrames.DaemonSteps(spec, w, m);
    RunFrames.RecoveryIsQuiet(w.disk);
    if m.Ack? {
      AckIsQuiet(spec, w.disk, m.reviewer, m.git);
    }
    if v.log != w.log {
      AppendKeepsIncreasing(spec, w.log, ReviewAcked(m.reviewer));
    }
    if v.run != w.run || v.disk != w.disk {
      AdvanceKeepsCover(spec, w.disk, v.disk, w.log, v.log);
    }
  }

  lemma SidecarKeepsOrdered(spec: Spec, w: World, m: Elem)
    requires Linear(spec) && Ordered(spec, w)
    requires !m.Take? && !m.Check? && !m.Stop? && !m.Die? && !m.Mark? && !m.SendDirect? && !OfDaemon(m)
    ensures Ordered(spec, DoElem(spec, w, m))
  {
    RunFrames.QuietSteps(spec, w, m);
    QuietKeepsOrdered(spec, w, DoElem(spec, w, m));
  }

  lemma ElemKeepsOrdered(spec: Spec, w: World, m: Elem)
    requires Linear(spec) && Ordered(spec, w)
    ensures Ordered(spec, DoElem(spec, w, m))
  {
    if OfDaemon(m) {
      if w.phase.Down? {
        DaemonKeepsOrdered(spec, w, m);
      }
    } else if !w.phase.Down? {
      match m {
        case Take(cp, d, git, fr) => TakeKeepsOrdered(spec, w, cp, d, git, fr);
        case Check(ok, git, fr) => CheckKeepsOrdered(spec, w, ok, git, fr);
        case Stop => QuietKeepsOrdered(spec, w, ShutDown(w));
        case Die => QuietKeepsOrdered(spec, w, ShutDown(w));
        case Mark => MarkKeepsCover(spec, w.run, w.log);
        case SendDirect(dies) =>
          if NeedsInstruction(w.run) {
            SendKeepsOrdered(spec, w, dies);
          }
        case _ => SidecarKeepsOrdered(spec, w, m);
      }
    }
  }

  /** Over a whole run of a linear plan, with any crashes and resumes, the direct instructions
      carry strictly increasing (node, attempt) pairs; so no pair is ever sent twice. */
  lemma DirectInstructionsNeverRepeat(cfg: Config, spec: Spec, ops: seq<Op>, ws: seq<World>, w: World)
    requires IsRun(cfg, spec, ops, ws) && w in ws
    requires Linear(spec)
    ensures var log := w.log;
            && Increasing(spec, log)
            && forall i, j :: 0 <= i < j < |log| && log[i].Direct? && log[j].Direct? ==> log[i] != log[j]
  {
    var J := (v: World) => Ordered(spec, v);
    forall op | op in ops
      ensures Keeps(Setting(cfg, spec, op), J)
    {
      forall v, m | Ordered(spec, v)
        ensures Ordered(spec, DoElem(spec, v, m))
      {
        ElemKeepsOrdered(spec, v, m);
      }
    }
    RunKeeps(cfg, spec, ops, ws, J, w);
  }
}
