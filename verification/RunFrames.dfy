/** What the elementary steps leave alone. */
module RunFrames {
  import opened Options
  import StateMachine
  import Plan
  import Gates
  import opened RunModel
  import opened RunSteps

  /** The fields that carry progress, budgets and reviews agree. */
  predicate SameWork(s: RunState, t: RunState) {
    && s.node == t.node
    && s.attempt == t.attempt
    && s.done == t.done
    && s.perNode == t.perNode
    && s.globalLimit == t.globalLimit
    && s.usedGlobal == t.usedGlobal
    && s.verification == t.verification
    && s.reviews == t.reviews
  }

  predicate SameLast(s: RunState, t: RunState) {
    s.lastNode == t.lastNode && s.lastAttempt == t.lastAttempt
  }

  /** What the log may be after a step that neither decides nor verifies. */
  function QuietLogs(w: World): set<seq<LogEvent>> {
    var s := w.run;
    {w.log, w.log + [Prompt(s.node, s.attempt)], w.log + [Direct(s.node, s.attempt)], w.log + [AutoIntervened(s.node)]}
  }

  /** Which of these, by the kind of the step. */
  predicate LogsQuietly(w: World, v: World, m: Elem) {
    || v.log == w.log
    || (m.SendDirect? && v.log == w.log + [Direct(w.run.node, w.run.attempt)])
    || (m.SendPrompt? && v.log == w.log + [Prompt(w.run.node, w.run.attempt)])
    || (m.Intervene? && v.log == w.log + [AutoIntervened(w.run.node)])
  }

  /** The step leaves the work and the last injected pair alone, and at most saves. */
  predicate LeavesWork(w: World, v: World, m: Elem) {
    && SameWork(w.run, v.run)
    && v.disk in {w.disk, v.run}
    && LogsQuietly(w, v, m)
    && (m.SendDirect? || m.Mark? || SameLast(w.run, v.run))
  }

  predicate ChangesTop(m: Elem) {
    m.Pause? || m.Recover? || m.Intervene? || m.TimeOut? || m.HandOff?
  }

  lemma TopChangesAreQuiet(spec: Plan.Spec, w: World, m: Elem)
    requires ChangesTop(m)
    ensures LeavesWork(w, DoElem(spec, w, m), m)
  {
  }

  lemma OthersAreQuiet(spec: Plan.Spec, w: World, m: Elem)
    requires !ChangesTop(m) && !m.Take? && !m.Check? && !m.Stop? && !m.Die? && !OfDaemon(m)
    ensures LeavesWork(w, DoElem(spec, w, m), m)
  {
  }

  /** Steps that neither decide, verify, send nor reload leave the work and the last injected
      pair alone; they only save, if anything. */
  lemma QuietSteps(spec: Plan.Spec, w: World, m: Elem)
    requires !m.Take? && !m.Check? && !m.Stop? && !m.Die? && !OfDaemon(m)
    ensures LeavesWork(w, DoElem(spec, w, m), m)
  {
    if ChangesTop(m) {
      TopChangesAreQuiet(spec, w, m);
    } else {
      OthersAreQuiet(spec, w, m);
    }
  }

  /** An accepted checkpoint by itself changes no work. */
  lemma ArrivalIsQuiet(s: RunState, cp: Gates.Checkpoint)
    ensures var t := Arrived(s, cp);
            && SameWork(s, t) && SameLast(s, t)
            && t.checkpoint == Some(cp)
            && t.reInjects == s.reInjects
            && t.prePause == s.prePause
            && t.top == (if PreservesState(s.top) then s.top else StateMachine.Gating)
            && t.lastActive == (if PreservesState(s.top) then s.lastActive else StateMachine.Gating)
  {
  }

  lemma RecoveryIsQuiet(s: RunState)
    ensures SameWork(s, ResumePaused(s).state) && SameLast(s, ResumePaused(s).state)
    ensures SameWork(s, RecoverOrphan(s).state) && SameLast(s, RecoverOrphan(s).state)
  {
  }

  /** A daemon step works on the record on disk. */
  lemma DaemonSteps(spec: Plan.Spec, w: World, m: Elem)
    requires OfDaemon(m) && w.phase.Down?
    ensures var v := DoElem(spec, w, m);
            || (v.run == w.run && v.disk == w.disk && v.log == w.log)
            || (m.Orphan? && v.run == v.disk == RecoverOrphan(w.disk).state && v.log == w.log)
            || (m.Resume? && v.disk == v.run && v.log == w.log
                && v.run == (if w.disk.top.PausedForHuman? then ResumePaused(w.disk).state else w.disk))
            || (m.Ack?
                && (var o := AckReview(spec, w.disk, m.reviewer, m.git);
                    if o.Raised? then v.run == w.run && v.disk == w.disk else v.run == v.disk == o.state)
                && v.log == (if m.reviewer in REVIEWERS then w.log + [ReviewAcked(m.reviewer)] else w.log))
  {
  }
}
