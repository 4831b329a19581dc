/** The two-file handshake between the loop and the agent's Stop hook (supervisor/hook.py,
    supervisor/adapters/jsonl_observer.py, supervisor/loop.py). The loop overwrites a pending file,
    the hook delivers it and overwrites an ACK file, the loop polls the ACK file. */
module StopHook {
  import opened Options

  /** The content hash: any function will do. */
  type Sha = string -> string

  datatype Instruction = Instruction(id: string, content: string)

  /** A readable pending file; the declared hash may be missing. */
  datatype Pending = Pending(id: string, content: string, declared: Option<string>)

  datatype Ack = Ack(id: string, hash: string)

  /** The two files, as their readers see them, and the history of the session: what the loop
      wrote, what the hook wrote ACKs for, what the agent was given, and what the loop recorded as
      acknowledged. */
  datatype Session = Session(
    pending: Option<Pending>,
    ack: Option<Ack>,
    written: seq<Instruction>,
    acked: seq<Instruction>,
    delivered: seq<Instruction>,
    acknowledged: seq<string>)

  /** `active`: a supervisor run is active when the agent stops. The hook writes the ACK before the agent
      sees anything: `StopDies` is a Stop-hook call that is killed in between, or cannot write its output.
      `Damage` replaces the pending file by one that cannot be read or whose hash gives it away. */
  datatype Op =
    | Write(instruction: Instruction)
    | Stop(active: bool)
    | StopDies
    | Poll(id: string)
    | Damage(pending: Option<Pending>)

  const START := Session(None, None, [], [], [], [])

  function FileOf(sha: Sha, i: Instruction): Pending {
    Pending(i.id, i.content, Some(sha(i.content)))
  }

  function AckOf(sha: Sha, i: Instruction): Ack {
    Ack(i.id, sha(i.content))
  }

  predicate Intact(sha: Sha, p: Pending) {
    p.declared == None || p.declared == Some(sha(p.content))
  }

  /** What a Stop-hook call delivers, if anything. */
  function Due(sha: Sha, s: Session): Option<Instruction> {
    if s.pending.Some? && Intact(sha, s.pending.value)
       && s.ack != Some(Ack(s.pending.value.id, sha(s.pending.value.content)))
    then Some(Instruction(s.pending.value.id, s.pending.value.content))
    else None
  }

  const CONTINUE_MESSAGE :=
    "Supervisor run is active. Continue working on the current step; "
    + "the supervisor will emit the next instruction when ready."

  /** What a Stop-hook call returns: with exit code 2 the agent reads `stderr` and goes on. */
  datatype HookResult = HookResult(exitCode: int, stderr: string, deliveredId: string)

  function Reply(due: Option<Instruction>, active: bool): HookResult {
    match due
    case Some(i) => HookResult(2, i.content, i.id)
    case None => if active then HookResult(2, CONTINUE_MESSAGE, "") else HookResult(0, "", "")
  }

  /** The instruction that the agent is given with a result: what it reads, under the id that counts as
      delivered. */
  function Given(result: HookResult): seq<Instruction> {
    if result.deliveredId == "" then [] else [Instruction(result.deliveredId, result.stderr)]
  }

  predicate Polled(s: Session, id: string) {
    id != "" && s.ack.Some? && s.ack.value.id == id
  }

  /** The hook up to its ACK. */
  function Acking(sha: Sha, s: Session): Session {
    match Due(sha, s)
    case None => s
    case Some(i) => s.(ack := Some(AckOf(sha, i)), acked := s.acked + [i])
  }

  function Step(sha: Sha, s: Session, op: Op): Session {
    match op
    case Write(i) =>
      if i.id == "" then s else s.(pending := Some(FileOf(sha, i)), written := s.written + [i])
    case Stop(active) => Acking(sha, s).(delivered := s.delivered + Given(Reply(Due(sha, s), active)))
    case StopDies => Acking(sha, s)
    case Poll(id) =>
      if Polled(s, id) then s.(acknowledged := s.acknowledged + [id]) else s
    case Damage(p) => s.(pending := p)
  }

  function Run(sha: Sha, s: Session, ops: seq<Op>): Session {
    if ops == [] then s else Step(sha, Run(sha, s, ops[..|ops| - 1]), ops[|ops| - 1])
  }

  // ----- the invariant -------------------------------------------------------------------

  predicate HasId(written: seq<Instruction>, id: string) {
    exists k :: 0 <= k < |written| && written[k].id == id
  }

  /** Instruction ids are fresh, and damage shows. */
  predicate Allowed(sha: Sha, s: Session, op: Op) {
    match op
    case Write(i) => !HasId(s.written, i.id)
    case Damage(p) => p.Some? ==> !Intact(sha, p.value)
    case _ => true
  }

  predicate AllAllowed(sha: Sha, s: Session, ops: seq<Op>) {
    ops != [] ==>
      && AllAllowed(sha, s, ops[..|ops| - 1])
      && Allowed(sha, Run(sha, s, ops[..|ops| - 1]), ops[|ops| - 1])
  }

  /** `part` is `whole` with some elements left out. */
  predicate Subsequence(part: seq<Instruction>, whole: seq<Instruction>) {
    part == [] ||
    (whole != [] &&
     (|| Subsequence(part, whole[..|whole| - 1])
      || (part[|part| - 1] == whole[|whole| - 1]
          && Subsequence(part[..|part| - 1], whole[..|whole| - 1]))))
  }

  predicate Unique(s: seq<Instruction>) {
    forall i, j :: 0 <= i < j < |s| ==> s[i].id != s[j].id
  }

  predicate Inv(sha: Sha, s: Session) {
    && Unique(s.written) && !HasId(s.written, "")
    && Subsequence(s.acked, s.written)
    && Subsequence(s.delivered, s.acked)
    && (s.pending.Some? && Intact(sha, s.pending.value) ==>
          s.written != [] && s.pending.value == FileOf(sha, s.written[|s.written| - 1]))
    && s.ack == (if s.acked == [] then None else Some(AckOf(sha, s.acked[|s.acked| - 1])))
    && forall id :: id in s.acknowledged ==> HasId(s.acked, id)
  }

  // ----- subsequences --------------------------------------------------------------------

  lemma {:induction false} PartOfWhole(part: seq<Instruction>, whole: seq<Instruction>)
    requires Subsequence(part, whole)
    ensures forall i :: i in part ==> i in whole
  {
    if part != [] {
      var shorter := whole[..|whole| - 1];
      if Subsequence(part, shorter) {
        PartOfWhole(part, shorter);
      } else {
        PartOfWhole(part[..|part| - 1], shorter);
        assert part == part[..|part| - 1] + [part[|part| - 1]];
      }
    }
  }

  lemma {:induction false} PartIsUnique(part: seq<Instruction>, whole: seq<Instruction>)
    requires Subsequence(part, whole) && Unique(whole)
    ensures Unique(part)
  {
    if part != [] {
      var shorter := whole[..|whole| - 1];
      if Subsequence(part, shorter) {
        PartIsUnique(part, shorter);
      } else {
        PartIsUnique(part[..|part| - 1], shorter);
        PartOfWhole(part[..|part| - 1], shorter);
        forall k | 0 <= k < |part| - 1
          ensures part[k] in shorter
        {
          assert part[k] == part[..|part| - 1][k];
        }
      }
    }
  }

  /** The newest instruction can only be the newest delivery. */
  lemma NewestIsLast(part: seq<Instruction>, whole: seq<Instruction>)
    requires Subsequence(part, whole) && Unique(whole) && whole != []
    requires part == [] || part[|part| - 1] != whole[|whole| - 1]
    ensures Subsequence(part, whole[..|whole| - 1])
    ensures Subsequence(part + [whole[|whole| - 1]], whole)
    ensures !HasId(part, whole[|whole| - 1].id)
  {
    var newest := whole[|whole| - 1];
    assert (part + [newest])[..|part|] == part;
    PartOfWhole(part, whole[..|whole| - 1]);
    forall k | 0 <= k < |part|
      ensures part[k].id != newest.id
    {
      assert part[k] in whole[..|whole| - 1];
    }
  }

  lemma {:induction false} PartOfPart(part: seq<Instruction>, middle: seq<Instruction>, whole: seq<Instruction>)
    requires Subsequence(part, middle) && Subsequence(middle, whole)
    ensures Subsequence(part, whole)
    decreases |middle| + |whole|
  {
    if part != [] {
      var shorter := whole[..|whole| - 1];
      if Subsequence(middle, shorter) {
        PartOfPart(part, middle, shorter);
      } else if Subsequence(part, middle[..|middle| - 1]) {
        PartOfPart(part, middle[..|middle| - 1], shorter);
      } else {
        PartOfPart(part[..|part| - 1], middle[..|middle| - 1], shorter);
      }
    }
  }

  lemma PartHasIds(part: seq<Instruction>, whole: seq<Instruction>, id: string)
    requires Subsequence(part, whole) && HasId(part, id)
    ensures HasId(whole, id)
  {
    PartOfWhole(part, whole);
    var k :| 0 <= k < |part| && part[k].id == id;
    assert part[k] in whole;
  }

  lemma HasIdNext(s: seq<Instruction>, i: Instruction, id: string)
    ensures HasId(s + [i], id) <==> HasId(s, id) || i.id == id
  {
    if HasId(s, id) {
      var k :| 0 <= k < |s| && s[k].id == id;
      assert (s + [i])[k].id == id;
    }
    assert (s + [i])[|s|] == i;
  }

  // ----- safety --------------------------------------------------------------------------

  /** What is due has had no ACK before. */
  lemma DueIsNew(sha: Sha, s: Session)
    requires Inv(sha, s) && Due(sha, s).Some?
    ensures var i := Due(sha, s).value;
            && s.written != [] && i == s.written[|s.written| - 1] && i.id != ""
            && Subsequence(s.acked + [i], s.written) && !HasId(s.acked, i.id)
  {
    NewestIsLast(s.acked, s.written);
  }

  /** What the agent is given in a step. */
  lemma StepGives(sha: Sha, s: Session, op: Op)
    requires Inv(sha, s)
    ensures Step(sha, s, op).delivered
         == if op.Stop? && Due(sha, s).Some? then s.delivered + [Due(sha, s).value] else s.delivered
  {
    if op.Stop? {
      if Due(sha, s).Some? {
        DueIsNew(sha, s);
        assert Given(Reply(Due(sha, s), op.active)) == [Due(sha, s).value];
      } else {
        assert s.delivered + [] == s.delivered;
      }
    }
  }

  lemma HookKeeps(sha: Sha, s: Session, op: Op)
    requires Inv(sha, s) && (op.Stop? || op.StopDies?)
    ensures Inv(sha, Step(sha, s, op))
  {
    StepGives(sha, s, op);
    if Due(sha, s).Some? {
      var i := Due(sha, s).value;
      DueIsNew(sha, s);
      assert (s.acked + [i])[..|s.acked|] == s.acked && (s.delivered + [i])[..|s.delivered|] == s.delivered;
      forall id | id in s.acknowledged
        ensures HasId(s.acked + [i], id)
      {
        HasIdNext(s.acked, i, id);
      }
    }
  }

  lemma StepKeeps(sha: Sha, s: Session, op: Op)
    requires Inv(sha, s) && Allowed(sha, s, op)
    ensures Inv(sha, Step(sha, s, op))
  {
    match op
    case Write(i) =>
      if i.id != "" {
        assert (s.written + [i])[..|s.written|] == s.written;
        HasIdNext(s.written, i, "");
      }
    case Stop(_) => HookKeeps(sha, s, op);
    case StopDies => HookKeeps(sha, s, op);
    case Poll(id) =>
      if Polled(s, id) {
        assert s.acked[|s.acked| - 1].id == id;
      }
    case Damage(p) =>
  }

  lemma {:induction false} RunKeeps(sha: Sha, s: Session, ops: seq<Op>)
    requires Inv(sha, s) && AllAllowed(sha, s, ops)
    ensures Inv(sha, Run(sha, s, ops))
  {
    if ops != [] {
      RunKeeps(sha, s, ops[..|ops| - 1]);
      StepKeeps(sha, Run(sha, s, ops[..|ops| - 1]), ops[|ops| - 1]);
    }
  }

  /** Over any interleaving, hooks that die included, the agent is given a duplicate-free subsequence of
      what the loop wrote, in order, and the loop acknowledges nothing that no ACK was written for. */
  lemma DeliveredOnceInOrder(sha: Sha, ops: seq<Op>)
    requires AllAllowed(sha, START, ops)
    ensures var s := Run(sha, START, ops);
            && Subsequence(s.delivered, s.written) && Unique(s.delivered)
            && forall id :: id in s.acknowledged ==> HasId(s.acked, id)
  {
    RunKeeps(sha, START, ops);
    var s := Run(sha, START, ops);
    PartOfPart(s.delivered, s.acked, s.written);
    PartIsUnique(s.delivered, s.written);
  }

  // ----- lost instructions ---------------------------------------------------------------

  /** Some hook died on the instruction. */
  predicate DiedOn(sha: Sha, ops: seq<Op>, id: string) {
    exists k :: 0 <= k < |ops| && DiesAt(sha, ops, k, id)
  }

  predicate DiesAt(sha: Sha, ops: seq<Op>, k: nat, id: string)
    requires k < |ops|
  {
    && ops[k].StopDies?
    && var due := Due(sha, Run(sha, START, ops[..k]));
    && due.Some? && due.value.id == id
  }

  lemma DiedNext(sha: Sha, ops: seq<Op>, op: Op, id: string)
    ensures DiedOn(sha, ops + [op], id) <==> DiedOn(sha, ops, id) || DiesAt(sha, ops + [op], |ops|, id)
  {
    var more := ops + [op];
    assert forall k :: 0 <= k < |ops| ==> more[..k] == ops[..k];
    if DiedOn(sha, ops, id) {
      var k :| 0 <= k < |ops| && DiesAt(sha, ops, k, id);
      assert DiesAt(sha, more, k, id);
    }
    if k :| 0 <= k < |more| && DiesAt(sha, more, k, id) {
      assert k < |ops| ==> DiesAt(sha, ops, k, id);
    }
  }

  /** Every instruction with an ACK was either delivered or lost with the hook that wrote the ACK. */
  predicate Accounted(sha: Sha, ops: seq<Op>, id: string) {
    var s := Run(sha, START, ops);
    && (HasId(s.acked, id) <==> HasId(s.delivered, id) || DiedOn(sha, ops, id))
    && !(HasId(s.delivered, id) && DiedOn(sha, ops, id))
  }

  lemma AccountedNext(sha: Sha, ops: seq<Op>, op: Op, id: string)
    requires Inv(sha, Run(sha, START, ops)) && Accounted(sha, ops, id)
    ensures Accounted(sha, ops + [op], id)
  {
    var s, more := Run(sha, START, ops), ops + [op];
    assert more[..|ops|] == ops && Run(sha, START, more) == Step(sha, s, op);
    DiedNext(sha, ops, op, id);
    StepGives(sha, s, op);
    if Due(sha, s).Some? {
      var i := Due(sha, s).value;
      DueIsNew(sha, s);
      HasIdNext(s.acked, i, id);
      HasIdNext(s.delivered, i, id);
    }
  }

  /** Over every interleaving, an instruction that an ACK was written for was delivered, unless the hook
      that wrote the ACK died; and then it is never delivered, for as long as the ACK file is kept. */
  lemma {:induction false} DeliveredUnlessLost(sha: Sha, ops: seq<Op>, id: string)
    requires AllAllowed(sha, START, ops)
    ensures Accounted(sha, ops, id)
  {
    if ops != [] {
      var before := ops[..|ops| - 1];
      DeliveredUnlessLost(sha, before, id);
      RunKeeps(sha, START, before);
      AccountedNext(sha, before, ops[|ops| - 1], id);
      assert ops == before + [ops[|ops| - 1]];
    }
  }

  /** So what the loop has recorded as acknowledged was delivered exactly if no hook died on it. */
  lemma AcknowledgedWasDeliveredIff(sha: Sha, ops: seq<Op>, id: string)
    requires AllAllowed(sha, START, ops) && id in Run(sha, START, ops).acknowledged
    ensures HasId(Run(sha, START, ops).delivered, id) <==> !DiedOn(sha, ops, id)
  {
    RunKeeps(sha, START, ops);
    DeliveredUnlessLost(sha, ops, id);
  }

  /** An instruction that the loop takes for acknowledged and the agent never gets. */
  lemma AcknowledgedCanBeLost(sha: Sha, i: Instruction)
    requires i.id != ""
    ensures var s := Run(sha, START, [Write(i), StopDies, Poll(i.id), Stop(true)]);
            s.acknowledged == [i.id] && s.delivered == []
  {
    var s1 := Step(sha, START, Write(i));
    var s2 := Step(sha, s1, StopDies);
    var s3 := Step(sha, s2, Poll(i.id));
    FourSteps(sha, START, Write(i), StopDies, Poll(i.id), Stop(true));
    assert s2.acked == [i] && s3.acknowledged == [i.id] && Due(sha, s3).None?;
  }

  lemma FourSteps(sha: Sha, s: Session, a: Op, b: Op, c: Op, d: Op)
    ensures Run(sha, s, [a, b, c, d]) == Step(sha, Step(sha, Step(sha, Step(sha, s, a), b), c), d)
  {
    RunNext(sha, s, [a, b, c], d);
    RunNext(sha, s, [a, b], c);
    RunNext(sha, s, [a], b);
    RunNext(sha, s, [], a);
    assert [] + [a] == [a] && [a] + [b] == [a, b] && [a, b] + [c] == [a, b, c] && [a, b, c] + [d] == [a, b, c, d];
  }

  lemma RunNext(sha: Sha, s: Session, ops: seq<Op>, op: Op)
    ensures Run(sha, s, ops + [op]) == Step(sha, Run(sha, s, ops), op)
  {
    assert (ops + [op])[..|ops|] == ops;
  }

  // ----- progress ------------------------------------------------------------------------

  /** A Stop call that completes delivers exactly when the pending file is intact and holds an
      instruction that no ACK was written for; then it delivers that one, the newest written. */
  lemma StopDeliversIff(sha: Sha, s: Session)
    requires Inv(sha, s)
    ensures Due(sha, s).Some? <==>
            s.pending.Some? && Intact(sha, s.pending.value) && !HasId(s.acked, s.pending.value.id)
    ensures Due(sha, s).Some? ==> s.written != [] && Due(sha, s).value == s.written[|s.written| - 1]
  {
    if s.pending.Some? && Intact(sha, s.pending.value) {
      var newest := s.written[|s.written| - 1];
      if s.acked != [] && s.acked[|s.acked| - 1] == newest {
        assert HasId(s.acked, newest.id);
      } else {
        NewestIsLast(s.acked, s.written);
        assert s.acked != [] ==> HasId(s.acked, s.acked[|s.acked| - 1].id);
      }
    }
  }

  /** What a Stop call returns at any point of any interleaving: under a nonempty id exactly if it delivers,
      and then the agent reads the content of the newest instruction written, which has that id. Otherwise
      the agent goes on exactly if a run is active, and is given no instruction. */
  lemma StopReplies(sha: Sha, ops: seq<Op>, active: bool)
    requires AllAllowed(sha, START, ops)
    ensures var s := Run(sha, START, ops);
            var result := Reply(Due(sha, s), active);
            var given := Step(sha, s, Stop(active)).delivered[|s.delivered|..];
            && (result.deliveredId != "" <==>
                  && s.pending.Some? && s.pending.value.declared in {None, Some(sha(s.pending.value.content))}
                  && !HasId(s.acked, s.pending.value.id))
            && (if result.deliveredId != "" then
                  && result.exitCode == 2 && s.written != []
                  && s.written[|s.written| - 1] == Instruction(result.deliveredId, result.stderr)
                  && given == [Instruction(result.deliveredId, result.stderr)]
                else
                  && given == [] && result.exitCode == (if active then 2 else 0)
                  && result.stderr == if active then CONTINUE_MESSAGE else "")
  {
    RunKeeps(sha, START, ops);
    var s := Run(sha, START, ops);
    StopDeliversIff(sha, s);
    if Due(sha, s).Some? {
      DueIsNew(sha, s);
    }
  }

  /** A poll answers for the latest ACK only: for an earlier one it says no again. */
  lemma PollSeesTheLatest(sha: Sha, s: Session, id: string)
    requires Inv(sha, s)
    ensures Polled(s, id) <==> id != "" && s.acked != [] && s.acked[|s.acked| - 1].id == id
  {
  }

  /** The ACK file is what keeps a delivery from being repeated. Where it is lost, the next Stop call
      repeats one exactly when the pending file is intact and holds what was delivered before. */
  lemma LostAckRepeatsIff(sha: Sha, s: Session, active: bool)
    requires Inv(sha, s)
    ensures !Unique(Step(sha, s.(ack := None), Stop(active)).delivered) <==>
            s.pending.Some? && Intact(sha, s.pending.value) && HasId(s.delivered, s.pending.value.id)
  {
    var t := Step(sha, s.(ack := None), Stop(active));
    PartOfPart(s.delivered, s.acked, s.written);
    PartIsUnique(s.delivered, s.written);
    if s.pending.Some? && HasId(s.delivered, s.pending.value.id) {
      var k :| 0 <= k < |s.delivered| && s.delivered[k].id == s.pending.value.id;
      assert Intact(sha, s.pending.value) ==> t.delivered[k].id == t.delivered[|s.delivered|].id;
    }
  }

  // ----- waiting for the ACK -------------------------------------------------------------

  const MAX_CONSECUTIVE_ERRORS := 5

  datatype Attempt = Answer | Error | Interrupt

  /** What happens around one poll: others act, then the loop polls, fails to, or is stopped. */
  datatype Round = Round(others: seq<Op>, attempt: Attempt)

  datatype Verdict = Acknowledged | TimedOut | ErrorCap | Interrupted

  /** The wait of `_inject_via_hook_handoff`; the deadline is the end of the rounds. */
  function Await(sha: Sha, s: Session, id: string, rounds: seq<Round>, errors: nat): (Session, Verdict)
    decreases |rounds|
  {
    if rounds == [] then (s, TimedOut)
    else
      var t := Run(sha, s, rounds[0].others);
      match rounds[0].attempt
      case Interrupt => (t, Interrupted)
      case Error =>
        if errors + 1 >= MAX_CONSECUTIVE_ERRORS then (t, ErrorCap)
        else Await(sha, t, id, rounds[1..], errors + 1)
      case Answer =>
        if Polled(t, id) then (Step(sha, t, Poll(id)), Acknowledged)
        else Await(sha, t, id, rounds[1..], 0)
  }

  predicate Acks(op: Op) {
    op.Stop? || op.StopDies?
  }

  /** The others only stop and poll: the loop owns the pending file, and nothing damages it. */
  predicate Quiet(ops: seq<Op>) {
    forall i :: 0 <= i < |ops| ==> Acks(ops[i]) || ops[i].Poll?
  }

  predicate IsWaiting(sha: Sha, s: Session, i: Instruction) {
    && Inv(sha, s) && s.written != [] && s.written[|s.written| - 1] == i && i.id != ""
    && s.pending == Some(FileOf(sha, i))
  }

  /** The first Stop-hook call, if there is one. */
  function FirstHook(ops: seq<Op>): Option<Op> {
    if ops == [] then None
    else
      var before := FirstHook(ops[..|ops| - 1]);
      if before.Some? then before else if Acks(ops[|ops| - 1]) then Some(ops[|ops| - 1]) else None
  }

  /** The hook handed over what it wrote an ACK for. */
  predicate Lived(hook: Option<Op>) {
    hook.Some? && hook.value.Stop?
  }

  /** What has become of the awaited instruction: no ACK yet, or the fate of the hook that wrote it. */
  predicate Fate(s: Session, i: Instruction, hook: Option<Op>) {
    && (Polled(s, i.id) <==> hook.Some?)
    && (HasId(s.delivered, i.id) <==> Lived(hook))
  }

  lemma DueWhileWaiting(sha: Sha, s: Session, i: Instruction)
    requires IsWaiting(sha, s, i)
    ensures Due(sha, s) == if Polled(s, i.id) then None else Some(i)
  {
    if Polled(s, i.id) {
      PartOfWhole(s.acked, s.written);
      assert s.acked[|s.acked| - 1] in s.written;
      assert s.acked[|s.acked| - 1] == i;
    }
  }

  lemma NoFateYet(sha: Sha, s: Session, i: Instruction)
    requires IsWaiting(sha, s, i) && !Polled(s, i.id)
    ensures Fate(s, i, None)
  {
    DueWhileWaiting(sha, s, i);
    DueIsNew(sha, s);
    if HasId(s.delivered, i.id) {
      PartHasIds(s.delivered, s.acked, i.id);
    }
  }

  lemma QuietStep(sha: Sha, s: Session, i: Instruction, op: Op, hook: Option<Op>)
    requires IsWaiting(sha, s, i) && Fate(s, i, hook) && (Acks(op) || op.Poll?)
    ensures var t := Step(sha, s, op);
            IsWaiting(sha, t, i) && Fate(t, i, if hook.Some? then hook else if Acks(op) then Some(op) else None)
  {
    StepKeeps(sha, s, op);
    StepGives(sha, s, op);
    DueWhileWaiting(sha, s, i);
    HasIdNext(s.delivered, i, i.id);
  }

  lemma {:induction false} QuietRun(sha: Sha, s: Session, i: Instruction, ops: seq<Op>)
    requires IsWaiting(sha, s, i) && !Polled(s, i.id) && Quiet(ops)
    ensures var t := Run(sha, s, ops); IsWaiting(sha, t, i) && Fate(t, i, FirstHook(ops))
  {
    if ops == [] {
      NoFateYet(sha, s, i);
    } else {
      QuietRun(sha, s, i, ops[..|ops| - 1]);
      QuietStep(sha, Run(sha, s, ops[..|ops| - 1]), i, ops[|ops| - 1], FirstHook(ops[..|ops| - 1]));
    }
  }

  /** Once there is an ACK, quiet operations change nothing about it. */
  lemma {:induction false} SettledRun(sha: Sha, s: Session, i: Instruction, ops: seq<Op>, hook: Op)
    requires IsWaiting(sha, s, i) && Fate(s, i, Some(hook)) && Quiet(ops)
    ensures var t := Run(sha, s, ops); IsWaiting(sha, t, i) && Fate(t, i, Some(hook))
  {
    if ops != [] {
      SettledRun(sha, s, i, ops[..|ops| - 1], hook);
      QuietStep(sha, Run(sha, s, ops[..|ops| - 1]), i, ops[|ops| - 1], Some(hook));
    }
  }

  predicate AllQuiet(rounds: seq<Round>) {
    forall k :: 0 <= k < |rounds| ==> Quiet(rounds[k].others)
  }

  /** The first Stop-hook call of a whole wait. */
  function FirstOfWait(rounds: seq<Round>): Option<Op> {
    if rounds == [] then None
    else
      var first := FirstHook(rounds[0].others);
      if first.Some? then first else FirstOfWait(rounds[1..])
  }

  /** As long as the loop can poll, its wait succeeds exactly when a Stop-hook call writes an ACK before
      the deadline, whether or not it lives to deliver. */
  lemma {:induction false} WaitSucceedsIff(sha: Sha, s: Session, i: Instruction, rounds: seq<Round>)
    requires IsWaiting(sha, s, i) && !Polled(s, i.id) && AllQuiet(rounds)
    requires forall k :: 0 <= k < |rounds| ==> rounds[k].attempt == Answer
    ensures Await(sha, s, i.id, rounds, 0).1 == Acknowledged <==> FirstOfWait(rounds).Some?
    decreases |rounds|
  {
    if rounds != [] {
      QuietRun(sha, s, i, rounds[0].others);
      if FirstHook(rounds[0].others).None? {
        WaitSucceedsIff(sha, Run(sha, s, rounds[0].others), i, rounds[1..]);
      }
    }
  }

  /** What a wait that ends so tells about the instruction. */
  predicate WaitTells(sha: Sha, i: Instruction, t: Session, verdict: Verdict, hook: Option<Op>) {
    && IsWaiting(sha, t, i)
    && (verdict == Acknowledged ==> hook.Some? && (HasId(t.delivered, i.id) <==> Lived(hook)))
    && (verdict == TimedOut ==> Due(sha, t) == (if hook.Some? then None else Some(i))
                                && (HasId(t.delivered, i.id) <==> Lived(hook)))
  }

  lemma SettledAfter(sha: Sha, s: Session, i: Instruction, ops: seq<Op>, hook: Option<Op>)
    requires IsWaiting(sha, s, i) && Fate(s, i, hook) && Quiet(ops)
    ensures var t := Run(sha, s, ops);
            IsWaiting(sha, t, i) && Fate(t, i, if hook.Some? then hook else FirstHook(ops))
  {
    if hook.Some? {
      SettledRun(sha, s, i, ops, hook.value);
    } else {
      QuietRun(sha, s, i, ops);
    }
  }

  /** The first Stop-hook call of a wait, if there was none before. */
  function FirstOf(hook: Option<Op>, rounds: seq<Round>): Option<Op> {
    if hook.Some? then hook else FirstOfWait(rounds)
  }

  lemma FirstOfRest(hook: Option<Op>, rounds: seq<Round>)
    requires rounds != []
    ensures FirstOf(hook, rounds) == FirstOf(if hook.Some? then hook else FirstHook(rounds[0].others), rounds[1..])
  {
  }

  lemma WaitIsOver(sha: Sha, t: Session, i: Instruction, verdict: Verdict, hook: Option<Op>)
    requires IsWaiting(sha, t, i) && Fate(t, i, hook) && (verdict == Acknowledged ==> hook.Some?)
    ensures WaitTells(sha, i, t, verdict, hook)
  {
    DueWhileWaiting(sha, t, i);
  }

  lemma {:induction false} WaitEnds(sha: Sha, s: Session, i: Instruction, rounds: seq<Round>, errors: nat,
                                    hook: Option<Op>)
    requires IsWaiting(sha, s, i) && Fate(s, i, hook) && AllQuiet(rounds)
    ensures var (t, verdict) := Await(sha, s, i.id, rounds, errors);
            verdict in {Acknowledged, TimedOut} ==> WaitTells(sha, i, t, verdict, FirstOf(hook, rounds))
    decreases |rounds|
  {
    if rounds == [] {
      WaitIsOver(sha, s, i, TimedOut, hook);
    }
    if rounds != [] {
      var t := Run(sha, s, rounds[0].others);
      var next := if hook.Some? then hook else FirstHook(rounds[0].others);
      SettledAfter(sha, s, i, rounds[0].others, hook);
      FirstOfRest(hook, rounds);
      match rounds[0].attempt
      case Interrupt =>
      case Error =>
        if errors + 1 < MAX_CONSECUTIVE_ERRORS {
          WaitEnds(sha, t, i, rounds[1..], errors + 1, next);
        }
      case Answer =>
        if Polled(t, i.id) {
          QuietStep(sha, t, i, Poll(i.id), next);
          WaitIsOver(sha, Step(sha, t, Poll(i.id)), i, Acknowledged, next);
        } else {
          WaitEnds(sha, t, i, rounds[1..], 0, next);
        }
    }
  }

  /** Whatever the attempts to poll come to: a wait that reports an acknowledgement was for a delivered
      instruction exactly if the hook that wrote the ACK lived to hand it over. */
  lemma WaitWasDeliveredIff(sha: Sha, s: Session, i: Instruction, rounds: seq<Round>)
    requires IsWaiting(sha, s, i) && !Polled(s, i.id) && AllQuiet(rounds)
    ensures var (t, verdict) := Await(sha, s, i.id, rounds, 0);
            verdict == Acknowledged ==> (HasId(t.delivered, i.id) <==> Lived(FirstOfWait(rounds)))
  {
    NoFateYet(sha, s, i);
    WaitEnds(sha, s, i, rounds, 0, None);
  }

  /** And a wait that times out leaves the instruction pending, to be delivered by the next Stop call,
      exactly if there was none before. */
  lemma TimedOutIsStillDelivered(sha: Sha, s: Session, i: Instruction, rounds: seq<Round>)
    requires IsWaiting(sha, s, i) && !Polled(s, i.id) && AllQuiet(rounds)
    ensures var (t, verdict) := Await(sha, s, i.id, rounds, 0);
            verdict == TimedOut ==>
              IsWaiting(sha, t, i) && Due(sha, t) == if FirstOfWait(rounds).Some? then None else Some(i)
  {
    NoFateYet(sha, s, i);
    WaitEnds(sha, s, i, rounds, 0, None);
  }

  /** All that the others do during a wait respects the protocol. */
  predicate RoundsAllowed(sha: Sha, s: Session, rounds: seq<Round>)
    decreases |rounds|
  {
    rounds != [] ==>
      AllAllowed(sha, s, rounds[0].others) && RoundsAllowed(sha, Run(sha, s, rounds[0].others), rounds[1..])
  }

  /** Whatever happens meanwhile, a wait reports an acknowledgement only for an instruction that an ACK
      was written for. */
  lemma {:induction false} AcknowledgedHasAnAck(sha: Sha, s: Session, id: string, rounds: seq<Round>, errors: nat)
    requires Inv(sha, s) && RoundsAllowed(sha, s, rounds)
    ensures var (t, verdict) := Await(sha, s, id, rounds, errors);
            && Inv(sha, t)
            && (verdict == Acknowledged ==> HasId(t.acked, id) && id in t.acknowledged)
    decreases |rounds|
  {
    if rounds != [] {
      var t := Run(sha, s, rounds[0].others);
      RunKeeps(sha, s, rounds[0].others);
      match rounds[0].attempt
      case Interrupt =>
      case Error =>
        if errors + 1 < MAX_CONSECUTIVE_ERRORS {
          AcknowledgedHasAnAck(sha, t, id, rounds[1..], errors + 1);
        }
      case Answer =>
        if Polled(t, id) {
          StepKeeps(sha, t, Poll(id));
          assert t.acked[|t.acked| - 1].id == id;
        } else {
          AcknowledgedHasAnAck(sha, t, id, rounds[1..], 0);
        }
    }
  }

  /** The loop has written something else since `i`. */
  predicate Superseded(sha: Sha, s: Session, i: Instruction) {
    && Inv(sha, s)
    && exists k :: 0 <= k < |s.written| - 1 && s.written[k] == i
  }

  lemma SupersededStep(sha: Sha, s: Session, i: Instruction, op: Op)
    requires Superseded(sha, s, i) && Allowed(sha, s, op)
    ensures var t := Step(sha, s, op);
            Superseded(sha, t, i) && (HasId(t.delivered, i.id) <==> HasId(s.delivered, i.id))
  {
    var t := Step(sha, s, op);
    var k :| 0 <= k < |s.written| - 1 && s.written[k] == i;
    StepKeeps(sha, s, op);
    StepGives(sha, s, op);
    assert t.written[k] == i;
    if Due(sha, s).Some? {
      DueIsNew(sha, s);
      HasIdNext(s.delivered, Due(sha, s).value, i.id);
    }
  }

  lemma {:induction false} SupersededRun(sha: Sha, s: Session, i: Instruction, ops: seq<Op>)
    requires Superseded(sha, s, i) && AllAllowed(sha, s, ops)
    ensures var t := Run(sha, s, ops);
            Superseded(sha, t, i) && (HasId(t.delivered, i.id) <==> HasId(s.delivered, i.id))
  {
    if ops != [] {
      var before := ops[..|ops| - 1];
      SupersededRun(sha, s, i, before);
      SupersededStep(sha, Run(sha, s, before), i, ops[|ops| - 1]);
    }
  }

  /** Only the next write withdraws an instruction: whatever happens after it, the instruction is
      ever delivered exactly if the first Stop-hook call came before that write and did not die. */
  lemma NextWriteWithdraws(sha: Sha, s: Session, i: Instruction, before: seq<Op>, next: Instruction, after: seq<Op>)
    requires IsWaiting(sha, s, i) && !Polled(s, i.id) && Quiet(before)
    requires var t := Run(sha, s, before);
             next.id != "" && Allowed(sha, t, Write(next)) && AllAllowed(sha, Step(sha, t, Write(next)), after)
    ensures var end := Run(sha, Step(sha, Run(sha, s, before), Write(next)), after);
            HasId(end.delivered, i.id) <==> Lived(FirstHook(before))
  {
    var t := Run(sha, s, before);
    QuietRun(sha, s, i, before);
    var u := Step(sha, t, Write(next));
    StepKeeps(sha, t, Write(next));
    assert u.written[|t.written| - 1] == i;
    SupersededRun(sha, u, i, after);
  }

  // ----- the files -----------------------------------------------------------------------

  class HookFiles {
    const sha: Sha
    var pending: Option<Pending>
    var ack: Option<Ack>
    ghost var written: seq<Instruction>
    ghost var acked: seq<Instruction>
    ghost var delivered: seq<Instruction>
    ghost var acknowledged: seq<string>

    ghost function State(): Session
      reads this
    {
      Session(pending, ack, written, acked, delivered, acknowledged)
    }

    constructor (hash: Sha)
      ensures State() == START && sha == hash
    {
      sha, pending, ack := hash, None, None;
      written, acked, delivered, acknowledged := [], [], [], [];
    }

    /** `write_instruction`; false where it raises. */
    method WriteInstruction(id: string, content: string) returns (ok: bool)
      modifies this
      ensures State() == Step(sha, old(State()), Write(Instruction(id, content)))
      ensures ok <==> id != ""
    {
      if id == "" {
        return false;
      }
      pending := Some(Pending(id, content, Some(sha(content))));
      written := written + [Instruction(id, content)];
      ok := true;
    }

    /** The part of `run_stop_hook` that reads the files and writes the ACK. */
    method WriteAck() returns (due: Option<Instruction>)
      modifies `ack, `acked
      ensures due == Due(sha, old(State()))
      ensures State() == Step(sha, old(State()), StopDies)
    {
      due := None;
      if pending.Some? {
        var p := pending.value;
        var computed := sha(p.content);
        if p.declared.Some? && p.declared.value != computed {
          return;
        }
        var alreadyDelivered := ack.Some? && ack.value.id == p.id && ack.value.hash == computed;
        if !alreadyDelivered {
          ack := Some(Ack(p.id, computed));
          acked := acked + [Instruction(p.id, p.content)];
          due := Some(Instruction(p.id, p.content));
        }
      }
    }

    /** `run_stop_hook` and what the command line does with its result; `None` if the process dies in
        between. What the agent is given is what the result says. */
    method RunStopHook(active: bool, dies: bool) returns (result: Option<HookResult>)
      modifies this
      ensures State() == Step(sha, old(State()), if dies then StopDies else Stop(active))
      ensures result.None? <==> dies
      ensures delivered == if dies then old(delivered) else old(delivered) + Given(result.value)
      ensures result.Some? ==>
                match Due(sha, old(State()))
                case Some(i) => result.value == HookResult(2, i.content, i.id)
                case None => result.value.deliveredId == "" && result.value.exitCode == if active then 2 else 0
    {
      var due := WriteAck();
      if dies {
        return None;
      }
      var reply := HookResult(0, "", "");
      if due.Some? {
        reply := HookResult(2, due.value.content, due.value.id);
      } else if active {
        reply := HookResult(2, CONTINUE_MESSAGE, "");
      }
      delivered := delivered + Given(reply);
      result := Some(reply);
    }

    /** `poll_delivery`, with the loop's record of a positive answer. */
    method PollDelivery(id: string) returns (delivery: bool)
      modifies `acknowledged
      ensures State() == Step(sha, old(State()), Poll(id))
      ensures delivery <==> Polled(old(State()), id)
    {
      if id == "" || ack.None? {
        return false;
      }
      delivery := ack.value.id == id;
      if delivery {
        acknowledged := acknowledged + [id];
      }
    }

    /** What others do meanwhile. */
    method Perform(ops: seq<Op>)
      modifies this
      ensures State() == Run(sha, old(State()), ops)
    {
      for k := 0 to |ops|
        invariant State() == Run(sha, old(State()), ops[..k])
      {
        assert ops[..k + 1][..k] == ops[..k];
        match ops[k]
        case Write(i) => var ok := WriteInstruction(i.id, i.content);
        case Stop(active) => var result := RunStopHook(active, false);
        case StopDies => var result := RunStopHook(true, true);
        case Poll(id) => var delivery := PollDelivery(id);
        case Damage(p) => pending := p;
      }
      assert ops[..|ops|] == ops;
    }

    /** The polling loop of `_inject_via_hook_handoff`. */
    method AwaitAck(id: string, rounds: seq<Round>) returns (verdict: Verdict)
      modifies this
      ensures (State(), verdict) == Await(sha, old(State()), id, rounds, 0)
    {
      var errors := 0;
      for k := 0 to |rounds|
        invariant 0 <= errors < MAX_CONSECUTIVE_ERRORS
        invariant Await(sha, State(), id, rounds[k..], errors) == Await(sha, old(State()), id, rounds, 0)
      {
        Perform(rounds[k].others);
        match rounds[k].attempt
        case Interrupt =>
          return Interrupted;
        case Error =>
          errors := errors + 1;
          if errors >= MAX_CONSECUTIVE_ERRORS {
            return ErrorCap;
          }
        case Answer =>
          errors := 0;
          var delivery := PollDelivery(id);
          if delivery {
            return Acknowledged;
          }
      }
      verdict := TimedOut;
    }
  }
}
