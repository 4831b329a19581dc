/** Turning a checkpoint into a decision: the loop's gate with its contradiction routing,
    escalation mapping, continue gate and branch gate (supervisor/loop.py `gate`,
    supervisor/gates). Pattern matching on text is abstract: a checkpoint carries the class its
    text falls into. */
module Gates {
  import opened Options
  import opened Plan

  datatype Status = Working | StepDone | WorkflowDone | Blocked | OtherStatus

  /** The class the pattern library puts a text into, first match wins. */
  datatype TextClass = NoClass | SoftConfirmation | MissingInput | DangerousAction | BlockedText

  datatype ProgressClass = Execution | VerificationWork | Admin

  datatype EvidenceScope = CurrentNode | PriorPhase | UnknownScope

  datatype EscalationClass = NoEscalation | Business | Safety | Review | Recovery

  /** The structured fields a worker may declare on a checkpoint. */
  datatype Declared = Declared(
    requiresAuthorization: Option<bool>,
    escalation: Option<EscalationClass>,
    blockingInputs: bool,
    progress: Option<ProgressClass>,
    scope: Option<EvidenceScope>)

  const UNDECLARED := Declared(None, None, false, None, None)

  /** `evidence` is space-normalised and case-folded; `adminOnly` says that none of it shows
      execution; `textClass` classifies the whole checkpoint text; `foreign` marks another
      run's checkpoint. */
  datatype Checkpoint = Checkpoint(
    status: Status,
    node: string,
    summary: string,
    seqNo: nat,
    foreign: bool,
    evidence: seq<string>,
    adminOnly: bool,
    textClass: TextClass,
    schemaVersion: int,
    declared: Declared)

  datatype Normalized = Normalized(structured: bool, declared: Declared)

  /** The single normalisation point: only a payload that advertises schema version 2 keeps its
      structured fields, and a payload without a legal status has no normal form. */
  function Normalize(cp: Checkpoint): Option<Normalized> {
    if cp.status.OtherStatus? then None
    else if cp.schemaVersion == 2 then Some(Normalized(true, cp.declared))
    else Some(Normalized(false, UNDECLARED))
  }

  datatype Route = SafetyContradiction | BusinessContradiction | SemanticContradiction | RuntimeOwned

  predicate ValidEscalation(d: Declared) {
    (d.escalation == Some(Business) && d.blockingInputs) || d.escalation == Some(Review)
  }

  function DetectContradiction(n: Normalized, cp: Checkpoint, question: TextClass): Option<Route> {
    var d := n.declared;
    if !n.structured then None
    else if d.requiresAuthorization == Some(false) && (question.DangerousAction? || cp.textClass.DangerousAction?) then
      Some(SafetyContradiction)
    else if !d.blockingInputs && (question.MissingInput? || cp.textClass.MissingInput?) then
      Some(BusinessContradiction)
    else if d.escalation == Some(NoEscalation) && (cp.textClass.MissingInput? || cp.textClass.BlockedText?) then
      Some(BusinessContradiction)
    else if !ValidEscalation(d) && cp.adminOnly && (d.progress == Some(Execution) || d.scope == Some(CurrentNode)) then
      Some(SemanticContradiction)
    else if d.escalation == Some(Recovery) then Some(RuntimeOwned)
    else None
  }

  datatype DecisionKind =
    | Continue
    | Retry
    | ReInject
    | VerifyStep
    | AdvanceStep
    | Branch
    | EscalateToHuman
    | Finish
    | Abort

  /** What the pause classifier sees in a reason text: a review phrase, a safety word. */
  datatype Words = Words(review: bool, safety: bool)

  const PLAIN := Words(false, false)
  const ALARM := Words(false, true)

  /** `recoverable` says whether the reason text contains one of the phrases that
      auto-intervention recognises; only free text can. `guidance` is a next instruction;
      `nextNode` is the target of a branch. */
  datatype Decision = Decision(
    kind: DecisionKind,
    words: Words,
    recoverable: bool,
    guidance: bool,
    nextNode: string)

  function Escalate(words: Words, recoverable: bool): Decision {
    Decision(EscalateToHuman, words, recoverable, false, "")
  }

  function Plain(kind: DecisionKind): Decision {
    Decision(kind, PLAIN, false, false, "")
  }

  predicate IsEscalation(c: TextClass) {
    c.MissingInput? || c.DangerousAction? || c.BlockedText?
  }

  /** The question outranks the checkpoint. */
  function EscalationHit(cp: TextClass, question: TextClass): Option<TextClass> {
    if IsEscalation(question) then Some(question)
    else if IsEscalation(cp) then Some(cp)
    else None
  }

  function EscalationDecision(hit: TextClass): Decision {
    Escalate(if hit.DangerousAction? then ALARM else PLAIN, false)
  }

  /** The judge's four allowed verdicts, with the free text it may attach. */
  datatype Verdict = JudgeContinue | JudgeVerify | JudgeRetry | JudgeEscalate

  datatype JudgeAnswer = JudgeAnswer(verdict: Verdict, words: Words, recoverable: bool, guidance: bool)

  /** `confident` says that the reported confidence reaches the branch threshold; `words` and
      `recoverable` describe the reason text built when it does not. */
  datatype BranchAnswer = BranchAnswer(selected: string, confident: bool, words: Words, recoverable: bool)

  function ContinueGate(textClass: TextClass, question: TextClass, judge: JudgeAnswer): Decision {
    var hit := EscalationHit(textClass, question);
    if hit.None? && (question.SoftConfirmation? || textClass.SoftConfirmation?) then
      Decision(Continue, PLAIN, false, true, "")
    else if hit.Some? then EscalationDecision(hit.value)
    else
      var kind := match judge.verdict
        case JudgeContinue => Continue
        case JudgeVerify => VerifyStep
        case JudgeRetry => Retry
        case JudgeEscalate => EscalateToHuman;
      Decision(kind, judge.words, judge.recoverable, judge.guidance, "")
  }

  /** The last option carrying `id`: later options overwrite earlier ones in the option map. */
  function FindOption(options: seq<BranchOption>, id: string): (r: Option<BranchOption>)
    ensures r.Some? ==> r.value in options && r.value.id == id
    ensures r.None? ==> forall o :: o in options ==> o.id != id
  {
    if options == [] then None
    else
      var last := options[|options| - 1];
      if last.id == id then Some(last) else FindOption(options[..|options| - 1], id)
  }

  function BranchGate(node: Node, answer: BranchAnswer): Decision {
    var selected := FindOption(node.options, answer.selected);
    if node.options == [] then Escalate(PLAIN, false)
    else if selected.Some? && answer.confident then
      Decision(Branch, PLAIN, false, false, selected.value.next)
    else Escalate(answer.words, answer.recoverable)
  }

  /** `judgeRaises`: asking the judge, or putting its answer on record, raises. The
      `blockingInputs` of a business escalation are quoted in the reason, so the words of that
      text come from the environment. */
  datatype GateEnv = GateEnv(
    judge: JudgeAnswer,
    branch: BranchAnswer,
    judgeRaises: bool,
    quoted: Words,
    quotedRecoverable: bool)

  /** The structured fast paths; `None` falls through to the status checks. */
  function StructuredDecision(cp: Checkpoint, question: TextClass, env: GateEnv): Option<Decision> {
    var n := Normalize(cp);
    if n.None? then None
    else
      var d := n.value.declared;
      if d.requiresAuthorization == Some(true) then Some(Escalate(ALARM, false))
      else
        var route := DetectContradiction(n.value, cp, question);
        if route == Some(SafetyContradiction) then Some(Escalate(ALARM, false))
        else if route == Some(BusinessContradiction) then Some(Escalate(PLAIN, false))
        else if route == Some(SemanticContradiction) then Some(Plain(ReInject))
        else if d.escalation == Some(Business) && d.blockingInputs then
          Some(Escalate(env.quoted, env.quotedRecoverable))
        else if d.escalation == Some(Review) then Some(Escalate(PLAIN, false))
        else None
  }

  predicate ClaimsProgress(status: Status) {
    status.Working? || status.StepDone? || status.WorkflowDone?
  }

  /** The gate on a task node. */
  function TaskGate(attached: bool, last: Option<Checkpoint>, question: TextClass, env: GateEnv): Decision {
    if last.None? then ContinueGate(NoClass, question, env.judge)
    else
      var cp := last.value;
      var fast := StructuredDecision(cp, question, env);
      if fast.Some? then fast.value
      else if cp.status.Blocked? then Escalate(PLAIN, false)
      else if attached && ClaimsProgress(cp.status) && cp.adminOnly then
        var hit := EscalationHit(cp.textClass, question);
        if hit.Some? then EscalationDecision(hit.value) else Plain(ReInject)
      else if cp.status.StepDone? || cp.status.WorkflowDone? then Plain(VerifyStep)
      else ContinueGate(cp.textClass, question, env.judge)
  }

  function Gate(node: Node, attached: bool, last: Option<Checkpoint>, question: TextClass, env: GateEnv): Decision {
    if node.nodeType.DecisionPoint? then BranchGate(node, env.branch)
    else TaskGate(attached, last, question, env)
  }

  predicate ContinueAsks(textClass: TextClass, question: TextClass) {
    EscalationHit(textClass, question).None? && !question.SoftConfirmation? && !textClass.SoftConfirmation?
  }

  /** Whether the gate gets as far as asking the judge. */
  predicate AsksJudge(node: Node, attached: bool, last: Option<Checkpoint>, question: TextClass, env: GateEnv) {
    if node.nodeType.DecisionPoint? then node.options != []
    else if last.None? then ContinueAsks(NoClass, question)
    else
      var cp := last.value;
      && StructuredDecision(cp, question, env).None?
      && !cp.status.Blocked?
      && !(attached && ClaimsProgress(cp.status) && cp.adminOnly)
      && !cp.status.StepDone? && !cp.status.WorkflowDone?
      && ContinueAsks(cp.textClass, question)
  }

  /** Only then does the judge matter. */
  lemma UnaskedJudgesDoNotMatter(node: Node, attached: bool, last: Option<Checkpoint>, question: TextClass,
                                 env: GateEnv, other: GateEnv)
    requires !AsksJudge(node, attached, last, question, env)
    requires env.quoted == other.quoted && env.quotedRecoverable == other.quotedRecoverable
    ensures !AsksJudge(node, attached, last, question, other)
    ensures Gate(node, attached, last, question, env) == Gate(node, attached, last, question, other)
  {
  }

  /** And there it does: two answers of the judge lead to different decisions. */
  lemma AskedJudgesMatter(node: Node, attached: bool, last: Option<Checkpoint>, question: TextClass, env: GateEnv)
    requires AsksJudge(node, attached, last, question, env)
    ensures exists judge: JudgeAnswer, branch: BranchAnswer ::
              Gate(node, attached, last, question, env.(judge := judge, branch := branch))
              != Gate(node, attached, last, question, env)
  {
    var now := Gate(node, attached, last, question, env);
    if node.nodeType.DecisionPoint? {
      var o := node.options[|node.options| - 1];
      var branch := BranchAnswer(o.id, !now.kind.Branch?, PLAIN, false);
      assert Gate(node, attached, last, question, env.(judge := env.judge, branch := branch)) != now;
    } else {
      var judge := env.judge.(verdict := if now.kind.Continue? then JudgeVerify else JudgeContinue);
      assert Gate(node, attached, last, question, env.(judge := judge, branch := env.branch)) != now;
    }
  }

  /** What every gate decision obeys, whatever the judge says: it is one the loop can apply, it
      only branches to a successor the node offers, and on the attach boundary a task node moves
      on to work or verification only if the checkpoint shows execution or claims no progress. */
  predicate Legal(node: Node, attached: bool, last: Option<Checkpoint>, d: Decision) {
    && d.kind in {Continue, Retry, ReInject, VerifyStep, Branch, EscalateToHuman}
    && (d.kind.Branch? ==> node.nodeType.DecisionPoint? && exists o :: o in node.options && d.nextNode == o.next)
    && (node.nodeType.Task? && attached && last.Some? && ClaimsProgress(last.value.status) && last.value.adminOnly
        ==> d.kind in {ReInject, EscalateToHuman})
  }

  lemma GateIsLegal(node: Node, attached: bool, last: Option<Checkpoint>, question: TextClass, env: GateEnv)
    ensures Legal(node, attached, last, Gate(node, attached, last, question, env))
  {
    if node.nodeType.DecisionPoint? {
      var selected := FindOption(node.options, env.branch.selected);
      if selected.Some? {
        assert selected.value in node.options;
      }
    }
  }

  /** A payload that does not advertise schema version 2 is routed as if it declared nothing. */
  lemma LegacyPayloadsCannotOptIn(node: Node, attached: bool, cp: Checkpoint, question: TextClass, env: GateEnv)
    requires cp.schemaVersion != 2
    ensures Gate(node, attached, Some(cp), question, env)
         == Gate(node, attached, Some(cp.(declared := UNDECLARED)), question, env)
  {
    assert Normalize(cp) == Normalize(cp.(declared := UNDECLARED));
  }

  /** A legitimate request for a human is never swallowed by a re-inject, a verification or the
      judge. */
  lemma ValidEscalationsReachAHuman(node: Node, attached: bool, cp: Checkpoint, question: TextClass, env: GateEnv)
    requires node.nodeType.Task? && cp.schemaVersion == 2 && !cp.status.OtherStatus?
    requires cp.declared.requiresAuthorization == Some(true) || ValidEscalation(cp.declared)
    ensures Gate(node, attached, Some(cp), question, env).kind == EscalateToHuman
  {
  }

  /** The guard under which a structured checkpoint is re-injected before its status is read. */
  predicate SemanticConflict(cp: Checkpoint, question: TextClass) {
    var d := cp.declared;
    && cp.schemaVersion == 2
    && cp.adminOnly
    && (d.progress == Some(Execution) || d.scope == Some(CurrentNode))
    && d.requiresAuthorization != Some(true)
    && !ValidEscalation(d)
    && !(d.requiresAuthorization == Some(false) && (question.DangerousAction? || cp.textClass.DangerousAction?))
    && !(!d.blockingInputs && (question.MissingInput? || cp.textClass.MissingInput?))
    && !(d.escalation == Some(NoEscalation) && (cp.textClass.MissingInput? || cp.textClass.BlockedText?))
  }

  // ----- which decision, exactly -----------------------------------------------------------

  /** The checkpoint declares nothing, or nothing that is routed before its status is read. */
  predicate NoFastPath(cp: Checkpoint, question: TextClass) {
    var d, classes := cp.declared, {question, cp.textClass};
    || cp.status.OtherStatus? || cp.schemaVersion != 2
    || (&& d.requiresAuthorization != Some(true)
        && !(d.requiresAuthorization == Some(false) && DangerousAction in classes)
        && !(!d.blockingInputs && MissingInput in classes)
        && !(d.escalation == Some(NoEscalation) && cp.textClass in {MissingInput, BlockedText})
        && d.escalation != Some(Review) && !(d.escalation == Some(Business) && d.blockingInputs)
        && !(cp.adminOnly && (d.progress == Some(Execution) || d.scope == Some(CurrentNode))))
  }

  /** The worker asks for authorization, or denies that it needs any for something dangerous. */
  predicate AsksAuthorization(cp: Checkpoint, question: TextClass) {
    || cp.declared.requiresAuthorization == Some(true)
    || (cp.declared.requiresAuthorization == Some(false) && DangerousAction in {question, cp.textClass})
  }

  /** The checkpoint asks for something that is missing and declares nothing missing, or declares that it needs
      nobody while its text says that it is stuck. */
  predicate HidesABlocker(cp: Checkpoint, question: TextClass) {
    || (!cp.declared.blockingInputs && MissingInput in {question, cp.textClass})
    || (cp.declared.escalation == Some(NoEscalation) && cp.textClass in {MissingInput, BlockedText})
  }

  /** What a structured checkpoint with something to route comes to: a human, unless it is re-injected. The
      pause is one for safety exactly if it is about authorization, or if what the worker quotes as missing
      says so, which alone can make it recoverable. */
  lemma FastPathDecides(node: Node, attached: bool, cp: Checkpoint, question: TextClass, env: GateEnv)
    requires node.nodeType.Task? && !NoFastPath(cp, question)
    ensures var d := Gate(node, attached, Some(cp), question, env);
            && (d.kind == ReInject <==> SemanticConflict(cp, question))
            && (d.kind == EscalateToHuman <==> !SemanticConflict(cp, question))
            && (if AsksAuthorization(cp, question) then d == Escalate(ALARM, false)
                else if SemanticConflict(cp, question) then d == Plain(ReInject)
                else if !HidesABlocker(cp, question) && cp.declared.escalation == Some(Business) then
                  d == Escalate(env.quoted, env.quotedRecoverable)
                else d == Escalate(PLAIN, false))
  {
  }

  const ESCALATING: set<TextClass> := {MissingInput, DangerousAction, BlockedText}

  /** The decision is one for a human about the question or, if that is harmless, the text; the pause is
      one for safety exactly if that is dangerous. */
  predicate Alerts(d: Decision, textClass: TextClass, question: TextClass) {
    && d.kind == EscalateToHuman && !d.recoverable && !d.words.review
    && (d.words.safety <==>
          question == DangerousAction || (question !in ESCALATING && textClass == DangerousAction))
  }

  /** The decision is the judge's. */
  predicate FollowsJudge(d: Decision, judge: JudgeAnswer) {
    && d.words == judge.words && d.recoverable == judge.recoverable && d.guidance == judge.guidance
    && (d.kind == Continue <==> judge.verdict == JudgeContinue)
    && (d.kind == VerifyStep <==> judge.verdict == JudgeVerify)
    && (d.kind == Retry <==> judge.verdict == JudgeRetry)
    && (d.kind == EscalateToHuman <==> judge.verdict == JudgeEscalate)
  }

  /** What becomes of an ordinary checkpoint on a task: blocked, it goes to a human; a progress claim on
      administrative evidence does not leave the attach boundary; a finished step is verified; otherwise
      its text decides, and the judge only where the text is silent. */
  lemma OrdinaryCheckpointsDecide(node: Node, attached: bool, cp: Checkpoint, question: TextClass, env: GateEnv)
    requires node.nodeType.Task? && NoFastPath(cp, question)
    ensures var d := Gate(node, attached, Some(cp), question, env);
            var alarming := question in ESCALATING || cp.textClass in ESCALATING;
            if cp.status == Blocked then d == Escalate(PLAIN, false)
            else if attached && cp.status in {Working, StepDone, WorkflowDone} && cp.adminOnly then
              if alarming then Alerts(d, cp.textClass, question) else d == Plain(ReInject)
            else if cp.status in {StepDone, WorkflowDone} then d == Plain(VerifyStep)
            else if alarming then Alerts(d, cp.textClass, question)
            else if SoftConfirmation in {question, cp.textClass} then d.kind == Continue && d.guidance
            else FollowsJudge(d, env.judge)
  {
  }

  /** Without a checkpoint, the question alone decides, and the judge where it is silent. */
  lemma QuestionsDecide(node: Node, attached: bool, question: TextClass, env: GateEnv)
    requires node.nodeType.Task?
    ensures var d := Gate(node, attached, None, question, env);
            if question in ESCALATING then Alerts(d, NoClass, question)
            else if question == SoftConfirmation then d.kind == Continue && d.guidance
            else FollowsJudge(d, env.judge)
  {
  }

  lemma {:induction false} LastOption(options: seq<BranchOption>, id: string) returns (k: nat)
    requires FindOption(options, id).Some?
    ensures k < |options| && options[k] == FindOption(options, id).value
    ensures forall j :: k < j < |options| ==> options[j].id != id
  {
    k := |options| - 1;
    if options[k].id != id {
      k := LastOption(options[..k], id);
    }
  }

  /** The gate at a decision point branches exactly if the judge is sure of an option that the node
      offers, and to where the last option of that name leads. */
  lemma BranchesIff(node: Node, attached: bool, last: Option<Checkpoint>, question: TextClass, env: GateEnv)
    requires node.nodeType.DecisionPoint?
    ensures var d := Gate(node, attached, last, question, env);
            && (d.kind == Branch <==>
                  env.branch.confident && exists o :: o in node.options && o.id == env.branch.selected)
            && (d.kind == Branch ==>
                  exists k :: && 0 <= k < |node.options|
                              && node.options[k] == BranchOption(env.branch.selected, d.nextNode)
                              && forall j :: k < j < |node.options| ==> node.options[j].id != env.branch.selected)
            && (d.kind != Branch ==> d.kind == EscalateToHuman)
            && (d.recoverable ==> env.branch.recoverable)
  {
    if FindOption(node.options, env.branch.selected).Some? {
      var k := LastOption(node.options, env.branch.selected);
      assert node.options[k] in node.options;
    }
  }

  /** Whether the judge's branch is taken. */
  predicate Branches(node: Node, answer: BranchAnswer) {
    node.options != [] && answer.confident && FindOption(node.options, answer.selected).Some?
  }

  /** The code comments promise that a blocked checkpoint always pauses for a human. At a task
      node it does, exactly when no execution-semantic contradiction pre-empts the status check,
      and is re-injected otherwise; at a decision point, which does not read the status, exactly
      when the judge's branch is not taken. */
  lemma BlockedReachesAHumanIff(node: Node, attached: bool, cp: Checkpoint, question: TextClass, env: GateEnv)
    requires cp.status.Blocked?
    ensures Gate(node, attached, Some(cp), question, env).kind ==
            if node.nodeType.Task? then (if SemanticConflict(cp, question) then ReInject else EscalateToHuman)
            else (if Branches(node, env.branch) then Branch else EscalateToHuman)
  {
  }

  /** A blocked checkpoint that the supervisor answers with a re-inject: structured, no
      escalation class declared, progress claimed as execution, only administrative evidence.
      Its text is classified as blocked, which alone does not help. */
  lemma BlockedCanBeReInjected(node: Node, env: GateEnv)
    requires node.nodeType.Task?
    ensures var cp := Checkpoint(Blocked, node.id, "stuck", 1, false, ["git status"], true, BlockedText, 2,
                                 UNDECLARED.(progress := Some(Execution)));
            Gate(node, false, Some(cp), NoClass, env).kind == ReInject
  {
    var cp := Checkpoint(Blocked, node.id, "stuck", 1, false, ["git status"], true, BlockedText, 2,
                         UNDECLARED.(progress := Some(Execution)));
    BlockedReachesAHumanIff(node, false, cp, NoClass, env);
  }

  /** A blocked checkpoint at a decision point, answered with a branch. */
  lemma BlockedCanBranch(id: string, next: string, cp: Checkpoint, question: TextClass, env: GateEnv)
    requires cp.status.Blocked?
    ensures var node := Node(id, DecisionPoint, None, [BranchOption("yes", next)]);
            var d := Gate(node, false, Some(cp), question, env.(branch := BranchAnswer("yes", true, PLAIN, false)));
            d.kind == Branch && d.nextNode == next
  {
    var options := [BranchOption("yes", next)];
    assert FindOption(options, "yes") == Some(options[0]);
  }
}
