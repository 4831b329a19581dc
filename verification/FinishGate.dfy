/** The finish gate: when a run may be called complete (supervisor/gates/finish_gate.py). */
module FinishGate {
  import opened Options
  import Plan

  datatype Verification = Pending | Verdict(ok: bool)

  /** `git status --porcelain`: empty, non-empty, it could not be run, or running it raises what the
      gate does not catch. */
  datatype GitStatus = Clean | Dirty | Unknown | Fails

  datatype Failure =
    | NodesNotDone
    | VerificationNotPassed
    | UncommittedChanges
    | GitUnchecked
    | ForbiddenState(name: string)
    | MissingEvidence(requirement: string)
    | ReviewRequired(reviewer: string)

  /** The parts of a run the gate looks at. */
  datatype Standing = Standing(
    node: string,
    done: seq<string>,
    verification: Verification,
    evidence: seq<string>,
    reviews: set<string>)

  predicate ReviewMet(required: string, reviews: set<string>) {
    if required == "" then true
    else if required == "human" then "human" in reviews || "stronger_reviewer" in reviews
    else if required == "stronger_reviewer" then "stronger_reviewer" in reviews
    else false
  }

  /** `required in entry`: the requirement occurs somewhere in the entry. */
  predicate Contains(entry: string, required: string) {
    required <= entry || (entry != "" && Contains(entry[1..], required))
  }

  predicate EvidenceMet(requirement: string, entries: seq<string>) {
    if requirement == "" then true
    else if ':' in requirement then
      exists e :: e in entries && (e == requirement || requirement + ";" <= e)
    else
      exists e :: e in entries && Contains(e, requirement)
  }

  predicate StepsMet(spec: Plan.Spec, s: Standing) {
    !spec.contract.requireAllSteps
    || (if spec.kind.ConditionalWorkflow? then s.node in s.done
        else forall n :: n in spec.nodes ==> n.id in s.done)
  }

  /** A run that has never verified anything is still `pending`, which this check accepts. */
  predicate VerificationMet(spec: Plan.Spec, s: Standing) {
    !spec.contract.requireVerification || s.verification.Pending? || s.verification.ok
  }

  function ForbiddenHit(name: string, s: Standing, git: GitStatus): bool {
    || (name == "test_failing" && s.verification.Verdict? && !s.verification.ok)
    || (name == "uncommitted_changes" && git.Dirty?)
  }

  /** Whether the gate looks at the working tree at all. */
  predicate NeedsGit(spec: Plan.Spec) {
    spec.contract.requireCleanRepo || "uncommitted_changes" in spec.contract.forbiddenStates
  }

  predicate GitRaises(spec: Plan.Spec, git: GitStatus) {
    NeedsGit(spec) && git.Fails?
  }

  /** The acceptance contract, read declaratively. */
  predicate Accepts(spec: Plan.Spec, s: Standing, git: GitStatus) {
    && StepsMet(spec, s)
    && VerificationMet(spec, s)
    && (spec.contract.requireCleanRepo ==> git.Clean?)
    && (forall f :: f in spec.contract.forbiddenStates ==> !ForbiddenHit(f, s, git))
    && (forall r :: r in spec.contract.requiredEvidence ==> EvidenceMet(r, s.evidence))
    && ReviewMet(spec.contract.mustReviewBy, s.reviews)
  }

  lemma {:induction false} ContainsIff(entry: string, required: string)
    ensures Contains(entry, required) <==> exists i :: 0 <= i <= |entry| - |required| && OccursAt(entry, required, i)
  {
    if required <= entry {
      assert OccursAt(entry, required, 0);
    }
    if entry != "" {
      var rest := entry[1..];
      ContainsIff(rest, required);
      if i :| 0 <= i <= |rest| - |required| && OccursAt(rest, required, i) {
        assert entry[i + 1..i + 1 + |required|] == rest[i..i + |required|];
        assert OccursAt(entry, required, i + 1);
      }
      if i :| 0 < i <= |entry| - |required| && OccursAt(entry, required, i) {
        assert rest[i - 1..i - 1 + |required|] == entry[i..i + |required|];
        assert OccursAt(rest, required, i - 1);
      }
    }
  }

  predicate OccursAt(entry: string, required: string, i: nat)
    requires i + |required| <= |entry|
  {
    entry[i..i + |required|] == required
  }

  /** The entry shows what is required: a pair of key and value at its start, and anything else anywhere. */
  predicate Shows(entry: string, required: string) {
    if ':' in required then
      |entry| >= |required| && entry[..|required|] == required && (|entry| > |required| ==> entry[|required|] == ';')
    else exists i :: 0 <= i <= |entry| - |required| && OccursAt(entry, required, i)
  }

  lemma ShownIff(required: string, entries: seq<string>)
    ensures EvidenceMet(required, entries) <==> required == "" || exists e :: e in entries && Shows(e, required)
  {
    forall e | e in entries
      ensures Shows(e, required) <==> (if ':' in required then e == required || required + ";" <= e
                                       else Contains(e, required))
    {
      ContainsIff(e, required);
      if |e| > |required| {
        assert e[..|required| + 1] == e[..|required|] + [e[|required|]];
      }
    }
  }

  lemma AllowedIff(forbidden: seq<string>, s: Standing, git: GitStatus)
    ensures (forall f :: f in forbidden ==> !ForbiddenHit(f, s, git)) <==>
              && ("test_failing" in forbidden ==> s.verification != Verdict(false))
              && ("uncommitted_changes" in forbidden ==> git != Dirty)
  {
    assert ForbiddenHit("test_failing", s, git) <==> s.verification == Verdict(false);
    assert ForbiddenHit("uncommitted_changes", s, git) <==> git == Dirty;
  }

  lemma EvidencedIff(required: seq<string>, entries: seq<string>)
    ensures (forall r :: r in required ==> EvidenceMet(r, entries)) <==>
            (forall r :: r in required && r != "" ==> exists e :: e in entries && Shows(e, r))
  {
    forall r | r in required
      ensures EvidenceMet(r, entries) <==> r == "" || exists e :: e in entries && Shows(e, r)
    {
      ShownIff(r, entries);
    }
  }

  /** What the contract of a specification accepts, clause by clause. */
  lemma AcceptsIff(spec: Plan.Spec, s: Standing, git: GitStatus)
    ensures var contract := spec.contract;
            Accepts(spec, s, git) <==>
              && (contract.requireAllSteps ==>
                    if spec.kind == Plan.ConditionalWorkflow then s.node in s.done
                    else forall n :: n in spec.nodes ==> n.id in s.done)
              && (contract.requireVerification ==> s.verification in {Pending, Verdict(true)})
              && (contract.requireCleanRepo ==> git == Clean)
              && ("test_failing" in contract.forbiddenStates ==> s.verification != Verdict(false))
              && ("uncommitted_changes" in contract.forbiddenStates ==> git != Dirty)
              && (forall r :: r in contract.requiredEvidence && r != "" ==> exists e :: e in s.evidence && Shows(e, r))
              && (contract.mustReviewBy != "" ==>
                    || (contract.mustReviewBy in {"human", "stronger_reviewer"} && "stronger_reviewer" in s.reviews)
                    || (contract.mustReviewBy == "human" && "human" in s.reviews))
  {
    AllowedIff(spec.contract.forbiddenStates, s, git);
    EvidencedIff(spec.contract.requiredEvidence, s.evidence);
  }

  /** What a listed failure asserts about the run. */
  ghost predicate Justified(f: Failure, spec: Plan.Spec, s: Standing, git: GitStatus) {
    match f
    case NodesNotDone => !StepsMet(spec, s)
    case VerificationNotPassed => !VerificationMet(spec, s)
    case UncommittedChanges => spec.contract.requireCleanRepo && git.Dirty?
    case GitUnchecked => spec.contract.requireCleanRepo && git.Unknown?
    case ForbiddenState(name) => name in spec.contract.forbiddenStates && ForbiddenHit(name, s, git)
    case MissingEvidence(r) => r in spec.contract.requiredEvidence && !EvidenceMet(r, s.evidence)
    case ReviewRequired(r) => r == spec.contract.mustReviewBy && !ReviewMet(r, s.reviews)
  }

  /** `FinishGate.evaluate`: collects one failure per unmet requirement. Git is consulted once,
      and only when the contract asks about the working tree; `None` if that raises. */
  method Evaluate(spec: Plan.Spec, s: Standing, git: GitStatus) returns (result: Option<seq<Failure>>)
    ensures result.None? <==> GitRaises(spec, git)
    ensures result.Some? ==>
              && (result.value == [] <==> Accepts(spec, s, git))
              && (forall f :: f in result.value <==> Justified(f, spec, s, git))
  {
    var contract := spec.contract;
    var failures := [];
    if !StepsMet(spec, s) {
      failures := failures + [NodesNotDone];
    }
    if !VerificationMet(spec, s) {
      failures := failures + [VerificationNotPassed];
    }
    if NeedsGit(spec) && git.Fails? {
      return None;
    }
    if contract.requireCleanRepo {
      if git.Dirty? {
        failures := failures + [UncommittedChanges];
      } else if git.Unknown? {
        failures := failures + [GitUnchecked];
      }
    }
    for i := 0 to |contract.forbiddenStates|
      invariant forall f :: f in failures ==> Justified(f, spec, s, git)
      invariant forall f :: Justified(f, spec, s, git)
                  && !f.ForbiddenState? && !f.MissingEvidence? && !f.ReviewRequired?
                  ==> f in failures
      invariant forall j :: 0 <= j < i && ForbiddenHit(contract.forbiddenStates[j], s, git)
                  ==> ForbiddenState(contract.forbiddenStates[j]) in failures
    {
      if ForbiddenHit(contract.forbiddenStates[i], s, git) {
        failures := failures + [ForbiddenState(contract.forbiddenStates[i])];
      }
    }
    for i := 0 to |contract.requiredEvidence|
      invariant forall f :: f in failures ==> Justified(f, spec, s, git)
      invariant forall f :: Justified(f, spec, s, git) && !f.MissingEvidence? && !f.ReviewRequired? ==> f in failures
      invariant forall j :: 0 <= j < i && !EvidenceMet(contract.requiredEvidence[j], s.evidence)
                  ==> MissingEvidence(contract.requiredEvidence[j]) in failures
    {
      if !EvidenceMet(contract.requiredEvidence[i], s.evidence) {
        failures := failures + [MissingEvidence(contract.requiredEvidence[i])];
      }
    }
    if !ReviewMet(contract.mustReviewBy, s.reviews) {
      failures := failures + [ReviewRequired(contract.mustReviewBy)];
    }
    EmptyIffAccepts(spec, s, git, failures);
    result := Some(failures);
  }

  lemma EmptyIffAccepts(spec: Plan.Spec, s: Standing, git: GitStatus, failures: seq<Failure>)
    requires !GitRaises(spec, git)
    requires forall f :: f in failures <==> Justified(f, spec, s, git)
    ensures failures == [] <==> Accepts(spec, s, git)
  {
    if failures == [] {
      assert forall f :: !Justified(f, spec, s, git);
      assert !Justified(NodesNotDone, spec, s, git);
      assert !Justified(VerificationNotPassed, spec, s, git);
      assert !Justified(UncommittedChanges, spec, s, git);
      assert !Justified(GitUnchecked, spec, s, git);
      assert !Justified(ReviewRequired(spec.contract.mustReviewBy), spec, s, git);
      forall f | f in spec.contract.forbiddenStates
        ensures !ForbiddenHit(f, s, git)
      {
        assert !Justified(ForbiddenState(f), spec, s, git);
      }
      forall r | r in spec.contract.requiredEvidence
        ensures EvidenceMet(r, s.evidence)
      {
        assert !Justified(MissingEvidence(r), spec, s, git);
      }
    } else {
      var f := failures[0];
      assert f in failures;
      assert Justified(f, spec, s, git);
    }
  }
}
