/** Workflow specifications: node lookup and plan order (supervisor/domain/models.py). */
module Plan {
  import opened Options

  datatype Kind = LinearPlan | ConditionalWorkflow

  datatype NodeType = Task | DecisionPoint

  datatype BranchOption = BranchOption(id: string, next: string)

  datatype Node = Node(id: string, nodeType: NodeType, next: Option<string>, options: seq<BranchOption>)

  /** What counts as done. Evidence requirements are already case-folded and space-normalised. */
  datatype Contract = Contract(
    requireAllSteps: bool,
    requireVerification: bool,
    requireCleanRepo: bool,
    forbiddenStates: seq<string>,
    requiredEvidence: seq<string>,
    mustReviewBy: string)

  datatype Spec = Spec(kind: Kind, nodes: seq<Node>, contract: Contract, perNode: int, globalLimit: int)

  /** The position of the first node called `id`. */
  function FindNode(nodes: seq<Node>, id: string): (r: Option<nat>)
    ensures r.Some? ==> r.value < |nodes| && nodes[r.value].id == id
    ensures r.Some? ==> forall j :: 0 <= j < r.value ==> nodes[j].id != id
    ensures r.None? ==> forall j :: 0 <= j < |nodes| ==> nodes[j].id != id
  {
    if nodes == [] then None
    else if nodes[0].id == id then Some(0)
    else
      var rest := FindNode(nodes[1..], id);
      if rest.Some? then
        assert forall j :: 1 <= j < |nodes| ==> nodes[j] == nodes[1..][j - 1];
        Some(rest.value + 1)
      else
        assert forall j :: 1 <= j < |nodes| ==> nodes[j] == nodes[1..][j - 1];
        None
  }

  predicate Knows(spec: Spec, id: string) {
    FindNode(spec.nodes, id).Some?
  }

  function GetNode(spec: Spec, id: string): (node: Node)
    requires Knows(spec, id)
    ensures node in spec.nodes && node.id == id
  {
    spec.nodes[FindNode(spec.nodes, id).value]
  }

  /** The id that follows `current`: plan order in a linear plan (where an id the plan does
      not know has no successor), the node's own `next` otherwise. `None` as the outer option
      is the KeyError of an unknown node. */
  function NextNodeId(spec: Spec, current: string): (r: Option<Option<string>>)
    ensures spec.kind.LinearPlan? ==> r.Some?
    ensures Knows(spec, current) ==> r.Some?
  {
    var at := FindNode(spec.nodes, current);
    if spec.kind.LinearPlan? then
      if at.Some? && at.value + 1 < |spec.nodes| then Some(Some(spec.nodes[at.value + 1].id)) else Some(None)
    else if at.Some? then Some(spec.nodes[at.value].next)
    else None
  }

  function Ids(spec: Spec): (ids: seq<string>)
    ensures |ids| == |spec.nodes|
    ensures forall i :: 0 <= i < |ids| ==> ids[i] == spec.nodes[i].id
  {
    seq(|spec.nodes|, i requires 0 <= i < |spec.nodes| => spec.nodes[i].id)
  }

  /** Every reference made by the specification names one of its nodes. */
  ghost predicate WellFormed(spec: Spec) {
    && spec.nodes != []
    && (forall n :: n in spec.nodes && n.next.Some? ==> Knows(spec, n.next.value))
    && (forall n, o :: n in spec.nodes && o in n.options ==> Knows(spec, o.next))
  }

  /** A linear plan of task nodes with distinct ids. */
  ghost predicate Linear(spec: Spec) {
    && spec.kind.LinearPlan?
    && spec.nodes != []
    && (forall n :: n in spec.nodes ==> n.nodeType.Task?)
    && (forall i, j :: 0 <= i < j < |spec.nodes| ==> spec.nodes[i].id != spec.nodes[j].id)
  }

  lemma FindInLinear(spec: Spec, i: nat)
    requires Linear(spec) && i < |spec.nodes|
    ensures FindNode(spec.nodes, spec.nodes[i].id) == Some(i)
  {
  }
}
