/**
 * The values the designer keeps in its React state (src/App.jsx): nodes and
 * edges in the shape `@xyflow/react` uses, without the presentation-only parts
 * (node position, `animated`).
 */
module Graph {
  import opened Wrappers
  import opened Decimal

  /** `node.data`: `label` is absent on the initial node, so both fields are optional. */
  datatype NodeData = NodeData(labelText: Option<string>, meta: Option<string>)

  /** One placed node; `nodeType` is the `type` key used to pick a renderer. */
  datatype Node = Node(id: string, nodeType: string, data: NodeData)

  /** The arrow style `onConnect` attaches as `markerEnd`. */
  datatype MarkerType = Arrow | ArrowClosed

  /** One connection as the flow library stores it. */
  datatype Edge = Edge(
    id: string,
    source: string,
    target: string,
    sourceHandle: Option<string>,
    targetHandle: Option<string>,
    markerEnd: Option<MarkerType>)

  /** The keys of the `nodeTypes` renderer map. */
  const NodeTypeKeys: set<string> :=
    {"intakeNode", "scheduleNode", "communicationNode", "aiNode", "consultNode"}

  /** The initial value of `selectedType`; it is not one of `NodeTypeKeys`. */
  const DefaultSelectedType: string := "defaultNode"

  /** The initial value of `counter`. */
  const InitialCounter: nat := 4

  /** The single entry of `initialNodes`: id '1', an intake node with meta 'Intake' and no label. */
  const InitialNode: Node := Node("1", "intakeNode", NodeData(None, Some("Intake")))

  /** The record `addNewNode` builds from the current `selectedType` and `counter`. */
  function NewNode(selectedType: string, counter: nat): Node {
    var id := NatToString(counter);
    Node(id, selectedType, NodeData(Some(selectedType + "-" + id), Some("")))
  }

  /** No two nodes of the list share an id. */
  predicate DistinctIds(ns: seq<Node>) {
    forall i, j :: 0 <= i < j < |ns| ==> ns[i].id != ns[j].id
  }
}
