/**
 * The graph state of the `DagDesigner` component (src/App.jsx:102-167): the
 * node list, the edge list, the selected node type and the id counter, with
 * the handlers that change them and the export that reads them.
 */
module Designer {
  import opened Wrappers
  import opened Decimal
  import opened Graph
  import opened Export

  /**
   * The node list and counter reachable from the initial state by `addNewNode`:
   * the initial node first, then one factory-built node per counter value
   * 4, 5, ..., and the counter one past the last value used.
   */
  predicate IssuedLayout(ns: seq<Node>, counter: nat) {
    && |ns| >= 1
    && ns[0] == InitialNode
    && counter == |ns| + 3
    && forall i :: 1 <= i < |ns| ==> ns[i] == NewNode(ns[i].nodeType, i + 3)
  }

  /** Adding a node built from the current counter, then bumping it, keeps the layout. */
  lemma AppendKeepsLayout(ns: seq<Node>, counter: nat, selectedType: string)
    requires IssuedLayout(ns, counter)
    ensures IssuedLayout(ns + [NewNode(selectedType, counter)], counter + 1)
  {
  }

  /**
   * Ids read as numbers grow strictly in creation order and stay below the
   * counter: '1', then '4', '5', ...
   */
  lemma IssuedIdsIncrease(ns: seq<Node>, counter: nat)
    requires IssuedLayout(ns, counter)
    ensures forall i :: 0 <= i < |ns| ==> AllDigits(ns[i].id) && ParseDecimal(ns[i].id) < counter
    ensures forall i, j :: 0 <= i < j < |ns| ==> ParseDecimal(ns[i].id) < ParseDecimal(ns[j].id)
  {
    forall i | 0 <= i < |ns|
      ensures ParseDecimal(ns[i].id) == if i == 0 then 1 else i + 3
    {
      if i == 0 {
        ParseNatToString(1);
      } else {
        ParseNatToString(i + 3);
      }
    }
  }

  /** Node ids are pairwise distinct. */
  lemma IssuedIdsDistinct(ns: seq<Node>, counter: nat)
    requires IssuedLayout(ns, counter)
    ensures DistinctIds(ns)
  {
    IssuedIdsIncrease(ns, counter);
  }

  /** The id the next `addNewNode` will use is not yet taken. */
  lemma CounterIdFresh(ns: seq<Node>, counter: nat)
    requires IssuedLayout(ns, counter)
    ensures forall i :: 0 <= i < |ns| ==> ns[i].id != NatToString(counter)
  {
    IssuedIdsIncrease(ns, counter);
    ParseNatToString(counter);
  }

  /**
   * Exporting after `addNewNode` gives the earlier export plus one record whose
   * label is `type-id` and whose meta is null (the new node's meta is '').
   */
  lemma ExportAfterAdd(ns: seq<Node>, selectedType: string, counter: nat)
    ensures var id := NatToString(counter);
      NodesForYaml(ns + [NewNode(selectedType, counter)])
        == NodesForYaml(ns) + [NodeRecord(id, selectedType, Some(selectedType + "-" + id), None)]
  {
  }

  class DagDesigner {
    var nodes: seq<Node>
    var edges: seq<Edge>
    var selectedType: string
    var counter: nat

    ghost predicate Valid()
      reads this
    {
      IssuedLayout(nodes, counter)
    }

    /** The initial state: `initialNodes`, no edges, 'defaultNode' selected, counter 4. */
    constructor ()
      ensures Valid()
      ensures nodes == [InitialNode] && edges == []
      ensures selectedType == DefaultSelectedType && selectedType !in NodeTypeKeys
      ensures counter == InitialCounter
    {
      nodes := [InitialNode];
      edges := [];
      selectedType := DefaultSelectedType;
      counter := InitialCounter;
    }

    /**
     * The `<select>` change handler. It stores the value without checking it.
     * The dropdown offers only five values, but the model accepts any string,
     * so it covers more states than the program can reach.
     */
    method SelectType(t: string)
      requires Valid()
      modifies this
      ensures Valid()
      ensures selectedType == t
      ensures nodes == old(nodes) && edges == old(edges) && counter == old(counter)
    {
      selectedType := t;
    }

    /**
     * `addNewNode`: append a node whose id is the counter in decimal, whose type
     * is the selected type (not checked against `nodeTypes`), whose label is
     * `type-id` and whose meta is empty; then increment the counter.
     */
    method AddNewNode()
      requires Valid()
      modifies this
      ensures Valid()
      ensures counter == old(counter) + 1
      ensures nodes == old(nodes) + [NewNode(old(selectedType), old(counter))]
      ensures nodes[|nodes| - 1].id == NatToString(old(counter))
      ensures nodes[|nodes| - 1].data == NodeData(Some(selectedType + "-" + NatToString(old(counter))), Some(""))
      ensures forall i :: 0 <= i < |old(nodes)| ==> nodes[i].id != NatToString(old(counter))
      ensures DistinctIds(nodes)
      ensures edges == old(edges) && selectedType == old(selectedType)
    {
      CounterIdFresh(nodes, counter);
      AppendKeepsLayout(nodes, counter, selectedType);
      var id := NatToString(counter);
      var newNode := Node(id, selectedType, NodeData(Some(selectedType + "-" + id), Some("")));
      counter := counter + 1;
      nodes := nodes + [newNode];
      IssuedIdsDistinct(nodes, counter);
    }

    /**
     * The edge list as the flow library hands it back through `setEdges`
     * (`onConnect`); its contents are the library's business.
     */
    method ReplaceEdges(es: seq<Edge>)
      requires Valid()
      modifies this
      ensures Valid()
      ensures edges == es
      ensures nodes == old(nodes) && selectedType == old(selectedType) && counter == old(counter)
    {
      edges := es;
    }

    /** `exportYaml` up to `doc`: reads the state and changes nothing. */
    method ExportYaml() returns (doc: Document)
      requires Valid()
      ensures doc == ExportDocument(nodes, edges)
      ensures |doc.workflow.nodes| == |nodes| && |doc.workflow.edges| == |edges|
      ensures forall i, j :: 0 <= i < j < |doc.workflow.nodes| ==>
        doc.workflow.nodes[i].id != doc.workflow.nodes[j].id
    {
      IssuedIdsDistinct(nodes, counter);
      ExportedNodeIdsDistinct(nodes);
      var nodesForYaml := NodesForYaml(nodes);
      var edgesForYaml := EdgesForYaml(edges);
      doc := Document(Workflow(nodesForYaml, edgesForYaml));
    }
  }

  /** A short session: what a caller can conclude from the contracts alone. */
  method Session(e: Edge)
  {
    var d := new DagDesigner();
    d.AddNewNode();
    d.SelectType("scheduleNode");
    d.AddNewNode();
    assert d.nodes[1].id == "4" && d.nodes[1].nodeType == "defaultNode";
    assert d.nodes[2].id == "5";
    assert "scheduleNode" + "-" + "5" == "scheduleNode-5";
    assert d.nodes[2].data.labelText == Some("scheduleNode-5");
    d.ReplaceEdges([e, e]);
    var doc := d.ExportYaml();
    assert doc.workflow.nodes[0] == NodeRecord("1", "intakeNode", None, Some("Intake"));
    assert doc.workflow.nodes[2].meta == None;
    assert |doc.workflow.edges| == 2 && doc.workflow.edges[0] == doc.workflow.edges[1];
    var again := d.ExportYaml();
    assert again == doc;
  }
}
