/**
 * The in-memory document `exportYaml` builds before handing it to the YAML
 * serialiser (src/App.jsx:143-155): a projection of the node and edge lists.
 */
module Export {
  import opened Wrappers
  import opened Graph

  /** `{id, type, label, meta}`; `label` None is `undefined`, `meta` None is `null`. */
  datatype NodeRecord = NodeRecord(id: string, nodeType: string, labelText: Option<string>, meta: Option<string>)

  /** `{id, from, to}`. */
  datatype EdgeRecord = EdgeRecord(id: string, from: string, to: string)

  datatype Workflow = Workflow(nodes: seq<NodeRecord>, edges: seq<EdgeRecord>)

  /** `{ workflow: { nodes, edges } }`. */
  datatype Document = Document(workflow: Workflow)

  /** `meta || null`: a missing or empty meta becomes null, any other string is kept. */
  function MetaOrNull(meta: Option<string>): (r: Option<string>)
    ensures r == None <==> (meta == None || meta == Some(""))
    ensures r != None ==> r == meta
  {
    match meta
    case None => None
    case Some(m) => if m == "" then None else Some(m)
  }

  function NodeForYaml(n: Node): NodeRecord {
    NodeRecord(n.id, n.nodeType, n.data.labelText, MetaOrNull(n.data.meta))
  }

  function EdgeForYaml(e: Edge): EdgeRecord {
    EdgeRecord(e.id, e.source, e.target)
  }

  /** `nodes.map(...)`: one record per node, in the same order. */
  function NodesForYaml(ns: seq<Node>): (r: seq<NodeRecord>)
    ensures |r| == |ns|
    ensures forall i :: 0 <= i < |ns| ==>
      r[i].id == ns[i].id && r[i].nodeType == ns[i].nodeType &&
      r[i].labelText == ns[i].data.labelText && r[i].meta == MetaOrNull(ns[i].data.meta)
  {
    if ns == [] then [] else [NodeForYaml(ns[0])] + NodesForYaml(ns[1..])
  }

  /** `edges.map(...)`: one record per edge, in the same order. */
  function EdgesForYaml(es: seq<Edge>): (r: seq<EdgeRecord>)
    ensures |r| == |es|
    ensures forall i :: 0 <= i < |es| ==>
      r[i].id == es[i].id && r[i].from == es[i].source && r[i].to == es[i].target
  {
    if es == [] then [] else [EdgeForYaml(es[0])] + EdgesForYaml(es[1..])
  }

  /** The `doc` value of `exportYaml`. */
  function ExportDocument(ns: seq<Node>, es: seq<Edge>): Document {
    Document(Workflow(NodesForYaml(ns), EdgesForYaml(es)))
  }

  /** The projection works node by node: exporting a longer list extends the export. */
  lemma NodesForYamlAppend(a: seq<Node>, b: seq<Node>)
    ensures NodesForYaml(a + b) == NodesForYaml(a) + NodesForYaml(b)
  {
  }

  /** Distinct node ids give distinct ids in the exported node list. */
  lemma ExportedNodeIdsDistinct(ns: seq<Node>)
    requires DistinctIds(ns)
    ensures forall i, j :: 0 <= i < j < |ns| ==>
      NodesForYaml(ns)[i].id != NodesForYaml(ns)[j].id
  {
  }

  /** Two edges agree on everything the export keeps. */
  predicate SameConnection(e: Edge, f: Edge) {
    e.id == f.id && e.source == f.source && e.target == f.target
  }

  /**
   * Handles and the arrow marker are dropped: edge lists that differ only in
   * those export to the same records.
   */
  lemma EdgeDecorationIgnored(es: seq<Edge>, fs: seq<Edge>)
    requires |es| == |fs|
    requires forall i :: 0 <= i < |es| ==> SameConnection(es[i], fs[i])
    ensures EdgesForYaml(es) == EdgesForYaml(fs)
  {
  }
}
