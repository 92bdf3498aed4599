# Workflow builder: graph state and export

A Dafny model of the graph state behind the `DagDesigner` component of the
workflow builder (`src/App.jsx`). The user places typed nodes on a canvas and
connects them. The designer exports the graph as a `workflow` document. The
model covers three things:

- the designer's state: the node list, the edge list, the selected node type and
  the id counter (class `Designer.DagDesigner`);
- `addNewNode`, which appends one node whose id is the counter written in decimal
  and then increments the counter;
- the pure projection inside `exportYaml` that builds
  `{ workflow: { nodes, edges } }` from the two lists (module `Export`).

Files:

- `wrappers.dfy`: `Option`.
- `decimal.dfy`: `String(n)` for natural numbers, with its inverse and injectivity.
- `graph.dfy`: nodes, edges, the initial node, the initial counter and the `nodeTypes` keys.
- `export.dfy`: the export records and the projection.
- `designer.dfy`: the designer class and the id invariant.

The class invariant `IssuedLayout` describes exactly which states are reachable.
The first node is the initial node `'1'`. After it comes one node per counter
value 4, 5, …, each shaped as `addNewNode` builds it. The counter is always one
past the last value used. Ids `'2'` and `'3'` are never issued, because the
counter starts at 4. From this invariant the model proves three things:

- ids, read as numbers, increase strictly in creation order;
- ids are pairwise distinct;
- the next id is always unused.

The selected type is copied into the node without any check. Its initial value
`'defaultNode'` is not a key of `nodeTypes`, and the model keeps that.

The code performs no checks beyond these. `addNewNode` does not check the
selected type against `nodeTypes`. Edges are not checked against nodes. The
export shape is `{ workflow: { nodes, edges } }`.

## Model

| member | source | states |
|---|---|---|
| Decimal.NatToString | src/App.jsx:132 | `String(counter)` gives a non-empty string of decimal digits with no leading zero; it is one character long exactly when the number is below 10 |
| Decimal.ParseNatToString | src/App.jsx:132 | reading the decimal id back gives the counter value it was made from |
| Decimal.NatToStringInjective | src/App.jsx:132 | two counter values give the same id string if and only if they are equal |
| Export.MetaOrNull | src/App.jsx:148 | `meta \|\| null` is null exactly when meta is missing or `''`; otherwise it is the meta string itself |
| Export.NodesForYaml | src/App.jsx:144-149 | one record per node, same length and same order; each record copies id, type and label, and its meta follows the null rule |
| Export.EdgesForYaml | src/App.jsx:150-154 | one record per edge, same length and same order; each record is `{id, from: source, to: target}` |
| Export.NodesForYamlAppend | src/App.jsx:144-149 | the node projection maps a concatenation to the concatenation of the projections |
| Export.ExportedNodeIdsDistinct | src/App.jsx:144-149 | if node ids are distinct, the exported node records have distinct ids |
| Export.EdgeDecorationIgnored | src/App.jsx:150-154 | handles and `markerEnd` do not affect the export: edge lists that agree on id, source and target export to equal records |
| Designer.AppendKeepsLayout | src/App.jsx:131-141 | appending the node built from the current counter and type, then incrementing the counter, keeps the reachable-state invariant |
| Designer.IssuedIdsIncrease | src/App.jsx:131-141 | in every reachable state, every id is a decimal numeral below the counter, and ids increase strictly in list (creation) order |
| Designer.IssuedIdsDistinct | src/App.jsx:131-141 | in every reachable state, node ids are pairwise distinct |
| Designer.CounterIdFresh | src/App.jsx:131-141 | in every reachable state, no existing node has the id the next add will use |
| Designer.ExportAfterAdd | src/App.jsx:131-149 | exporting after an add gives the earlier node export plus one record `{id, type, label: type-id, meta: null}`, because the new node's meta `''` exports as null |
| Designer.DagDesigner.constructor | src/App.jsx:71-106 | the initial state is the single node `'1'` (intakeNode, meta 'Intake', no label), no edges, selected type 'defaultNode' (not a `nodeTypes` key) and counter 4 |
| Designer.DagDesigner.SelectType | src/App.jsx:180 | the selected type becomes the given string, unchecked; nothing else changes |
| Designer.DagDesigner.AddNewNode | src/App.jsx:131-141 | appends exactly one node and leaves earlier nodes unchanged and in order; the new id is the old counter in decimal and is unused; the label is `type-id`; meta is `''`; the type is copied verbatim; the counter grows by exactly 1; ids stay distinct; edges and selected type are unchanged |
| Designer.DagDesigner.ReplaceEdges | src/App.jsx:123-129 | the edge list becomes whatever the flow library returns; nodes, counter and selected type are unchanged |
| Designer.DagDesigner.ExportYaml | src/App.jsx:143-155 | the document is the projection of the current nodes and edges, with the shape `workflow: { nodes, edges }`; the lists keep their lengths; exported node ids are distinct; no state changes, so two calls on the same state give equal documents |

## Left out

- `yaml.dump` and the Blob/anchor download (src/App.jsx:156-166): a foreign serialiser and browser I/O. The model stops at the in-memory `doc`. A missing label (`undefined`) is kept as `None`. How the serialiser writes it is not modelled.
- `addEdge` from `@xyflow/react` (src/App.jsx:126): its de-duplication and id rules are not visible. The edge list is an arbitrary sequence that `ReplaceEdges` installs, and `markerEnd` is carried only as data.
- `onNodesChange`/`onEdgesChange` (src/App.jsx:103-104, 211-212): change application that the library owns. Node dragging and removal are not modelled, so the id invariant covers only the handlers modelled here.
- Node positions (src/App.jsx:75, 136): floating point and `Math.random`. They are dropped from `Node`.
- `flowHeight`, the resize listener, the node view components, the `nodeTypes` renderer map (only its keys are kept) and the JSX toolbar and canvas: presentation.
- src/config.js: only an environment lookup and a dev-server proxy. It has no logic.
- Decimal.NatToString: models `String(n)` only for exact integers. A JavaScript number loses precision above 2^53 and is printed in exponent form from 10^21. The counter never gets there in practice.
- Designer.DagDesigner.AddNewNode: React's asynchronous state updates are not modelled. If two clicks were handled before a re-render, they would read the same `counter` and give duplicate ids. The model treats each handler as one atomic step.
