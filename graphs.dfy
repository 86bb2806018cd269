/** ProcessGraph.Domain.Graphs: the graph records whose edges carry a raw
    Int32 value. */
module Graphs {
  import opened Primitives

  // `label` is a keyword in Dafny: every `Label` property is named `labelText`.

  datatype GraphNode = GraphNode(
    id: Guid,
    labelText: string,
    xPosition: Int32,
    yPosition: Int32,
    description: string)

  datatype GraphEdge = GraphEdge(
    from: Guid,
    to: Guid,
    value: Int32,
    description: Option<string>,
    labelText: Option<string>)
}
