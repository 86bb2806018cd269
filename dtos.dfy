/** The transport shapes the application layer receives: the graph DTOs of
    ProcessGraph.Application.Processes.Dtos and the graph and settings models
    of ProcessGraph.Application.Models. */
module Dtos {
  import opened Primitives

  // `label` is a keyword in Dafny: every `Label` property is named `labelText`.

  datatype GraphNodeDto = GraphNodeDto(
    id: Guid,
    labelText: string,
    xPosition: Int32,
    yPosition: Int32,
    description: string)

  datatype GraphEdgeDto = GraphEdgeDto(
    from: Guid,
    to: Guid,
    value: Int32,
    unitOfMeasure: string,
    description: Option<string>,
    labelText: Option<string>)

  datatype GraphDto = GraphDto(nodes: seq<GraphNodeDto>, edges: seq<GraphEdgeDto>)

  datatype GraphNodeModel = GraphNodeModel(
    id: Guid,
    labelText: string,
    xPosition: Int32,
    yPosition: Int32,
    description: string)

  datatype GraphEdgeModel = GraphEdgeModel(
    from: Guid,
    to: Guid,
    value: Int32,
    description: Option<string>,
    labelText: Option<string>)

  datatype GraphModel = GraphModel(nodes: seq<GraphNodeModel>, edges: seq<GraphEdgeModel>)

  /** The settings model carried by update requests: a unit name to parse. */
  datatype ProcessSettingsModel = ProcessSettingsModel(unit: string)
}
