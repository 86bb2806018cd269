/** The two graph-update handlers of
    ProcessGraph.Application.Processes.UpdateProcessGraph. Each maps the
    transport graph to domain nodes and edges, element by element and in
    order, passes them to `Process.UpdateGraph`, writes the process back and
    saves. Neither checks that edges name existing nodes. */
module UpdateProcessGraphHandlers {
  import opened Primitives
  import opened Units
  import opened Measures
  import Graphs
  import opened Processes
  import opened Dtos
  import opened Results
  import opened Repository

  datatype UpdateProcessGraph = UpdateProcessGraph(id: Guid, graph: GraphDto)

  datatype UpdateProcessGraphCommand = UpdateProcessGraphCommand(id: Guid, graph: GraphModel)

  // ----- UpdateProcessGraphHandler: GraphDto to nodes and Measure edges -----

  /** The node lambda: every field of the DTO is kept. */
  function ToNode(n: GraphNodeDto): (r: Graphs.GraphNode)
    ensures r.id == n.id && r.labelText == n.labelText
    ensures r.xPosition == n.xPosition && r.yPosition == n.yPosition
    ensures r.description == n.description
  {
    Graphs.GraphNode(n.id, n.labelText, n.xPosition, n.yPosition, n.description)
  }

  /** The node `Select`: one node per DTO, in order, with every field kept. */
  function MapNodes(ns: seq<GraphNodeDto>): (r: seq<Graphs.GraphNode>)
    ensures |r| == |ns|
    ensures forall i :: 0 <= i < |ns| ==>
              && r[i].id == ns[i].id && r[i].labelText == ns[i].labelText
              && r[i].xPosition == ns[i].xPosition && r[i].yPosition == ns[i].yPosition
              && r[i].description == ns[i].description
  {
    seq(|ns|, i requires 0 <= i < |ns| => ToNode(ns[i]))
  }

  /** `e` is what the mapping makes of `dto`: same endpoints, same value, the
      unit whose name the DTO gives, and no description or label. */
  predicate MapsTo(dto: GraphEdgeDto, e: GraphEdge) {
    && e.from == dto.from && e.to == dto.to
    && e.value.value == dto.value && Name(e.value.unit) == dto.unitOfMeasure
    && e.description == None && e.labelText == None
  }

  /** One edge of the edge `Select`: the unit name is parsed, which may throw. */
  function ToEdge(dto: GraphEdgeDto): (r: Fallible<GraphEdge>)
    ensures r.Value? <==> FromName(dto.unitOfMeasure).Value?
    ensures r.Throw? ==> r.exception == InvalidName
    ensures r.Value? ==> MapsTo(dto, r.value)
  {
    match FromName(dto.unitOfMeasure)
    case Throw(x) => Throw(x)
    case Value(u) => Value(GraphEdge(dto.from, dto.to, Measure(dto.value, u), None, None))
  }

  /** Every DTO names one of the three units. */
  predicate AllUnitsValid(es: seq<GraphEdgeDto>) {
    forall i :: 0 <= i < |es| ==> FromName(es[i].unitOfMeasure).Value?
  }

  /** The edge `Select` forced by `ToImmutableList`: the first DTO with an
      invalid unit name makes it throw; otherwise one edge per DTO, in order. */
  function MapEdges(es: seq<GraphEdgeDto>): (r: Fallible<seq<GraphEdge>>)
    ensures r.Throw? ==> r.exception == InvalidName
  {
    if es == [] then Value([])
    else
      match ToEdge(es[0])
      case Throw(x) => Throw(x)
      case Value(first) =>
        match MapEdges(es[1..])
        case Throw(x) => Throw(x)
        case Value(rest) => Value([first] + rest)
  }

  /** The edge mapping succeeds exactly when every unit name is valid. */
  lemma {:induction false} MapEdgesSucceeds(es: seq<GraphEdgeDto>)
    ensures MapEdges(es).Value? <==> AllUnitsValid(es)
  {
    if es != [] {
      var tail := es[1..];
      MapEdgesSucceeds(tail);
      assert forall i :: 1 <= i < |es| ==> tail[i - 1] == es[i];
    }
  }

  /** On success the edge mapping maps each DTO, in order, to the edge that
      `MapsTo` describes. */
  lemma {:induction false} MapEdgesMaps(es: seq<GraphEdgeDto>)
    requires MapEdges(es).Value?
    ensures |MapEdges(es).value| == |es|
    ensures forall i :: 0 <= i < |es| ==> MapsTo(es[i], MapEdges(es).value[i])
  {
    if es != [] {
      var tail := es[1..];
      MapEdgesMaps(tail);
      var mapped, rest := MapEdges(es).value, MapEdges(tail).value;
      assert mapped == [ToEdge(es[0]).value] + rest;
      forall i | 0 <= i < |es| ensures MapsTo(es[i], mapped[i]) {
        if i > 0 {
          assert mapped[i] == rest[i - 1] && es[i] == tail[i - 1];
        }
      }
    }
  }

  /** Both halves of the edge mapping's contract. */
  lemma MapEdgesSpec(es: seq<GraphEdgeDto>)
    ensures MapEdges(es).Value? <==> AllUnitsValid(es)
    ensures MapEdges(es).Throw? ==> MapEdges(es).exception == InvalidName
    ensures MapEdges(es).Value? ==> |MapEdges(es).value| == |es|
    ensures MapEdges(es).Value? ==> forall i :: 0 <= i < |es| ==> MapsTo(es[i], MapEdges(es).value[i])
  {
    MapEdgesSucceeds(es);
    if MapEdges(es).Value? {
      MapEdgesMaps(es);
    }
  }

  /** The DTO that shows a domain node. */
  function NodeDto(n: Graphs.GraphNode): GraphNodeDto {
    GraphNodeDto(n.id, n.labelText, n.xPosition, n.yPosition, n.description)
  }

  /** The DTO that shows a domain edge, with its unit printed. */
  function EdgeDto(e: GraphEdge): GraphEdgeDto {
    GraphEdgeDto(e.from, e.to, e.value.value, Name(e.value.unit), e.description, e.labelText)
  }

  function EdgeDtos(edges: seq<GraphEdge>): seq<GraphEdgeDto> {
    seq(|edges|, i requires 0 <= i < |edges| => EdgeDto(edges[i]))
  }

  /** A DTO with the fields the mapping drops cleared. */
  function Unlabelled(e: GraphEdgeDto): GraphEdgeDto {
    e.(description := None, labelText := None)
  }

  /** Node mapping loses nothing: showing the mapped nodes gives back the DTOs. */
  lemma NodesRoundTrip(ns: seq<GraphNodeDto>)
    ensures seq(|ns|, i requires 0 <= i < |ns| => NodeDto(MapNodes(ns)[i])) == ns
  {
  }

  /** Edge mapping loses exactly the description and label: showing the
      mapped edges gives back the DTOs with those two fields cleared. */
  lemma {:induction false} EdgesRoundTrip(es: seq<GraphEdgeDto>)
    requires MapEdges(es).Value?
    ensures EdgeDtos(MapEdges(es).value) == seq(|es|, i requires 0 <= i < |es| => Unlabelled(es[i]))
  {
    MapEdgesSpec(es);
    var mapped := MapEdges(es).value;
    forall i | 0 <= i < |es|
      ensures EdgeDtos(mapped)[i] == Unlabelled(es[i])
    {
      assert MapsTo(es[i], mapped[i]);
      assert FromName(es[i].unitOfMeasure).Value?;
    }
  }

  /** Going the other way, every domain edge survives being shown and mapped
      back, apart from its description and label. */
  lemma {:induction false} EdgesFromDtos(edges: seq<GraphEdge>)
    ensures MapEdges(EdgeDtos(edges))
         == Value(seq(|edges|, i requires 0 <= i < |edges| => edges[i].(description := None, labelText := None)))
  {
    var dtos := EdgeDtos(edges);
    forall i | 0 <= i < |dtos|
      ensures FromName(dtos[i].unitOfMeasure) == Value(edges[i].value.unit)
    {
      FromNameOfName(edges[i].value.unit);
    }
    MapEdgesSpec(dtos);
    var mapped := MapEdges(dtos).value;
    var expected := seq(|edges|, i requires 0 <= i < |edges| => edges[i].(description := None, labelText := None));
    forall i | 0 <= i < |edges|
      ensures mapped[i] == expected[i]
    {
      assert dtos[i] == EdgeDto(edges[i]) && MapsTo(dtos[i], mapped[i]);
      NameIsInjective(mapped[i].value.unit, edges[i].value.unit);
    }
    assert mapped == expected;
  }

  /** `Process.UpdateGraph(nodes, edges)`, which the program calls but never defines. */
  type GraphUpdater = (Process, seq<Graphs.GraphNode>, seq<GraphEdge>) -> Process

  ghost predicate GraphUpdaterKeepsIdentity(update: GraphUpdater) {
    forall p, nodes, edges :: KeepsIdentity(p, update(p, nodes, edges))
  }

  /** The response and the new store of UpdateProcessGraphHandler. It succeeds
      exactly when the id is known and every edge's unit name parses, whatever
      the edges' endpoints are; otherwise the store is untouched. */
  function DtoOutcome(store: map<Guid, Process>, request: UpdateProcessGraph, update: GraphUpdater)
    : (r: (Response<()>, map<Guid, Process>))
    ensures r.0.Ok? <==> request.id in store && AllUnitsValid(request.graph.edges)
    ensures request.id !in store ==> r == (Fail(ProcessNotFound(request.id)), store)
    ensures request.id in store && !r.0.Ok? ==> r == (Raised(InvalidName), store)
    ensures r.0.Ok? ==> && MapEdges(request.graph.edges).Value?
                        && r.1 == store[request.id := update(store[request.id],
                             MapNodes(request.graph.nodes), MapEdges(request.graph.edges).value)]
  {
    MapEdgesSpec(request.graph.edges);
    if request.id !in store then (Fail(ProcessNotFound(request.id)), store)
    else
      match MapEdges(request.graph.edges)
      case Throw(x) => (Raised(x), store)
      case Value(edges) =>
        (Ok(()), store[request.id := update(store[request.id], MapNodes(request.graph.nodes), edges)])
  }

  // ----- UpdateProcessGraphCommandHandler: GraphModel to Int32 edges -----

  /** The node `Select` over the graph model: one node per model, in order. */
  function MapNodeModels(ns: seq<GraphNodeModel>): (r: seq<Graphs.GraphNode>)
    ensures |r| == |ns|
    ensures forall i :: 0 <= i < |ns| ==>
              && r[i].id == ns[i].id && r[i].labelText == ns[i].labelText
              && r[i].xPosition == ns[i].xPosition && r[i].yPosition == ns[i].yPosition
              && r[i].description == ns[i].description
  {
    seq(|ns|, i requires 0 <= i < |ns| =>
      Graphs.GraphNode(ns[i].id, ns[i].labelText, ns[i].xPosition, ns[i].yPosition, ns[i].description))
  }

  /** The edge `Select` over the graph model: endpoints and raw value kept,
      description and label dropped. */
  function MapEdgeModels(es: seq<GraphEdgeModel>): (r: seq<Graphs.GraphEdge>)
    ensures |r| == |es|
    ensures forall i :: 0 <= i < |es| ==>
              && r[i].from == es[i].from && r[i].to == es[i].to && r[i].value == es[i].value
              && r[i].description == None && r[i].labelText == None
  {
    seq(|es|, i requires 0 <= i < |es| => Graphs.GraphEdge(es[i].from, es[i].to, es[i].value, None, None))
  }

  /** The edge model that shows a domain edge. */
  function EdgeModel(e: Graphs.GraphEdge): GraphEdgeModel {
    GraphEdgeModel(e.from, e.to, e.value, e.description, e.labelText)
  }

  /** Mapping the graph model loses exactly the edges' descriptions and labels. */
  lemma EdgeModelsRoundTrip(es: seq<GraphEdgeModel>)
    ensures seq(|es|, i requires 0 <= i < |es| => EdgeModel(MapEdgeModels(es)[i]))
         == seq(|es|, i requires 0 <= i < |es| => es[i].(description := None, labelText := None))
  {
  }

  /** `Process.UpdateGraph(graph)` for the graph built from the mapped lists,
      which the program calls but never defines. */
  type GraphModelUpdater = (Process, seq<Graphs.GraphNode>, seq<Graphs.GraphEdge>) -> Process

  ghost predicate GraphModelUpdaterKeepsIdentity(update: GraphModelUpdater) {
    forall p, nodes, edges :: KeepsIdentity(p, update(p, nodes, edges))
  }

  /** The response and the new store of UpdateProcessGraphCommandHandler: it
      fails, untouched, only for an unknown id; nothing in it can throw. */
  function ModelOutcome(store: map<Guid, Process>, command: UpdateProcessGraphCommand,
                        update: GraphModelUpdater): (r: (Response<()>, map<Guid, Process>))
    ensures r.0.Ok? <==> command.id in store
    ensures command.id !in store ==> r == (Fail(ProcessNotFound(command.id)), store)
    ensures r.0.Ok? ==> r.1 == store[command.id := update(store[command.id],
                          MapNodeModels(command.graph.nodes), MapEdgeModels(command.graph.edges))]
  {
    if command.id !in store then (Fail(ProcessNotFound(command.id)), store)
    else
      (Ok(()), store[command.id := update(store[command.id],
                 MapNodeModels(command.graph.nodes), MapEdgeModels(command.graph.edges))])
  }

  class UpdateProcessGraphHandler {
    const processRepository: MockProcessRepository
    const unitOfWork: MockUnitOfWork

    constructor (processRepository: MockProcessRepository, unitOfWork: MockUnitOfWork)
      ensures this.processRepository == processRepository && this.unitOfWork == unitOfWork
    {
      this.processRepository := processRepository;
      this.unitOfWork := unitOfWork;
    }

    /** HandleAsync; `update` stands for `Process.UpdateGraph`. */
    method Handle(request: UpdateProcessGraph, update: GraphUpdater) returns (r: Response<()>)
      requires processRepository.Valid() && GraphUpdaterKeepsIdentity(update)
      modifies processRepository, unitOfWork
      ensures processRepository.Valid()
      ensures (r, processRepository.processes) == DtoOutcome(old(processRepository.processes), request, update)
      ensures unitOfWork.saves == old(unitOfWork.saves) + (if r.Ok? then 1 else 0)
    {
      var process := processRepository.GetById(request.id);
      if process.None? {
        return Fail(ProcessNotFound(request.id));
      }
      var nodes := MapNodes(request.graph.nodes);
      var edges := MapEdges(request.graph.edges);
      MapEdgesSpec(request.graph.edges);
      if edges.Throw? {
        return Raised(edges.exception);
      }
      var updated := update(process.value, nodes, edges.value);
      processRepository.Update(updated);
      var _ := unitOfWork.SaveChanges();
      r := Ok(());
    }
  }

  class UpdateProcessGraphCommandHandler {
    const processRepository: MockProcessRepository
    const unitOfWork: MockUnitOfWork

    constructor (processRepository: MockProcessRepository, unitOfWork: MockUnitOfWork)
      ensures this.processRepository == processRepository && this.unitOfWork == unitOfWork
    {
      this.processRepository := processRepository;
      this.unitOfWork := unitOfWork;
    }

    /** HandleAsync; `update` stands for `Process.UpdateGraph`. */
    method Handle(command: UpdateProcessGraphCommand, update: GraphModelUpdater) returns (r: Response<()>)
      requires processRepository.Valid() && GraphModelUpdaterKeepsIdentity(update)
      modifies processRepository, unitOfWork
      ensures processRepository.Valid()
      ensures (r, processRepository.processes) == ModelOutcome(old(processRepository.processes), command, update)
      ensures unitOfWork.saves == old(unitOfWork.saves) + (if r.Ok? then 1 else 0)
    {
      var process := processRepository.GetById(command.id);
      if process.None? {
        return Fail(ProcessNotFound(command.id));
      }
      var graphNodes := MapNodeModels(command.graph.nodes);
      var graphEdges := MapEdgeModels(command.graph.edges);
      var updated := update(process.value, graphNodes, graphEdges);
      processRepository.Update(updated);
      var _ := unitOfWork.SaveChanges();
      r := Ok(());
    }
  }
}
