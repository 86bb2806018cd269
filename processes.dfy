/** ProcessGraph.Domain.Processes: the Process entity, its settings, status,
    totals and graph (whose edges carry a Measure). */
module Processes {
  import opened Primitives
  import opened Units
  import opened Measures

  datatype GraphNode = GraphNode(
    id: Guid,
    labelText: string,
    xPosition: Int32,
    yPosition: Int32,
    description: string,
    unit: Option<string>)

  datatype GraphEdge = GraphEdge(
    from: Guid,
    to: Guid,
    value: Measure,
    description: Option<string>,
    labelText: Option<string>)

  datatype Graph = Graph(nodes: seq<GraphNode>, edges: seq<GraphEdge>)

  datatype ProcessStatus = NotStarted | InProgress | Completed | Failed | Locked

  datatype ProcessSettings = ProcessSettings(unit: UnitOfMeasure)

  /** `ProcessSettings.CreateDefault()`: settings measured in days. */
  function DefaultSettings(): (s: ProcessSettings)
    ensures s.unit == Days && Name(s.unit) == "days"
  {
    ProcessSettings(Days)
  }

  datatype ProcessTotals = ProcessTotals(
    total: Int32,
    unit: UnitOfMeasure,
    longestPath: seq<string>,
    valid: bool)

  /** `ProcessTotals.GetDefault`: nothing has been computed yet, so the totals
      are zero, have no path, are marked not valid, and are in `unit`. */
  function DefaultTotals(unit: UnitOfMeasure): (t: ProcessTotals)
    ensures t.total == 0 && t.unit == unit
    ensures t.longestPath == [] && !t.valid
  {
    ProcessTotals(0, unit, [], false)
  }

  /** A Process with the identity and audit fields of its Entity base. */
  datatype Process = Process(
    id: Guid,
    createdAt: Instant,
    lastModifiedAt: Option<Instant>,
    name: string,
    description: string,
    settings: ProcessSettings,
    status: ProcessStatus,
    graph: Graph,
    totals: ProcessTotals)

  /** The totals of `p` are expressed in the unit its settings declare. */
  predicate TotalsMatchSettings(p: Process) {
    p.totals.unit == p.settings.unit
  }

  /** `Process.Create`, with `Guid.NewGuid()` and `DateTime.UtcNow` passed in
      as `newId` and `now`. The new process is not started, has never been
      modified, keeps the given name, description, settings and graph, and has
      the default totals in the settings' unit. */
  function Create(newId: Guid, now: Instant, name: string, description: string,
                  settings: ProcessSettings, graph: Graph): (p: Process)
    ensures p.id == newId && p.createdAt == now && p.lastModifiedAt == None
    ensures p.name == name && p.description == description
    ensures p.settings == settings && p.graph == graph
    ensures p.status == NotStarted
    ensures p.totals == DefaultTotals(settings.unit) && TotalsMatchSettings(p)
  {
    Process(newId, now, None, name, description, settings, NotStarted, graph,
            DefaultTotals(settings.unit))
  }

  /** A stand-in for one of Process's own mutators, whose bodies are not part
      of this model, keeps the fields C# declares `init`-only (the identity and
      creation time of the Entity base). */
  ghost predicate KeepsIdentity(before: Process, after: Process) {
    after.id == before.id && after.createdAt == before.createdAt
  }
}
