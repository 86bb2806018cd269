/** The two create handlers of ProcessGraph.Application.Processes.CreateProcess.
    Both build a process with the default settings, add it to the repository
    and save; they differ only in the description they store. */
module CreateProcessHandlers {
  import opened Primitives
  import opened Units
  import opened Processes
  import opened Results
  import opened Repository

  datatype CreateProcessCommand = CreateProcessCommand(name: string, description: Option<string>)

  datatype CreateProcess = CreateProcess(name: string, description: Option<string>)

  /** The response and the new store of `CreateProcessCommandHandler`, given
      the id and time the runtime would supply: the new process carries the
      command's name, its description or "" when it has none, unit Days, and
      is filed under its fresh id beside the untouched old entries. */
  function CommandOutcome(store: map<Guid, Process>, command: CreateProcessCommand,
                          newId: Guid, now: Instant, graph: Graph)
    : (r: (Response<Guid>, map<Guid, Process>))
    requires FiledById(store)
    requires newId != EmptyGuid && newId !in store
    ensures r.0 == Ok(newId) && r.0.value != EmptyGuid
    ensures FiledById(r.1) && r.1.Keys == store.Keys + {newId}
    ensures forall k :: k in store ==> r.1[k] == store[k]
    ensures r.1[newId].createdAt == now && r.1[newId].graph == graph
    ensures r.1[newId].name == command.name
    ensures command.description.None? ==> r.1[newId].description == ""
    ensures command.description.Some? ==> r.1[newId].description == command.description.value
    ensures r.1[newId].settings.unit == Days && r.1[newId].status == NotStarted
    ensures r.1[newId].totals == DefaultTotals(Days) && r.1[newId].lastModifiedAt == None
  {
    var p := Create(newId, now, command.name, Coalesce(command.description, ""), DefaultSettings(), graph);
    (Ok(p.id), store[p.id := p])
  }

  /** The response and the new store of `CreateProcessHandler`: as above, but
      the request's description is ignored and "" is stored. */
  function RequestOutcome(store: map<Guid, Process>, request: CreateProcess,
                          newId: Guid, now: Instant, graph: Graph)
    : (r: (Response<Guid>, map<Guid, Process>))
    requires FiledById(store)
    requires newId != EmptyGuid && newId !in store
    ensures r.0 == Ok(newId) && r.0.value != EmptyGuid
    ensures FiledById(r.1) && r.1.Keys == store.Keys + {newId}
    ensures forall k :: k in store ==> r.1[k] == store[k]
    ensures r.1[newId].createdAt == now && r.1[newId].graph == graph
    ensures r.1[newId].name == request.name && r.1[newId].description == ""
    ensures r.1[newId].settings.unit == Days && r.1[newId].status == NotStarted
    ensures r.1[newId].totals == DefaultTotals(Days) && r.1[newId].lastModifiedAt == None
  {
    var p := Create(newId, now, request.name, "", DefaultSettings(), graph);
    (Ok(p.id), store[p.id := p])
  }

  /** CreateProcessHandler stores "" whatever description it is given, so it
      differs from CreateProcessCommandHandler exactly when a non-empty
      description is supplied. */
  lemma RequestIgnoresDescription(store: map<Guid, Process>, name: string, description: Option<string>,
                                  newId: Guid, now: Instant, graph: Graph)
    requires FiledById(store)
    requires newId != EmptyGuid && newId !in store
    ensures RequestOutcome(store, CreateProcess(name, description), newId, now, graph)
         == CommandOutcome(store, CreateProcessCommand(name, None), newId, now, graph)
    ensures description.Some? && description.value != "" ==> (
              RequestOutcome(store, CreateProcess(name, description), newId, now, graph)
              != CommandOutcome(store, CreateProcessCommand(name, description), newId, now, graph))
  {
    if description.Some? && description.value != "" {
      var a := RequestOutcome(store, CreateProcess(name, description), newId, now, graph);
      var b := CommandOutcome(store, CreateProcessCommand(name, description), newId, now, graph);
      assert a.1[newId].description != b.1[newId].description;
    }
  }

  class CreateProcessCommandHandler {
    const processRepository: MockProcessRepository
    const unitOfWork: MockUnitOfWork

    constructor (processRepository: MockProcessRepository, unitOfWork: MockUnitOfWork)
      ensures this.processRepository == processRepository && this.unitOfWork == unitOfWork
    {
      this.processRepository := processRepository;
      this.unitOfWork := unitOfWork;
    }

    /** HandleAsync, with `Guid.NewGuid()` and `DateTime.UtcNow` supplied as
        `newId` and `now`, and the graph `Process.Create` takes as `graph`. */
    method Handle(command: CreateProcessCommand, newId: Guid, now: Instant, graph: Graph)
      returns (r: Response<Guid>)
      requires processRepository.Valid()
      requires newId != EmptyGuid && newId !in processRepository.processes
      modifies processRepository, unitOfWork
      ensures processRepository.Valid()
      ensures (r, processRepository.processes)
           == CommandOutcome(old(processRepository.processes), command, newId, now, graph)
      ensures unitOfWork.saves == old(unitOfWork.saves) + 1
    {
      var newProcess := Create(newId, now, command.name, Coalesce(command.description, ""),
                               DefaultSettings(), graph);
      processRepository.Add(newProcess);
      var _ := unitOfWork.SaveChanges();
      r := Ok(newProcess.id);
    }
  }

  class CreateProcessHandler {
    const processRepository: MockProcessRepository
    const unitOfWork: MockUnitOfWork

    constructor (processRepository: MockProcessRepository, unitOfWork: MockUnitOfWork)
      ensures this.processRepository == processRepository && this.unitOfWork == unitOfWork
    {
      this.processRepository := processRepository;
      this.unitOfWork := unitOfWork;
    }

    method Handle(request: CreateProcess, newId: Guid, now: Instant, graph: Graph)
      returns (r: Response<Guid>)
      requires processRepository.Valid()
      requires newId != EmptyGuid && newId !in processRepository.processes
      modifies processRepository, unitOfWork
      ensures processRepository.Valid()
      ensures (r, processRepository.processes)
           == RequestOutcome(old(processRepository.processes), request, newId, now, graph)
      ensures unitOfWork.saves == old(unitOfWork.saves) + 1
    {
      var newProcess := Create(newId, now, request.name, "", DefaultSettings(), graph);
      processRepository.Add(newProcess);
      var _ := unitOfWork.SaveChanges();
      r := Ok(newProcess.id);
    }
  }
}
