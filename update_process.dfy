/** The two update handlers of ProcessGraph.Application.Processes.UpdateProcess.
    Both look the process up, merge the optional fields of the request with its
    current values, pass the result to `Process.UpdateProcess`, write the
    process back and save. */
module UpdateProcessHandlers {
  import opened Primitives
  import opened Units
  import opened Processes
  import opened Dtos
  import opened Results
  import opened Repository

  datatype UpdateProcessCommand = UpdateProcessCommand(
    id: Guid,
    name: Option<string>,
    description: Option<string>,
    processSettings: Option<ProcessSettingsModel>)

  datatype UpdateProcess = UpdateProcess(
    id: Guid,
    name: Option<string>,
    description: Option<string>,
    processSettings: Option<ProcessSettingsModel>)

  /** `Process.UpdateProcess(name, description, settings)`, which the program
      calls but never defines, as a function from the process before the call. */
  type ProcessUpdater = (Process, string, string, ProcessSettings) -> Process

  ghost predicate UpdaterKeepsIdentity(update: ProcessUpdater) {
    forall p, name, description, settings ::
      KeepsIdentity(p, update(p, name, description, settings))
  }

  /** The arguments the handlers pass to `Process.UpdateProcess`. */
  datatype ProcessEdit = ProcessEdit(name: string, description: string, settings: ProcessSettings)

  /** The settings argument: the current settings when none are requested,
      otherwise new settings with the requested unit name parsed, which throws
      when the name is not one of the three unit names. */
  function MergedSettings(current: ProcessSettings, requested: Option<ProcessSettingsModel>)
    : (r: Fallible<ProcessSettings>)
    ensures requested.None? ==> r == Value(current)
    ensures requested.Some? ==> (r.Value? <==> FromName(requested.value.unit).Value?)
    ensures requested.Some? && r.Value? ==> Name(r.value.unit) == requested.value.unit
    ensures r.Throw? ==> r.exception == InvalidName
  {
    match requested
    case None => Value(current)
    case Some(model) =>
      match FromName(model.unit)
      case Value(u) => Value(ProcessSettings(u))
      case Throw(e) => Throw(e)
  }

  /** The null-coalescing merge of the request into the current process: each
      field that is null keeps its current value and each other field replaces
      it; only an invalid unit name makes the merge throw. */
  function Merge(current: Process, name: Option<string>, description: Option<string>,
                 settings: Option<ProcessSettingsModel>): (r: Fallible<ProcessEdit>)
    ensures r.Throw? <==> settings.Some? && FromName(settings.value.unit).Throw?
    ensures r.Throw? ==> r.exception == InvalidName
    ensures r.Value? && name.None? ==> r.value.name == current.name
    ensures r.Value? && name.Some? ==> r.value.name == name.value
    ensures r.Value? && description.None? ==> r.value.description == current.description
    ensures r.Value? && description.Some? ==> r.value.description == description.value
    ensures r.Value? && settings.None? ==> r.value.settings == current.settings
    ensures r.Value? && settings.Some? ==> Name(r.value.settings.unit) == settings.value.unit
  {
    match MergedSettings(current.settings, settings)
    case Throw(e) => Throw(e)
    case Value(s) => Value(ProcessEdit(Coalesce(name, current.name), Coalesce(description, current.description), s))
  }

  /** The response and the new store of either update handler. An unknown id
      fails with "not found" and an invalid unit name throws; in both cases
      the store is untouched. Otherwise only the entry under `id` is rewritten,
      with the process that `UpdateProcess` makes from the merged fields. */
  function Outcome(store: map<Guid, Process>, id: Guid, name: Option<string>,
                   description: Option<string>, settings: Option<ProcessSettingsModel>,
                   update: ProcessUpdater): (r: (Response<()>, map<Guid, Process>))
    ensures id !in store ==> r == (Fail(ProcessNotFound(id)), store)
    ensures r.0.Ok? <==> id in store && (settings.None? || FromName(settings.value.unit).Value?)
    ensures id in store && !r.0.Ok? ==> r == (Raised(InvalidName), store)
    ensures r.0.Ok? ==> r.1.Keys == store.Keys
    ensures r.0.Ok? ==> forall k :: k in store && k != id ==> r.1[k] == store[k]
    ensures r.0.Ok? ==> var edit := Merge(store[id], name, description, settings).value;
                        r.1[id] == update(store[id], edit.name, edit.description, edit.settings)
  {
    if id !in store then (Fail(ProcessNotFound(id)), store)
    else
      match Merge(store[id], name, description, settings)
      case Throw(e) => (Raised(e), store)
      case Value(edit) =>
        (Ok(()), store[id := update(store[id], edit.name, edit.description, edit.settings)])
  }

  /** An update that changes nothing in the request finds the same fields it
      would have merged in: passing the current values or passing nulls gives
      the same call of `UpdateProcess`. */
  lemma NullsMeanCurrentValues(store: map<Guid, Process>, id: Guid, update: ProcessUpdater)
    requires id in store
    ensures var p := store[id];
            Outcome(store, id, None, None, None, update)
            == Outcome(store, id, Some(p.name), Some(p.description),
                       Some(ProcessSettingsModel(Name(p.settings.unit))), update)
  {
    FromNameOfName(store[id].settings.unit);
  }

  class UpdateProcessCommandHandler {
    const processRepository: MockProcessRepository
    const unitOfWork: MockUnitOfWork

    constructor (processRepository: MockProcessRepository, unitOfWork: MockUnitOfWork)
      ensures this.processRepository == processRepository && this.unitOfWork == unitOfWork
    {
      this.processRepository := processRepository;
      this.unitOfWork := unitOfWork;
    }

    /** HandleAsync; `update` stands for `Process.UpdateProcess`. */
    method Handle(command: UpdateProcessCommand, update: ProcessUpdater) returns (r: Response<()>)
      requires processRepository.Valid() && UpdaterKeepsIdentity(update)
      modifies processRepository, unitOfWork
      ensures processRepository.Valid()
      ensures (r, processRepository.processes)
           == Outcome(old(processRepository.processes), command.id, command.name,
                      command.description, command.processSettings, update)
      ensures unitOfWork.saves == old(unitOfWork.saves) + (if r.Ok? then 1 else 0)
    {
      var process := processRepository.GetById(command.id);
      if process.None? {
        return Fail(ProcessNotFound(command.id));
      }
      var p := process.value;
      var settings := MergedSettings(p.settings, command.processSettings);
      if settings.Throw? {
        return Raised(settings.exception);
      }
      var updated := update(p, Coalesce(command.name, p.name),
                            Coalesce(command.description, p.description), settings.value);
      processRepository.Update(updated);
      var _ := unitOfWork.SaveChanges();
      r := Ok(());
    }
  }

  class UpdateProcessHandler {
    const processRepository: MockProcessRepository
    const unitOfWork: MockUnitOfWork

    constructor (processRepository: MockProcessRepository, unitOfWork: MockUnitOfWork)
      ensures this.processRepository == processRepository && this.unitOfWork == unitOfWork
    {
      this.processRepository := processRepository;
      this.unitOfWork := unitOfWork;
    }

    /** HandleAsync: the same steps as UpdateProcessCommandHandler, so it is
        specified by the same Outcome. */
    method Handle(request: UpdateProcess, update: ProcessUpdater) returns (r: Response<()>)
      requires processRepository.Valid() && UpdaterKeepsIdentity(update)
      modifies processRepository, unitOfWork
      ensures processRepository.Valid()
      ensures (r, processRepository.processes)
           == Outcome(old(processRepository.processes), request.id, request.name,
                      request.description, request.processSettings, update)
      ensures unitOfWork.saves == old(unitOfWork.saves) + (if r.Ok? then 1 else 0)
    {
      var process := processRepository.GetById(request.id);
      if process.None? {
        return Fail(ProcessNotFound(request.id));
      }
      var p := process.value;
      var settings := MergedSettings(p.settings, request.processSettings);
      if settings.Throw? {
        return Raised(settings.exception);
      }
      var updated := update(p, Coalesce(request.name, p.name),
                            Coalesce(request.description, p.description), settings.value);
      processRepository.Update(updated);
      var _ := unitOfWork.SaveChanges();
      r := Ok(());
    }
  }
}
