/** DeleteProcessCommandHandler of ProcessGraph.Application.Processes.DeleteProcess. */
module DeleteProcessHandlers {
  import opened Primitives
  import opened Processes
  import opened Results
  import opened Repository

  datatype DeleteProcessCommand = DeleteProcessCommand(id: Guid)

  /** The response and the new store: an unknown id fails with "not found"
      and leaves the store as it was; a known id is removed and every other
      entry is kept. */
  function Outcome(store: map<Guid, Process>, id: Guid): (r: (Response<()>, map<Guid, Process>))
    ensures id !in store ==> r == (Fail(ProcessNotFound(id)), store)
    ensures id in store ==> r.0 == Ok(())
    ensures id !in r.1 && r.1.Keys == store.Keys - {id}
    ensures forall k :: k in r.1 ==> r.1[k] == store[k]
  {
    if id !in store then (Fail(ProcessNotFound(id)), store)
    else (Ok(()), store - {id})
  }

  /** Deleting the same id twice: the second deletion fails with "not found"
      and changes nothing further. */
  lemma DeleteTwiceFails(store: map<Guid, Process>, id: Guid)
    ensures var afterFirst := Outcome(store, id).1;
            Outcome(afterFirst, id) == (Fail(ProcessNotFound(id)), afterFirst)
  {
  }

  class DeleteProcessCommandHandler {
    const processRepository: MockProcessRepository
    const unitOfWork: MockUnitOfWork

    constructor (processRepository: MockProcessRepository, unitOfWork: MockUnitOfWork)
      ensures this.processRepository == processRepository && this.unitOfWork == unitOfWork
    {
      this.processRepository := processRepository;
      this.unitOfWork := unitOfWork;
    }

    method Handle(command: DeleteProcessCommand) returns (r: Response<()>)
      requires processRepository.Valid()
      modifies processRepository, unitOfWork
      ensures processRepository.Valid()
      ensures (r, processRepository.processes) == Outcome(old(processRepository.processes), command.id)
      ensures unitOfWork.saves == old(unitOfWork.saves) + (if r.Ok? then 1 else 0)
    {
      var process := processRepository.GetById(command.id);
      if process.None? {
        return Fail(ProcessNotFound(command.id));
      }
      processRepository.Delete(process.value);
      var _ := unitOfWork.SaveChanges();
      r := Ok(());
    }
  }
}
