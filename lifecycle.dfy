/** The scenarios of the integration tests: create, update and delete through
    the handlers, over one in-memory repository. */
module Lifecycle {
  import opened Primitives
  import opened Processes
  import opened Results
  import opened Repository
  import opened CreateProcessHandlers
  import opened UpdateProcessHandlers
  import opened DeleteProcessHandlers

  /** Creating a process, updating its name and description, and deleting it
      all succeed, and leave the store exactly as it was before. */
  lemma CreateUpdateDeleteRestoresStore(store: map<Guid, Process>, command: CreateProcessCommand,
                                        newId: Guid, now: Instant, graph: Graph,
                                        name: Option<string>, description: Option<string>,
                                        update: ProcessUpdater)
    requires FiledById(store)
    requires newId != EmptyGuid && newId !in store
    ensures var created := CreateProcessHandlers.CommandOutcome(store, command, newId, now, graph);
            var updated := UpdateProcessHandlers.Outcome(created.1, created.0.value, name, description, None, update);
            var deleted := DeleteProcessHandlers.Outcome(updated.1, created.0.value);
            && created.0 == Ok(newId) && updated.0 == Ok(()) && deleted.0 == Ok(())
            && deleted.1 == store
  {
    var created := CreateProcessHandlers.CommandOutcome(store, command, newId, now, graph);
    var updated := UpdateProcessHandlers.Outcome(created.1, newId, name, description, None, update);
    var deleted := DeleteProcessHandlers.Outcome(updated.1, newId);
    assert deleted.1.Keys == store.Keys;
    forall k | k in store ensures deleted.1[k] == store[k] {
      assert k != newId;
    }
    assert deleted.1 == store;
  }

  /** The test that resolves every handler: create "Test", rename it, delete
      it; all three succeed and the id handed out is not the empty Guid. */
  method HandlerDiscovery(newId: Guid, now: Instant, graph: Graph, update: ProcessUpdater)
    returns (createResult: Response<Guid>, updateResult: Response<()>, deleteResult: Response<()>)
    requires newId != EmptyGuid && UpdaterKeepsIdentity(update)
    ensures createResult == Ok(newId) && createResult.value != EmptyGuid
    ensures updateResult == Ok(()) && deleteResult == Ok(())
  {
    var repository := new MockProcessRepository();
    var unitOfWork := new MockUnitOfWork();
    var create := new CreateProcessCommandHandler(repository, unitOfWork);
    createResult := create.Handle(CreateProcessCommand("Test", Some("Description")), newId, now, graph);
    var processId := createResult.value;
    var updater := new UpdateProcessCommandHandler(repository, unitOfWork);
    updateResult := updater.Handle(
      UpdateProcessCommand(processId, Some("Updated"), Some("Updated Description"), None), update);
    var deleter := new DeleteProcessCommandHandler(repository, unitOfWork);
    deleteResult := deleter.Handle(DeleteProcessCommand(processId));
  }

  /** Updating and deleting an id that was never created both fail with a
      message that contains "not found". */
  method UnknownProcessFails(unknownId: Guid, update: ProcessUpdater, show: Guid -> string)
    returns (updateResult: Response<()>, deleteResult: Response<()>)
    requires UpdaterKeepsIdentity(update)
    ensures updateResult == Fail(ProcessNotFound(unknownId))
    ensures deleteResult == Fail(ProcessNotFound(unknownId))
    ensures Contains(Message(updateResult.failure, show), "not found")
    ensures Contains(Message(deleteResult.failure, show), "not found")
  {
    var repository := new MockProcessRepository();
    var unitOfWork := new MockUnitOfWork();
    var updater := new UpdateProcessCommandHandler(repository, unitOfWork);
    updateResult := updater.Handle(
      UpdateProcessCommand(unknownId, Some("Updated Name"), Some("Updated Description"), None), update);
    var deleter := new DeleteProcessCommandHandler(repository, unitOfWork);
    deleteResult := deleter.Handle(DeleteProcessCommand(unknownId));
  }

  /** Deleting a process twice through the handler: the first call succeeds,
      the second fails with "not found", and the store is empty afterwards. */
  method DeleteTwice(newId: Guid, now: Instant, graph: Graph)
    returns (first: Response<()>, second: Response<()>, remaining: seq<Process>)
    requires newId != EmptyGuid
    ensures first == Ok(()) && second == Fail(ProcessNotFound(newId))
    ensures remaining == []
  {
    var repository := new MockProcessRepository();
    var unitOfWork := new MockUnitOfWork();
    var create := new CreateProcessCommandHandler(repository, unitOfWork);
    var created := create.Handle(CreateProcessCommand("To Delete", Some("Will be deleted")), newId, now, graph);
    var deleter := new DeleteProcessCommandHandler(repository, unitOfWork);
    first := deleter.Handle(DeleteProcessCommand(newId));
    second := deleter.Handle(DeleteProcessCommand(newId));
    ghost var keys;
    remaining, keys := repository.GetAll();
  }

  /** The dictionary behaviour of the mock repository: a lookup after Add
      finds the process, a second Add under the same id overwrites it instead
      of failing, and a lookup after Delete, like any lookup of an absent id,
      finds nothing. */
  method RepositoryScenario(p: Process, q: Process, absent: Guid)
    returns (afterAdd: Option<Process>, afterOverwrite: Option<Process>,
             afterDelete: Option<Process>, missing: Option<Process>, all: seq<Process>)
    requires q.id == p.id && absent != p.id
    ensures afterAdd == Some(p) && afterOverwrite == Some(q)
    ensures afterDelete == None && missing == None
    ensures all == []
  {
    var repository := new MockProcessRepository();
    repository.Add(p);
    afterAdd := repository.GetById(p.id);
    missing := repository.GetById(absent);
    repository.Add(q);
    afterOverwrite := repository.GetById(p.id);
    repository.Delete(q);
    afterDelete := repository.GetById(p.id);
    ghost var keys;
    all, keys := repository.GetAll();
  }
}
