# process-graph: units, processes and command handlers in Dafny

This project models the working core of the process-graph backend. A *process*
owns a graph of nodes and unit-typed edges. The model covers three parts:

- **Value types.** `UnitOfMeasure` is a closed set of three named units with a strict
  name parser. `Measure` pairs an Int32 value with a unit, and its addition fails
  when the units differ. `ProcessTotals` has a default value, and `Process`
  has a `Create` factory.
- **DTO-to-domain mapping.** This is the element-by-element mapping that the two
  "update graph" handlers apply to incoming nodes and edges.
- **Command handlers over an in-memory store.** The handlers create, update,
  update-graph and delete processes. The store is the dictionary-backed repository
  and unit of work that the integration tests bind.

Modules follow the source's layout:

| module | file | source |
|---|---|---|
| `Primitives` | primitives.dfy | Int32 with unchecked wrap-around, Guid, DateTime, nullable references, exceptions |
| `Units` | units.dfy | Domain/Shared/UnitOfMeasure.cs |
| `Measures` | measures.dfy | Domain/Shared/Measure.cs |
| `Graphs` | graphs.dfy | Domain/Graphs (edges carry an `int`) |
| `Processes` | processes.dfy | Domain/Processes (edges carry a `Measure`), Process, ProcessTotals, ProcessSettings |
| `Dtos` | dtos.dfy | Application DTOs and graph models |
| `Results` | results.dfy | FluentResults responses, plus exceptions that escape a handler |
| `Repository` | repository.dfy | `MockProcessRepository` and `MockUnitOfWork` from the integration tests |
| `CreateProcessHandlers`, `UpdateProcessHandlers`, `DeleteProcessHandlers`, `UpdateProcessGraphHandlers` | create_process.dfy, update_process.dfy, delete_process.dfy, update_process_graph.dfy | the handlers under Application/Processes |
| `Lifecycle` | lifecycle.dfy | the scenarios of the integration tests |

## How the model is set up

- **Exceptions.** `FromName` and `Measure +` can throw. They return
  `Fallible<T>`, which is either `Value(v)` or `Throw(exception)`. A handler's
  response is `Ok(v)`, `Fail(ProcessNotFound(id))` (FluentResults' `Result.Fail`),
  or `Raised(exception)` when an exception escapes `HandleAsync`.
- **Handlers.** Each handler is a class holding the repository and the unit of work,
  as the C# primary constructors do. Its `Handle` method performs the steps of
  `HandleAsync` in the same order. The exception is that a `Process` is a value here,
  not a shared object: see "## Left out". Its postcondition ties the response and the new dictionary to a pure
  `Outcome` function of the old dictionary. The properties are stated and proved
  about that function. The ghost counter `MockUnitOfWork.saves` records how many
  times `SaveChangesAsync` was called.
- **Runtime values as parameters.** `Guid.NewGuid()` and `DateTime.UtcNow` become
  the parameters `newId` and `now`. A fresh id is required to be non-empty and
  not yet in the store.
- **Methods called but never defined.** `Process.UpdateProcess` and `Process.UpdateGraph`
  are called but never defined. Each becomes a function parameter (`ProcessUpdater`,
  `GraphUpdater`, `GraphModelUpdater`). The model specifies exactly which arguments
  the handler passes to it. The only thing required of the function is that it keeps
  `Id` and `CreatedAt`, which are `init`-only properties of `Entity`.
- **Unchecked addition.** `Measure +` is C# `int` addition, which is unchecked, so
  the model wraps the sum modulo 2^32 explicitly. `Add` states that the result is
  congruent to the exact sum, and equal to it whenever the sum fits in Int32.
  Commutativity, associativity and the zero identity hold even with wrap-around.

Where the source does not resolve as written, the model makes these choices:

- `CreateProcessCommand.cs:15` and `CreateProcess.cs:15` call `Process.Create`
  with three arguments, but `Process.cs:14-19` also takes a `graph`. The model
  passes the graph in from the caller.
- `UpdateProcessGraph.cs` imports both graph namespaces. Its five-argument `GraphNode`
  matches only the `Domain/Graphs` node. Its `GraphEdge` carrying a `Measure` matches
  only the `Domain/Processes` edge. The model uses exactly those two types.
- `UpdateProcessGraphCommand.cs` also imports both graph namespaces (lines 6-7), so its
  `GraphNode` and `GraphEdge` are ambiguous too. Its five-argument node and its
  three-argument edge carrying a plain `int` fit the `Domain/Graphs` records, which the
  model uses there (`MapNodeModels`, `MapEdgeModels`). Line 34 builds
  `new Graph(graphNodes, graphEdges)`, and neither graph record fits: the `Domain/Graphs` graph also takes an id, and the
  `Domain/Processes` graph holds the other family's nodes and edges. The model passes
  the two mapped lists, which are exactly what that graph holds.
- The handlers read only `ProcessSettingsModel.Unit`, so the model makes it a record
  with one `unit` string.
- The integration tests send `DeleteProcessCommand` through `mediator.Send`.
  That call cannot reach `DeleteProcessCommandHandler`. The command implements only the
  project's own `ICommand<Result>`, not the Mediator request interface, and the handler
  has no Mediator `Handle` method. The lifecycle scenarios call the handler's `Handle`
  directly, which is what the tests evidently intend.
- `label` is a Dafny keyword, so every `Label` property is named `labelText`.

## Model

| member | source | states |
|---|---|---|
| `Primitives.Coalesce` | src/server/ProcessGraph.Application/Processes/UpdateProcess/UpdateProcessCommand.cs:30-31 | `x ?? fallback`: the value when it is not null, the fallback when it is |
| `Primitives.WrapAssociative` | src/server/ProcessGraph.Domain/Shared/Measure.cs:12 | unchecked Int32 addition, wrapped after each step, is associative |
| `Primitives.Wrap32` | src/server/ProcessGraph.Domain/Shared/Measure.cs:12 | the unchecked Int32 result is congruent to the exact sum modulo 2^32, and equals it when it fits |
| `Units.Name` | src/server/ProcessGraph.Domain/Shared/UnitOfMeasure.cs:20-23 | `ToString`, the `Unit` text: one of "points", "days" and "weeks"; `FromNameOfName` and `NameIsInjective` show it is a parseable, one-to-one printing |
| `Units.FirstWithName` | src/server/ProcessGraph.Domain/Shared/UnitOfMeasure.cs:15 | `FirstOrDefault`: null exactly when no unit has the name; otherwise the earliest unit with that name |
| `Units.FromName` | src/server/ProcessGraph.Domain/Shared/UnitOfMeasure.cs:13-17 | succeeds exactly on "points", "days" and "weeks"; the result is in `All` and carries that name; any other string throws the ApplicationException |
| `Units.FromNameOfName` | src/server/ProcessGraph.Domain/Shared/UnitOfMeasure.cs:13-23 | parsing a printed unit gives that unit back (round trip) |
| `Units.FromNameOfLowerCaseNames` | src/server/ProcessGraph.Domain/Shared/UnitOfMeasure.cs:5-16 | "points", "days" and "weeks" parse to Points, Days and Weeks |
| `Units.FromNameIsCaseSensitive` | src/server/ProcessGraph.Domain/Shared/UnitOfMeasure.cs:15-16 | matching is exact: "Days", "POINTS" and "" throw |
| `Units.AllIsComplete` | src/server/ProcessGraph.Domain/Shared/UnitOfMeasure.cs:19 | `All` holds every unit, three of them, with no repeats |
| `Units.NameIsInjective` | src/server/ProcessGraph.Domain/Shared/UnitOfMeasure.cs:20-23 | two units with the same printed name are the same unit |
| `Measures.Add` | src/server/ProcessGraph.Domain/Shared/Measure.cs:5-13 | throws the InvalidOperationException exactly when the units differ; otherwise the result has the shared unit and the wrapped sum, which is the exact sum when that fits in Int32 |
| `Measures.AddCommutative` | src/server/ProcessGraph.Domain/Shared/Measure.cs:7-12 | addition is commutative: with equal units the sums agree, with different units both orders throw the same exception |
| `Measures.AddAssociative` | src/server/ProcessGraph.Domain/Shared/Measure.cs:12 | same-unit addition is associative, wrap-around included |
| `Measures.ZeroIsIdentity` | src/server/ProcessGraph.Domain/Shared/Measure.cs:12 | a zero measure of the same unit is a left and right identity |
| `Processes.DefaultSettings` | src/server/ProcessGraph.Domain/Processes/ProcessSettings.cs:5-8 | `ProcessSettings.CreateDefault()` measures in days |
| `Processes.DefaultTotals` | src/server/ProcessGraph.Domain/Processes/ProcessTotals.cs:7-10 | default totals: total 0, the given unit, empty longest path, not valid |
| `Processes.Create` | src/server/ProcessGraph.Domain/Processes/Process.cs:14-32 | a new process has the given id and time, no last-modified time, the given name, description, settings and graph, status NotStarted, and default totals in the settings' unit |
| `Results.Message` | src/server/ProcessGraph.Application/Processes/DeleteProcess/DeleteProcessCommand.cs:19 | the not-found message contains the text of the failure's id and the words "not found", however the id is written out |
| `Repository.MockProcessRepository.GetById` | tests/Integration/ProcessGraph.IntegrationTests/MediatorIntegrationTests.cs:167-171 | returns the process filed under the id, or null when the id is absent |
| `Repository.MockProcessRepository.Add` | tests/Integration/ProcessGraph.IntegrationTests/MediatorIntegrationTests.cs:152-155 | files the process under its id and overwrites any earlier entry; other entries are unchanged; processes stay filed under their own ids |
| `Repository.MockProcessRepository.Update` | tests/Integration/ProcessGraph.IntegrationTests/MediatorIntegrationTests.cs:157-160 | replaces the entry at the process's id; other entries are unchanged |
| `Repository.MockProcessRepository.Delete` | tests/Integration/ProcessGraph.IntegrationTests/MediatorIntegrationTests.cs:162-165 | removes only the entry at the process's id |
| `Repository.MockProcessRepository.GetAll` | tests/Integration/ProcessGraph.IntegrationTests/MediatorIntegrationTests.cs:173-177 | returns each stored process once, one per key, and nothing else |
| `Repository.MockUnitOfWork.SaveChanges` | tests/Integration/ProcessGraph.IntegrationTests/MediatorIntegrationTests.cs:182-186 | always returns 1, and counts one save |
| `CreateProcessHandlers.CommandOutcome` | src/server/ProcessGraph.Application/Processes/CreateProcess/CreateProcessCommand.cs:13-23 | always succeeds with the new, non-empty id; the store gains exactly that entry, and every other entry is kept; the new process has the current time as its creation time, the given graph, the command's name, its description or "" when null, unit Days, status NotStarted, and default totals |
| `CreateProcessHandlers.RequestOutcome` | src/server/ProcessGraph.Application/Processes/CreateProcess/CreateProcess.cs:13-22 | as above, except that the stored description is always "" |
| `CreateProcessHandlers.RequestIgnoresDescription` | src/server/ProcessGraph.Application/Processes/CreateProcess/CreateProcess.cs:15 | CreateProcessHandler acts like the command handler given a null description, and differs from it whenever a non-empty description is given |
| `CreateProcessHandlers.CreateProcessCommandHandler.Handle` | src/server/ProcessGraph.Application/Processes/CreateProcess/CreateProcessCommand.cs:13-23 | response and new store are `CommandOutcome`; one save |
| `CreateProcessHandlers.CreateProcessHandler.Handle` | src/server/ProcessGraph.Application/Processes/CreateProcess/CreateProcess.cs:13-22 | response and new store are `RequestOutcome`; one save |
| `UpdateProcessHandlers.MergedSettings` | src/server/ProcessGraph.Application/Processes/UpdateProcess/UpdateProcessCommand.cs:32-34 | null keeps the current settings; otherwise the unit name is parsed, which throws exactly when it is invalid, and the new unit prints as the requested name |
| `UpdateProcessHandlers.Merge` | src/server/ProcessGraph.Application/Processes/UpdateProcess/UpdateProcessCommand.cs:30-34 | null name, description or settings keep the current value and non-null ones replace it; the merge throws only for an invalid unit name |
| `UpdateProcessHandlers.Outcome` | src/server/ProcessGraph.Application/Processes/UpdateProcess/UpdateProcessCommand.cs:20-41 | unknown id: not-found failure with the store unchanged; invalid unit: raises with the store unchanged; otherwise success, with only the entry at the id rewritten to `UpdateProcess` applied to the merged fields |
| `UpdateProcessHandlers.NullsMeanCurrentValues` | src/server/ProcessGraph.Application/Processes/UpdateProcess/UpdateProcessCommand.cs:30-34 | sending nulls has the same effect as sending the current name, description and unit name |
| `UpdateProcessHandlers.UpdateProcessCommandHandler.Handle` | src/server/ProcessGraph.Application/Processes/UpdateProcess/UpdateProcessCommand.cs:20-41 | response and new store are `Outcome`; one save on success and none otherwise |
| `UpdateProcessHandlers.UpdateProcessHandler.Handle` | src/server/ProcessGraph.Application/Processes/UpdateProcess/UpdateProcess.cs:17-37 | response and new store are the same `Outcome` as the command handler's, so given the same store and inputs both handlers behave identically |
| `DeleteProcessHandlers.Outcome` | src/server/ProcessGraph.Application/Processes/DeleteProcess/DeleteProcessCommand.cs:13-27 | unknown id: not-found failure with the store unchanged; known id: Ok, the id is removed, and every other entry is kept |
| `DeleteProcessHandlers.DeleteTwiceFails` | src/server/ProcessGraph.Application/Processes/DeleteProcess/DeleteProcessCommand.cs:15-22 | a second delete of the same id fails with not-found and changes nothing |
| `DeleteProcessHandlers.DeleteProcessCommandHandler.Handle` | src/server/ProcessGraph.Application/Processes/DeleteProcess/DeleteProcessCommand.cs:13-27 | response and new store are `Outcome`; one save on success and none otherwise |
| `UpdateProcessGraphHandlers.ToNode` | src/server/ProcessGraph.Application/Processes/UpdateProcessGraph/UpdateProcessGraph.cs:28 | the node built from a DTO keeps its Id, Label, XPosition, YPosition and Description |
| `UpdateProcessGraphHandlers.MapNodes` | src/server/ProcessGraph.Application/Processes/UpdateProcessGraph/UpdateProcessGraph.cs:28-29 | one node per DTO, in order, each keeping Id, Label, XPosition, YPosition and Description |
| `UpdateProcessGraphHandlers.ToEdge` | src/server/ProcessGraph.Application/Processes/UpdateProcessGraph/UpdateProcessGraph.cs:30-31 | throws exactly when the unit name is invalid; otherwise keeps From, To and Value, carries the named unit, and sets description and label to null |
| `UpdateProcessGraphHandlers.MapEdges` | src/server/ProcessGraph.Application/Processes/UpdateProcessGraph/UpdateProcessGraph.cs:30-32 | the edge list forced by `ToImmutableList`; when it throws, it throws the invalid-unit-name exception; `MapEdgesSucceeds` and `MapEdgesMaps` state when it succeeds and what it yields |
| `UpdateProcessGraphHandlers.MapEdgesSucceeds` | src/server/ProcessGraph.Application/Processes/UpdateProcessGraph/UpdateProcessGraph.cs:30-32 | the edge mapping succeeds exactly when every unit name is valid; a single invalid one throws |
| `UpdateProcessGraphHandlers.MapEdgesMaps` | src/server/ProcessGraph.Application/Processes/UpdateProcessGraph/UpdateProcessGraph.cs:30-32 | on success there is one edge per DTO, in order, each related to its DTO as `ToEdge` describes |
| `UpdateProcessGraphHandlers.MapEdgesSpec` | src/server/ProcessGraph.Application/Processes/UpdateProcessGraph/UpdateProcessGraph.cs:30-32 | the two lemmas above combined |
| `UpdateProcessGraphHandlers.NodesRoundTrip` | src/server/ProcessGraph.Application/Processes/UpdateProcessGraph/UpdateProcessGraph.cs:28-29 | node mapping is lossless: showing the mapped nodes gives back the DTOs |
| `UpdateProcessGraphHandlers.EdgesRoundTrip` | src/server/ProcessGraph.Application/Processes/UpdateProcessGraph/UpdateProcessGraph.cs:30-32 | showing the mapped edges gives back the DTOs with only description and label cleared |
| `UpdateProcessGraphHandlers.EdgesFromDtos` | src/server/ProcessGraph.Application/Processes/UpdateProcessGraph/UpdateProcessGraph.cs:30-32 | domain edges shown as DTOs then mapped back come out equal, apart from description and label |
| `UpdateProcessGraphHandlers.DtoOutcome` | src/server/ProcessGraph.Application/Processes/UpdateProcessGraph/UpdateProcessGraph.cs:17-39 | succeeds exactly when the id is known and every unit name is valid, so dangling edge endpoints are never checked; unknown id: not-found failure; invalid unit: raises; both leave the store unchanged; on success only the entry at the id is rewritten, with `UpdateGraph` applied to the mapped nodes and edges |
| `UpdateProcessGraphHandlers.MapNodeModels` | src/server/ProcessGraph.Application/Processes/UpdateProcessGraph/UpdateProcessGraphCommand.cs:26-28 | one node per model, in order, each keeping Id, Label, X, Y and Description |
| `UpdateProcessGraphHandlers.MapEdgeModels` | src/server/ProcessGraph.Application/Processes/UpdateProcessGraph/UpdateProcessGraphCommand.cs:30-32 | one edge per model, in order, keeping From, To and the raw value; description and label are null |
| `UpdateProcessGraphHandlers.EdgeModelsRoundTrip` | src/server/ProcessGraph.Application/Processes/UpdateProcessGraph/UpdateProcessGraphCommand.cs:30-32 | mapping then showing an edge model loses exactly its description and label |
| `UpdateProcessGraphHandlers.ModelOutcome` | src/server/ProcessGraph.Application/Processes/UpdateProcessGraph/UpdateProcessGraphCommand.cs:16-43 | succeeds exactly when the id is known; unknown id: not-found failure with the store unchanged; on success only the entry at the id is rewritten, with `UpdateGraph` applied to exactly the mapped nodes and edges |
| `UpdateProcessGraphHandlers.UpdateProcessGraphHandler.Handle` | src/server/ProcessGraph.Application/Processes/UpdateProcessGraph/UpdateProcessGraph.cs:17-39 | response and new store are `DtoOutcome`; one save on success and none otherwise |
| `UpdateProcessGraphHandlers.UpdateProcessGraphCommandHandler.Handle` | src/server/ProcessGraph.Application/Processes/UpdateProcessGraph/UpdateProcessGraphCommand.cs:16-43 | response and new store are `ModelOutcome`; one save on success and none otherwise |
| `Lifecycle.CreateUpdateDeleteRestoresStore` | tests/Integration/ProcessGraph.IntegrationTests/MediatorIntegrationTests.cs:43-63 | create, then update, then delete of the new id all succeed, and the store ends exactly as it started |
| `Lifecycle.HandlerDiscovery` | tests/Integration/ProcessGraph.IntegrationTests/MediatorIntegrationTests.cs:43-78 | run through the handler classes, create returns a non-empty id, and the update and delete on it succeed |
| `Lifecycle.UnknownProcessFails` | tests/Integration/ProcessGraph.IntegrationTests/MediatorIntegrationTests.cs:114-144 | update and delete of an id never created both fail, with a message that contains "not found" |
| `Lifecycle.DeleteTwice` | src/server/ProcessGraph.Application/Processes/DeleteProcess/DeleteProcessCommand.cs:15-26 | through the handler class, the first delete succeeds, the second fails with not-found, and the store is left empty |
| `Lifecycle.RepositoryScenario` | tests/Integration/ProcessGraph.IntegrationTests/MediatorIntegrationTests.cs:148-178 | a lookup after Add finds the process; a second Add under the same id overwrites it; lookups after Delete, or of an absent id, return null |

## Left out

- Critical-path totals. No code computes `ProcessTotals.LongestPath`, `Total` or
  `Valid`: `Process.Create` only installs the defaults. The model has no analyzer.
- The bodies of `Process.UpdateProcess` and `Process.UpdateGraph`: the program calls
  these methods but never defines them. They are function parameters, constrained only to keep `Id` and `CreatedAt`.
- `GetProcess.cs` and `DeleteProcess.cs`. They treat `GetByIdAsync` as returning a
  `Result`, while `IProcessRepository.cs:8` declares `Task<Process?>`, so they have
  no consistent contract to model.
- The Mediator `Handle` wrappers only forward to `HandleAsync`.
- HTTP endpoints, the request pipeline and dependency-injection registration:
  routing and wiring only.
- EF and Dapper persistence, migrations, database contexts, `ProcessRepository` and
  `GraphModelTypeHandler`: library wrappers over I/O. The handlers are modelled against
  the test's in-memory repository, not the `IProcessRepository` interface.
- Cancellation. The model assumes the cancellation token is never cancelled, and runs the
  `async` handlers as sequential methods. With a cancelled token, the mock's
  `Task.Delay(1, cancellationToken)` throws `TaskCanceledException`.
  - In `GetByIdAsync` it throws before anything is written, so the store is unchanged.
  - In `SaveChangesAsync` the exception escapes after `Add`, `Update` or `Delete` has
    already changed the dictionary (CreateProcessCommand.cs:18-20,
    UpdateProcessCommand.cs:36-38, DeleteProcessCommand.cs:22-24). The handler then
    returns no `Result`, yet the store holds the change.
  - `Lifecycle`'s scenarios and every `Outcome` function have no such path; the create
    handlers, for example, always return `Ok`.
- How a Guid is formatted inside the not-found message. The message function takes a Guid
  formatter `show`, which gives the id's text.
- Null elements, and nulls in properties declared non-nullable, which C# permits at run time.
- The numeric values of `ProcessStatus`.
- `CreateProcessHandlers.CommandOutcome`, `CreateProcessHandlers.RequestOutcome`
  and both create `Handle` methods require the new id to be non-empty and absent
  from the store. This stands for what `Guid.NewGuid()` provides in practice.
  With a colliding id, `Add` would silently overwrite the existing entry.
- `UpdateProcessHandlers.UpdateProcessCommandHandler.Handle`, `UpdateProcessHandlers.UpdateProcessHandler.Handle`
  and both update-graph `Handle` methods require the missing `Process` mutator
  parameter to keep `Id` and `CreatedAt`.
  C# guarantees this for `init`-only properties.
- `UpdateProcessHandlers.UpdateProcessCommandHandler.Handle`, `UpdateProcessHandlers.UpdateProcessHandler.Handle`,
  `UpdateProcessGraphHandlers.UpdateProcessGraphHandler.Handle` and `UpdateProcessGraphHandlers.UpdateProcessGraphCommandHandler.Handle`
  do not model aliasing or update in place.
  In the source, `Process` is a class and the mock's dictionary stores references.
  So `UpdateProcess` and `UpdateGraph` change the very object already filed in the store,
  and any `Process` handed out earlier by `GetByIdAsync` or `GetAllAsync` sees the change.
  The model treats a `Process` as a value and replaces the entry with the updated value.
  Responses and final store contents agree with the source's, because the only throw, in
  `FromName`, happens before the mutator runs. What an earlier reference observes is not modelled.
- `Repository.MockUnitOfWork.SaveChanges`: the save counter is ghost, since the
  source mock keeps no such state.
