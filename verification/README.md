# Verification of the TwinScale operator

This project models two parts of the operator and proves how they behave.

**The twin graph.** `pkg/graph` keeps vertex objects in a map and pointers between them in Go
slices that are edited in place. `GoSlices` models such a slice as an array and a length,
`TwinGraph` is the pointer graph on the heap, written once for both of its instances (given the
function that reads the key of a resource: the name of a TwinInstance, the `Spec.Id` of a
TwinInterface), `GraphSpec` is the
same graph on values with the theorems about whole runs, `TwinInstanceGraph` is the server that
rebuilds the graph from a list, and `GraphExport` is the settings list behind `MarshalJson`.

**The reconcilers.** `ClusterApi` is the API server: a map from (kind, namespace, name) to
objects that may fail any call before or after the call took effect, and that other clients
change between any two calls. Each reconcile is a step machine (`TwinInterfaceMachine`,
`ServiceTriggerMachine`, `MqttTriggerMachine`): a state is the call about to be made together
with the local variables, and the answer moves it on. `TwinInterfaceController` and
`CoreControllers` are the reconcile functions themselves, as methods that make their calls through
a `Client`; the client accepts only the call the machine asks for, so a method that verifies
follows its machine through every answer. `Runs` defines runs with faults, crashes (a run may stop
anywhere) and interference; the theorems are in `InterfaceSteps`, `InterfaceRuns`,
`InterfaceResult`, `InterfaceConvergence`, `InterfaceProgress`, `InterfaceFleet`,
`InterfaceEffect`, `Quiescence`, `StaleAddresses`, `EmptyDestination`, `Panics`,
`ServiceTriggerRuns`, `MqttTriggerRuns`, `MqttTriggerSharing`, `MqttTriggerProgress` and
`MqttTriggerResult`. What the reconcilers leave in the store is said field by field, apart from the
functions that build it, in `InterfaceReads`, `InterfaceContents`, `ServiceTriggerContents`,
`MqttTriggerContents` and `Annotations`.
`Interleaving`, `NonInterference` and `WhoIsApart` are about many attempts at once. `Words`,
`Names`, `Amqp` and `Routing` are about the generated names and routing keys and what RabbitMQ does
with them.

Check it with `dafny verify dfyconfig.toml`, with the options
`--resource-limit 2000000 --verification-time-limit 0`.

## What the proofs brought to light

The model keeps the code as it is. Where a function does not do what its name suggests there is its
exact behaviour for all inputs, and where an expected property fails there is the condition under
which it holds and an input for which it does not.

- `RemoveEdge` drops the shortened slice, so no list ever gets shorter; it moves the later entries
  down and repeats the last one (`GraphSpec.RemoveEdgeKeepsLength`).
- `NumberOfVertex` is the number of vertices plus the number of `AddEdge` calls ever made
  (`GraphSpec.CounterLaw`).
- An edge added twice survives the removal of its target as a pointer to the removed vertex. All
  pointers stay live along a run exactly if no `RemoveVertex` meets another list that names its
  vertex twice (`GraphSpec.AlwaysClosedIff`; inputs: `GraphSpec.RepeatedEdgeDangles`,
  `GraphSpec.DanglingIsHidden`).
- With two inputs of one name the export shows the relationships of the first one only, while the
  edges come from both (`GraphExport.ExportAgreesIff`; input: `GraphExport.RepeatedInputDisagrees`).
- A success creates the event-store binding with an empty destination exactly if there is no
  event-store queue (`EmptyDestination.EmptyDestinationIff`), and no reconcile ever changes that,
  whatever turns up later (`InterfaceFleet.EventStoreBindingIsForever`; a run in which the queue
  turns up, is read, and a success leaves the destination empty:
  `EmptyDestination.EmptyDestinationHappens`, from the store of
  `EmptyDestination.StoreForIsUnbound`).
- `CompareTwinService` does not look at the environment. A success leaves the addresses it has read
  exactly unless it found a service that looks right and has others
  (`StaleAddresses.SuccessLeavesConfigIff`), and a service that looks right is never touched again,
  however often the addresses change (`StaleAddresses.StaleForGood`; a run that leaves a stale
  address: `StaleAddresses.StaleAddressHappens`).
- On a store that drops empty maps an interface without auto-scaling has its service updated by
  every reconcile (`Quiescence.SuccessionIsQuietIff`; runs of any length: `Quiescence.NeverQuiet`,
  for example from the store of `EmptyDestination.StoreForIsUnbound`).
- Two bindings of one family claim the same name exactly if the names behind them are the same or a
  part starting or ending at a '-' has moved from the interface name to the other name
  (`Names.SameKeyIff`; inputs: `Names.DashesCollide`).
- Two commands share an event type exactly if they are the same or a dotted part has moved from an
  interface name to a command name (`Routing.SameCommandTypeIff`; inputs:
  `Routing.DotsMixCommands`).
- The topics that reach the dispatcher are those of the announced names exactly if every announced
  name starts with the words of an announced name without wildcards (`Routing.TopicsAreExactIff`;
  inputs: `Routing.WildcardTakesAll`).
- Status Failed is set in memory only: no run ever writes it (`InterfaceRuns.InterfaceUpdateIsLast`).
- The reconcile of an interface panics exactly if a listing of exchanges is answered with nothing, or
  it goes on to build the service without having read an address of the broker, be it that the read
  failed or that the broker has none yet (`Panics.PanicsIff`; runs that do: `Panics.NoExchangePanics`,
  `Panics.NoAddressPanics`). The one of an EventStore panics exactly if there is no timeout, before
  its first call (`Panics.EventStorePanicsIff`).

## Model

| member | source | states |
|---|---|---|
| `GoSlices.Append` | pkg/graph/TwinInstanceGraph.go:144 | append adds one element at the end: in the same backing array exactly if it has room, else in a fresh one, and it changes no other element of the old array |
| `GoSlices.RemoveIndex` | pkg/graph/TwinInstanceGraph.go:241-243 | the returned slice lacks the element; the backing array, and so every slice that still has the old length, has the later elements moved down and the last one twice |
| `TwinGraph.Vertex.FindEdgeIndex` | pkg/graph/TwinInstanceGraph.go:231-239 | the first index whose vertex holds a resource of that key now, or -1 if there is none; as long as stored resources keep their keys this is the first edge of that name |
| `TwinGraph.Vertex.ShiftOut` | pkg/graph/TwinInstanceGraph.go:156-161 | what RemoveEdge does to one list: same length, entries after the first match moved down |
| `TwinGraph.Vertex.DropOut` | pkg/graph/TwinInstanceGraph.go:126-130 | what RemoveVertex does to one list: the first match is gone |
| `TwinGraph.TwinGraph.AddVertex` | pkg/graph/TwinInstanceGraph.go:78-96 | refines the value graph: a new vertex, or the promotion of a temporary one, whose resource is replaced, reported as "already exist" all the same; backing arrays stay unshared, and every vertex there ever was still holds a resource of the key it was created under |
| `TwinGraph.TwinGraph.AddTemporaryVertex` | pkg/graph/TwinInstanceGraph.go:98-112 | refines the value graph: an existing vertex is returned untouched |
| `TwinGraph.TwinGraph.AddEdge` | pkg/graph/TwinInstanceGraph.go:138-149 | refines the value graph: both ends exist, the source lists the live target once more, the counter rises |
| `TwinGraph.TwinGraph.RemoveVertex` | pkg/graph/TwinInstanceGraph.go:114-136 | refines the value graph: the key is gone and every other list loses its first entry of that name, whatever the iteration order of the map |
| `TwinGraph.TwinGraph.RemoveEdge` | pkg/graph/TwinInterfaceGraph.go:127-147 | refines the value graph: the list of the source, then the list of the target, is shifted in place; the same code for instances and interfaces |
| `GraphSpec.RunsRefineTheMap` | pkg/graph/TwinInstanceGraph.go:78-171 | for every sequence of operations the graph is the plain map from a name to (resource, temporary flag, target names) that the same operations produce: pointers are never observed |
| `GraphSpec.CounterLaw` | pkg/graph/TwinInstanceGraph.go:93-146 | over every run NumberOfVertex is the number of vertices plus the number of AddEdge calls so far |
| `GraphSpec.RemoveEdgeKeepsLength` | pkg/graph/TwinInstanceGraph.go:151-171 | the list keeps its length; the multiplicity of the name drops by one exactly if the last entry has another name, the last entry's name gains one, all others stay |
| `GraphSpec.RemoveEdgeKeepsEveryLength` | pkg/graph/TwinInstanceGraph.go:151-171 | a whole RemoveEdge keeps all vertices, the counter and the length of every list |
| `GraphSpec.RemoveVertexClosedIff` | pkg/graph/TwinInstanceGraph.go:114-136 | on a graph of live pointers, RemoveVertex leaves only live pointers exactly if no other list names the vertex twice, and exactly then erases all in-edges |
| `GraphSpec.SimpleRunsAreClosed` | pkg/graph/TwinInstanceGraph.go:78-149 | over every run without RemoveEdge in which AddEdge never repeats a listed pair, every edge points at the live vertex of its name |
| `GraphSpec.SimpleRemovalErasesInEdges` | pkg/graph/TwinInstanceGraph.go:114-136 | along such a run RemoveVertex erases all in-edges |
| `GraphSpec.AlwaysClosedIff` | pkg/graph/TwinInstanceGraph.go:78-171 | over all runs of all four operations, every pointer is live at every point exactly if no RemoveVertex meets another list that names its vertex twice; RemoveEdge never breaks a pointer |
| `GraphSpec.RepeatedEdgeDangles` | pkg/graph/TwinInstanceGraph.go:114-149 | for any two names, an edge added twice leaves a pointer to the removed vertex |
| `GraphSpec.DanglingIsHidden` | pkg/graph/TwinInstanceGraph.go:78-149 | adding the vertex again hides that pointer behind the new vertex's name |
| `TwinInstanceGraph.TwinGraphServer.UpdateGraphFunc` | pkg/graph/server.go:33-53 | replaces the graph by a fresh rebuild of the list |
| `TwinInstanceGraph.Rebuild` | pkg/graph/server.go:36-50 | the two phases produce exactly the vertices, edges, order and counter the list asks for |
| `GraphExport.RebuildIsExact` | pkg/graph/server.go:33-53 | keys are the input names, the first instance of a name wins, nothing is temporary, every pointer is live, the edges of a name are the in-order concatenation over its inputs, and the counter is the number of vertices plus the lengths of all edge lists |
| `GraphExport.ListSettings` | pkg/graph/TwinInstanceGraph.go:189-216 | under any map order each vertex is listed once with its own relationships |
| `GraphExport.ExportSays` | pkg/graph/TwinInstanceGraph.go:193-212 | what is exported for a name are name, interface and relationships of the first input of that name |
| `GraphExport.ExportAgreesIff` | pkg/graph/TwinInstanceGraph.go:193-212 | the exported relationships, kept to the present names, are the edges of the vertex exactly if no later input of the same name has a present target |
| `GraphExport.RepeatedInputDisagrees` | pkg/graph/server.go:40-50 | for any two inputs of one name, the first without relationships and the second referring to that name, the vertex has an edge and its export none |
| `GraphExport.RebuildFromExport` | pkg/graph/TwinInstanceGraph.go:189-225 | for distinct names, rebuilding from the export gives the same names, interfaces, relationships and edge lists, in any export order |
| `GraphExport.OrderDoesNotMatter` | pkg/graph/server.go:33-53 | for distinct names every permutation of the list rebuilds the same graph and counter |
| `TwinEvents.GetMqttDispatcherBindings` | pkg/event/event.go:66-129 | the loop yields the own binding first, then one per aggregating relationship, in order |
| `TwinEvents.GetRelationshipBrokerBindings` | pkg/event/event.go:131-172 | one binding per aggregating relationship, in order, to the queue of the interface |
| `TwinEvents.GetTwinInterfaceCommandBindings` | pkg/event/event.go:209-251 | one binding per command, none for an interface without a service |
| `TwinEvents.AggregatedInOrder` | pkg/event/event.go:99-126 | the aggregating relationships keep their order and multiplicity: those of a list put together are those of its parts put together |
| `TwinService.GetTwinInterfaceContainers` | pkg/service/service.go:57-84 | every container keeps everything and gets the three variables after its own |
| `TwinService.FillAutoScaling` | pkg/service/service.go:86-118 | the conditional inserts build the annotation map, which is empty exactly for an all-zero auto-scaling |
| `TwinService.AutoScalingSaysWhatIsGiven` | pkg/service/service.go:86-118 | as soon as anything is set both scales are, 1 and 0 by default; the other three annotations come and go independently, and there are no others |
| `TwinService.ServiceRunsTheContainers` | pkg/service/service.go:57-158 | the built service has the key the trigger refers to, belongs to the interface and runs the specified containers in order, each as specified but for its environment, where the operator's three variables win and all others are as specified |
| `TwinService.CompareTwinService` | pkg/service/service.go:168-196 | true exactly if the annotations are the same, there are as many containers, and one by one image and resources are the same |
| `Text.ItoaReadsBack` | pkg/service/service.go:86-118 | every number in an annotation or variable is written with its sign and without leading zeros and reads back as itself |
| `CoreChildren.FillAnnotations` | pkg/third-party/knative/trigger.go:43-63 | the conditional inserts build the annotation map of the specification, whatever is given |
| `CoreChildren.AnnotationsSayWhatIsGiven` | pkg/third-party/knative/trigger.go:43-63 | the five annotations come and go independently, each with its own value, and there are no others |
| `ClusterApi.ApiServer.Create` | internal/controller/dtd/twininterface_controller.go:114 | an object is created if the key is free, answered "already exists" if not; a lost answer may hide either; others may have been at work before |
| `TwinInterfaceController.CreateUpdateTwinInterface` | internal/controller/dtd/twininterface_controller.go:83-231 | for every behaviour of the server the function makes the calls of its machine, in order, and ends with the same result: a panic where the source dereferences a missing broker address or indexes an empty list of exchanges; what those calls leave is the subject of `InterfaceContents` |
| `TwinInterfaceController.EnsureService` | internal/controller/dtd/twininterface_controller.go:114-137 | create, or get, compare and merge; only a failing get aborts |
| `TwinInterfaceController.CreateBindings` | internal/controller/dtd/twininterface_controller.go:151-158 | every binding of a list is tried, "already exists" is swallowed, other errors are recorded |
| `CoreControllers.CreateOrUpdateEventStoreResources` | internal/controller/core/eventstore_controller.go:73-130 | follows its machine for every behaviour of the server; what that leaves is the subject of `ServiceTriggerContents.EventStoreRunsAsAsked` |
| `CoreControllers.CreateOrUpdateVisualisationResources` | internal/controller/core/visualisation_controller.go:72-123 | follows its machine for every behaviour of the server; what that leaves is the subject of `ServiceTriggerContents.VisualisationRunsAsAsked` |
| `CoreControllers.ReconcileMqttTrigger` | internal/controller/core/mqtttrigger_controller.go:54-86 | follows its machine for every behaviour of the server; a deleted trigger is no error; the phase is written after the children; what that leaves is the subject of `MqttTriggerContents.ReadyMeansDispatching` |
| `CoreControllers.ApplyChild` | internal/controller/core/mqtttrigger_controller.go:154-192 | one of the three apply functions: get, then create or replace the spec |
| `InterfaceSteps.NothingIsSkipped` | internal/controller/dtd/twininterface_controller.go:90-216 | as long as nothing has gone wrong, a wanted child leaves the list of things to do only by being created or found to exist |
| `InterfaceRuns.EndMeansComplete` | internal/controller/dtd/twininterface_controller.go:218-230 | in every run in which nobody deletes, the final update and a reported success are reached only with no error recorded and every wanted Service, Trigger and Binding in the store |
| `InterfaceRuns.InterfaceUpdateIsLast` | internal/controller/dtd/twininterface_controller.go:218-230 | the interface is updated at most once, by the last call, and sent back as it was read: same specification, annotations and owners, status Running, the one label with its name; everything present; Failed is never written |
| `InterfaceContents.SpecificationIsKept` | internal/controller/dtd/twininterface_controller.go:222-229 | no undisturbed attempt, however it fares, changes or loses specification, annotations or owners of the stored interface |
| `InterfaceContents.UpdateLeavesRunning` | internal/controller/dtd/twininterface_controller.go:222-291 | a final update that takes effect leaves the interface with its specification, status Running and its label |
| `InterfaceReads.AttemptIsInformed` | internal/controller/dtd/twininterface_controller.go:92-267 | what an undisturbed attempt without a fault has read is what the store it started from holds: the broker's address, the event store's URL, the spec name of a matching exchange, the names of a matching event-store queue and own queue |
| `InterfaceContents.NewBindingsLead` | internal/controller/dtd/twininterface_controller.go:145-214 | every binding an undisturbed success has created belongs to a wanted child and leads from one listed exchange (or amq.topic) to the event-store queue, the own queue or the MQTT dispatcher's queue, and passes exactly the event type of that child |
| `InterfaceContents.NewTriggerLeads` | pkg/event/event.go:174-207 | a new trigger is on the broker twinscale, passes exactly the own real events to the service of the same name, which is there, and carries the parallelism if given |
| `InterfaceContents.ServiceServes` | pkg/service/service.go:57-196 | after a success the service has the specified images, resources and annotations in order, whatever was there; created or changed it runs with the addresses that were in the store; a service that was there keeps its metadata, route and status |
| `InterfaceResult.ErrorsAreFailures` | internal/controller/dtd/twininterface_controller.go:83-231 | in every run the recorded errors are exactly the failures of the recording calls, in order |
| `InterfaceResult.ResultOfAttempt` | internal/controller/dtd/twininterface_controller.go:83-231 | in every run that ends, one call was the last and explains the result: success comes from the final update alone, with nothing recorded; the error of a failing service fetch or event-store queue listing comes back whatever was recorded before, and any other error is the first recorded failure; only the lack of an own queue requeues; only a missing address or an empty list of exchanges panics |
| `InterfaceConvergence.AttemptsAreBounded` | internal/controller/dtd/twininterface_controller.go:83-231 | an attempt makes a bounded number of calls, whatever the answers |
| `InterfaceConvergence.HealthyAttemptIsFine` | internal/controller/dtd/twininterface_controller.go:90-230 | with broker, event store, exchange and queue present and no failing call, an attempt never records an error |
| `InterfaceConvergence.BoundedConvergence` | internal/controller/dtd/twininterface_controller.go:90-230 | with at most k failing calls overall and no deletion, one of k+1 attempts succeeds, and from then on every wanted child is there |
| `InterfaceConvergence.TriesOnlyAdd` | internal/controller/dtd/twininterface_controller.go:90-230 | across attempts the set of missing children never grows |
| `InterfaceProgress.CanAlwaysFinish` | internal/controller/dtd/twininterface_controller.go:83-231 | wherever an attempt is, after any faults and interference, a server that answers takes it to its end |
| `InterfaceProgress.CanSucceed` | internal/controller/dtd/twininterface_controller.go:83-231 | from every store that holds what the attempt reads there is a run that succeeds and leaves every wanted child |
| `InterfaceFleet.WriteOnce` | internal/controller/dtd/twininterface_controller.go:126-213 | over all runs of any number of reconciles, with faults, crashes, restarts and changing specs, beside anybody else who may do anything but touch this key: no Trigger or Binding is ever overwritten or deleted |
| `InterfaceFleet.NothingIsDeleted` | internal/controller/dtd/twininterface_controller.go:83-231 | over the same runs no key disappears unless somebody else deletes it |
| `InterfaceFleet.UpdatesOnlyServicesAndInterfaces` | internal/controller/dtd/twininterface_controller.go:129-291 | the only child ever updated is the Knative Service |
| `InterfaceFleet.EventStoreBindingIsForever` | internal/controller/dtd/twininterface_controller.go:161-249 | over the same runs, whatever others do to queues and everything else, as long as they leave this binding alone: a new event-store binding has as destination the queue its creator saw in an earlier listing of the same attempt, empty for an empty listing, and stays the object that was created |
| `EmptyDestination.DestinationIsSeen` | internal/controller/dtd/twininterface_controller.go:233-249 | an undisturbed success that creates the event-store binding points it to one of the event-store queues there are, and nowhere if there is none |
| `EmptyDestination.EmptyDestinationIff` | internal/controller/dtd/twininterface_controller.go:161-249 | where these queues have names, the destination is empty exactly if there is none of them |
| `EmptyDestination.EmptyDestinationHappens` | internal/controller/dtd/twininterface_controller.go:161-182 | from every store with all an attempt needs but no event-store queue and no binding: the binding is created without a destination, a queue turns up, the worker starts again, reads it and succeeds, and the destination is still empty |
| `EmptyDestination.StoreForIsUnbound` | internal/controller/dtd/twininterface_controller.go:233-249 | there is such a store for every interface not called eventstore-trigger, whichever way the server stores empty maps |
| `InterfaceEffect.EffectOfAttempt` | internal/controller/dtd/twininterface_controller.go:83-231 | at every point of an undisturbed attempt, faulty or not: existing triggers and bindings are as they were, new ones are wanted children built from what was read, the service is as create, compare and merge leave it, and nothing else has changed |
| `Quiescence.ProjectionIgnoresAddresses` | pkg/service/service.go:168-196 | what is compared does not depend on the broker and event-store addresses |
| `Quiescence.MergeThenCompare` | pkg/service/service.go:160-196 | after a merge the comparison succeeds; on what the store reads back, exactly if the annotations survive it |
| `Quiescence.SecondAttemptIsQuietIff` | internal/controller/dtd/twininterface_controller.go:126-136 | after a success, a second success sends no service update exactly if the store is verbatim or auto-scaling is set |
| `Quiescence.SuccessionIsQuietIff` | internal/controller/dtd/twininterface_controller.go:126-136 | in any succession of undisturbed successes all but the first are quiet, or all but the first send the update, by the same condition |
| `Quiescence.NeverQuiet` | internal/controller/dtd/twininterface_controller.go:126-136 | from every store that drops empty maps and holds what the attempts read, for an interface without auto-scaling and for every n: a succession in which n successes each update the service |
| `StaleAddresses.SuccessLeavesConfigIff` | internal/controller/dtd/twininterface_controller.go:92-136 | a success leaves the configuration the attempt wants, addresses included, exactly unless it found a service that looks right without having it |
| `StaleAddresses.LeftAlone` | internal/controller/dtd/twininterface_controller.go:126-136 | an attempt leaves a service that looks right exactly as it is, at every point, whatever fails and whatever addresses it reads |
| `StaleAddresses.StaleForGood` | internal/controller/dtd/twininterface_controller.go:126-136 | so do any number of attempts, with the addresses changing in between and during them |
| `StaleAddresses.StaleAddressHappens` | internal/controller/dtd/twininterface_controller.go:92-136 | for every interface with a container and annotations that survive the store, and every store an attempt can succeed on that has no such service yet: the broker moves, a second attempt reads the new address and succeeds, and the service still has the old one |
| `Panics.PanicsIff` | internal/controller/dtd/twininterface_controller.go:92-267 | in every run the reconcile panics exactly if some listing of exchanges is answered with an empty list, or the event store was read after the broker had been read without getting an address |
| `Panics.NoExchangePanics` | internal/controller/dtd/twininterface_controller.go:261-266 | on every store without an exchange there is an undisturbed run that panics |
| `Panics.NoAddressPanics` | pkg/service/service.go:57-61 | while the broker is missing or has no address, an interface with a service has an undisturbed run that only reads and panics, without a change to the store |
| `Panics.EventStorePanicsIff` | pkg/event-store/eventStore.go:43-168 | in every run the reconcile of an EventStore panics exactly if it has no timeout, before its first call |
| `ServiceTriggerRuns.TriggerOnlyAfterService` | internal/controller/core/eventstore_controller.go:73-130 | in every faulty or crashed prefix the stored trigger is as it was, or the stored service is as it is to be |
| `ServiceTriggerRuns.TriggerIsWrittenAfterService` | internal/controller/core/eventstore_controller.go:73-130 | in the order of the calls, one that would write the trigger comes only after one that wrote the service as it is to be and was answered so |
| `ServiceTriggerRuns.EventStoreConverges` | internal/controller/core/eventstore_controller.go:73-130 | from any store, success leaves the service configuration and the trigger's labels, annotations and spec as built, and keeps an existing service's metadata, route and status and an existing trigger's owners |
| `ServiceTriggerContents.EventStoreRunsAsAsked` | pkg/event-store/eventStore.go:43-231 | after a success the service runs the event store's image with its resources, scaling and exactly the six variables, host, database, user and password each from its own key of the secret; the trigger passes exactly the event-store events to that service and path; what was created belongs to the EventStore |
| `ServiceTriggerRuns.EventStoreIsIdempotent` | pkg/event-store/eventStore.go:171-231 | in a store in that shape an attempt changes nothing, however it goes |
| `ServiceTriggerRuns.VisualisationRestoresAnnotationsOnly` | internal/controller/core/visualisation_controller.go:98-120 | of an existing trigger only the annotations are restored, so the whole is as desired exactly if labels and spec already were |
| `ServiceTriggerRuns.LabelsAndSpecDependOnName` | pkg/visualisation/visualisation.go:137-171 | labels, spec and key of a Visualisation's trigger depend on namespace and name alone |
| `ServiceTriggerRuns.NoDriftIsKept` | pkg/visualisation/visualisation.go:168-171 | without outside writers, along any attempts with any specs, each success leaves service and trigger as its spec wants them |
| `ServiceTriggerContents.VisualisationRunsAsAsked` | pkg/visualisation/visualisation.go:51-171 | after a success the service runs the visualisation's image with its resources, scaling, parallelism and timeout, and the trigger has the annotations asked for; a trigger that is new or has not drifted passes exactly the own visualisation events to that service and path |
| `ServiceTriggerRuns.FailureWasAnswered` | internal/controller/core/eventstore_controller.go:73-130 | in every run an error that is returned is one that a call was answered with |
| `MqttTriggerRuns.WritesArePrefix` | internal/controller/core/mqtttrigger_controller.go:88-151 | whatever fails and whoever interferes, the children written in an attempt are a prefix of the fixed six |
| `MqttTriggerRuns.ReadyOnlyAfterAllSix` | internal/controller/core/mqtttrigger_controller.go:71-83 | phase Ready is sent only after all six have been written, and for the trigger that was asked about |
| `MqttTriggerRuns.ReadyMeansApplied` | internal/controller/core/mqtttrigger_controller.go:71-385 | at that moment all six have the specs built from the secret and exchange that were read |
| `MqttTriggerContents.ReadyMeansDispatching` | internal/controller/core/mqtttrigger_controller.go:195-385 | when an undisturbed attempt sends Ready, each dispatcher reads the queue stored for it with the host, port, user and password of the secret, the MQTT one publishes to an exchange that was listed and the other one to amq.topic, and each Service selects its dispatcher's pods |
| `MqttTriggerContents.QueuesDiffer` | pkg/event/constants.go:19-25 | the two dispatchers read different queues |
| `MqttTriggerContents.TopicsGoToTheDispatcher` | pkg/event/event.go:90-117 | every MQTT binding of every interface leads to the queue the MQTT dispatcher reads |
| `MqttTriggerContents.NewAreLabelled` | internal/controller/core/mqtttrigger_controller.go:215-385 | deployments and Services that were not there get the label of their dispatcher, queues none |
| `MqttTriggerRuns.SuccessMeansAllOrGone` | internal/controller/core/mqtttrigger_controller.go:54-86 | success means all six were written, or none after the trigger itself was read and found gone |
| `MqttTriggerResult.ResultOfReconcile` | internal/controller/core/mqtttrigger_controller.go:54-86 | in every run that ends: success only if the trigger is gone or Ready was written; an error is that of reading the trigger or of writing Ready, or that of a failing call or the lack of an exchange, and then Error was sent; it never panics |
| `MqttTriggerSharing.OneSecretOneExchange` | internal/controller/core/mqtttrigger_controller.go:92-113 | while the store holds one such secret and one matching exchange, a read sees exactly these |
| `MqttTriggerSharing.FixedMeansAllSee` | internal/controller/core/mqtttrigger_controller.go:92-113 | as long as others keep them, a whole attempt sees nothing else, since it writes neither itself |
| `MqttTriggerSharing.SharingConverges` | internal/controller/core/mqtttrigger_controller.go:154-385 | for one secret and one exchange, once some attempt wrote all six, they keep these specs through all attempts of all triggers of the namespace, failed and crashed ones included |
| `MqttTriggerSharing.FirstCreatorStaysOwner` | internal/controller/core/mqtttrigger_controller.go:154-192 | an object keeps its metadata for good, and its one owner is the trigger, by kind, name and uid, that the attempt that created it had read |
| `MqttTriggerProgress.SmoothWritesAllSix` | internal/controller/core/mqtttrigger_controller.go:54-151 | an attempt that is alone and answered, on a store with the trigger, the secret and an exchange, ends with all six written, success, and phase Ready stored |
| `MqttTriggerProgress.CanGetReady` | internal/controller/core/mqtttrigger_controller.go:54-151 | from every such store there is such an attempt |
| `Interleaving.CallsCommute` | internal/controller/dtd/twininterface_controller.go:83-231 | two calls that write nothing the other touches can be swapped: same answers, same store; a listing by trigger does not touch an object that carries no trigger label |
| `Interleaving.InterleavingsSort` | internal/controller/dtd/twininterface_controller.go:83-231 | any interleaving of pairwise independent attempts can be sorted into any order of the attempts |
| `NonInterference.CallsStayWithin` | internal/controller/core/mqtttrigger_controller.go:88-151 | however calls interleave, every attempt stays within the keys of its resource |
| `NonInterference.OtherControllersSpareBindings` | internal/controller/core/mqtttrigger_controller.go:88-151 | no call of the EventStore, Visualisation and MQTTTrigger reconciles changes any Binding, so for those the fleet theorems hold beside these controllers |
| `NonInterference.NoInterference` | internal/controller/core/eventstore_controller.go:73-130 | attempts of any controllers, none writing what another may touch: every interleaving ends where running them one after the other ends, in any order |
| `NonInterference.TwoAttempts` | internal/controller/core/visualisation_controller.go:72-123 | for two attempts: the interleaving is the first one's undisturbed run followed by the second one's, each with its own calls and answers |
| `WhoIsApart.StartsAreBound` | internal/controller/core/eventstore_controller.go:73-75 | every reconcile of all four resources starts in a state to which the non-interference theorems apply |
| `WhoIsApart.EventStoreVisualisationApartIff` | pkg/visualisation/visualisation.go:137-166 | an EventStore and a Visualisation are apart exactly if namespace or name differ |
| `WhoIsApart.InterfacePairApartIff` | internal/controller/dtd/twininterface_controller.go:91-147 | an interface and a pair n, n-trigger meet exactly if the interface has a service and its name is n or n-trigger in that namespace, or the pair is the event store it reads |
| `WhoIsApart.InterfacesApartIff` | internal/controller/dtd/twininterface_controller.go:83-231 | two interfaces are apart exactly if they differ, want no child of one key, and neither is the event store the other reads |
| `WhoIsApart.MqttInterfaceApartIff` | internal/controller/core/mqtttrigger_controller.go:195-313 | an MQTTTrigger and an interface are apart exactly if the namespaces differ or the trigger's two queues are among the keys taken to carry no trigger label |
| `WhoIsApart.MqttBesideInterface` | internal/controller/core/mqtttrigger_controller.go:154-166 | in one namespace, with no trigger label on those queues at the start, every interleaving of the two reconciles is the one's undisturbed run followed by the other's |
| `WhoIsApart.MqttIsApartFromPairs` | internal/controller/core/mqtttrigger_controller.go:195-385 | an MQTTTrigger is apart from every EventStore and Visualisation |
| `WhoIsApart.MqttsApartIff` | internal/controller/core/mqtttrigger_controller.go:195-385 | two MQTTTriggers are apart exactly if the namespaces differ |
| `WhoIsApart.GoodNamesAreApartIff` | pkg/event/event.go:72-218 | different interfaces with names free of '-' are apart exactly if neither is the event store the other reads |
| `Names.SameKeyIff` | pkg/event/event.go:72-218 | for all names: two bindings get the same key exactly if namespace and family agree and, up to letter case, either both have the interface's name alone and it is the same, or the one interface name is the other with '-' and the other's relationship or command appended, or both names are the same, or a part next to a '-' has moved from the one's interface name to the other's relationship or command name |
| `Names.DashFreeSameKeyIff` | pkg/event/event.go:72-218 | for names without '-', only the same child of the same interface, up to letter case |
| `Names.AllBindingsDiffer` | pkg/event-store/eventStore.go:238 | for any set of such interfaces with distinct relationship and command names all binding names are pairwise distinct |
| `Names.DashesCollide` | pkg/event/event.go:101 | interface a with relationship r and interface a-r claim the same binding, for all a and r |
| `Amqp.LiteralThenHash` | pkg/event/event.go:93 | topic matching of literal words and a final '#' is exactly "starts with these words" |
| `Routing.TopicsAreExactIff` | pkg/event/event.go:66-129 | the keys that reach the dispatcher's queue are exactly those that start with the words of twinscale.real.N for an announced name N (an interface name or aggregated target) if and only if every announced name starts with the words of an announced name without wildcards |
| `Routing.ReachesDispatcherIff` | pkg/event/event.go:66-129 | under that condition, this for each single key |
| `Routing.DotFreeTopics` | pkg/event/constants.go:6 | for announced names that are dot-free and meet that condition, every key under twinscale.real.J reaches the dispatcher exactly if J is announced |
| `Routing.DotFreeTopic` | pkg/event/constants.go:6 | under that condition twinscale.real.J itself does so, for dot-free J, even if other names have dots |
| `Routing.WildcardTakesAll` | pkg/event/event.go:122 | with an announced '#', the event of every dot-free name that is not announced reaches the dispatcher all the same |
| `Routing.QueueReceivesIff` | pkg/event/event.go:131-251 | whatever other interfaces there are, the queue of an interface receives through the bindings exactly its own commands and the real events of its aggregated targets |
| `Routing.EventStoreReceivesIff` | pkg/event-store/eventStore.go:234-275 | the event-store queue receives through the event-store bindings exactly the event-store events of the interfaces |
| `Routing.SameCommandTypeIff` | pkg/event/constants.go:16 | for all names, two commands share an event type exactly if they are the same command, or a dotted part has moved from the end of the one's interface name to the front of the other's command name |
| `Routing.CommandsAreIsolated` | pkg/event/event.go:209-251 | for dot-free interface names an event passes only the command binding of its own interface and command, and no real event passes any |
| `Routing.DotsMixCommands` | pkg/event/event.go:225 | command c of interface i.m and command m.c of interface i receive each other's events |
| `Routing.TriggerPassesIff` | pkg/event/event.go:174-207 | there is a trigger exactly for an interface with a service, and it hands that service exactly the interface's own real events |

## Left out

- The Kubernetes client, caches, watches, resource versions and leader election: an update conflict is one of the failing calls.
- Status subresource of TwinInterface: its final update is a whole-object update, as the code sends it; what the server keeps of it is not modelled. For MQTTTrigger the status update changes the phase only.
- `Reconcile` of TwinInterface, EventStore and Visualisation: each gets the resource and calls the function modelled here. The one of MQTTTrigger is modelled whole.
- `TwinInstanceReconciler`: it reads and returns.
- pkg/historical-data-store and its controller: the same shape as EventStore with a secret check in front.
- Defaulting and webhooks of Knative and RabbitMQ: the store keeps objects as sent, or with empty maps dropped.
- Nil URLs inside an address: a broker without an address is modelled and panics, but an address without a URL, and an event-store service without one, read as the empty string; what the library does on a nil URL is not modelled.
- API objects as values: a merge returns the changed object instead of changing its argument, and the shared Env slices of containers are not aliased.
- Resource quantities and requirements: rendered strings, compared as a whole.
- Ports, probes, image settings and environment constants beyond the fields listed in `Resources`.
- The local-registry switch of container images (ENV=local).
- `strings.ToLower` beyond ASCII letters: resource names are ASCII.
- Command specifications other than the name, and interface specifications other than relationships, commands and service.
- JSON bytes of `MarshalJson` and of binding arguments: the settings list and the argument map are modelled instead. `UnmarshalJson` is an empty stub.
- The HTTP handler, `PrintGraph` and logging.
- `NewTwinInstanceGraph`, which starts from a given map: nothing calls it.
- `GetBrokerBindings` of pkg/visualisation: no controller calls it.
- An MQTTTrigger beside an interface of its namespace when one of its two queues was there before with a trigger label: the interface may list it, so the order of the two matters and no theorem covers it.
