# Verified models of the CARDAMOM component runtime and its neighbours

These modules model parts of the CARDAMOM middleware in Dafny and prove what
those parts promise: the component runtime behind CORBA components and homes,
three ownership and hand-off protocols, the event administration console, the
loader of event channel profiles, and the registry of home allocators.

Run `dafny verify dfyconfig.toml` in this directory to check everything.

## How the model is laid out

Code that changes state in place is a class whose methods are proved against
functions on values; the properties over several calls, whole runs and all
interleavings are lemmas about those functions.

| file | contents |
|---|---|
| `Text.dfy`, `Outcomes.dfy` | splitting and joining, decimal texts, the order of strings, results |
| `Identifiers.dfy`, `ObjectIds.dfy`, `Cookies.dfy` | the wrapping counter, the texts made from it, the printer and splitter of object ids, the order of cookies |
| `Components.dfy`, `PortInvariants.dfy`, `CCMObject.dfy` | the ports of a component: operations on values, what they keep and undo, the servant class |
| `Homes.dfy`, `CCMHome.dfy` | looking up and releasing servants by textual object id, the home class, plain and fault tolerant |
| `PortViews.dfy`, `PortAnswers.dfy` | what the clients of a component can tell from their requests and answers, and each answer exactly |
| `PortRefusals.dfy` | when an operation of a component is refused or does not return, exactly |
| `OperationEffects.dfy`, `Lifecycle.dfy`, `Dispatch.dfy` | what one operation makes and holds, home, adapter and servants as one machine, its invariant, and what the home answers in every reachable state |
| `StrandedEntries.dfy`, `LocalCalls.dfy` | what a refused call leaves for good, and when the calls an operation makes on its component's own objects are refused |
| `UniqueServants.dfy`, `HomeRemoval.dfy` | no servant active twice, and the loop that removes a home |
| `AdapterServants.dfy`, `Delivery.dfy` | the servants the adapter keeps active, and where requests and releases go in every reachable state |
| `AdapterEffects.dfy`, `RetiredCookies.dfy` | what each request activates and deactivates, and what never comes back |
| `ValueTypes.dfy` | the value-type registry of non-owning pointers |
| `ProcessControls.dfy` | the intrusive reference count and its handle |
| `InitHandOff.dfy` | threads waiting for the end of initialisation |
| `Profiles.dfy`, `Scanning.dfy`, `AdminConsole.dfy`, `ProfileText.dfy` | the console: command search, line splitting, profile parser and printer |
| `ProfileLoader.dfy`, `ProfileDocuments.dfy` | profiles loaded from the configuration document, the manager that keeps them, and what is read in terms of the document alone |
| `HomeAllocators.dfy` | installing homes and disposing of them |

## The main chain

A component's object id and every cookie are `seconds:microseconds:counter`
texts. `Identifiers.dfy` shows that up to 2^32 draws these texts differ
whatever the clock does, and exactly when they repeat afterwards.
`ObjectIds.dfy` shows that the splitter undoes the printer exactly on
slash-free parts. `PortInvariants.dfy` shows what every operation of a
component keeps, so that the next cookie is always new and a publisher's
cookies and its channel's proxies correspond one to one. `PortViews.dfy` shows
that the requests and their answers alone tell who is connected where and where
the events go. `Lifecycle.dfy` adds
the home's map and a retaining object adapter and proves one invariant over all
their steps. `Dispatch.dfy` concludes for every reachable state: the object id
of a live local push consumer is decoded to exactly its servant, no other text
is decoded to it, a removed component is never looked up again, and the
assertions in the lookup hold for every object id that was handed out. Facets
and sinks are decoded to their port exactly when their names are clean. From one
request to the next: a new component reference is served on its first request, a
new subscription from the return of subscribe, and no longer from the return of
unsubscribe.

The home is asked only for object ids that are not active. `Delivery.dfy` adds
what the adapter does with the others: the servant active for a publisher's
cookie is always the stored one, for an emitter exactly when it is younger than
the component's servant, and a servant is given back exactly while the home
still knows the component. `UniqueServants.dfy` shows that no servant is active
under two object ids. `AdapterEffects.dfy` tells exactly what each request
activates and deactivates, and `RetiredCookies.dfy` that a consumer told to go by
unsubscribe is never active again over any run.

Operations call their component's own consumers and ports while they run, and
such a call goes through the adapter and the home like any other. The machine
asks them for the answer and carries the operation out, or cuts it short,
accordingly. `LocalCalls.dfy` proves when a call on a consumer is refused:
never while the home is there, and afterwards unless the consumer is active.
`StrandedEntries.dfy` proves that what such a refusal leaves is never repaired.

A run may create any number of components and servants, passivate and
reincarnate them, carry out requests on servants already being deactivated, and
remove the home; the clock, servant creation, interface checks and the
channel's answers are arbitrary at every step. The bound of 2^32 identifiers is
the point at which the counter wraps; `StampRunRepeats` shows that it is sharp.
Port names of publishers and emitters are free of `/` and NUL, as IDL
identifiers are.

## What the proofs found

* A consumer that the channel refuses is left in the emitter's entry
  (`RefusalStrands`), and no later request frees it (`StrandedForever`);
  subscribe does undo its entry (`RefusedSubscribe`).
* An exception while either operation narrows its own consumer is never undone
  (`SubscribeStrands`, `NarrowFailureStrandsEmitter`, `EntryAlways`, `StrandedAlways`). It comes exactly once
  the home is removed and the consumer is not active (`CallRefusedIff`,
  `SubscribeRefusedIff`), as in the runs `NarrowRaisesInSubscribe` and
  `NarrowRaisesInConnect`: a component that outlives its home is left with entries
  and channels that disagree (`OrphanSubscribes`, `OrphanConnects`). The rest of
  the port invariant survives (`ReachablePorts`).
* A consumer that is told to go and refuses leaves its entry behind for good
  (`UnsubscribeStrands`, `DisconnectFailureStrands`).
* The loop that removes a home keeps its iterator valid exactly when no component
  is etherealized within its own remove (`AllAskedIff`, `SelfErased`).
* A subscription that the channel refuses leaves the consumer made for it active in
  the adapter, although its entry is undone (`SubscribedIsActive`).
* Removing a fault-tolerant home leaves the groups of its components behind
  (`RemoveHomeStrandsGroups`).
* Releasing a servant raises, before its reference is dropped, exactly when the
  home no longer knows the component its object id names (`ReleaseRaisesIff`):
  after the home was removed (`RaisesAfterHome`), and in a home that was not,
  for a port released after its removed component (`RaisesWithHome`).
* A component that is passivated and incarnated again while a consumer of an
  emitter is active leaves that consumer in place of the one connected next
  (`ReincarnationDiverts`, `DivertsReached`); cookies of publishers are safe from
  this (`PublisherDelivered`).
* `configuration_complete` differs from a check of simplex receptacles exactly
  when a multiplex one alone is unconnected (`StricterThanSimplexIff`,
  `UnusedMultiplexRefused`).
* A cookie with a NUL octet given to `disconnect` or `unsubscribe` meets a
  comparison that is declared to throw nothing and throws, which ends the
  process, exactly when the port has an entry to compare it with
  (`DisconnectTerminatesIff`, `UnsubscribeTerminatesIff`, with
  `NulCookieDisconnects` and `NulCookieUnsubscribes` as runs that do).
* An installation between the last drop of a registration and its destructor
  returns a registration whose entry is about to go (`InstallSoundIff`,
  `WindowDangles`). A library without the entry point stays open
  (`MissingEntryPointLeaks`). Other code that replaces an installed factory has
  its own unregistered in the end (`ReplaceSoundIff`, `RemoveSoundIff`,
  `ReplacedIsUnregistered`). A successful installation need not leave a factory
  in the ORB (`InstalledInTableIff`, `InstalledWithoutFactory`).
* Assigning a handle the pointer it holds itself loses a count
  (`AssignRawBalancedIff`); the count wraps at 2^32 holders
  (`AddRefBalancedIff`).
* The profile parser stops at fifty properties without saying so, and with
  exactly fifty it does not check that a URL is among them (`ParsePrinted`).
* A `Property` element without `Name` or `Value` repeats the property before it
  (`PropertyListMeaning`).
* A home whose identifier equals a registered class name takes that class
  name's allocator away when it is disposed of (`ClassNameSurvivesIff`); a home activated without a reference has no
  allocator and its disposal meets the assertion (`EtherealizeFindsAllocator`).

## What stands for the environment

Object references are opaque values that carry the interfaces they answer for.
Proxy suppliers are numbers in the channel that connected them. The object
adapter is the set of steps that incarnate, deactivate and etherealize object
ids. The clock, the answers of generated code and executors, the event channel,
the loader, the naming service and the ORB's factory table are parameters of
each step. Exceptions are values. Mutex-guarded code is one step.

## Model

| member | source | states |
|---|---|---|
| `Dispatch.DispatchFinds` | CCMContainer/ccmcif/c++/src/CCMHome_impl.cpp:335-429 | in every reachable state of a home, the object id made for a live local push consumer is decoded to exactly the servant stored for that component, source and cookie |
| `Dispatch.DispatchFindsOnly` | CCMContainer/ccmcif/c++/src/CCMHome_impl.cpp:341-419 | conversely, an object id decoded to a local push consumer is the one made for it: no other cookie, and never a publisher entry for an emitter or the reverse |
| `Dispatch.DispatchInjective` | CCMContainer/ccmcif/c++/src/CCMHome_impl.cpp:341-419 | two object ids decoded to the same local push consumer are the same text |
| `Dispatch.NarrowDuringSubscribe` | CCMContainer/ccmcif/c++/src/CCMObject_impl.cpp:856-881 | subscribe inserts its entry before narrowing because the narrow looks the consumer up: at that point the new object id is already decoded to the new servant |
| `Dispatch.FirstRequestServes` | CCMContainer/ccmcif/c++/src/CCMHome_impl.cpp:373-393 | in every reachable state with identifiers left, the first request on a component reference just made is served by a new component servant of that component |
| `Dispatch.SubscribedIsServed` | CCMContainer/ccmcif/c++/src/CCMObject_impl.cpp:841-902 | once subscribe returned for a subscriber that takes no pushed events itself, the object id of its local consumer is decoded to the servant just made |
| `Dispatch.UnsubscribedIsRefused` | CCMContainer/ccmcif/c++/src/CCMObject_impl.cpp:929-958 | once unsubscribe returned, the object id that stood for the cookie is refused, even before its servant is etherealized |
| `RetiredCookies.UnsubscribedForever` | CCMContainer/ccmcif/c++/src/CCMObject_impl.cpp:929-958 | over any run after an unsubscribe that is done, the consumer made for the cookie is never active again and never found again: at most it is still to be etherealized |
| `RetiredCookies.RetiredForever` | CCMContainer/ccmcif/c++/src/CCMObject_impl.cpp:929-958 | the same for any consumer whose cookie is no longer in use and which is not active |
| `RetiredCookies.NextRetired` | CCMContainer/ccmcif/c++/src/CCMHome_impl.cpp:324-429 | each step of the machine keeps it so |
| `AdapterEffects.UnsubscribedGoes` | CCMContainer/ccmcif/c++/src/CCMObject_impl.cpp:942-953 | an unsubscribe that is done deactivates the consumer made for the cookie, and nothing else; where the subscriber takes the events itself nothing at all |
| `AdapterEffects.DisconnectedGoes` | CCMContainer/ccmcif/c++/src/CCMObject_impl.cpp:1098-1113 | a disconnect_consumer that is done does the same to the consumer made for the emitter |
| `AdapterEffects.RemovedGoes` | CCMContainer/ccmcif/c++/src/CCMObject_impl.cpp:204-243 | a remove that is done deactivates the component and, unless it is monolithic, each of its facets and sinks, and nothing else |
| `AdapterEffects.CutShortGoes` | CCMContainer/ccmcif/c++/src/CCMObject_impl.cpp:204-243 | a remove cut short deactivates exactly the ports told before the refusal, and the component stays |
| `AdapterEffects.SubscribedIsActive` | CCMContainer/ccmcif/c++/src/CCMObject_impl.cpp:856-883 | a subscribe that comes so far activates the new servant under the object id of its cookie, even when the channel then refuses, exactly where the subscriber takes no pushed events itself |
| `AdapterEffects.ConnectedIsActive` | CCMContainer/ccmcif/c++/src/CCMObject_impl.cpp:1019-1038 | connect_consumer does the same under the object id of the emitter, unless that one is still in the adapter |
| `AdapterEffects.OthersStay` | CCMContainer/ccmcif/c++/src/CCMObject_impl.cpp:519-1695 | no other request changes the adapter, and none but a declared facet or sink hands out a reference |
| `AdapterEffects.IncarnatedExactly` | CCMContainer/ccmcif/c++/src/CCMHome_impl.cpp:324-458 | asking the home for a servant activates exactly what it finds, or the new component servant that it then knows, and changes nothing otherwise |
| `AdapterEffects.PassivatedGoes` | CCMContainer/ccmcontainer/c++/src/Session2Context_impl.cpp:520-546 | passivation deactivates its object id alone, and a request that reaches no component servant changes nothing |
| `AdapterEffects.EtherealizedLeaves` | CCMContainer/ccmcontainer/c++/src/Session2Context_impl.cpp:97-111 | etherealization takes just the object id that was deactivated out of the adapter, whatever the home answers |
| `AdapterEffects.FailedStays` | CCMContainer/ccmcif/c++/src/CCMObject_impl.cpp:519-1695 | nor does any request that fails for another reason than the refusal of a channel |
| `Dispatch.FacetServedIff` | CCMContainer/ccmcif/c++/src/CCMHome_impl.cpp:395-405 | the object id handed out for a facet or sink of a live component that is not monolithic, cut at a NUL, is decoded to that port exactly when the port name is free of slash and NUL |
| `Dispatch.FacetServedOnly` | CCMContainer/ccmcif/c++/src/CCMHome_impl.cpp:395-405 | conversely, a text decoded to a port of a component servant is the object id made for that live component and declared port |
| `Delivery.PublisherDelivered` | CCMContainer/ccmcontainer/c++/src/Session2Context_impl.cpp:88-95 | in every reachable state a servant the adapter holds for the cookie of a live publisher entry is the one that entry stores |
| `Delivery.EmitterDeliveredIff` | CCMContainer/ccmcif/c++/src/CCMObject_impl.cpp:1019-1038 | a servant active for the consumer of a live emitter is the one the emitter stores exactly when it was made after the servant of the component |
| `Delivery.ReincarnationDiverts` | CCMContainer/ccmcif/c++/src/CCMHome_impl.cpp:373-393 | after passivation, etherealization and reincarnation of the component, an emitter connected again stores a new consumer while the adapter keeps the old one active |
| `Delivery.DivertsReached` | CCMContainer/ccmcif/c++/src/CCMHome_impl.cpp:373-393 | a run from the start in which this happens |
| `Delivery.ReincarnatedServes` | CCMContainer/ccmcontainer/c++/src/Session2Context_impl.cpp:88-111 | a component passivated and etherealized is served by a new servant on its next request, and what else was active stays active |
| `Delivery.ReleaseRaisesIff` | CCMContainer/ccmcif/c++/src/CCMHome_impl.cpp:493-503 | releasing any servant the adapter holds raises, before the reference is dropped, exactly when the component named by the object id is no longer in the component map, whether or not the home was removed |
| `Delivery.HomeRemovedFirst` | CCMContainer/ccmcif/c++/src/CCMHome_impl.cpp:497-503 | so it does for the consumer of an emitter of any served component once the home is removed |
| `Delivery.ComponentRemovedFirst` | CCMContainer/ccmcif/c++/src/CCMHome_impl.cpp:497-526 | and with the home in place once the component was removed, its ports answering, and etherealized before that consumer |
| `Delivery.RaisesAfterHome` | CCMContainer/ccmcif/c++/src/CCMHome_impl.cpp:497-503 | a run from the start that meets the first |
| `Delivery.RaisesWithHome` | CCMContainer/ccmcif/c++/src/CCMHome_impl.cpp:497-526 | a run from the start that meets the second |
| `Delivery.ReachableServed` | CCMContainer/ccmcontainer/c++/src/Session2Context_impl.cpp:88-111 | the invariant relating the active servants to the stored ones holds in every reachable state |
| `AdapterServants.NextServed` | CCMContainer/ccmcontainer/c++/src/Session2Context_impl.cpp:88-111 | each step of the machine keeps that invariant |
| `AdapterServants.EmitterKept` | CCMContainer/ccmcif/c++/src/CCMObject_impl.cpp:1000-1113 | an operation keeps the consumer servant of an emitter unless it deactivates it |
| `Dispatch.RemovedNeverServed` | CCMContainer/ccmcif/c++/src/CCMHome_impl.cpp:358-371 | once the remove of a component succeeded, looking up any object id of it, its own or one of its ports, is refused |
| `Dispatch.IssuedNeverAsserts` | CCMContainer/ccmcif/c++/src/CCMHome_impl.cpp:400-411 | for every object id a home or a component ever handed out, the assertions on the component servant hold in lookup, and those on the servant hold in release |
| `Dispatch.AssertsIff` | CCMContainer/ccmcif/c++/src/CCMHome_impl.cpp:395-411 | over all object ids the assertion is met exactly by a port of a component known to the home and never incarnated |
| `Dispatch.RemovedForever` | CCMContainer/ccmcif/c++/src/CCMHome_impl.cpp:358-371 | and so in every state that any later run reaches |
| `Dispatch.LookupAnswers` | CCMContainer/ccmcif/c++/src/CCMHome_impl.cpp:335-429 | over all object ids and states, when a component is created and for which of the three reasons any other object id is refused |
| `Dispatch.ReleaseAnswers` | CCMContainer/ccmcif/c++/src/CCMHome_impl.cpp:485-556 | over all object ids and servants, when a release raises which error, drops the reference and forgets the component |
| `Dispatch.EtherealizeForgets` | CCMContainer/ccmcif/c++/src/CCMHome_impl.cpp:509-528 | etherealizing a component forgets it, and its group, exactly when it was removed; a passivated one stays known |
| `Dispatch.RemovedHome` | CCMContainer/ccmcif/c++/src/CCMHome_impl.cpp:497-503 | after the home is removed, one of the two cases of Delivery.ReleaseRaisesIff, every lookup is refused and every release raises |
| `Dispatch.CreateAdds` | CCMContainer/ccmcif/c++/src/CCMHome_impl.cpp:689-692 | within the first 2^32 identifiers creating a component reference adds exactly one entry, its own, to the component map and hands that reference out |
| `Dispatch.GroupsAligned` | CCMContainer/ccmcif/c++/src/FTCCMHome_impl.cpp:168-204 | in every reachable state of a fault-tolerant home each live component has a group, and until the home is removed the two maps have the same keys |
| `Dispatch.GroupForever` | CCMContainer/ccmcif/c++/src/FTCCMHome_impl.cpp:122-204 | over any run the group found for a component is the one given when it was created, or none |
| `Dispatch.RemoveHomeStrandsGroups` | CCMContainer/ccmcif/c++/src/CCMHome_impl.cpp:253-254 | removing the home keeps the maps aligned exactly when no component was left, because only the component map is cleared |
| `Dispatch.ReachablePorts` | CCMContainer/ccmcif/c++/src/CCMObject_impl.cpp:519-1124 | in every reachable state every component servant keeps the port invariant, with channels that agree with the entries while the home is there, and without that agreement once it is removed and calls on own consumers may be refused |
| `LocalCalls.CallFoundIff` | CCMContainer/ccmcif/c++/src/CCMObject_impl.cpp:856-883 | in every reachable state the servant an operation other than remove needs of its own consumer is found by the home exactly while the home is there |
| `LocalCalls.CallRefusedIff` | CCMContainer/ccmcif/c++/src/CCMObject_impl.cpp:841-1113 | so such an operation is refused the call exactly when the home was removed and the consumer called is not active |
| `LocalCalls.SubscribeRefusedIff` | CCMContainer/ccmcif/c++/src/CCMObject_impl.cpp:841-883 | the narrow inside subscribe raises exactly when the home was removed and the subscriber needs a consumer made for it |
| `LocalCalls.UnsubscribeRefusedIff` | CCMContainer/ccmcif/c++/src/CCMObject_impl.cpp:942-953 | the call inside unsubscribe is refused exactly when the home was removed, a consumer was made for the cookie and it is no longer active |
| `LocalCalls.DisconnectRefusedIff` | CCMContainer/ccmcif/c++/src/CCMObject_impl.cpp:1098-1107 | the same inside disconnect_consumer |
| `LocalCalls.ConnectRefusedIff` | CCMContainer/ccmcif/c++/src/CCMObject_impl.cpp:1019-1038 | the narrow inside connect_consumer raises exactly when the home was removed, a consumer has to be made and none is active for the emitter |
| `LocalCalls.RemoveRefusedIff` | CCMContainer/ccmcif/c++/src/CCMObject_impl.cpp:204-243 | once the home was removed a component refuses to be removed exactly when it is not monolithic and some facet or sink of it is not active |
| `LocalCalls.RemoveAnswered` | CCMContainer/ccmcif/c++/src/CCMObject_impl.cpp:204-243 | while the home is there the remove of a component with clean port names is answered by all of its ports |
| `LocalCalls.OrphanSubscribes` | CCMContainer/ccmcif/c++/src/CCMObject_impl.cpp:841-883 | in every reachable state in which the home is removed around an active component, a subscribe that needs a consumer leaves an entry the channel knows nothing of |
| `LocalCalls.OrphanConnects` | CCMContainer/ccmcif/c++/src/CCMObject_impl.cpp:1012-1038 | and a connect_consumer that does, with no consumer still active there, leaves the emitter stranded |
| `LocalCalls.NarrowRaisesInSubscribe` | CCMContainer/ccmcif/c++/src/CCMObject_impl.cpp:841-883 | a run from the start that ends in the first |
| `LocalCalls.NarrowRaisesInConnect` | CCMContainer/ccmcif/c++/src/CCMObject_impl.cpp:1012-1038 | a run from the start that ends in the second |
| `Lifecycle.AnsweredAtHome` | CCMContainer/ccmcif/c++/src/CCMObject_impl.cpp:856-883 | while the home is there no call on a local consumer is refused, in any state that keeps the invariant |
| `OperationEffects.DuringHolds` | CCMContainer/ccmcif/c++/src/CCMObject_impl.cpp:856-866 | at the call the servant called is stored for the source and cookie its object id names |
| `UniqueServants.ServantsUnique` | CCMContainer/ccmcontainer/c++/src/Session2Context_impl.cpp:349-350 | in every reachable state no servant is active under two object ids, as the policy of unique ids demands |
| `UniqueServants.NextUnique` | CCMContainer/ccmcontainer/c++/src/Session2Context_impl.cpp:349-350 | each step of the machine keeps the invariant behind this |
| `HomeRemoval.AllAskedIff` | CCMContainer/ccmcif/c++/src/CCMHome_impl.cpp:218-254 | the loop over the components asks them in ascending order; its iterator stays valid exactly when no call erases the entry asked, and every component is asked exactly when no call erases that entry or one still to come |
| `HomeRemoval.WalkFromMeaning` | CCMContainer/ccmcif/c++/src/CCMHome_impl.cpp:222-251 | the same from any entry on |
| `HomeRemoval.AskComponents` | CCMContainer/ccmcif/c++/src/CCMHome_impl.cpp:220-251 | the loop with its iterator meets that specification, the invalid iterator included |
| `HomeRemoval.SelfErased` | CCMContainer/ccmcif/c++/src/CCMHome_impl.cpp:220-251 | a component that is etherealized within its own remove leaves the iterator invalid |
| `Dispatch.CookiesNameOnePort` | CCMContainer/ccmcommon/c++/src/Cookie_impl.cpp:72-89 | a cookie in use names one port of one component servant, whatever the clock did, and is no object id of a component |
| `Dispatch.RunKeepsInv` | CCMContainer/ccmcif/c++/src/CCMHome_impl.cpp:324-569 | the invariant of home, adapter and servants holds after any run of creations, incarnations, requests whose calls on own objects are answered or refused as the home and the adapter have it, passivations, etherealizations and home removal |
| `Lifecycle.NextKeeps` | CCMContainer/ccmcif/c++/src/CCMHome_impl.cpp:324-717 | each step of that machine keeps the invariant |
| `Lifecycle.CreateKeeps` | CCMContainer/ccmcif/c++/src/CCMHome_impl.cpp:665-711 | a new component reference keeps it: the id is fresh, known to no servant and equal to no live cookie |
| `Lifecycle.IncarnateKeeps` | CCMContainer/ccmcontainer/c++/src/Session2Context_impl.cpp:88-95 | so does asking the home for a servant, including the replacement of the servant of a passivated component |
| `Lifecycle.RequestKeeps` | CCMContainer/ccmcif/c++/src/CCMObject_impl.cpp:160-1124 | so does any operation on any component servant that is active or being deactivated, cut short by an exception where a call on its own objects is refused |
| `Lifecycle.EtherealizeKeeps` | CCMContainer/ccmcontainer/c++/src/Session2Context_impl.cpp:97-111 | so does the etherealization of a deactivated servant, released or still active for others |
| `Lifecycle.PassivateKeeps` | CCMContainer/ccmcontainer/c++/src/Session2Context_impl.cpp:520-546 | so does a request to passivate |
| `Lifecycle.RemoveHomeKeeps` | CCMContainer/ccmcif/c++/src/CCMHome_impl.cpp:253-268 | so does the removal of the home |
| `OperationEffects.ApplyHolds` | CCMContainer/ccmcif/c++/src/CCMObject_impl.cpp:863-882 | an operation puts its new consumer servant in the one place made for it and moves no other |
| `OperationEffects.ApplyCookies` | CCMContainer/ccmcif/c++/src/CCMObject_impl.cpp:570-574 | an operation brings at most one new cookie into use, the one it drew, at the port it was called for |
| `OperationEffects.RequestIssues` | CCMContainer/ccmcif/c++/src/CCMObject_impl.cpp:1389-1552 | every object id an operation hands out has the component as its first piece, and a local consumer has more than one piece |
| `Homes.LocalPushConsumerHolds` | CCMContainer/ccmcif/c++/src/CCMObject_impl.cpp:1767-1847 | the lookup inside a component finds a servant exactly where that servant is stored |
| `HomeObjects.CCMHome.CreateComponentRef` | CCMContainer/ccmcif/c++/src/FTCCMHome_impl.cpp:122-176 | draws one object id, inserts it into the component map and in a fault-tolerant home its group into the group map; every refusal leaves both maps alone |
| `HomeObjects.CCMHome.LookupServant` | CCMContainer/ccmcif/c++/src/CCMHome_impl.cpp:324-458 | in place: the component servant is created and stored only for a component object id; every other answer leaves the map as it was |
| `HomeObjects.CCMHome.ReleaseServant` | CCMContainer/ccmcif/c++/src/CCMHome_impl.cpp:473-569 | in place: the component is deleted exactly when its own servant is released after a remove |
| `HomeObjects.CCMHome.DeleteComponentInfo` | CCMContainer/ccmcif/c++/src/FTCCMHome_impl.cpp:178-185 | forgets the group, in a fault-tolerant home, and the component |
| `HomeObjects.CCMHome.FindComponentGroup` | CCMContainer/ccmcif/c++/src/FTCCMHome_impl.cpp:187-204 | the group of a component, or OBJECT_NOT_EXIST |
| `HomeObjects.CCMHome.ClearForRemoval` | CCMContainer/ccmcif/c++/src/CCMHome_impl.cpp:253-271 | clears the component map and leaves the group map |
| `Identifiers.IdentifierCounter.CreateIdentifier` | CCMContainer/ccmcommon/c++/src/CCMUtils.cpp:45-63 | the n-th call returns n mod 2^32 |
| `Identifiers.IdentifierCounter.CreateUniqueIdentifier` | CCMContainer/ccmcommon/c++/src/CCMUtils.cpp:65-82 | draws one identifier and returns prefix, underscore and the number, zero filled only for a positive width |
| `Identifiers.UniqueTextInjective` | CCMContainer/ccmcommon/c++/src/CCMUtils.cpp:65-82 | that text determines prefix and number, whatever the prefix holds and for every width |
| `Identifiers.IdentifierCounter.CreateStamp` | CCMContainer/ccmcommon/c++/src/Cookie_impl.cpp:72-89 | draws one identifier and prints seconds, microseconds and the number |
| `Identifiers.StampsCollide` | CCMContainer/ccmcommon/c++/src/Cookie_impl.cpp:76-85 | two such texts are equal exactly when the clock readings are equal and the draws lie a multiple of 2^32 apart |
| `Identifiers.StampRunDistinct` | CCMContainer/ccmcontainer/c++/src/Session2Context_impl.cpp:418-436 | up to 2^32 draws all texts differ, whatever the clock does |
| `Identifiers.StampRunRepeats` | CCMContainer/ccmcommon/c++/src/CCMUtils.cpp:50-59 | one draw more with the clock standing still repeats the first text |
| `Identifiers.StampCharacters` | CCMContainer/ccmcontainer/c++/src/Session2Context_impl.cpp:429-432 | the text holds no slash and no NUL and always a colon, so it is never the emitter mark |
| `Identifiers.StampDraw` | CCMContainer/ccmcommon/c++/src/Cookie_impl.cpp:76-85 | the text tells which of the first 2^32 draws made it |
| `Identifiers.StampPrinted` | CCMContainer/ccmcommon/c++/src/Cookie_impl.cpp:76-85 | the text of one clock reading and draw, seconds first |
| `Identifiers.UniqueTextPrinted` | CCMContainer/ccmcommon/c++/src/CCMUtils.cpp:65-82 | the text of one prefix and number, filled with zeros and not |
| `ObjectIds.ReadOid` | CCMContainer/ccmcif/c++/src/CCMUtils.cpp:70-90 | for every text: a non-empty list of slash-free pieces that rejoin to the text; the shrinking prefix ends the loop |
| `ObjectIds.ReadCreateLocal` | CCMContainer/ccmcif/c++/src/CCMUtils.cpp:51-64 | component, port and cookie are read back exactly when none of the three holds a slash |
| `ObjectIds.ReadCreateFacet` | CCMContainer/ccmcif/c++/src/CCMUtils.cpp:51-64 | component and port are read back exactly when neither holds a slash |
| `ObjectIds.ComponentPart` | CCMContainer/ccmcif/c++/src/CCMUtils.cpp:51-90 | whatever the port is called, the first piece read back is the component |
| `ObjectIds.ReadTwo` | CCMContainer/ccmcif/c++/src/CCMUtils.cpp:51-90 | a text read as two pieces is the one the printer makes from them |
| `ObjectIds.CutOid` | CCMContainer/ccmcif/c++/src/SessionContext.cpp:59-70 | making a reference from a printed object id cuts its port at the first NUL |
| `ObjectIds.ReadThree` | CCMContainer/ccmcif/c++/src/CCMUtils.cpp:51-90 | a text read as three pieces, the last not empty, is the one the printer makes from them |
| `ObjectIds.OidPrinted` | CCMContainer/ccmcif/c++/src/CCMUtils.cpp:51-64 | the text of one component and port, with and without a cookie |
| `Text.LessMeans` | CCMContainer/ccmcommon/c++/src/Cookie_impl.cpp:118-142 | texts are ordered by the first place in which they differ, a shorter one before a longer that continues it |
| `Cookies.ConversionRoundTrip` | CCMContainer/ccmcommon/c++/src/CCMUtils.cpp:85-116 | the two conversions undo each other exactly on NUL-free text and otherwise cut it |
| `Cookies.ComparableIff` | CCMContainer/ccmcommon/c++/src/Cookie_impl.cpp:118-129 | with NUL-free keys every comparison of a given cookie with a key has an answer exactly when the map is empty or the cookie is NUL-free |
| `Cookies.CookieOrder` | CCMContainer/ccmcommon/c++/src/Cookie_impl.cpp:118-142 | on NUL-free octets the comparison is a strict total order in which only equal values are neither less nor greater |
| `PortInvariants.RunKeeps` | CCMContainer/ccmcif/c++/src/CCMObject_impl.cpp:519-1124 | over any run of operations on a component in which no call on its own objects is refused: simplex receptacles hold at most one connection, every connection and consumer has the interface of its port, and the cookies of each publisher correspond one to one with the proxies connected in its channel; a component that did see a refusal keeps the rest |
| `PortInvariants.ApplyKeeps` | CCMContainer/ccmcif/c++/src/CCMObject_impl.cpp:160-1695 | each single operation keeps that |
| `PortInvariants.SubscribeKeeps` | CCMContainer/ccmcif/c++/src/CCMObject_impl.cpp:841-894 | so does subscribe, whether or not the channel accepts |
| `PortInvariants.UnsubscribeKeeps` | CCMContainer/ccmcif/c++/src/CCMObject_impl.cpp:929-958 | so does unsubscribe |
| `PortInvariants.RefusedSubscribe` | CCMContainer/ccmcif/c++/src/CCMObject_impl.cpp:884-894 | a subscription the channel refuses leaves the component exactly as it was |
| `PortInvariants.ConnectionsConserved` | CCMContainer/ccmcif/c++/src/CCMObject_impl.cpp:519-649 | over any run the connections of a receptacle are those at its start plus the successful connects minus the successful disconnects |
| `PortInvariants.DisconnectUndoesConnect` | CCMContainer/ccmcif/c++/src/CCMObject_impl.cpp:572-642 | disconnecting with what connect just returned succeeds and restores the component exactly |
| `PortInvariants.UnsubscribeUndoesSubscribe` | CCMContainer/ccmcif/c++/src/CCMObject_impl.cpp:841-957 | unsubscribing with the cookie just returned succeeds and restores subscriptions and connected proxies exactly |
| `PortInvariants.SubscribeAdds` | CCMContainer/ccmcif/c++/src/CCMObject_impl.cpp:841-888 | a subscription that succeeds adds one entry for the subscriber given, whose proxy is the newly connected one and delivers to that subscriber, or to a local consumer named after the cookie where it takes no pushed events |
| `PortInvariants.EmitterAgreesIff` | CCMContainer/ccmcif/c++/src/CCMObject_impl.cpp:1012-1049 | after connect_consumer on a free emitter its entry and its channel agree exactly when the channel accepted |
| `PortInvariants.RefusalStrands` | CCMContainer/ccmcif/c++/src/CCMObject_impl.cpp:1040-1049 | a refusal leaves the consumer in the entry with no connected proxy |
| `PortInvariants.StrandedForever` | CCMContainer/ccmcif/c++/src/CCMObject_impl.cpp:1008-1098 | such an emitter never recovers: in every later run each connect and each disconnect on it fails |
| `PortViews.ApplySeen` | CCMContainer/ccmcif/c++/src/CCMObject_impl.cpp:160-1695 | every operation leaves exactly what was connected, subscribed and declared before, changed as the request and its answer tell: the object given, under the cookie answered, at the port named |
| `PortViews.RunSeen` | CCMContainer/ccmcif/c++/src/CCMObject_impl.cpp:160-1695 | so does any run: its requests and answers alone determine who is connected where |
| `PortViews.EventsReach` | CCMContainer/ccmcif/c++/src/CCMObject_impl.cpp:871-888 | the proxies of a publisher deliver to exactly its subscribers, those of an emitter to nobody but its consumer |
| `PortViews.RunDelivers` | CCMContainer/ccmcif/c++/src/CCMObject_impl.cpp:841-958 | so over any run on a new component the requests and answers tell where the events of each publisher go |
| `PortViews.SubscribeCutShort` | CCMContainer/ccmcif/c++/src/CCMObject_impl.cpp:856-883 | a subscribe cut short by its narrow keeps the subscriber given in an entry |
| `PortViews.ConnectCutShort` | CCMContainer/ccmcif/c++/src/CCMObject_impl.cpp:1012-1038 | a connect_consumer cut short keeps the consumer given |
| `PortViews.CutShortKeeps` | CCMContainer/ccmcif/c++/src/CCMObject_impl.cpp:942-956 | an unsubscribe or a disconnect_consumer cut short changes no entry and disconnects its one proxy |
| `PortAnswers.ConnectAnswers` | CCMContainer/ccmcif/c++/src/CCMObject_impl.cpp:519-588 | each answer of connect exactly when: which error for which name, object, interface and room, and a cookie exactly from a multiplex receptacle |
| `PortAnswers.DisconnectAnswers` | CCMContainer/ccmcif/c++/src/CCMObject_impl.cpp:593-649 | each answer of disconnect exactly when |
| `PortAnswers.SubscribeAnswers` | CCMContainer/ccmcif/c++/src/CCMObject_impl.cpp:805-903 | each answer of subscribe exactly when |
| `PortAnswers.UnsubscribeAnswers` | CCMContainer/ccmcif/c++/src/CCMObject_impl.cpp:908-970 | each answer of unsubscribe exactly when; under the port invariant it succeeds for every cookie in use |
| `PortAnswers.ConnectConsumerAnswers` | CCMContainer/ccmcif/c++/src/CCMObject_impl.cpp:975-1061 | each answer of connect_consumer exactly when |
| `PortAnswers.DisconnectConsumerAnswers` | CCMContainer/ccmcif/c++/src/CCMObject_impl.cpp:1066-1124 | each answer of disconnect_consumer exactly when; it succeeds exactly where entry and channel agree, and gives back the consumer connected |
| `PortAnswers.RemoveMeans` | CCMContainer/ccmcif/c++/src/CCMObject_impl.cpp:189-297 | after a remove no event is pushed and no channel or port is kept; nobody is left in the channel of a publisher, that of an emitter keeps its connections, and subscriptions and consumers stay recorded |
| `PortAnswers.ToldMeans` | CCMContainer/ccmcif/c++/src/CCMObject_impl.cpp:211-219 | a port is told to go exactly when it and every port before it in name order answers |
| `PortAnswers.RaisingTells` | CCMContainer/ccmcif/c++/src/CCMObject_impl.cpp:204-243 | facets are told before sinks, and sinks only once every facet answered |
| `PortAnswers.RaisingForgets` | CCMContainer/ccmcif/c++/src/CCMObject_impl.cpp:204-243 | a remove cut short forgets its facets exactly when all of them answered |
| `PortAnswers.DeclareMeans` | CCMContainer/ccmcif/c++/src/CCMObject_impl.cpp:1389-1695 | a port declared is new, has the interface and kind given and nobody connected; which error otherwise |
| `PortAnswers.ConfigurationMeans` | CCMContainer/ccmcif/c++/src/CCMObject_impl.cpp:160-184 | configuration_complete succeeds exactly when every receptacle has a connection, and is recorded then |
| `PortInvariants.FreshCookie` | CCMContainer/ccmcommon/c++/src/Cookie_impl.cpp:72-89 | the next cookie is in no map of the component |
| `PortRefusals.DisconnectTerminatesIff` | CCMContainer/ccmcif/c++/src/CCMObject_impl.cpp:618-630 | over all inputs a disconnect ends the process exactly for a NUL cookie on a multiplex receptacle that has a connection |
| `PortRefusals.UnsubscribeTerminatesIff` | CCMContainer/ccmcif/c++/src/CCMObject_impl.cpp:933-940 | over all inputs an unsubscribe does exactly for a NUL cookie on a publisher that has a subscription |
| `PortRefusals.DisconnectComparesIff` | CCMContainer/ccmcif/c++/incl/CCMObject_impl.hpp:46-58 | under the port invariant that is exactly when some comparison with a stored cookie raises |
| `PortRefusals.UnsubscribeComparesIff` | CCMContainer/ccmcif/c++/incl/CCMObject_impl.hpp:46-58 | the same for a publisher |
| `PortRefusals.NulCookieDisconnects` | CCMContainer/ccmcif/c++/src/CCMObject_impl.cpp:618-630 | three requests to a new component of which the third, with a cookie that is one NUL octet, ends the process |
| `PortRefusals.NulCookieUnsubscribes` | CCMContainer/ccmcif/c++/src/CCMObject_impl.cpp:933-940 | the same with a publisher |
| `PortRefusals.StricterThanSimplexIff` | CCMContainer/ccmcif/c++/src/CCMObject_impl.cpp:167-181 | configuration_complete differs from the rule that only simplex receptacles must be connected exactly when a multiplex one alone is not connected |
| `PortRefusals.UnusedMultiplexRefused` | CCMContainer/ccmcif/c++/src/CCMObject_impl.cpp:167-181 | a component with one unused multiplex receptacle, which that rule would accept, is refused |
| `PortRefusals.NarrowFailureStrands` | CCMContainer/ccmcif/c++/src/CCMObject_impl.cpp:856-883 | an exception while subscribe makes and narrows its own consumer leaves an entry that disagrees with the channel and cannot be unsubscribed |
| `PortRefusals.NarrowFailureStrandsEmitter` | CCMContainer/ccmcif/c++/src/CCMObject_impl.cpp:1012-1038 | the same exception in connect_consumer leaves the emitter stranded as a refusal does |
| `PortRefusals.UnsubscribeFailureStrands` | CCMContainer/ccmcif/c++/src/CCMObject_impl.cpp:942-956 | an exception from the consumer that unsubscribe tells to go leaves an entry that disagrees with the channel, and the same unsubscribe then fails |
| `PortRefusals.DisconnectFailureStrands` | CCMContainer/ccmcif/c++/src/CCMObject_impl.cpp:1098-1113 | the same in disconnect_consumer leaves the emitter stranded |
| `StrandedEntries.StrandedAlways` | CCMContainer/ccmcif/c++/src/CCMObject_impl.cpp:1008-1113 | over any run of the machine from a state that keeps its invariant a stranded emitter stays stranded, whatever else is requested, refused, passivated or removed |
| `StrandedEntries.EntryAlways` | CCMContainer/ccmcif/c++/src/CCMObject_impl.cpp:929-958 | a subscription whose proxy supplier is missing or no longer connected stays, and every later unsubscribe with its cookie fails |
| `StrandedEntries.SubscribeStrands` | CCMContainer/ccmcif/c++/src/CCMObject_impl.cpp:856-883 | an exception from the narrow in subscribe makes such a subscription |
| `StrandedEntries.UnsubscribeStrands` | CCMContainer/ccmcif/c++/src/CCMObject_impl.cpp:942-956 | so does an exception from the consumer told to go in unsubscribe |
| `StrandedEntries.NoneAtHome` | CCMContainer/ccmcif/c++/src/CCMObject_impl.cpp:841-958 | while the home is there no component that is not removed has one, in every reachable state |
| `PortRefusals.RaisingKeeps` | CCMContainer/ccmcif/c++/src/CCMObject_impl.cpp:189-1124 | what survives an operation cut short in this way, whichever it was: all of the port invariant but the agreement of entries and channels |
| `ComponentObjects.CCMObject.Connect` | CCMContainer/ccmcif/c++/src/CCMObject_impl.cpp:519-588 | in place: the receptacle after connect, the identifiers drawn and the answer, on every path |
| `ComponentObjects.CCMObject.Disconnect` | CCMContainer/ccmcif/c++/src/CCMObject_impl.cpp:593-649 | in place: the receptacle after disconnect and the answer, the simplex and the multiplex case apart |
| `ComponentObjects.CCMObject.Subscribe` | CCMContainer/ccmcif/c++/src/CCMObject_impl.cpp:805-903 | in place: insertion, local consumer, channel connection, the undoing after a refusal, and the entry left by an exception from the narrow |
| `ComponentObjects.CCMObject.InsertSubscription` | CCMContainer/ccmcif/c++/src/CCMObject_impl.cpp:845-869 | the state in which the narrow runs: entry and servant stored, reference not yet |
| `ComponentObjects.CCMObject.ConnectSubscription` | CCMContainer/ccmcif/c++/src/CCMObject_impl.cpp:871-894 | from there to the connected entry, or to the erased one |
| `ComponentObjects.CCMObject.Unsubscribe` | CCMContainer/ccmcif/c++/src/CCMObject_impl.cpp:908-970 | in place: proxy disconnected, then the local consumer told to go, then the entry erased; a failure of either call leaves the entry |
| `ComponentObjects.CCMObject.ConnectConsumer` | CCMContainer/ccmcif/c++/src/CCMObject_impl.cpp:975-1061 | in place: the emitter entry filled step by step and kept when the narrow raises or the channel refuses |
| `ComponentObjects.CCMObject.DisconnectConsumer` | CCMContainer/ccmcif/c++/src/CCMObject_impl.cpp:1066-1124 | in place: proxy disconnected, the local consumer told to go, entry emptied, the consumer returned; a failure of either call leaves the entry |
| `ComponentObjects.CCMObject.ConfigurationComplete` | CCMContainer/ccmcif/c++/src/CCMObject_impl.cpp:160-184 | refused exactly when some receptacle has no connection, simplex or multiplex |
| `ComponentObjects.CCMObject.Remove` | CCMContainer/ccmcif/c++/src/CCMObject_impl.cpp:189-297 | in place: facets and sinks asked to go and emptied, channels destroyed or dropped and no longer pushed to, removal recorded; a port that refuses ends it with the ports told before it gone and nothing recorded; subscriptions and consumers stay in their maps |
| `ComponentObjects.AskToRemove` | CCMContainer/ccmcif/c++/src/CCMObject_impl.cpp:211-219 | the loop tells the ports in name order up to the first that does not answer |
| `ComponentObjects.CCMObject.DestroyPublisherChannels` | CCMContainer/ccmcif/c++/src/CCMObject_impl.cpp:248-266 | the loop disconnects the proxy consumer and destroys the channel of every publisher once and changes nothing else |
| `ComponentObjects.CCMObject.DropEmitterChannels` | CCMContainer/ccmcif/c++/src/CCMObject_impl.cpp:268-283 | the loop drops the channel and disconnects the proxy consumer of every emitter once and changes nothing else |
| `ComponentObjects.CCMObject.DeclareFacet` | CCMContainer/ccmcif/c++/src/CCMObject_impl.cpp:1389-1445 | in place: one facet with an object id made from the one passed in and cut at a NUL, or that one when the component is monolithic; none when the name is taken or the reference cannot be made |
| `ComponentObjects.CCMObject.DeclareReceptacle` | CCMContainer/ccmcif/c++/src/CCMObject_impl.cpp:1459-1480 | in place: one empty receptacle, unless the name is taken |
| `ComponentObjects.CCMObject.DeclareConsumer` | CCMContainer/ccmcif/c++/src/CCMObject_impl.cpp:1496-1552 | in place: one sink, like a facet |
| `ComponentObjects.CCMObject.DeclareEmitter` | CCMContainer/ccmcif/c++/src/CCMObject_impl.cpp:1566-1624 | in place: one free emitter, unless removed, taken or without a channel |
| `ComponentObjects.CCMObject.DeclarePublisher` | CCMContainer/ccmcif/c++/src/CCMObject_impl.cpp:1637-1695 | in place: one publisher without subscriptions, unless removed, taken or without a channel |
| `ComponentObjects.CCMObject.GetLocalPushConsumerServant` | CCMContainer/ccmcif/c++/src/CCMObject_impl.cpp:1756-1848 | the servant stored for source and cookie, by the publisher map or the emitter map |
| `ComponentObjects.CCMObject.GetNamedReceptacles` | CCMContainer/ccmcif/c++/src/CCMObject_impl.cpp:714-765 | position by position the port named, with exactly its cookie and object pairs in cookie order; InvalidName exactly when some name is undeclared |
| `ComponentObjects.CCMObject.GetAllReceptacles` | CCMContainer/ccmcif/c++/src/CCMObject_impl.cpp:677-709 | every receptacle once in name order; INTERNAL is never answered |
| `ComponentObjects.CCMObject.GetConnections` | CCMContainer/ccmcif/c++/src/CCMObject_impl.cpp:654-672 | exactly the pairs of the named receptacle in cookie order |
| `ComponentObjects.CCMObject.GetNamedPublishers` | CCMContainer/ccmcif/c++/src/CCMObject_impl.cpp:1316-1366 | the same for publishers and their subscribers |
| `ComponentObjects.CCMObject.GetAllPublishers` | CCMContainer/ccmcif/c++/src/CCMObject_impl.cpp:1280-1311 | every publisher once in name order; INTERNAL is never answered |
| `ComponentObjects.ListEntries` | CCMContainer/ccmcif/c++/src/CCMObject_impl.cpp:741-755 | walking a cookie map lists each pair once in ascending cookie order |
| `ComponentObjects.ListingOrder` | CCMContainer/ccmcif/c++/incl/CCMObject_impl.hpp:46-58 | the comparator holds of each two cookies listed in that order and fails in the other |
| `ComponentObjects.ListingUnique` | CCMContainer/ccmcif/c++/incl/CCMObject_impl.hpp:46-58 | the comparator leaves no choice: the listing is determined by the map |
| `ValueTypes.RegistryNeverDangles` | CCMContainer/ccmcontainer/c++/src/ValueTypeRegistration_impl.cpp:57-64 | with last drop and destructor as one step, in every run in which other code leaves the installed factories alone an id has an entry exactly while its registration is referenced, each installed factory is unregistered and its library closed once or still in use, any other library opened leaked and is never closed, and a factory found in the ORB is never unregistered |
| `ValueTypes.InstallSoundIff` | CCMContainer/ccmcontainer/c++/src/ValueTypeInstaller_impl.cpp:75-83 | with the two apart, an installation keeps the registry sound exactly when the entry it finds is not that of a registration being destroyed |
| `ValueTypes.WindowDangles` | CCMContainer/ccmcontainer/c++/src/ValueTypeInstaller_impl.cpp:75-83 | a run of four steps in which it does not: a referenced registration without entry or factory |
| `ValueTypes.ReplaceSoundIff` | CCMContainer/ccmcontainer/c++/src/ValueTypeInstaller_impl.cpp:159-174 | other code that replaces a factory keeps the registry sound exactly when it is not one the installer registered |
| `ValueTypes.RemoveSoundIff` | CCMContainer/ccmcontainer/c++/src/ValueTypeInstaller_impl.cpp:159-174 | the same for other code that removes one |
| `ValueTypes.RefsConserved` | CCMContainer/ccmcontainer/c++/src/ValueTypeRegistration_impl.cpp:57-64 | over any run the references to a registration are those handed out less those dropped |
| `ValueTypes.InstallAnswers` | CCMContainer/ccmcontainer/c++/src/ValueTypeInstaller_impl.cpp:57-156 | nothing is opened for an id that has a registration or a factory; of the rest each of the three failures exactly when, and a new registration otherwise |
| `ValueTypes.InstalledInTableIff` | CCMContainer/ccmcontainer/c++/src/ValueTypeInstaller_impl.cpp:75-106 | a successful installation leaves a factory in the ORB exactly when an id registered before still has one |
| `ValueTypes.InstalledWithoutFactory` | CCMContainer/ccmcontainer/c++/src/ValueTypeInstaller_impl.cpp:75-83 | a run of three steps after which an installation succeeds and leaves none |
| `ValueTypes.ReplacedIsUnregistered` | CCMContainer/ccmcontainer/c++/src/ValueTypeInstaller_impl.cpp:168-174 | a run of three steps in which it is, and the installer unregisters the factory of the other code |
| `ValueTypes.NextKeeps` | CCMContainer/ccmcontainer/c++/src/ValueTypeInstaller_impl.cpp:57-178 | every step outside these two cases keeps entries, references and libraries in agreement |
| `ValueTypes.AtomicRun` | CCMContainer/ccmcontainer/c++/src/ValueTypeRegistration_impl.cpp:57-64 | runs whose drops destroy at once, other code leaving installed factories alone, keep the registry sound and never meet the window |
| `ValueTypes.MissingEntryPointLeaks` | CCMContainer/ccmcontainer/c++/src/ValueTypeInstaller_impl.cpp:108-136 | a library whose entry point or factory is missing is never closed |
| `ValueTypes.ValueTypeInstaller.InstallValuetypeFactory` | CCMContainer/ccmcontainer/c++/src/ValueTypeInstaller_impl.cpp:57-156 | in place: the existing registration, a new one for a factory already in the ORB, a new one with a freshly loaded factory, or one of the three failures |
| `ValueTypes.ValueTypeInstaller.UnregisterValuetypeFactory` | CCMContainer/ccmcontainer/c++/src/ValueTypeInstaller_impl.cpp:159-178 | in place: the entry erased, and factory and library released exactly if the installer registered them |
| `ProcessControls.CountsConserved` | ConfAndPlug/cdmwinit/c++/incl/ProcessControl.hpp:165-235 | over every interleaving that respects ownership the count of an object is the handles and owned raw pointers to it; it is not deleted while held, and once nobody holds it exactly one deletion has happened or is pending |
| `ProcessControls.NextKeeps` | ConfAndPlug/cdmwinit/c++/incl/ProcessControl.hpp:165-235 | every step of a handle or of a raw holder keeps that balance |
| `ProcessControls.AssignRawBalancedIff` | ConfAndPlug/cdmwinit/c++/incl/ProcessControl.hpp:188-194 | assigning a raw pointer keeps it exactly when the pointer is null or owns a reference; the own in() pointer of a handle does not |
| `ProcessControls.AddRefBalancedIff` | ConfAndPlug/cdmwinit/c++/src/ProcessControl.cpp:40-44 | adding a reference keeps it exactly below 2^32 - 1 holders |
| `ProcessControls.DeleteLater` | ConfAndPlug/cdmwinit/c++/src/ProcessControl.cpp:46-57 | deleting after the lock is left comes to the same as deleting at once |
| `ProcessControls.ProcessControl.AddRef` | ConfAndPlug/cdmwinit/c++/src/ProcessControl.cpp:40-44 | the 32-bit count goes up by one and wraps |
| `ProcessControls.ProcessControl.RemoveRef` | ConfAndPlug/cdmwinit/c++/src/ProcessControl.cpp:46-57 | the count goes down by one and the object is deleted exactly at zero |
| `ProcessControls.ProcessControlVar.Copy` | ConfAndPlug/cdmwinit/c++/incl/ProcessControl.hpp:174-179 | shares the object and adds one to its count, no other count changes |
| `ProcessControls.ProcessControlVar.Destroy` | ConfAndPlug/cdmwinit/c++/incl/ProcessControl.hpp:181-185 | lets go of the object, deleting it if it was the last holder |
| `ProcessControls.ProcessControlVar.AssignRaw` | ConfAndPlug/cdmwinit/c++/incl/ProcessControl.hpp:188-194 | lets go of the old object and adopts the pointer without counting it |
| `ProcessControls.ProcessControlVar.AssignVar` | ConfAndPlug/cdmwinit/c++/incl/ProcessControl.hpp:196-208 | lets go of the old object and shares the new one; nothing happens for the same object |
| `ProcessControls.ProcessControlVar.Out` | ConfAndPlug/cdmwinit/c++/incl/ProcessControl.hpp:215-221 | lets go and becomes empty |
| `ProcessControls.ProcessControlVar.Retn` | ConfAndPlug/cdmwinit/c++/incl/ProcessControl.hpp:223-229 | hands its reference over and becomes empty, no count changes |
| `InitHandOff.HandOffSafe` | ConfAndPlug/cdmwinit/c++/src/CdmwProcess_impl.cpp:234-274 | under every interleaving of any number of callers and setters: on_initialise runs only after init-done was set and the POA manager activated, the unexpected statement is never reached, and a blocked caller with a flag set has a broadcast coming |
| `InitHandOff.ExceptionPreventsCall` | ConfAndPlug/cdmwinit/c++/src/CdmwProcess_impl.cpp:241-252 | once the exception flag is set a caller that has not decided never comes to on_initialise |
| `InitHandOff.CallersSucceed` | ConfAndPlug/cdmwinit/c++/src/CdmwProcess_impl.cpp:234-274 | where init-done is reported and no exception, every caller has called on_initialise, with the POA manager activated, once no thread can move |
| `InitHandOff.CallersFail` | ConfAndPlug/cdmwinit/c++/src/CdmwProcess_impl.cpp:234-254 | where only an exception is reported, every caller has failed by then |
| `InitHandOff.FlagsHaveSetters` | ConfAndPlug/cdmwinit/c++/src/CdmwProcess_impl.cpp:166-180 | under every interleaving a flag is up only after a setter of its own raised it, so without a report of an exception nobody fails and without one of the end nobody succeeds |
| `InitHandOff.SomeTurn` | ConfAndPlug/cdmwinit/c++/src/CdmwProcess_impl.cpp:239-245 | with a flag set some thread can move until all have ended: no lost wakeup, no deadlock |
| `InitHandOff.SchedulesEnd` | ConfAndPlug/cdmwinit/c++/src/CdmwProcess_impl.cpp:239-274 | and every schedule of moves, spurious wakeups among them, ends within a bound |
| `InitHandOff.StepDecreases` | ConfAndPlug/cdmwinit/c++/src/CdmwProcess_impl.cpp:239-274 | a move and a spurious wakeup both lower that bound |
| `InitHandOff.TurnDecreases` | ConfAndPlug/cdmwinit/c++/src/CdmwProcess_impl.cpp:241-270 | each move lowers that bound |
| `InitHandOff.NextKeeps` | ConfAndPlug/cdmwinit/c++/src/CdmwProcess_impl.cpp:166-274 | every step, spurious wakeups included, keeps the invariant behind this |
| `AdminConsole.RunOperation` | Event/eventadmin/c++/src/EventServiceAdminTool.cpp:252-281 | for every sorted table and every command the binary search gives what a linear search gives; comments are skipped |
| `AdminConsole.CommandsSorted` | Event/eventadmin/c++/src/EventServiceAdminTool.cpp:213-247 | the shipped table is strictly sorted and has the declared length |
| `AdminConsole.SplitLine` | Event/eventadmin/c++/src/EventServiceAdminTool.cpp:326-349 | for every line its words are the command followed by the words of the argument text |
| `AdminConsole.ConnectChannels` | Event/eventadmin/c++/src/EventServiceAdminTool.cpp:613-686 | the fields are the first three words of the argument and the typed route is taken exactly with a third; an argument that begins with a blank has no first name |
| `Scanning.BlankParts` | Event/eventadmin/c++/src/EventServiceAdminTool.cpp:326-349 | the words of two texts with a blank between are those of the one followed by those of the other |
| `Scanning.OneWord` | Event/eventadmin/c++/src/EventServiceAdminTool.cpp:326-349 | and a text without blanks is one word or none, which with that determines the words of every text |
| `Scanning.BlankCodes` | Event/eventadmin/c++/src/EventServiceAdminTool.cpp:77-77 | a blank is one of the six characters that isspace accepts |
| `AdminConsole.NextField` | Event/eventadmin/c++/src/EventServiceAdminTool.cpp:637-649 | takes the next word and leaves the rest |
| `ProfileText.RoundTripIff` | Event/eventadmin/c++/src/EventServiceAdminTool.cpp:982-985 | parsing a channel name followed by the printed properties gives them back exactly for these channels and lists: blank-free name, one to fifty known tags with non-empty blank-free NUL-free values that do not begin with an equals sign, and a URL unless there are fifty |
| `ProfileText.ParsePrinted` | Event/eventadmin/c++/src/EventServiceAdminTool.cpp:1170-1243 | any number of well-formed properties: all up to fifty, the first fifty beyond that, and a missing URL noticed only below fifty |
| `ProfileText.PropertiesGood` | Event/eventadmin/c++/src/EventServiceAdminTool.cpp:1170-1233 | whatever text is given, what is read is at most fifty well-formed properties, a URL among them unless there are fifty |
| `ProfileText.EmptyValueRefused` | Event/eventadmin/c++/src/EventServiceAdminTool.cpp:1219-1223 | a printed property with an empty value is refused when it is read |
| `ProfileText.UnknownTagRefused` | Event/eventadmin/c++/src/EventServiceAdminTool.cpp:1196-1203 | an unknown tag among the first fifty properties makes the description invalid, whatever stands before and after |
| `ProfileText.EmptyValueInvalid` | Event/eventadmin/c++/src/EventServiceAdminTool.cpp:1219-1223 | so does an empty value |
| `ProfileText.TextsParsed` | Event/eventadmin/c++/src/EventServiceAdminTool.cpp:1141-1245 | the parse of one text with both tags, and of one without a URL |
| `ProfileText.ChannelMissingIff` | Event/eventadmin/c++/src/EventServiceAdminTool.cpp:1146-1163 | the channel is missing exactly when the text is empty or begins with a blank |
| `ProfileText.ExtractChannelAndProfile` | Event/eventadmin/c++/src/EventServiceAdminTool.cpp:1141-1245 | the parser with its two arrays and iterators meets its specification on every text |
| `ProfileText.ScanTag` | Event/eventadmin/c++/src/EventServiceAdminTool.cpp:1172-1184 | skips blanks and takes the text up to the equals sign |
| `ProfileText.ScanValue` | Event/eventadmin/c++/src/EventServiceAdminTool.cpp:1205-1217 | skips equals signs and takes the text up to a blank |
| `ProfileLoader.ProfileManager.Load` | Event/eventchannelmanager/c++/src/EventChannelProfileManager_impl.cpp:76-101 | for every child list the loop gives the map, or the error, of one first-wins pass; looking a name up again never fails to find it |
| `ProfileLoader.LoadMeaning` | Event/eventchannelmanager/c++/src/EventChannelProfileManager_impl.cpp:76-101 | the map holds exactly the channel names of the document, each with the properties of the first profile bearing it |
| `ProfileDocuments.LoadWritten` | Event/eventchannelmanager/c++/src/EventChannelProfileManager_impl.cpp:76-101 | a document written from any list of profiles is loaded as the first profile of each name, name by name and value by value in order |
| `ProfileDocuments.LoadedMeaning` | Event/eventchannelmanager/c++/src/EventChannelProfileManager_impl.cpp:76-101 | in terms of the document alone: the names known are the first texts of the first ChannelName children, and position by position each property is the first text of the first Name and the first Value child of its element in the first profile of that name |
| `ProfileDocuments.PropertyRead` | Event/eventchannelmanager/c++/src/EventChannelConfiguration.cpp:534-560 | a property is read as its own name and value whatever stands before it and around them; one that lacks either repeats what stands before |
| `ProfileDocuments.PropertiesRead` | Event/eventchannelmanager/c++/src/EventChannelConfiguration.cpp:530-561 | from the first Property child on the properties correspond to the element children one by one |
| `ProfileDocuments.NameRead` | Event/eventchannelmanager/c++/src/EventChannelConfiguration.cpp:388-442 | the name of a profile is the first text of its first ChannelName child; NameNotFound exactly without such a child |
| `ProfileDocuments.TextMissing` | Event/eventchannelmanager/c++/src/EventChannelConfiguration.cpp:174-221 | an element without children and one that does not begin with text are told apart |
| `ProfileDocuments.LoadFailsWith` | Event/eventchannelmanager/c++/src/EventChannelProfileManager_impl.cpp:76-101 | a load that fails raises what the first unreadable profile does, its name before its properties |
| `ProfileLoader.LoadSucceedsIff` | Event/eventchannelmanager/c++/src/EventChannelProfileManager_impl.cpp:76-101 | a load succeeds exactly when every profile has a readable name and the first of each name has readable properties |
| `ProfileLoader.GetEventChannelProfileValue` | Event/eventchannelmanager/c++/src/EventChannelConfiguration.cpp:495-585 | the search over as many indices as there are nodes finds what a search over the profiles finds |
| `ProfileLoader.GetActualChildNode` | Event/eventchannelmanager/c++/src/EventChannelConfiguration.cpp:224-276 | the i-th element child, found exactly for i below the number of element children |
| `ProfileLoader.GetNbEventChannelProfile` | Event/eventchannelmanager/c++/src/EventChannelConfiguration.cpp:449-486 | counts the element children |
| `ProfileLoader.FindNode` | Event/eventchannelmanager/c++/src/EventChannelConfiguration.cpp:174-221 | the first element child of the name, with the siblings after it |
| `ProfileLoader.GetNextEventChannelName` | Event/eventchannelmanager/c++/src/EventChannelConfiguration.cpp:388-442 | the name of the i-th profile, or which part is missing |
| `ProfileLoader.ReadProperties` | Event/eventchannelmanager/c++/src/EventChannelConfiguration.cpp:530-561 | the sibling walk reads every element from the first Property on |
| `ProfileLoader.PropertyListMeaning` | Event/eventchannelmanager/c++/src/EventChannelConfiguration.cpp:534-560 | position by position: a complete element gives its own name and value, an incomplete one repeats the one before |
| `ProfileLoader.ProfileManager.CreateProfile` | Event/eventchannelmanager/c++/src/EventChannelProfileManager_impl.cpp:261-292 | adds the profile, or refuses a name that is taken or invalid and changes nothing |
| `ProfileLoader.ProfileManager.RemoveProfile` | Event/eventchannelmanager/c++/src/EventChannelProfileManager_impl.cpp:297-308 | erases it, or answers NotExist |
| `ProfileLoader.ProfileManager.UpdateProfile` | Event/eventchannelmanager/c++/src/EventChannelProfileManager_impl.cpp:313-333 | replaces it, or answers NotExist and adds nothing |
| `ProfileLoader.ProfileManager.FindProfile` | Event/eventchannelmanager/c++/src/EventChannelProfileManager_impl.cpp:338-359 | a copy of it, or NotExist |
| `ProfileLoader.ProfileManager.ManagedEventChannels` | Event/eventchannelmanager/c++/src/EventChannelProfileManager_impl.cpp:365-389 | every channel name once in ascending order |
| `HomeAllocators.EtherealizeFindsAllocator` | CCMContainer/ccmcontainer/c++/src/HomesServantActivator.cpp:64-85 | in any order of installations and etherealizations within the first 2^32 identifiers an active home is disposed of by the allocator that made it, and the assertion fires exactly for a home whose reference could not be made |
| `HomeAllocators.DisposedByClass` | CCMContainer/ccmcontainer/c++/src/HomesServantActivator.cpp:64-85 | over any run a home is disposed of by the allocator registered for the class name it was installed under |
| `HomeAllocators.InstalledUnderClass` | CCMContainer/ccmcontainer/c++/src/Container_impl.cpp:571-700 | a home newly installed is registered with the allocator found under its class name, and etherealizing it takes that one |
| `HomeAllocators.HomeIdPrinted` | CCMContainer/ccmcontainer/c++/src/Container_impl.cpp:870-875 | the text of one home identifier, filled to three digits |
| `HomeAllocators.InstallAnswers` | CCMContainer/ccmcontainer/c++/src/Container_impl.cpp:571-700 | which step stops an installation, and what a successful one answers and records |
| `HomeAllocators.InstallSucceedsIff` | CCMContainer/ccmcontainer/c++/src/Container_impl.cpp:571-700 | there an installation fails only through the servant, the reference or the context: its identifier is never taken |
| `HomeAllocators.ClassNameSurvivesIff` | CCMContainer/ccmcontainer/c++/src/Container_impl.cpp:668-672 | a class name registered before is lost by disposing of a home exactly when the home was given that text as identifier |
| `HomeAllocators.RunKeeps` | CCMContainer/ccmcontainer/c++/src/Container_impl.cpp:622-700 | registry and active homes correspond in every state such a run reaches |
| `HomeAllocators.HomeContainer.InstallHome` | CCMContainer/ccmcontainer/c++/src/Container_impl.cpp:571-700 | in place: identifier drawn, home activated, allocator registered, home recorded, up to the step that fails |
| `HomeAllocators.HomeContainer.EtherealizeHome` | CCMContainer/ccmcontainer/c++/src/HomesServantActivator.cpp:72-84 | in place: disposed of and unregistered, or the assertion |
| `HomeAllocators.HomeAllocatorRegistry.Register` | CCMContainer/ccmcontainer/c++/src/HomeAllocatorRegistry.cpp:60-67 | keeps an entry that is already there and says so |
| `HomeAllocators.HomeAllocatorRegistry.Unregister` | CCMContainer/ccmcontainer/c++/src/HomeAllocatorRegistry.cpp:69-75 | erases the entry and tells whether there was one |
| `HomeAllocators.HomeAllocatorRegistry.GetAllocator` | CCMContainer/ccmcontainer/c++/src/HomeAllocatorRegistry.cpp:79-90 | the allocator registered, or none |

## Left out

- Lifecycle.RemoveHomeKeeps: the step that clears the map; the loop before it is modelled apart, in `HomeRemoval.dfy`, where which entries a call erases is given, and is a series of requests of their own in the machine.
- Lifecycle.RequestKeeps: the consumers and ports that an operation tells to remove themselves are deactivated within the request that tells them, and one that is not active and is found would be incarnated first, which is a step of its own here; a call on an object id whose servant is being deactivated is looked up at once rather than after its etherealization; generated code declares ports with the component's own object id.
- Lifecycle.IncarnateKeeps: the retaining adapter with a servant activator only; the locator of the method lifetime is not modelled.
- ComponentObjects.CCMObject.Subscribe: of the exceptions foreign code may raise, those of the reference and the narrow of its own consumer and the refusal by the channel are modelled; asking the caller's reference for its interfaces is taken to answer.
- ComponentObjects.CCMObject.ConnectConsumer: the same.
- ComponentObjects.CCMObject.Unsubscribe: a remote subscriber that is itself a local push consumer of another component would be told to go as well and is taken not to be one; of the exceptions of the narrow and the remove only whether one comes is modelled.
- ComponentObjects.CCMObject.DisconnectConsumer: the same.
- ComponentObjects.CCMObject.Remove: exceptions of the event channels in the later loops are not modelled; those of facets and sinks are.
- HomeObjects.CCMHome.LookupServant: the generated creation of a component servant either gives a fresh servant or fails; facet servants are the component together with the port name.
- HomeObjects.CCMHome.ClearForRemoval: only the part of remove after its loop, which is `HomeRemoval.AskComponents`.
- Homes.LocalPushConsumerHolds: stated for NUL-free cookie text, the only kind an object id can hold.
- ProcessControls.NextKeeps: an assignment between handles is one step; two threads that use the same handle at once are not modelled, nor is inout, which hands out the pointer itself.
- InitHandOff.HandOffSafe: each setter is followed by a broadcast on the condition, as the callers in the repository do; the fatal error notification ends the call.
- HomeAllocators.InstallSucceedsIff: the checks of the configuration before the allocator is looked up, and the naming registration after the home is recorded, are not modelled; identifiers are assumed to differ from class names.
- HomeAllocators.HomeContainer.InstallHome: the same.
- ProfileLoader.ProfileManager.Load: parser errors are not modelled; asking the type of a missing first child is an error of its own.
- ProfileLoader.ProfileManager.CreateProfile: whether a name is valid is what the naming service answers; writing the profiles back to a file is not modelled.
- Strings are sequences of characters that stand for the bytes of the source.
- Facet, sink and emitter listings, primary keys, same_component and get_proxy_consumer: single map operations like those modelled.
- Component server, home registrations, contexts and their factories, descriptions and configuration values: accessors and delegation.
- Event delivery through channels, and the generic and typed channel administration behind the console: foreign code.
- CdmwInit configuration: the same document searches as the profile loader's.
