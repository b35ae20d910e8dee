// Installing homes in a container and disposing of them: home identifiers,
// the registry of allocators, and the servant activator of the homes.
module HomeAllocators {
  import opened Outcomes
  import opened Identifiers

  class HomeAllocatorRegistry {
    var registry: map<string, nat>

    constructor ()
      ensures registry == map[]
    {
      registry := map[];
    }

    method Register(id: string, allocator: nat) returns (inserted: bool)
      modifies this
      ensures inserted == (id !in old(registry))
      ensures registry == Registered(old(registry), id, allocator)
    {
      inserted := id !in registry;
      if inserted {
        registry := registry[id := allocator];
      }
    }

    method Unregister(id: string) returns (erased: bool)
      modifies this
      ensures erased == (id in old(registry)) && registry == old(registry) - {id}
    {
      erased := id in registry;
      registry := registry - {id};
    }

    method GetAllocator(id: string) returns (allocator: Option<nat>)
      ensures allocator == if id in registry then Some(registry[id]) else None
    {
      allocator := None;
      if id in registry {
        allocator := Some(registry[id]);
      }
    }
  }

  // Register keeps an entry that is already there.
  function Registered(registry: map<string, nat>, id: string, allocator: nat): map<string, nat> {
    if id in registry then registry else registry[id := allocator]
  }

  // active: the homes active in the adapter, with the allocator that made
  // them; orphans: those whose reference could not be made after activation.
  datatype Container = Container(
    draws: nat,
    registry: map<string, nat>,
    active: map<string, nat>,
    orphans: set<string>,
    homes: seq<string>)

  datatype InstallError = UnsupportedComponentType | NoServant | ContainerError

  datatype Installed = Installed(container: Container, result: Result<string, InstallError>)

  // create_home_identifier.
  function HomeId(uuid: string, draws: nat): string {
    UniqueText(uuid, 3, Drawn(draws))
  }

  // install_home from the allocator on; the flags are what the allocator, the
  // adapter and the context factory answer.
  function Install(c: Container, uuid: string, className: string, servantMade: bool, refMade: bool,
      contextMade: bool): Installed {
    if className !in c.registry then Installed(c, Raised(UnsupportedComponentType))
    else if !servantMade then Installed(c, Raised(NoServant))
    else
      var id := HomeId(uuid, c.draws + 1);
      var c1 := c.(draws := c.draws + 1);
      if id in c.active then Installed(c1, Raised(ContainerError))
      else
        var c2 := c1.(active := c.active[id := c.registry[className]]);
        if !refMade then Installed(c2.(orphans := c.orphans + {id}), Raised(ContainerError))
        else
          var c3 := c2.(registry := Registered(c.registry, id, c.registry[className]));
          if !contextMade then Installed(c3, Raised(ContainerError))
          else Installed(c3.(homes := c.homes + [id]), Ok(id))
  }

  datatype Etherealized = Disposed(allocator: nat) | AssertionFires

  // etherealize for a home that is active.
  function Etherealize(c: Container, id: string): (Container, Etherealized) {
    if id in c.registry then
      (c.(registry := c.registry - {id}, active := c.active - {id}, orphans := c.orphans - {id}),
        Disposed(c.registry[id]))
    else (c.(active := c.active - {id}, orphans := c.orphans - {id}), AssertionFires)
  }

  // The container with the registry of allocators it shares, step by step as
  // install_home and the homes' servant activator go.
  class HomeContainer {
    const ids: IdentifierCounter
    const allocators: HomeAllocatorRegistry
    var active: map<string, nat>
    var orphans: set<string>
    var homes: seq<string>

    ghost function State(): Container
      reads this, ids, allocators
    {
      Container(ids.draws, allocators.registry, active, orphans, homes)
    }

    constructor (ids: IdentifierCounter, allocators: HomeAllocatorRegistry)
      ensures this.ids == ids && this.allocators == allocators
      ensures active == map[] && orphans == {} && homes == []
    {
      this.ids, this.allocators := ids, allocators;
      active, orphans, homes := map[], {}, [];
    }

    method InstallHome(uuid: string, className: string, servantMade: bool, refMade: bool, contextMade: bool)
      returns (r: Result<string, InstallError>)
      requires ids.Valid()
      modifies this, ids, allocators
      ensures ids.Valid()
      ensures Installed(State(), r) == Install(old(State()), uuid, className, servantMade, refMade, contextMade)
    {
      hide UniqueText, Drawn;
      var allocator := allocators.GetAllocator(className);
      if allocator.None? { return Raised(UnsupportedComponentType); }
      if !servantMade { return Raised(NoServant); }
      var id := ids.CreateUniqueIdentifier(uuid, 3);
      if id in active { return Raised(ContainerError); }
      active := active[id := allocator.value];
      if !refMade {
        orphans := orphans + {id};
        return Raised(ContainerError);
      }
      var _ := allocators.Register(id, allocator.value);
      if !contextMade { return Raised(ContainerError); }
      homes := homes + [id];
      r := Ok(id);
    }

    // The adapter etherealizes a home that is active.
    method EtherealizeHome(id: string) returns (r: Etherealized)
      requires id in active
      modifies this, allocators
      ensures (State(), r) == Etherealize(old(State()), id)
    {
      active, orphans := active - {id}, orphans - {id};
      var allocator := allocators.GetAllocator(id);
      if allocator.None? { return AssertionFires; }
      var _ := allocators.Unregister(id);
      r := Disposed(allocator.value);
    }
  }

  // ----- Any order of installations and etherealizations -----

  datatype Step =
    | DoInstall(uuid: string, className: string, servantMade: bool, refMade: bool, contextMade: bool)
    | DoEtherealize(id: string)

  function Next(c: Container, step: Step): Container {
    match step
    case DoInstall(u, n, servant, ref, context) => Install(c, u, n, servant, ref, context).container
    case DoEtherealize(id) => if id in c.active then Etherealize(c, id).0 else c
  }

  function Run(c: Container, steps: seq<Step>): Container
    decreases |steps|
  {
    if steps == [] then c else Run(Next(c, steps[0]), steps[1..])
  }

  // Allocators are registered by class name before any home is installed.
  function Start(classes: map<string, nat>): Container {
    Container(0, classes, map[], {}, [])
  }

  // A home identifier never equals a class name.
  ghost predicate Apart(classes: map<string, nat>) {
    forall uuid: string, n: nat :: UniqueText(uuid, 3, n) !in classes
  }

  ghost predicate MadeBefore(id: string, draws: nat) {
    exists uuid, n: nat :: 1 <= n <= draws && id == HomeId(uuid, n)
  }

  ghost predicate Inv(c: Container, classes: map<string, nat>) {
    && (forall id | id in c.active :: MadeBefore(id, c.draws))
    && c.orphans <= c.active.Keys
    && c.registry.Keys == classes.Keys + (c.active.Keys - c.orphans)
    && (forall n | n in classes :: c.registry[n] == classes[n] && n !in c.active)
    && (forall id | id in c.active && id !in c.orphans :: c.registry[id] == c.active[id])
  }

  lemma NewIdFresh(c: Container, classes: map<string, nat>, uuid: string)
    requires Inv(c, classes) && Apart(classes) && c.draws < MODULUS
    ensures HomeId(uuid, c.draws + 1) !in c.active && HomeId(uuid, c.draws + 1) !in c.registry
    ensures MadeBefore(HomeId(uuid, c.draws + 1), c.draws + 1)
  {
    hide UniqueText, Drawn;
    var id := HomeId(uuid, c.draws + 1);
    assert id !in classes;
    if id in c.active {
      var u, n: nat :| 1 <= n <= c.draws && id == HomeId(u, n);
      UniqueTextInjective(u, Drawn(n), uuid, Drawn(c.draws + 1), 3);
      DrawnDiffer(n, c.draws + 1);
    }
  }

  lemma DrawnDiffer(m: nat, n: nat)
    requires 1 <= m < n <= MODULUS
    ensures Drawn(m) != Drawn(n)
  {
    ResiduesDiffer(m, n);
  }

  lemma MadeLater(c: Container, draws: nat)
    requires c.draws <= draws && forall id | id in c.active :: MadeBefore(id, c.draws)
    ensures forall id | id in c.active :: MadeBefore(id, draws)
  {
    hide HomeId;
    forall id | id in c.active ensures MadeBefore(id, draws) {
      var u, n: nat :| 1 <= n <= c.draws && id == HomeId(u, n);
      assert 1 <= n <= draws && id == HomeId(u, n);
    }
  }

  lemma InstallKeeps(c: Container, classes: map<string, nat>, uuid: string, name: string,
                     servantMade: bool, refMade: bool, contextMade: bool)
    requires Inv(c, classes) && Apart(classes) && c.draws < MODULUS
    ensures Inv(Install(c, uuid, name, servantMade, refMade, contextMade).container, classes)
  {
    hide MadeBefore, HomeId, Apart;
    NewIdFresh(c, classes, uuid);
    MadeLater(c, c.draws + 1);
    if name in c.registry && servantMade {
      var id := HomeId(uuid, c.draws + 1);
      assert forall n | n in classes :: n != id;
      assert Registered(c.registry, id, c.registry[name]) == c.registry[id := c.registry[name]];
    }
  }

  lemma EtherealizeKeeps(c: Container, classes: map<string, nat>, id: string)
    requires Inv(c, classes) && id in c.active
    ensures Inv(Etherealize(c, id).0, classes)
  {
    hide MadeBefore;
    assert id !in classes;
  }

  lemma NextKeeps(c: Container, classes: map<string, nat>, step: Step)
    requires Inv(c, classes) && Apart(classes) && Next(c, step).draws <= MODULUS
    ensures Inv(Next(c, step), classes)
  {
    hide Inv, Apart, HomeId, Etherealize, Registered;
    match step
    case DoInstall(u, n, servant, ref, context) =>
      if c.draws < MODULUS {
        InstallKeeps(c, classes, u, n, servant, ref, context);
      }
    case DoEtherealize(id) =>
      if id in c.active {
        EtherealizeKeeps(c, classes, id);
      }
  }

  lemma {:induction false} DrawsGrow(c: Container, steps: seq<Step>)
    ensures c.draws <= Run(c, steps).draws
    decreases |steps|
  {
    hide HomeId;
    if steps != [] {
      DrawsGrow(Next(c, steps[0]), steps[1..]);
    }
  }

  lemma {:induction false} RunKeeps(c: Container, classes: map<string, nat>, steps: seq<Step>)
    requires Inv(c, classes) && Apart(classes) && Run(c, steps).draws <= MODULUS
    ensures Inv(Run(c, steps), classes)
    decreases |steps|
  {
    hide Next, Inv, Apart;
    if steps != [] {
      DrawsGrow(Next(c, steps[0]), steps[1..]);
      NextKeeps(c, classes, steps[0]);
      RunKeeps(Next(c, steps[0]), classes, steps[1..]);
    }
  }

  // In every state that installations and etherealizations reach in any order
  // within the first 2^32 identifiers, etherealizing an active home disposes
  // of it with the allocator that made it, and the assertion fires exactly for
  // a home whose reference could not be made.
  lemma EtherealizeFindsAllocator(classes: map<string, nat>, steps: seq<Step>, id: string)
    requires Apart(classes) && Run(Start(classes), steps).draws <= MODULUS
    requires id in Run(Start(classes), steps).active
    ensures var c := Run(Start(classes), steps);
            && (Etherealize(c, id).1 == AssertionFires <==> id in c.orphans)
            && (id !in c.orphans ==> Etherealize(c, id).1 == Disposed(c.active[id]))
  {
    RunKeeps(Start(classes), classes, steps);
    hide Run, MadeBefore, Apart;
  }

  // Installing never fails because an identifier is taken, and the allocators
  // registered by class name stay.
  lemma InstallSucceedsIff(classes: map<string, nat>, steps: seq<Step>, uuid: string, name: string,
                           servantMade: bool, refMade: bool, contextMade: bool)
    requires Apart(classes) && Run(Start(classes), steps).draws < MODULUS && name in classes
    ensures Install(Run(Start(classes), steps), uuid, name, servantMade, refMade, contextMade).result.Ok?
       <==> servantMade && refMade && contextMade
  {
    var c := Run(Start(classes), steps);
    RunKeeps(Start(classes), classes, steps);
    NewIdFresh(c, classes, uuid);
    hide Run, HomeId, Apart, MadeBefore;
  }

  // A class name equal to the identifier of a home is lost when that home is
  // etherealized; any other stays.
  lemma ClassNameSurvivesIff(c: Container, uuid: string, name: string, other: string)
    requires name in c.registry && other in c.registry && HomeId(uuid, c.draws + 1) !in c.active
    ensures var i := Install(c, uuid, name, true, true, true);
            i.result.Ok? && (other in Etherealize(i.container, i.result.value).0.registry <==>
              other != HomeId(uuid, c.draws + 1))
  {
    hide HomeId;
  }

  // ----- Whose allocator -----

  // An installation answers what stopped it, in the order of its steps.
  lemma InstallAnswers(c: Container, uuid: string, name: string, servantMade: bool, refMade: bool, contextMade: bool)
    ensures var i := Install(c, uuid, name, servantMade, refMade, contextMade);
            var id := HomeId(uuid, c.draws + 1);
            && (i.result == Raised(UnsupportedComponentType) <==> name !in c.registry)
            && (i.result == Raised(NoServant) <==> name in c.registry && !servantMade)
            && (i.result == Raised(ContainerError) <==>
                  name in c.registry && servantMade && (id in c.active || !refMade || !contextMade))
            && (i.result.Ok? ==> i.result.value == id && i.container.homes == c.homes + [id])
            && (!i.result.Ok? ==> i.container.homes == c.homes)
  {
    hide HomeId;
  }

  // The home with identifier id, as long as it is active, is registered with
  // allocator a.
  ghost predicate DisposedWith(c: Container, id: string, a: nat) {
    id in c.active ==> id !in c.orphans && id in c.registry && c.registry[id] == a && c.active[id] == a
  }

  // A home newly installed is registered with the allocator found under its
  // class name, and etherealizing it takes that one.
  lemma InstalledUnderClass(c: Container, classes: map<string, nat>, uuid: string, name: string, contextMade: bool)
    requires Inv(c, classes) && Apart(classes) && c.draws < MODULUS && name in c.registry
    ensures var i := Install(c, uuid, name, true, true, contextMade).container;
            var id := HomeId(uuid, c.draws + 1);
            && id in i.active && DisposedWith(i, id, c.registry[name])
            && Etherealize(i, id).1 == Disposed(c.registry[name])
  {
    hide HomeId, Apart, MadeBefore;
    NewIdFresh(c, classes, uuid);
  }

  lemma NextDisposedWith(c: Container, classes: map<string, nat>, step: Step, uuid: string, n: nat, a: nat)
    requires Inv(c, classes) && Apart(classes) && Next(c, step).draws <= MODULUS
    requires 1 <= n <= c.draws && DisposedWith(c, HomeId(uuid, n), a)
    ensures DisposedWith(Next(c, step), HomeId(uuid, n), a) && n <= Next(c, step).draws
  {
    hide HomeId, Apart, MadeBefore;
    if step.DoInstall? && c.draws < MODULUS {
      OtherId(step.uuid, c.draws + 1, uuid, n);
      if step.className in c.registry {
        NewIdFresh(c, classes, step.uuid);
      }
    }
  }

  lemma OtherId(u: string, m: nat, v: string, n: nat)
    requires 1 <= n < m <= MODULUS
    ensures HomeId(u, m) != HomeId(v, n)
  {
    hide UniqueText, Drawn;
    DrawnDiffer(n, m);
    if HomeId(u, m) == HomeId(v, n) {
      UniqueTextInjective(u, Drawn(m), v, Drawn(n), 3);
    }
  }

  lemma {:induction false} RunDisposedWith(c: Container, classes: map<string, nat>, steps: seq<Step>, uuid: string,
                                           n: nat, a: nat)
    requires Inv(c, classes) && Apart(classes) && Run(c, steps).draws <= MODULUS
    requires 1 <= n <= c.draws && DisposedWith(c, HomeId(uuid, n), a)
    ensures DisposedWith(Run(c, steps), HomeId(uuid, n), a)
    decreases |steps|
  {
    hide Next, Inv, Apart, DisposedWith, HomeId;
    if steps != [] {
      DrawsGrow(Next(c, steps[0]), steps[1..]);
      NextDisposedWith(c, classes, steps[0], uuid, n, a);
      NextKeeps(c, classes, steps[0]);
      RunDisposedWith(Next(c, steps[0]), classes, steps[1..], uuid, n, a);
    }
  }

  // Over any run, a home is disposed of with the allocator registered for the
  // class name under which it was installed, whatever else is installed or
  // disposed of in between.
  lemma DisposedByClass(classes: map<string, nat>, before: seq<Step>, uuid: string, name: string, contextMade: bool,
                        after: seq<Step>)
    requires Apart(classes) && name in classes
    requires var c := Run(Start(classes), before);
             c.draws < MODULUS && Run(Next(c, DoInstall(uuid, name, true, true, contextMade)), after).draws <= MODULUS
    ensures var c := Run(Start(classes), before);
            var id := HomeId(uuid, c.draws + 1);
            var t := Run(Next(c, DoInstall(uuid, name, true, true, contextMade)), after);
            id in t.active ==> Etherealize(t, id).1 == Disposed(classes[name])
  {
    StartInv(classes);
    hide Next, Run, Inv, Apart, HomeId, Etherealize, Start, DisposedWith, MadeBefore;
    RunKeeps(Start(classes), classes, before);
    var c := Run(Start(classes), before);
    ClassKept(c, classes, name);
    DisposedLater(c, classes, uuid, name, contextMade, after);
  }

  lemma StartInv(classes: map<string, nat>)
    ensures Inv(Start(classes), classes)
  {
  }

  lemma ClassKept(c: Container, classes: map<string, nat>, name: string)
    requires Inv(c, classes) && name in classes
    ensures name in c.registry && c.registry[name] == classes[name]
  {
    hide MadeBefore;
  }

  lemma DisposedLater(c: Container, classes: map<string, nat>, uuid: string, name: string, contextMade: bool,
                      after: seq<Step>)
    requires Inv(c, classes) && Apart(classes) && name in c.registry
    requires c.draws < MODULUS && Run(Next(c, DoInstall(uuid, name, true, true, contextMade)), after).draws <= MODULUS
    ensures var id := HomeId(uuid, c.draws + 1);
            var t := Run(Next(c, DoInstall(uuid, name, true, true, contextMade)), after);
            id in t.active ==> Etherealize(t, id).1 == Disposed(c.registry[name])
  {
    hide *;
    var step := DoInstall(uuid, name, true, true, contextMade);
    InstallDraws(c, uuid, name, contextMade);
    InstalledUnderClass(c, classes, uuid, name, contextMade);
    DrawsGrow(Next(c, step), after);
    NextKeeps(c, classes, step);
    RunDisposedWith(Next(c, step), classes, after, uuid, c.draws + 1, c.registry[name]);
    EndsDisposed(Run(Next(c, step), after), HomeId(uuid, c.draws + 1), c.registry[name]);
  }

  lemma EndsDisposed(c: Container, id: string, a: nat)
    requires DisposedWith(c, id, a)
    ensures id in c.active ==> Etherealize(c, id).1 == Disposed(a)
  {
  }

  lemma InstallDraws(c: Container, uuid: string, name: string, contextMade: bool)
    requires name in c.registry
    ensures Install(c, uuid, name, true, true, contextMade).container.draws == c.draws + 1
    ensures Next(c, DoInstall(uuid, name, true, true, contextMade))
         == Install(c, uuid, name, true, true, contextMade).container
  {
    hide HomeId;
  }

  lemma HomeIdPrinted()
    ensures HomeId("home", 7) == "home_007"
  {
    UniqueTextPrinted();
  }
}
