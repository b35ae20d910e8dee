// Where the object adapter takes a request, and what becomes of a servant that
// it gives back: in every reachable state, and where the answer is not the one
// wanted, exactly when.
module Delivery {
  import opened Outcomes
  import opened Text
  import opened Identifiers
  import opened ObjectIds
  import opened Components
  import opened Homes
  import opened OperationEffects
  import opened Lifecycle
  import opened Dispatch
  import opened AdapterServants

  lemma {:induction false} RunServed(s: System, steps: seq<Step>)
    requires Inv(s) && Served(s) && Run(s, steps).draws <= MODULUS
    requires forall i | 0 <= i < |steps| :: Legal(steps[i])
    ensures Served(Run(s, steps))
    decreases |steps|
  {
    hide Next, Inv, Served, Legal;
    if steps != [] {
      RunDraws(Next(s, steps[0]), steps[1..]);
      NextKeeps(s, steps[0]);
      NextServed(s, steps[0]);
      RunServed(Next(s, steps[0]), steps[1..]);
    }
  }

  lemma InitServed(faultTolerant: bool)
    ensures Served(Init(faultTolerant))
  {
  }

  lemma ReachableServed(s: System)
    requires Reachable(s)
    ensures Served(s)
  {
    hide Inv, Served, Init, Run;
    var faultTolerant, steps :| EndsIn(faultTolerant, steps, s);
    InitInv(faultTolerant);
    InitServed(faultTolerant);
    RunServed(Init(faultTolerant), steps);
  }

  // ----- Push consumers -----

  // A servant the adapter holds for a publisher's cookie is the one the live
  // component stores for it.
  lemma PublisherDelivered(s: System, oid: string, comp: string, h: nat, source: string, ck: string, servant: nat)
    requires Reachable(s) && Denotes(s, oid, comp, h, source, ck, servant) && ck != EMITTER_CK && oid in s.poa
    ensures s.poa[oid].servant == PushServant(servant)
  {
    hide Reachable, Inv, Holds, Split, CreateOid, AgesOk;
    ReachableInv(s);
    ReachableServed(s);
    DenotedName(s, oid, comp, h, source, ck, servant);
    assert OidServed(s, oid);
    var names := Split(oid, '/');
    assert names[1] == source && names[2] == ck;
    assert Holds(s.heap[h], names[1], names[2], servant);
  }

  lemma DenotedName(s: System, oid: string, comp: string, h: nat, source: string, ck: string, servant: nat)
    requires Inv(s) && Denotes(s, oid, comp, h, source, ck, servant)
    ensures Split(oid, '/') == [comp, source, ck]
  {
    hide Holds, Split, CreateOid, Free, HeapOk, MapOk, PoaOk, RemovedOk, IssuedOk, GroupsOk, PlacesOk, CookiesOk;
    HeldNames(s, h, source, ck, servant);
    CreatedFree(s, comp);
    ReadCreateLocal(comp, source, ck);
  }

  // The servant active for an emitter is the one the live component stores
  // exactly when it was made after the component's own servant.
  lemma EmitterDeliveredIff(s: System, oid: string, comp: string, h: nat, source: string, servant: nat)
    requires Reachable(s) && Denotes(s, oid, comp, h, source, EMITTER_CK, servant) && oid in s.poa && s.poa[oid].Active?
    ensures s.poa[oid].servant.PushServant?
    ensures s.poa[oid].servant.id == servant <==> h < s.poa[oid].servant.id
  {
    hide Reachable, Inv, Holds, Split, CreateOid;
    ReachableInv(s);
    ReachableServed(s);
    DenotedName(s, oid, comp, h, source, EMITTER_CK, servant);
    assert OidServed(s, oid);
    var y := s.poa[oid].servant.id;
    if h < y {
      HeldOnce(s.heap[h], source, EMITTER_CK, servant, y);
    }
  }

  // ----- Releasing -----

  // Releasing any servant the adapter holds raises, keeping the reference,
  // exactly when the home no longer knows the component.
  lemma ReleaseRaisesIff(s: System, oid: string)
    requires Reachable(s) && oid in s.poa
    ensures s.poa[oid].servant.ComponentServant? ==> s.poa[oid].servant.h in s.heap
    ensures var r := ReleaseServant(s.components.Keys, s.heap, oid, s.poa[oid].servant);
            && (r.NotReleased? <==> Split(oid, '/')[0] !in s.components)
            && (r.NotReleased? ==> r == NotReleased(ObjectNotExist))
  {
    hide Reachable, Split, AgesOk, IdsOk, HeapOk, MapOk, RemovedOk, IssuedOk, GroupsOk, PlacesOk, CookiesOk;
    ReachableInv(s);
    ReachableServed(s);
    assert OidServed(s, oid);
  }

  // ----- The runs in which it raises, or delivers to another servant -----

  const EVENT := "IDL:Event:1.0"
  const SINK := Ref(0, {EVENT})

  function EmitterOid(comp: string, n: string): string {
    CreateOid(comp, n, EMITTER_CK)
  }

  // Declaring an emitter on a component that has none of that name and
  // connecting a consumer that takes no pushed events itself.
  function Connecting(comp: string, n: string): seq<Step> {
    [Request(comp, OpDeclareEmitter(n, EVENT, true)), Request(comp, OpConnectConsumer(Some(n), SINK, 0, true))]
  }

  // The state they lead to.
  ghost predicate EmitterConnected(s: System, comp: string, h: nat, n: string, x: nat) {
    && Serving(s, comp, h) && Holds(s.heap[h], n, EMITTER_CK, x)
    && EmitterOid(comp, n) in s.issued && EmitterOid(comp, n) in s.poa
  }

  ghost predicate SameRefs(c: Component, d: Component) {
    d.oid == c.oid && d.isMonolithic == c.isMonolithic && d.facets == c.facets && d.consumers == c.consumers
  }

  lemma DeclareStep(s: System, comp: string, h: nat, n: string)
    requires Reachable(s) && Serving(s, comp, h) && n !in s.heap[h].emitters
    ensures var t := Next(s, Request(comp, OpDeclareEmitter(n, EVENT, true)));
            && Serving(t, comp, h) && t.draws == s.draws && t.nextServant == s.nextServant + 1 && t.poa == s.poa
            && n in t.heap[h].emitters && t.heap[h].emitters[n] == Emitter(EVENT, NEW_CHANNEL, Nil, NoPush, None, None)
            && SameRefs(s.heap[h], t.heap[h]) && t.components == s.components
  {
    var op := OpDeclareEmitter(n, EVENT, true);
    hide Next, CallRefused, Reachable;
    ServingAnswered(s, comp, h, op);
    RequestStep(s, comp, h, op);
    hide Deactivate;
    NothingOff(s.poa);
  }

  lemma NothingOff(poa: map<string, Activation>)
    ensures Deactivate(poa, {}) == poa
  {
  }

  lemma ConnectStep(s: System, comp: string, h: nat, n: string)
    requires Reachable(s) && Serving(s, comp, h) && n in s.heap[h].emitters
    requires s.heap[h].emitters[n] == Emitter(EVENT, NEW_CHANNEL, Nil, NoPush, None, None)
    ensures var t := Next(s, Request(comp, OpConnectConsumer(Some(n), SINK, 0, true)));
            && EmitterConnected(t, comp, h, n, s.nextServant) && h in t.heap && SameRefs(s.heap[h], t.heap[h])
            && t.draws == s.draws && t.nextServant == s.nextServant + 1 && t.components == s.components
            && t.poa == if EmitterOid(comp, n) in s.poa then s.poa
                        else s.poa[EmitterOid(comp, n) := Active(PushServant(s.nextServant))]
  {
    var op := OpConnectConsumer(Some(n), SINK, 0, true);
    hide Next, CreateOid, CallRefused, Reachable;
    ServingAnswered(s, comp, h, WithServant(op, s.nextServant));
    RequestStep(s, comp, h, op);
    hide Deactivate;
    var o := WithServant(op, s.nextServant);
    assert NarrowPush(SINK) == NoPush;
    assert MadeLocal(s.heap[h], s.draws, o) == Some(EmitterOid(comp, n));
    NothingOff(Activate(s.poa, Some(EmitterOid(comp, n)), s.nextServant));
    assert EmitterOid(comp, n) in Issued(Some(EmitterOid(comp, n)), Apply(s.heap[h], s.draws, o).reply);
  }

  // From any state in which the component is served and has no such emitter.
  lemma ConnectingConnects(s: System, comp: string, h: nat, n: string)
    requires Reachable(s) && Serving(s, comp, h) && n !in s.heap[h].emitters
    requires Free(n, '/') && Free(n, '\0')
    ensures var t := Run(s, Connecting(comp, n));
            && Reachable(t) && EmitterConnected(t, comp, h, n, s.nextServant + 1)
            && h in t.heap && SameRefs(s.heap[h], t.heap[h])
            && t.draws == s.draws && t.components == s.components && s.nextServant + 1 < t.nextServant
            && t.poa == if EmitterOid(comp, n) in s.poa then s.poa
                        else s.poa[EmitterOid(comp, n) := Active(PushServant(s.nextServant + 1))]
  {
    hide Reachable, Next, Serving, Holds, EmitterOid, Free;
    var x, y := Connecting(comp, n)[0], Connecting(comp, n)[1];
    RunTwo(s, x, y);
    assert Connecting(comp, n) == [x, y];
    ReachableDraws(s);
    DeclareStep(s, comp, h, n);
    ReachableNext(s, x);
    ConnectStep(Next(s, x), comp, h, n);
    ReachableNext(Next(s, x), y);
  }

  lemma ReachableDraws(s: System)
    requires Reachable(s)
    ensures s.draws <= MODULUS
  {
  }

  lemma {:induction false} RunConcat(s: System, first: seq<Step>, second: seq<Step>)
    ensures Run(s, first + second) == Run(Run(s, first), second)
    decreases |first|
  {
    hide Next;
    if first == [] {
      assert first + second == second;
    } else {
      assert (first + second)[1..] == first[1..] + second;
      RunConcat(Next(s, first[0]), first[1..], second);
    }
  }

  lemma RunTwo(s: System, x: Step, y: Step)
    ensures Run(s, [x, y]) == Next(Next(s, x), y)
  {
    hide Next;
    RunSnoc(s, [x], y);
    assert [x] + [y] == [x, y] && [x][1..] == [];
    assert Run(Next(s, x), []) == Next(s, x);
  }

  lemma RunThree(s: System, x: Step, y: Step, z: Step)
    ensures Run(s, [x, y, z]) == Next(Next(Next(s, x), y), z)
  {
    hide Next;
    RunTwo(s, x, y);
    RunSnoc(s, [x, y], z);
    assert [x, y] + [z] == [x, y, z];
  }

  lemma EmitterName(s: System, comp: string, h: nat, n: string)
    requires Reachable(s) && Serving(s, comp, h) && Free(n, '/')
    ensures Split(EmitterOid(comp, n), '/') == [comp, n, EMITTER_CK] && EmitterOid(comp, n) != comp
    ensures Split(comp, '/') == [comp]
  {
    hide Reachable, Split, Free, CreateOid, HeapOk, MapOk, PoaOk, RemovedOk, IssuedOk, GroupsOk, PlacesOk, CookiesOk;
    ReachableInv(s);
    CreatedFree(s, comp);
    EmitterClean();
    ComponentAlone(comp);
    ReadCreateLocal(comp, n, EMITTER_CK);
    assert |[comp]| != |[comp, n, EMITTER_CK]|;
  }

  // The object id was handed out, its consumer servant waits to be released,
  // and the release raises.
  ghost predicate NotGivenBack(s: System, oid: string) {
    && oid in s.issued && oid in s.poa && s.poa[oid].Deactivating? && s.poa[oid].servant.PushServant?
    && ReleaseServant(s.components.Keys, s.heap, oid, s.poa[oid].servant) == NotReleased(ObjectNotExist)
  }

  lemma PushActive(s: System, oid: string)
    requires Reachable(s) && oid in s.poa && |Split(oid, '/')| == 3
    ensures s.poa[oid].servant.PushServant?
  {
    hide Reachable, Split, AgesOk;
    ReachableServed(s);
    assert OidServed(s, oid);
  }

  // Once the home is removed the servant of a consumer left active is not
  // released any more.
  lemma HomeRemovedFirst(s: System, comp: string, h: nat, n: string, x: nat)
    requires Reachable(s) && EmitterConnected(s, comp, h, n, x) && Free(n, '/')
    ensures var oid := EmitterOid(comp, n);
            var t := Run(s, [RemoveHome, Passivate(oid)]);
            Reachable(t) && t.homeRemoved && NotGivenBack(t, oid)
  {
    hide Reachable, Split, CreateOid, ReleaseServant, Holds, EmitterOid;
    var oid := EmitterOid(comp, n);
    EmitterName(s, comp, h, n);
    RunTwo(s, RemoveHome, Passivate(oid));
    ReachableDraws(s);
    ReachableNext(s, RemoveHome);
    ReachableNext(Next(s, RemoveHome), Passivate(oid));
    PushActive(Run(s, [RemoveHome, Passivate(oid)]), oid);
    ReleaseRaisesIff(Run(s, [RemoveHome, Passivate(oid)]), oid);
  }

  // Nor is it with the home in place, once the component was removed and
  // etherealized before it.
  function Removing(comp: string, n: string): seq<Step> {
    [Request(comp, OpRemove(true)), Etherealize(comp, false), Passivate(EmitterOid(comp, n))]
  }

  lemma RemoveStep(s: System, comp: string, h: nat)
    requires Serving(s, comp, h) && Covers(s.components, s.heap) && InAdapter(s, h) && s.heap[h].oid == comp
    requires !CallRefused(s, h, OpRemove(true))
    ensures var t := Next(s, Request(comp, OpRemove(true)));
            && t.draws == s.draws && t.components == s.components && t.homeRemoved == s.homeRemoved
            && t.issued >= s.issued && t.poa.Keys == s.poa.Keys && t.faultTolerant == s.faultTolerant
            && t.poa[comp] == Deactivating(ComponentServant(h)) && h in t.heap && t.heap[h].removed
  {
    var op := OpRemove(true);
    hide CreateOid, PortOids, CallRefused, Covers, Next;
    RequestStep(s, comp, h, op);
  }

  lemma ComponentRemovedFirst(s: System, comp: string, h: nat, n: string, x: nat)
    requires Reachable(s) && EmitterConnected(s, comp, h, n, x) && Free(n, '/')
    requires Covers(s.components, s.heap) && !CallRefused(s, h, OpRemove(true))
    ensures var oid := EmitterOid(comp, n);
            var t := Run(s, Removing(comp, n));
            Reachable(t) && !t.homeRemoved && NotGivenBack(t, oid)
  {
    hide Reachable, Split, CreateOid, ReleaseServant, Holds, EmitterOid;
    var oid := EmitterOid(comp, n);
    EmitterName(s, comp, h, n);
    var x, y, z := Request(comp, OpRemove(true)), Etherealize(comp, false), Passivate(oid);
    assert Removing(comp, n) == [x, y, z];
    RunThree(s, x, y, z);
    ReachableDraws(s);
    ServingAnswered(s, comp, h, OpConfigurationComplete);
    RemoveStep(s, comp, h);
    var s1 := Next(s, x);
    ReachableNext(s, x);
    EtherealizeForgets(s1, comp);
    EtherealizeFrame(s1, comp);
    var s2 := Next(s1, y);
    ReachableNext(s1, y);
    ReachableNext(s2, z);
    PushActive(Next(s2, z), oid);
    ReleaseRaisesIff(Next(s2, z), oid);
  }

  lemma EtherealizeFrame(s: System, oid: string)
    ensures var t := Next(s, Etherealize(oid, false));
            && t.draws == s.draws && t.homeRemoved == s.homeRemoved && t.issued == s.issued && t.heap == s.heap
            && t.nextServant == s.nextServant && s.poa.Keys - {oid} <= t.poa.Keys
            && (forall o | o in t.poa && o != oid :: o in s.poa && t.poa[o] == s.poa[o])
            && t == DoEtherealize(s, oid, false)
  {
    hide ReleaseServant;
    var t := DoEtherealize(s, oid, false);
    EtherealizeRest(s, oid, t);
  }

  lemma EtherealizeRest(s: System, oid: string, t: System)
    requires t == DoEtherealize(s, oid, false)
    ensures t == s.(poa := t.poa, components := t.components, groups := t.groups)
    ensures t.poa == s.poa || t.poa == s.poa - {oid}
  {
    hide ReleaseServant;
  }

  // ----- Passivating and incarnating again -----

  function Reincarnating(comp: string): seq<Step> {
    [Passivate(comp), Etherealize(comp, false), Incarnate(comp, false, true)]
  }

  lemma KnownAgain(s: System, comp: string, h: nat)
    requires Inv(s) && Covers(s.components, s.heap) && Live(s, comp, h) && comp !in s.poa
    ensures var t := Next(s, Incarnate(comp, false, true));
            && Serving(t, comp, s.nextServant) && t.heap[s.nextServant] == NewComponent(comp, false)
            && t.nextServant == s.nextServant + 1 && t.draws == s.draws
            && t.poa == s.poa[comp := Active(ComponentServant(s.nextServant))]
  {
    hide Split, Covers, HeapOk, MapOk, PoaOk, RemovedOk, IssuedOk, GroupsOk, PlacesOk, CookiesOk, HasPort,
      LocalPushConsumer;
    CreatedFree(s, comp);
    ComponentAlone(comp);
  }

  // A component that was passivated and etherealized is served on its next
  // request by a new servant; what else was active stays active.
  lemma ReincarnatedServes(s: System, comp: string, h: nat)
    requires Reachable(s) && Serving(s, comp, h)
    ensures var t := Run(s, Reincarnating(comp));
            && Reachable(t) && Serving(t, comp, s.nextServant) && t.heap[s.nextServant] == NewComponent(comp, false)
            && s.nextServant < t.nextServant
            && forall o | o in s.poa && o != comp :: o in t.poa && t.poa[o] == s.poa[o]
  {
    hide Reachable, ReleaseServant, Inv, Covers, LookupServant, NewComponent;
    var x, y, z := Passivate(comp), Etherealize(comp, false), Incarnate(comp, false, true);
    assert Reincarnating(comp) == [x, y, z];
    RunThree(s, x, y, z);
    ReachableDraws(s);
    ReachableNext(s, x);
    var s1 := Next(s, x);
    EtherealizeForgets(s1, comp);
    EtherealizeFrame(s1, comp);
    ReachableNext(s1, y);
    var s2 := Next(s1, y);
    ReachableInv(s2);
    hide DoPassivate, DoEtherealize;
    KnownAgain(s2, comp, h);
    ReachableNext(s2, z);
  }

  // If an emitter was connected before, and one of the same name is connected
  // on the new servant, requests still go to the consumer of the old one.
  lemma ReincarnationDiverts(s: System, comp: string, h: nat, n: string, x: nat)
    requires Reachable(s) && EmitterConnected(s, comp, h, n, x) && Free(n, '/') && Free(n, '\0')
    requires s.poa[EmitterOid(comp, n)] == Active(PushServant(x))
    ensures var oid := EmitterOid(comp, n);
            var t := Run(s, Reincarnating(comp) + Connecting(comp, n));
            && Reachable(t) && oid in t.poa && t.poa[oid] == Active(PushServant(x))
            && exists g: nat, y: nat :: Denotes(t, oid, comp, g, n, EMITTER_CK, y) && x < g < y
  {
    hide Reachable, Holds, CreateOid, Serving, Reincarnating, Connecting, Free, Split;
    var oid := EmitterOid(comp, n);
    OlderServant(s, comp, h, n, x);
    EmitterName(s, comp, h, n);
    RunConcat(s, Reincarnating(comp), Connecting(comp, n));
    ReincarnatedServes(s, comp, h);
    var u := Run(s, Reincarnating(comp));
    ConnectingConnects(u, comp, s.nextServant, n);
    var t := Run(u, Connecting(comp, n));
    ServingLive(t, comp, s.nextServant);
    assert Denotes(t, oid, comp, s.nextServant, n, EMITTER_CK, u.nextServant + 1);
  }

  lemma ServingLive(s: System, comp: string, h: nat)
    requires Serving(s, comp, h)
    ensures Live(s, comp, h)
  {
  }

  lemma OlderServant(s: System, comp: string, h: nat, n: string, x: nat)
    requires Reachable(s) && EmitterConnected(s, comp, h, n, x)
    ensures x < s.nextServant
  {
    hide Reachable, Holds, CreateOid, IdsOk, HeapOk, MapOk, PoaOk, RemovedOk, IssuedOk, GroupsOk, CookiesOk;
    ReachableInv(s);
  }

  // ----- Such states are reached -----

  // From the start: one component, its first request, and an emitter connected.
  function Starting(now: Timeval): seq<Step> {
    [CreateComponent(now, None, true), Incarnate(Stamp(now, Drawn(1)), false, true)]
  }

  lemma StartServes(now: Timeval)
    ensures var comp := Stamp(now, Drawn(1));
            var s := Run(Init(false), Starting(now));
            && Reachable(s) && Serving(s, comp, 0) && s.heap[0] == NewComponent(comp, false)
            && s.draws == 1 && s.nextServant == 1 && s.poa == map[comp := Active(ComponentServant(0))]
  {
    hide Reachable, Stamp, Drawn, Split, NewComponent;
    var comp := Stamp(now, Drawn(1));
    var x, y := CreateComponent(now, None, true), Incarnate(comp, false, true);
    assert Starting(now) == [x, y];
    RunTwo(Init(false), x, y);
    InitReachable();
    ReachableNext(Init(false), x);
    FirstRequestServes(Init(false), now, None, false);
    ReachableNext(Next(Init(false), x), y);
  }

  lemma StartConnects(now: Timeval)
    ensures var comp := Stamp(now, Drawn(1));
            var s := Run(Init(false), Starting(now) + Connecting(comp, "out"));
            && Reachable(s) && EmitterConnected(s, comp, 0, "out", 2) && 0 in s.heap
            && s.heap[0].oid == comp && s.heap[0].facets == map[] && s.heap[0].consumers == map[]
            && s.poa[EmitterOid(comp, "out")] == Active(PushServant(2))
  {
    hide Reachable, Holds, Serving, Stamp, Drawn, Split, EmitterOid, Connecting, Starting, Run;
    var comp := Stamp(now, Drawn(1));
    var s := Run(Init(false), Starting(now));
    StartServes(now);
    RunConcat(Init(false), Starting(now), Connecting(comp, "out"));
    EmitterName(s, comp, 0, "out");
    ConnectingConnects(s, comp, 0, "out");
  }

  lemma InitReachable()
    ensures Reachable(Init(false))
  {
    assert EndsIn(false, [], Init(false));
  }

  // So both ways in which a release raises are reached from the start.
  lemma RaisesAfterHome(now: Timeval)
    ensures var oid := EmitterOid(Stamp(now, Drawn(1)), "out");
            var first := Starting(now) + Connecting(Stamp(now, Drawn(1)), "out");
            var s := Run(Init(false), first + [RemoveHome, Passivate(oid)]);
            Reachable(s) && s.homeRemoved && NotGivenBack(s, oid)
  {
    hide Reachable, EmitterConnected, NotGivenBack, Stamp, Drawn, EmitterOid, Starting, Connecting, Run;
    var comp := Stamp(now, Drawn(1));
    StartConnects(now);
    RunConcat(Init(false), Starting(now) + Connecting(comp, "out"), [RemoveHome, Passivate(EmitterOid(comp, "out"))]);
    HomeRemovedFirst(Run(Init(false), Starting(now) + Connecting(comp, "out")), comp, 0, "out", 2);
  }

  lemma NoPortsAsked(s: System, h: nat)
    requires Reachable(s) && h in s.heap && s.heap[h].facets == map[] && s.heap[h].consumers == map[]
    ensures Covers(s.components, s.heap) && !CallRefused(s, h, OpRemove(true))
  {
    hide Reachable, Covers, Inv;
    ReachableInv(s);
    assert Called(s.heap[h], s.draws, OpRemove(true)) == {};
  }

  lemma RaisesWithHome(now: Timeval)
    ensures var comp := Stamp(now, Drawn(1));
            var s := Run(Init(false), Starting(now) + Connecting(comp, "out") + Removing(comp, "out"));
            Reachable(s) && !s.homeRemoved && NotGivenBack(s, EmitterOid(comp, "out"))
  {
    hide Reachable, NotGivenBack, Serving, Holds, Stamp, Drawn, EmitterOid, Starting, Connecting, Removing, Run;
    var comp := Stamp(now, Drawn(1));
    StartConnects(now);
    RunConcat(Init(false), Starting(now) + Connecting(comp, "out"), Removing(comp, "out"));
    NoPortsAsked(Run(Init(false), Starting(now) + Connecting(comp, "out")), 0);
    ComponentRemovedFirst(Run(Init(false), Starting(now) + Connecting(comp, "out")), comp, 0, "out", 2);
  }

  // And so is an emitter whose requests go to the consumer of an older servant.
  lemma DivertsReached(now: Timeval)
    ensures var comp := Stamp(now, Drawn(1));
            var oid := EmitterOid(comp, "out");
            var first := Starting(now) + Connecting(comp, "out");
            var s := Run(Init(false), first + (Reincarnating(comp) + Connecting(comp, "out")));
            && Reachable(s) && oid in s.poa && s.poa[oid] == Active(PushServant(2))
            && exists g: nat, y: nat :: Denotes(s, oid, comp, g, "out", EMITTER_CK, y) && 2 < g < y
  {
    hide Reachable, Denotes, EmitterConnected, Stamp, Drawn, EmitterOid, Starting, Connecting, Reincarnating, Run;
    var comp := Stamp(now, Drawn(1));
    StartConnects(now);
    RunConcat(Init(false), Starting(now) + Connecting(comp, "out"), Reincarnating(comp) + Connecting(comp, "out"));
    ReincarnationDiverts(Run(Init(false), Starting(now) + Connecting(comp, "out")), comp, 0, "out", 2);
  }
}
