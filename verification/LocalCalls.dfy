// The calls an operation makes on its component's own consumers and ports:
// when the home answers them, and what is left where it does not.
module LocalCalls {
  import opened Outcomes
  import opened Text
  import opened Identifiers
  import opened ObjectIds
  import opened Cookies
  import opened Components
  import opened PortInvariants
  import opened PortRefusals
  import opened OperationEffects
  import opened Homes
  import opened Lifecycle
  import opened Dispatch
  import opened AdapterServants
  import opened Delivery
  import opened AdapterEffects

  // ----- When a call is answered -----

  // The servant a call on a local consumer looks for, while subscribe,
  // connect_consumer, unsubscribe or disconnect_consumer runs, is found
  // exactly while the home is there.
  lemma CallFoundIff(s: System, h: nat, op: Op, o: string)
    requires Reachable(s) && InAdapter(s, h) && !op.OpRemove? && o in Called(s.heap[h], s.draws, op)
    requires op.OpSubscribe? ==> s.draws < MODULUS
    ensures Covers(s.components, s.heap)
    ensures var d := DuringCalls(s.heap[h], s.draws, op);
            LookupServant(s.homeRemoved, s.components, s.heap[h := d], o).Found? <==> !s.homeRemoved
  {
    hide Reachable, Covers, Called, DuringCalls, CreateOid, Holds, Split, Free, ComponentOk, PortsNamed, IdsOk, HeapOk,
      RemovedOk, IssuedOk, GroupsOk, PlacesOk, CookiesOk;
    ReachableInv(s);
    Clean(s, h);
    var d := DuringCalls(s.heap[h], s.draws, op);
    CoversChanged(s.components, s.heap, h, d);
    if s.homeRemoved {
      RemovedRefuses(s.components, s.heap[h := d], o);
    } else {
      var n, k, x := DuringHolds(s.heap[h], s.draws, op, o);
      hide LookupServant;
      LookupLocal(s.components, s.heap[h := d], s.heap[h].oid, h, n, k, x);
    }
  }

  lemma CoversChanged(components: map<string, ComponentInfo<nat>>, heap: map<nat, Component>, h: nat, d: Component)
    requires Covers(components, heap)
    ensures Covers(components, heap[h := d])
  {
  }

  lemma RemovedRefuses(components: map<string, ComponentInfo<nat>>, heap: map<nat, Component>, o: string)
    requires Covers(components, heap)
    ensures LookupServant(true, components, heap, o) == Refused(ObjectNotExist)
  {
    hide Split;
  }

  // So such an operation is refused a call exactly when the home was removed
  // and the object called is not active already.
  lemma CallRefusedIff(s: System, h: nat, op: Op)
    requires Reachable(s) && InAdapter(s, h) && !op.OpRemove? && (op.OpSubscribe? ==> s.draws < MODULUS)
    ensures Covers(s.components, s.heap)
    ensures CallRefused(s, h, op) <==>
              s.homeRemoved && exists o :: o in Called(s.heap[h], s.draws, op) && !(o in s.poa && s.poa[o].Active?)
  {
    hide Reachable, Covers, Inv, Called, DuringCalls, LookupServant;
    ReachableInv(s);
    forall o | o in Called(s.heap[h], s.draws, op)
      ensures Answers(s, h, DuringCalls(s.heap[h], s.draws, op), o) <==>
        !s.homeRemoved || (o in s.poa && s.poa[o].Active?)
    {
      CallFoundIff(s, h, op, o);
    }
  }

  // For subscribe, whose object id is always new, exactly when the home was
  // removed and a consumer of its own is needed.
  lemma SubscribeRefusedIff(s: System, h: nat, op: Op)
    requires Reachable(s) && InAdapter(s, h) && op.OpSubscribe? && s.draws < MODULUS
    ensures Covers(s.components, s.heap)
    ensures CallRefused(s, h, op) <==> s.homeRemoved && SubscribeNarrows(s.heap[h], op.name, op.connection)
  {
    hide Reachable, Covers, CallRefused, Inv, CreateOid, Stamp, Drawn;
    CallRefusedIff(s, h, op);
    if SubscribeNarrows(s.heap[h], op.name, op.connection) {
      var o := CreateOid(s.heap[h].oid, op.name.value, Stamp(op.now, Drawn(s.draws + 1)));
      NewNotActive(s, h, op.name.value, op.now);
      assert o in Called(s.heap[h], s.draws, op);
    }
  }

  // For the operations on a consumer made before, exactly when the home was
  // removed and that consumer is no longer active.
  ghost predicate ActiveAt(s: System, o: string) {
    o in s.poa && s.poa[o].Active?
  }

  lemma OneCalled(s: System, h: nat, op: Op, o: string)
    requires Reachable(s) && InAdapter(s, h) && !op.OpRemove? && !op.OpSubscribe?
    requires Called(s.heap[h], s.draws, op) == {o}
    ensures Covers(s.components, s.heap)
    ensures CallRefused(s, h, op) <==> s.homeRemoved && !ActiveAt(s, o)
  {
    hide Reachable, Covers, CallRefused, Called;
    CallRefusedIff(s, h, op);
    assert o in Called(s.heap[h], s.draws, op);
  }

  lemma UnsubscribeRefusedIff(s: System, h: nat, name: string, ck: Octets)
    requires Reachable(s) && InAdapter(s, h)
    requires Unsubscribe(s.heap[h], s.draws, Some(name), Some(ck)).reply == Done
    ensures name in s.heap[h].publishers && ck in s.heap[h].publishers[name].subscriptions
    ensures Covers(s.components, s.heap)
    ensures CallRefused(s, h, OpUnsubscribe(Some(name), Some(ck))) <==>
              s.homeRemoved && !s.heap[h].publishers[name].subscriptions[ck].consumer.IsA(PUSH_CONSUMER)
                && !ActiveAt(s, CreateOid(s.heap[h].oid, name, ck))
  {
    hide Reachable, Covers, CallRefused, CreateOid, ComponentOk, SubscriptionOk, Comparable;
    var c := s.heap[h];
    var op := OpUnsubscribe(Some(name), Some(ck));
    ReachablePorts(s, h);
    PublisherAt(c, s.draws, name, !s.homeRemoved);
    SettledEntry(c, s.draws, name, ck, !s.homeRemoved);
    if c.publishers[name].subscriptions[ck].consumer.IsA(PUSH_CONSUMER) {
      NothingCalled(s, h, op);
    } else {
      OneCalled(s, h, op, CreateOid(c.oid, name, ck));
    }
  }

  lemma NothingCalled(s: System, h: nat, op: Op)
    requires Reachable(s) && InAdapter(s, h) && Called(s.heap[h], s.draws, op) == {}
    ensures Covers(s.components, s.heap) && !CallRefused(s, h, op)
  {
    hide Reachable, Covers, Called, Inv;
    ReachableInv(s);
  }

  lemma DisconnectRefusedIff(s: System, h: nat, name: string)
    requires Reachable(s) && InAdapter(s, h)
    requires DisconnectConsumer(s.heap[h], s.draws, Some(name)).reply.GotConsumer?
    ensures Covers(s.components, s.heap)
    ensures CallRefused(s, h, OpDisconnectConsumer(Some(name))) <==>
              s.homeRemoved && !s.heap[h].emitters[name].consumer.IsA(PUSH_CONSUMER)
                && !ActiveAt(s, CreateOid(s.heap[h].oid, name, EMITTER_CK))
  {
    hide Reachable, Covers, CallRefused, CreateOid, ComponentOk;
    var c := s.heap[h];
    var op := OpDisconnectConsumer(Some(name));
    ReachablePorts(s, h);
    EmitterAt(c, s.draws, name, !s.homeRemoved);
    if c.emitters[name].consumer.IsA(PUSH_CONSUMER) {
      NothingCalled(s, h, op);
    } else {
      OneCalled(s, h, op, CreateOid(c.oid, name, EMITTER_CK));
    }
  }

  lemma ConnectRefusedIff(s: System, h: nat, name: string, consumer: ObjRef, servant: nat, accepts: bool)
    requires Reachable(s) && InAdapter(s, h) && name in s.heap[h].emitters
    ensures Covers(s.components, s.heap)
    ensures CallRefused(s, h, OpConnectConsumer(Some(name), consumer, servant, accepts)) <==>
              s.homeRemoved && ConnectNarrows(s.heap[h], Some(name), consumer)
                && !ActiveAt(s, CreateOid(s.heap[h].oid, name, EMITTER_CK))
  {
    hide Reachable, Covers, CallRefused, CreateOid;
    var op := OpConnectConsumer(Some(name), consumer, servant, accepts);
    if ConnectNarrows(s.heap[h], Some(name), consumer) {
      OneCalled(s, h, op, CreateOid(s.heap[h].oid, name, EMITTER_CK));
    } else {
      NothingCalled(s, h, op);
    }
  }

  // Once the home is removed, a component refuses to be removed exactly when
  // it is not monolithic and some facet or sink of it is not active.
  lemma RemoveRefusedIff(s: System, h: nat)
    requires Reachable(s) && InAdapter(s, h) && s.homeRemoved && !s.heap[h].removed
    ensures Covers(s.components, s.heap)
    ensures CallRefused(s, h, OpRemove(true)) <==>
              !s.heap[h].isMonolithic
                && exists n :: HasPort(s.heap[h], n) && !ActiveAt(s, PortOid(s.heap[h], s.heap[h].oid, n))
  {
    hide Reachable, Inv, Covers, PortOid, LookupServant;
    ReachableInv(s);
    var c := s.heap[h];
    assert s.heap[h := c] == s.heap;
    var called := Called(c, s.draws, OpRemove(true));
    forall o | o in called ensures Answers(s, h, c, o) <==> ActiveAt(s, o) {
      RemovedRefuses(s.components, s.heap, o);
    }
    forall o | o in called ensures exists n :: HasPort(c, n) && o == PortOid(c, c.oid, n) {
      PortOfRef(s, h, o);
    }
    if !c.isMonolithic {
      forall n | HasPort(c, n) ensures PortOid(c, c.oid, n) in called {
        PortCalled(s, h, n);
      }
    }
  }

  lemma PortCalled(s: System, h: nat, n: string)
    requires Inv(s) && h in s.heap && HasPort(s.heap[h], n)
    ensures PortOid(s.heap[h], s.heap[h].oid, n) in PortOids(s.heap[h].facets) + PortOids(s.heap[h].consumers)
  {
    hide PortOid, IdsOk, HeapOk, MapOk, PoaOk, RemovedOk, IssuedOk, GroupsOk, PlacesOk, CookiesOk;
    PortRefsAt(s, h);
    var c := s.heap[h];
    if n in c.facets { assert c.facets[n].oid in PortOids(c.facets); }
    else { assert c.consumers[n].oid in PortOids(c.consumers); }
  }

  lemma NewNotActive(s: System, h: nat, name: string, now: Timeval)
    requires Reachable(s) && InAdapter(s, h) && s.draws < MODULUS && name in s.heap[h].publishers
    ensures CreateOid(s.heap[h].oid, name, Stamp(now, Drawn(s.draws + 1))) !in s.poa
  {
    hide Reachable, CreateOid, Stamp, Drawn, Split, Free, DrawnBefore, HeapOk, MapOk, PoaOk, RemovedOk, IssuedOk,
      GroupsOk, PlacesOk, CookiesOk, KnownOk, AgesOk, Covers, IdsOk;
    ReachableInv(s);
    ReachableServed(s);
    PortNames(s, h);
    CreatedFree(s, s.heap[h].oid);
    NewCookieText(now, s.draws + 1);
    var ck := Stamp(now, Drawn(s.draws + 1));
    ReadCreateLocal(s.heap[h].oid, name, ck);
    var o := CreateOid(s.heap[h].oid, name, ck);
    assert Split(o, '/')[2] == ck;
    assert o in s.poa ==> OidServed(s, o) && DrawnBefore(ck, s.draws);
  }

  // While the home is there a removal is refused only over a port with a slash
  // or a NUL in its name.
  lemma RemoveAnswered(s: System, h: nat, agrees: bool)
    requires Reachable(s) && InAdapter(s, h) && !s.homeRemoved
    requires forall n | HasPort(s.heap[h], n) :: Free(n, '/') && Free(n, '\0')
    ensures Covers(s.components, s.heap) && !CallRefused(s, h, OpRemove(agrees))
  {
    hide Reachable, Inv, Covers, Free, PortOid, LookupServant;
    ReachableInv(s);
    var c := s.heap[h];
    if !c.removed {
      KnownLive(s, h);
      assert s.heap[h := c] == s.heap;
      forall o | o in Called(c, s.draws, OpRemove(agrees)) ensures Answers(s, h, c, o) {
        PortOfRef(s, h, o);
        var n :| HasPort(c, n) && o == PortOid(c, c.oid, n);
        FacetServedIff(s, c.oid, h, n);
      }
    }
  }

  lemma KnownLive(s: System, h: nat)
    requires Inv(s) && InAdapter(s, h) && !s.homeRemoved && !s.heap[h].removed
    ensures Live(s, s.heap[h].oid, h)
  {
    hide Split, IdsOk, HeapOk, MapOk, RemovedOk, IssuedOk, GroupsOk, PlacesOk, CookiesOk;
  }

  lemma PortOfRef(s: System, h: nat, o: string)
    requires Inv(s) && h in s.heap
    requires o in PortOids(s.heap[h].facets) + PortOids(s.heap[h].consumers)
    ensures exists n :: HasPort(s.heap[h], n) && o == PortOid(s.heap[h], s.heap[h].oid, n)
  {
    hide PortOid, IdsOk, HeapOk, MapOk, PoaOk, RemovedOk, IssuedOk, GroupsOk, PlacesOk, CookiesOk;
    PortRefsAt(s, h);
    var c := s.heap[h];
    if n :| n in c.facets && c.facets[n].oid == o {
      assert HasPort(c, n);
    } else {
      var n :| n in c.consumers && c.consumers[n].oid == o;
      assert HasPort(c, n);
    }
  }

  // ----- The runs in which the narrow raises -----

  // A request whose call is refused.
  lemma RefusedStep(s: System, comp: string, h: nat, op: Op)
    requires Covers(s.components, s.heap) && InAdapter(s, h) && s.heap[h].oid == comp
    requires CallRefused(s, h, WithServant(op, s.nextServant))
    ensures var o := WithServant(op, s.nextServant);
            var a := Raising(s.heap[h], s.draws, o, Answering(s, h, o));
            var t := Next(s, Request(comp, op));
            t.heap == s.heap[h := a.comp] && t.draws == a.draws && t.homeRemoved == s.homeRemoved
  {
    hide Apply, MadeLocal, Deactivated, Deactivate, Activate, Issued, CallRefused, Raising, RaisingTold, Answering,
      Covers;
  }

  // A home that was removed around a component that is still active.
  ghost predicate Orphaned(s: System, comp: string, h: nat) {
    s.homeRemoved && InAdapter(s, h) && s.heap[h].oid == comp && !s.heap[h].removed
  }

  lemma RemoveHomeOrphans(s: System, comp: string, h: nat)
    requires Reachable(s) && Serving(s, comp, h)
    ensures var t := Next(s, RemoveHome);
            && Reachable(t) && Orphaned(t, comp, h)
            && t.heap == s.heap && t.poa == s.poa && t.draws == s.draws
  {
    hide Reachable, CallRefused, Covers;
    ServingAnswered(s, comp, h, OpConfigurationComplete);
    ReachableDraws(s);
    ReachableNext(s, RemoveHome);
  }

  // There a subscribe that needs a consumer of its own leaves an entry that
  // the channel knows nothing of.
  lemma OrphanSubscribes(s: System, comp: string, h: nat, op: Op)
    requires Reachable(s) && Orphaned(s, comp, h) && op.OpSubscribe? && s.draws < MODULUS
    requires SubscribeNarrows(s.heap[h], op.name, op.connection)
    ensures var t := Next(s, Request(comp, op));
            && Reachable(t) && h in t.heap && op.name.value in t.heap[h].publishers
            && !ChannelAgrees(t.heap[h].publishers[op.name.value], true)
            && ComponentOk(t.heap[h], t.draws, false)
  {
    hide Reachable, CallRefused, Covers, ChannelAgrees, ComponentOk, Stamp, Drawn, CreateOid, Next, SubscribeInserted;
    var o := WithServant(op, s.nextServant);
    SubscribeRefusedIff(s, h, o);
    RefusedStep(s, comp, h, op);
    ReachablePorts(s, h);
    Unsettle(s.heap[h], s.draws, !s.homeRemoved);
    NarrowFailureStrands(s.heap[h], s.draws, op.name.value, op.connection, op.now, s.nextServant, false);
    ReachableNext(s, Request(comp, op));
    ReachablePorts(Next(s, Request(comp, op)), h);
  }

  // And a connect_consumer that does leaves the emitter stranded.
  lemma OrphanConnects(s: System, comp: string, h: nat, op: Op)
    requires Reachable(s) && Orphaned(s, comp, h) && op.OpConnectConsumer?
    requires ConnectNarrows(s.heap[h], op.name, op.connection)
    requires var oid := CreateOid(comp, op.name.value, EMITTER_CK); !(oid in s.poa && s.poa[oid].Active?)
    ensures var t := Next(s, Request(comp, op));
            Reachable(t) && h in t.heap && Stranded(t.heap[h], op.name.value)
  {
    hide Reachable, CallRefused, Covers, ComponentOk, CreateOid, Next, Stranded;
    var o := WithServant(op, s.nextServant);
    assert CreateOid(comp, op.name.value, EMITTER_CK) in Called(s.heap[h], s.draws, o);
    CallRefusedIff(s, h, o);
    RefusedStep(s, comp, h, op);
    ReachablePorts(s, h);
    NarrowFailureStrandsEmitter(s.heap[h], s.draws, op.name.value, op.connection, s.nextServant, !s.homeRemoved);
    ReachableDraws(s);
    ReachableNext(s, Request(comp, op));
  }

  // Both happen on runs from the start: one component, its port declared, the
  // home removed, and a consumer that takes no pushed events itself.
  function EmitterRun(comp: string): seq<Step> {
    [Request(comp, OpDeclareEmitter("out", EVENT, true)), RemoveHome,
     Request(comp, OpConnectConsumer(Some("out"), SINK, 0, true))]
  }

  lemma NarrowRaisesInConnect(now: Timeval)
    ensures var comp := Stamp(now, Drawn(1));
            var t := Run(Init(false), Starting(now) + EmitterRun(comp));
            Reachable(t) && t.homeRemoved && 0 in t.heap && Stranded(t.heap[0], "out")
  {
    hide Reachable, Stamp, Drawn, Starting, Serving, CreateOid, Run, Stranded, Orphaned;
    var comp := Stamp(now, Drawn(1));
    var s := Run(Init(false), Starting(now));
    StartServes(now);
    var x, z := EmitterRun(comp)[0], EmitterRun(comp)[2];
    RunConcat(Init(false), Starting(now), EmitterRun(comp));
    RunThree(s, x, RemoveHome, z);
    assert EmitterRun(comp) == [x, RemoveHome, z];
    hide Next;
    NoEmitters(comp);
    DeclareStep(s, comp, 0, "out");
    ReachableDraws(s);
    ReachableNext(s, x);
    var s1 := Next(s, x);
    RemoveHomeOrphans(s1, comp, 0);
    var s2 := Next(s1, RemoveHome);
    EmitterName(s, comp, 0, "out");
    OrphanedNow(s2, comp, 0);
    NarrowsSink(s2.heap[0]);
    OrphanConnects(s2, comp, 0, z.op);
    StaysRemoved(s2, z);
  }

  lemma NoEmitters(comp: string)
    ensures "out" !in NewComponent(comp, false).emitters && "out" !in NewComponent(comp, false).publishers
    ensures Free("out", '/') && Free("out", '\0')
  {
  }

  lemma OrphanedNow(s: System, comp: string, h: nat)
    requires Orphaned(s, comp, h)
    ensures s.homeRemoved && h in s.heap && !s.heap[h].removed
  {
  }

  lemma NarrowsSink(c: Component)
    requires !c.removed
    ensures "out" in c.emitters && c.emitters["out"].repId == EVENT && c.emitters["out"].consumer.Nil? ==>
              ConnectNarrows(c, Some("out"), SINK)
    ensures "out" in c.publishers && c.publishers["out"].repId == EVENT ==> SubscribeNarrows(c, Some("out"), SINK)
  {
  }

  lemma StaysRemoved(s: System, step: Step)
    requires s.homeRemoved
    ensures Next(s, step).homeRemoved
  {
    hide LookupServant, ReleaseServant, Carry, Stamp, Covers;
  }

  function PublisherRun(comp: string, now: Timeval): seq<Step> {
    [Request(comp, OpDeclarePublisher("out", EVENT, true)), RemoveHome,
     Request(comp, OpSubscribe(Some("out"), SINK, now, 0, true))]
  }

  lemma DeclarePublisherStep(s: System, comp: string, h: nat)
    requires Reachable(s) && Serving(s, comp, h) && "out" !in s.heap[h].publishers
    ensures var t := Next(s, Request(comp, OpDeclarePublisher("out", EVENT, true)));
            && Serving(t, comp, h) && t.draws == s.draws
            && "out" in t.heap[h].publishers && t.heap[h].publishers["out"].repId == EVENT
  {
    var op := OpDeclarePublisher("out", EVENT, true);
    hide Next, CallRefused, Reachable;
    ServingAnswered(s, comp, h, op);
    RequestStep(s, comp, h, op);
    hide Deactivate;
    NothingOff(s.poa);
  }

  lemma NarrowRaisesInSubscribe(now: Timeval)
    ensures var comp := Stamp(now, Drawn(1));
            var t := Run(Init(false), Starting(now) + PublisherRun(comp, now));
            && Reachable(t) && t.homeRemoved && 0 in t.heap && "out" in t.heap[0].publishers
            && !ChannelAgrees(t.heap[0].publishers["out"], true)
  {
    hide Reachable, Stamp, Drawn, Starting, Serving, CreateOid, Run, ChannelAgrees, Orphaned, ComponentOk;
    var comp := Stamp(now, Drawn(1));
    var s := Run(Init(false), Starting(now));
    StartServes(now);
    var x, z := PublisherRun(comp, now)[0], PublisherRun(comp, now)[2];
    RunConcat(Init(false), Starting(now), PublisherRun(comp, now));
    RunThree(s, x, RemoveHome, z);
    assert PublisherRun(comp, now) == [x, RemoveHome, z];
    hide Next;
    NoEmitters(comp);
    DeclarePublisherStep(s, comp, 0);
    ReachableDraws(s);
    ReachableNext(s, x);
    var s1 := Next(s, x);
    RemoveHomeOrphans(s1, comp, 0);
    var s2 := Next(s1, RemoveHome);
    OrphanedNow(s2, comp, 0);
    NarrowsSink(s2.heap[0]);
    OrphanSubscribes(s2, comp, 0, z.op);
    assert z.op.name == Some("out");
    StaysRemoved(s2, z);
  }
}
