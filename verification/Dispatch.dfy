// What holds of a home in every state that any run of requests, activations
// and removals reaches within the first 2^32 identifiers.
module Dispatch {
  import opened Outcomes
  import opened Text
  import opened Identifiers
  import opened ObjectIds
  import opened Cookies
  import opened Components
  import opened PortInvariants
  import opened Homes
  import opened OperationEffects
  import opened Lifecycle

  function Run(s: System, steps: seq<Step>): System
    decreases |steps|
  {
    if steps == [] then s else Run(Next(s, steps[0]), steps[1..])
  }

  // Does the run of these steps on a fresh home end in s?
  ghost predicate EndsIn(faultTolerant: bool, steps: seq<Step>, s: System) {
    s == Run(Init(faultTolerant), steps) && forall i | 0 <= i < |steps| :: Legal(steps[i])
  }

  ghost predicate Reachable(s: System) {
    s.draws <= MODULUS && exists faultTolerant, steps :: EndsIn(faultTolerant, steps, s)
  }

  lemma NextDraws(s: System, step: Step)
    ensures s.draws <= Next(s, step).draws
  {
    hide Apply, LookupServant, ReleaseServant, MadeLocal, Deactivated, Stamp;
    if step.Request? && step.oid in s.poa && s.poa[step.oid].servant.ComponentServant?
        && s.poa[step.oid].servant.h in s.heap {
      DrawingStops(s.heap[s.poa[step.oid].servant.h], s.draws, WithServant(step.op, s.nextServant));
    }
  }

  lemma {:induction false} RunDraws(s: System, steps: seq<Step>)
    ensures s.draws <= Run(s, steps).draws
    decreases |steps|
  {
    hide Next;
    if steps != [] {
      NextDraws(s, steps[0]);
      RunDraws(Next(s, steps[0]), steps[1..]);
    }
  }

  lemma {:induction false} RunKeepsInv(s: System, steps: seq<Step>)
    requires Inv(s) && Run(s, steps).draws <= MODULUS
    requires forall i | 0 <= i < |steps| :: Legal(steps[i])
    ensures Inv(Run(s, steps))
    decreases |steps|
  {
    hide Next, Inv, Legal;
    if steps != [] {
      RunDraws(Next(s, steps[0]), steps[1..]);
      NextKeeps(s, steps[0]);
      RunKeepsInv(Next(s, steps[0]), steps[1..]);
    }
  }

  lemma ReachableInv(s: System)
    requires Reachable(s)
    ensures Inv(s) && Covers(s.components, s.heap) && s.draws <= MODULUS
  {
    hide Inv, Init, Run, Covers;
    var faultTolerant, steps :| EndsIn(faultTolerant, steps, s);
    InitInv(faultTolerant);
    RunKeepsInv(Init(faultTolerant), steps);
    InvHome(s);
  }

  lemma InitInv(faultTolerant: bool)
    ensures Inv(Init(faultTolerant))
  {
  }

  lemma InvHome(s: System)
    requires Inv(s)
    ensures Covers(s.components, s.heap)
  {
    InvCovers(s);
  }

  // ----- Dispatch -----

  // A component the home serves, with the servant it serves it by.
  ghost predicate Live(s: System, comp: string, h: nat) {
    && !s.homeRemoved && comp in s.components && s.components[comp].servant == Some(h)
    && h in s.heap && !s.heap[h].removed
  }

  // The object id of the local push consumer standing for a publisher's
  // cookie, or for an emitter, of a live component.
  ghost predicate Denotes(s: System, oid: string, comp: string, h: nat, source: string, ck: string, servant: nat) {
    Live(s, comp, h) && Holds(s.heap[h], source, ck, servant) && oid == CreateOid(comp, source, ck)
  }

  lemma HeldNames(s: System, h: nat, source: string, ck: string, servant: nat)
    requires Inv(s) && h in s.heap && Holds(s.heap[h], source, ck, servant)
    ensures Free(source, '/') && Free(source, '\0') && Free(ck, '/') && Free(ck, '\0') && ck != ""
  {
    hide DrawOf, MapOk, PoaOk, RemovedOk, IssuedOk, GroupsOk, PlacesOk, CookiesOk, ChannelAgrees;
    assert ComponentOk(s.heap[h], s.draws, !s.homeRemoved) && PortsNamed(s.heap[h]);
    if ck != EMITTER_CK {
      PublisherAt(s.heap[h], s.draws, source, !s.homeRemoved);
    }
  }

  // The object id made for a live local push consumer is decoded to exactly
  // the servant stored for it.
  lemma DispatchFinds(s: System, oid: string, comp: string, h: nat, source: string, ck: string, servant: nat)
    requires Reachable(s) && Denotes(s, oid, comp, h, source, ck, servant)
    ensures Covers(s.components, s.heap)
    ensures LookupServant(s.homeRemoved, s.components, s.heap, oid) == Found(PushServant(servant))
  {
    hide Reachable, Holds, LookupServant, CreateOid, Covers, Free, HeapOk, MapOk, PoaOk, RemovedOk, IssuedOk, GroupsOk,
      PlacesOk, CookiesOk;
    ReachableInv(s);
    HeldNames(s, h, source, ck, servant);
    CreatedFree(s, comp);
    LookupLocal(s.components, s.heap, comp, h, source, ck, servant);
  }

  // And no other object id is decoded to a local push consumer: not one with
  // another cookie, nor a publisher's for an emitter's.
  lemma DispatchFindsOnly(s: System, oid: string, servant: nat)
    requires Reachable(s) && Covers(s.components, s.heap)
    requires LookupServant(s.homeRemoved, s.components, s.heap, oid) == Found(PushServant(servant))
    ensures exists comp, h, source, ck :: Denotes(s, oid, comp, h, source, ck, servant)
  {
    hide Reachable, Holds, Split, LocalPushConsumer, HasPort, Inv;
    ReachableInv(s);
    var names := Split(oid, '/');
    var comp, source, ck := names[0], names[1], names[2];
    var h := s.components[comp].servant.value;
    PieceFree(oid, 2);
    LocalPushConsumerHolds(s.heap[h], source, ck, servant);
    HeldNames(s, h, source, ck, servant);
    ReadThree(oid);
    assert Denotes(s, oid, comp, h, source, ck, servant);
  }

  // No two object ids are decoded to the same local push consumer.
  lemma DispatchInjective(s: System, o: string, p: string, servant: nat)
    requires Reachable(s) && Covers(s.components, s.heap)
    requires LookupServant(s.homeRemoved, s.components, s.heap, o) == Found(PushServant(servant))
    requires LookupServant(s.homeRemoved, s.components, s.heap, p) == Found(PushServant(servant))
    ensures o == p
  {
    hide Reachable, LookupServant, Holds, CreateOid, Covers, IdsOk, HeapOk, MapOk, PoaOk, RemovedOk, IssuedOk,
      GroupsOk, CookiesOk;
    ReachableInv(s);
    DispatchFindsOnly(s, o, servant);
    DispatchFindsOnly(s, p, servant);
    var c, g, m, j :| Denotes(s, o, c, g, m, j, servant);
    var d, h, n, k :| Denotes(s, p, d, h, n, k, servant);
    assert Holds(s.heap[g], m, j, servant) && Holds(s.heap[h], n, k, servant);
    SameServantSameComponent(s, c, d, g);
  }

  lemma SameServantSameComponent(s: System, c: string, d: string, h: nat)
    requires MapOk(s)
    requires c in s.components && d in s.components && s.components[c].servant == s.components[d].servant == Some(h)
    ensures c == d
  {
  }

  // ----- Facets and sinks -----

  lemma PortRefsAt(s: System, h: nat)
    requires HeapOk(s) && h in s.heap
    ensures PortRefsOk(s.heap[h])
  {
    hide ComponentOk, PortRefsOk, Free;
  }

  // name is what is left of the port's name in the object id handed out.
  lemma LookupFacet(components: map<string, ComponentInfo<nat>>, heap: map<nat, Component>,
                    comp: string, h: nat, name: string, port: string)
    requires Covers(components, heap) && comp in components && components[comp].servant == Some(h) && !heap[h].removed
    requires Free(comp, '/') && Free(comp, '\0') && Free(name, '\0') && HasPort(heap[h], port)
    ensures LookupServant(false, components, heap, CreateOid(comp, name, "")) == Found(PortServant(h, port)) <==>
              name == port && Free(port, '/')
  {
    var oid := CreateOid(comp, name, "");
    assert oid == comp + ['/'] + name;
    assert Free(oid, '\0');
    ReadCreateFacet(comp, name);
    hide Split, CreateOid, HasPort, LocalPushConsumer, Free;
    var names := Split(oid, '/');
    if |names| == 2 && names[1] == port {
      PieceAt(names, 1);
      PieceAt(names, 0);
      TwoPieces(comp, name, names);
    }
  }

  lemma TwoPieces(comp: string, name: string, names: seq<string>)
    requires |names| == 2 && names == Split(CreateOid(comp, name, ""), '/') && Free(comp, '/')
    ensures names[1] == name
  {
    hide Split, Free;
    ComponentPart(comp, name, "");
    assert Join(names, '/') == names[0] + ['/'] + Join(names[1..], '/');
    assert names[1..] == [names[1]];
    assert comp + ['/'] + names[1] == comp + ['/'] + name;
    assert (comp + ['/'] + name)[|comp| + 1..] == name;
    assert (comp + ['/'] + names[1])[|comp| + 1..] == names[1];
  }

  lemma PieceAt(parts: seq<string>, i: nat)
    requires AllFree(parts, '/') && i < |parts|
    ensures Free(parts[i], '/')
  {
  }

  // The object id handed out for a facet or a sink of a live component that is
  // not monolithic is decoded to that port exactly when its name is clean.
  lemma FacetServedIff(s: System, comp: string, h: nat, port: string)
    requires Reachable(s) && Live(s, comp, h) && !s.heap[h].isMonolithic && HasPort(s.heap[h], port)
    ensures Covers(s.components, s.heap)
    ensures var c := s.heap[h];
            var oid := PortOid(c, comp, port);
            && (port in c.facets ==> c.facets[port].oid == oid)
            && (port in c.consumers ==> c.consumers[port].oid == oid)
            && (LookupServant(s.homeRemoved, s.components, s.heap, oid) == Found(PortServant(h, port)) <==>
                  Free(port, '/') && Free(port, '\0'))
  {
    hide Reachable, LookupServant, CreateOid, CString, PortOid, Covers, Free, HeapOk, PoaOk, RemovedOk, IssuedOk,
      GroupsOk, PlacesOk, CookiesOk;
    ReachableInv(s);
    CreatedFree(s, comp);
    PortRefsAt(s, h);
    PortOidRead(s.heap[h], port);
    CStringWhole(port);
    LookupFacet(s.components, s.heap, comp, h, CString(port), port);
  }

  // And a text decoded to that port is that object id.
  lemma FacetServedOnly(s: System, oid: string, h: nat, port: string)
    requires Reachable(s) && Covers(s.components, s.heap)
    requires LookupServant(s.homeRemoved, s.components, s.heap, oid) == Found(PortServant(h, port))
    ensures h in s.heap && HasPort(s.heap[h], port)
    ensures Live(s, s.heap[h].oid, h) && oid == CreateOid(s.heap[h].oid, port, "")
  {
    hide Reachable, Split, CreateOid, LocalPushConsumer, HasPort, IdsOk, HeapOk, PoaOk, RemovedOk, IssuedOk, GroupsOk,
      PlacesOk, CookiesOk;
    ReachableInv(s);
    ReadTwo(oid);
  }

  // While subscribe narrows the reference of the consumer it just made, the
  // object id is already decoded to that consumer.
  lemma NarrowDuringSubscribe(s: System, comp: string, h: nat, name: string, subscriber: ObjRef, now: Timeval)
    requires Reachable(s) && Live(s, comp, h) && s.draws < MODULUS
    requires name in s.heap[h].publishers && !subscriber.Nil? && NarrowPush(subscriber) == NoPush
    ensures var ck := Stamp(now, Drawn(s.draws + 1));
            var d := SubscribeInserted(s.heap[h], name, ck, subscriber, s.nextServant);
            var heap := s.heap[h := d];
            && Covers(s.components, heap)
            && LookupServant(s.homeRemoved, s.components, heap,
              CreateOid(comp, name, ck)) == Found(PushServant(s.nextServant))
  {
    hide Reachable, Stamp, Drawn, DrawOf, Holds, LookupServant, CreateOid, SubscribeInserted, ComponentOk, MapOk,
      PoaOk, RemovedOk, IssuedOk, GroupsOk, PlacesOk, CookiesOk;
    ReachableInv(s);
    var ck := Stamp(now, Drawn(s.draws + 1));
    var c := s.heap[h];
    var d := SubscribeInserted(c, name, ck, subscriber, s.nextServant);
    FreshCookie(c, s.draws, now, !s.homeRemoved);
    StampCharacters(now, Drawn(s.draws + 1));
    InsertedHolds(c, name, ck, subscriber, s.nextServant);
    CreatedFree(s, comp);
    assert PortsNamed(c);
    LookupLocal(s.components, s.heap[h := d], comp, h, name, ck, s.nextServant);
  }

  // ----- Removal -----

  // Once a component's remove succeeded, no object id of it, its own or one
  // of its ports, is given a servant again.
  lemma RemovedNeverServed(s: System, oid: string)
    requires Reachable(s) && Split(oid, '/')[0] in s.removedComps
    ensures Covers(s.components, s.heap)
    ensures LookupServant(s.homeRemoved, s.components, s.heap, oid) == Refused(ObjectNotExist)
  {
    hide Reachable, Split, IdsOk, HeapOk, MapOk, PoaOk, IssuedOk, GroupsOk, PlacesOk, CookiesOk;
    ReachableInv(s);
  }

  // When its own object id is etherealized the home forgets a component
  // exactly if it was removed, and in a fault-tolerant home its group too.
  lemma EtherealizeForgets(s: System, oid: string)
    requires Reachable(s) && oid in s.components
    requires oid in s.poa && s.poa[oid].Deactivating? && s.poa[oid].servant.ComponentServant?
    ensures var t := DoEtherealize(s, oid, false);
            && oid !in t.poa
            && (oid !in t.components <==> s.heap[s.poa[oid].servant.h].removed)
            && (s.faultTolerant ==> (oid !in t.groups <==> s.heap[s.poa[oid].servant.h].removed))
  {
    hide Reachable, Split, HeapOk, RemovedOk, IssuedOk, PlacesOk, CookiesOk;
    ReachableInv(s);
    CreatedFree(s, oid);
    ComponentAlone(oid);
    SingletonRead(oid);
  }

  lemma SingletonRead(oid: string)
    ensures [oid][0] == oid && |[oid]| == 1
  {
  }

  // No object id handed out, by the home or by a component, ever meets the
  // assertions on the component servant, neither when a servant is looked up
  // nor when one is released.
  lemma IssuedNeverAsserts(s: System, oid: string)
    requires Reachable(s) && oid in s.issued
    ensures Covers(s.components, s.heap)
    ensures LookupServant(s.homeRemoved, s.components, s.heap, oid) != Refused(AssertionFailed)
    ensures oid in s.poa ==>
              (s.poa[oid].servant.ComponentServant? ==> s.poa[oid].servant.h in s.heap)
              && ReleaseServant(s.components.Keys, s.heap, oid, s.poa[oid].servant) != NotReleased(AssertionFailed)
  {
    hide Reachable, Split, HasPort, IdsOk, HeapOk, MapOk, RemovedOk, GroupsOk, PlacesOk, CookiesOk;
    ReachableInv(s);
  }

  // An object id meets them exactly when it names a port of a component that
  // the home created and never incarnated.
  lemma AssertsIff(s: System, oid: string)
    requires Covers(s.components, s.heap)
    ensures LookupServant(s.homeRemoved, s.components, s.heap, oid) == Refused(AssertionFailed) <==>
              var names := Split(oid, '/');
              !s.homeRemoved && Free(oid, '\0') && 2 <= |names| <= 3 && names[0] in s.components
                && s.components[names[0]].servant.None?
  {
    hide Split, HasPort;
  }

  // Every object id the home refuses it refuses for one of three reasons.
  lemma LookupAnswers(components: map<string, ComponentInfo<nat>>, heap: map<nat, Component>, homeRemoved: bool,
                      oid: string)
    requires Covers(components, heap)
    ensures var look := LookupServant(homeRemoved, components, heap, oid);
            var names := Split(oid, '/');
            var known := !homeRemoved && Free(oid, '\0') && names[0] in components
              && (components[names[0]].servant.Some? ==> !heap[components[names[0]].servant.value].removed);
            && (look.Create? <==> known && |names| == 1) && (look.Create? ==> look.comp == oid)
            && (look == Refused(Internal) <==> known && |names| > 3)
            && (look == Refused(AssertionFailed) <==>
                  known && 2 <= |names| <= 3 && components[names[0]].servant.None?)
            && (look.Refused? ==> look.error in {ObjectNotExist, Internal, AssertionFailed})
  {
    hide Split, HasPort;
    if |Split(oid, '/')| == 1 { assert Join(Split(oid, '/'), '/') == oid; }
  }

  lemma ReleaseAnswers(known: set<string>, heap: map<nat, Component>, oid: string, servant: Servant<nat>)
    requires servant.ComponentServant? ==> servant.h in heap
    ensures var r := ReleaseServant(known, heap, oid, servant);
            var names := Split(oid, '/');
            var found := Free(oid, '\0') && names[0] in known;
            && (r == NotReleased(ObjectNotExist) <==> !found)
            && (r == NotReleased(Internal) <==> found && |names| > 3)
            && (r == NotReleased(AssertionFailed) <==> found && |names| == 1 && !servant.ComponentServant?)
            && (r.DroppedLast? <==>
                  found && |names| == 1 && servant.ComponentServant? && heap[servant.h].removed)
            && (r.DroppedLast? ==> r.comp == oid)
            && (r == Dropped <==>
                  found && (2 <= |names| <= 3
                    || (|names| == 1 && servant.ComponentServant? && !heap[servant.h].removed)))
  {
    hide Split;
    if |Split(oid, '/')| == 1 { assert Join(Split(oid, '/'), '/') == oid; }
  }

  // After the home is removed nothing is looked up and nothing is released:
  // etherealizing any object id raises, and the servant keeps its reference.
  lemma RemovedHome(s: System, oid: string, servant: Servant<nat>)
    requires Reachable(s) && s.homeRemoved
    requires servant.ComponentServant? ==> servant.h in s.heap
    ensures Covers(s.components, s.heap)
    ensures LookupServant(s.homeRemoved, s.components, s.heap, oid) == Refused(ObjectNotExist)
    ensures ReleaseServant(s.components.Keys, s.heap, oid, servant) == NotReleased(ObjectNotExist)
  {
    hide Reachable, Split, IdsOk, HeapOk, MapOk, PoaOk, RemovedOk, IssuedOk, PlacesOk, CookiesOk;
    ReachableInv(s);
  }

  // ----- From one request to the next -----

  lemma {:induction false} RunSnoc(s: System, steps: seq<Step>, step: Step)
    ensures Run(s, steps + [step]) == Next(Run(s, steps), step)
    decreases |steps|
  {
    hide Next;
    if steps == [] {
      assert [] + [step] == [step] && [step][1..] == [];
    } else {
      assert (steps + [step])[1..] == steps[1..] + [step];
      RunSnoc(Next(s, steps[0]), steps[1..], step);
    }
  }

  lemma ReachableNext(s: System, step: Step)
    requires Reachable(s) && Legal(step) && Next(s, step).draws <= MODULUS
    ensures Reachable(Next(s, step))
  {
    hide Next, Run, Init, Legal;
    var faultTolerant, steps :| EndsIn(faultTolerant, steps, s);
    RunSnoc(Init(faultTolerant), steps, step);
    assert EndsIn(faultTolerant, steps + [step], Next(s, step));
  }

  // The component's own object id is active with the servant that serves it.
  ghost predicate Serving(s: System, comp: string, h: nat) {
    Live(s, comp, h) && comp in s.poa && s.poa[comp].servant == ComponentServant(h)
  }

  // A component reference just made is known, without a servant and not active.
  lemma CreatedFresh(s: System, now: Timeval, group: Option<nat>)
    requires Inv(s) && s.draws < MODULUS && !s.homeRemoved && (s.faultTolerant ==> group.Some?)
    ensures var oid := Stamp(now, Drawn(s.draws + 1));
            var t := DoCreate(s, now, group, true);
            && oid in t.components && t.components[oid].servant.None? && oid !in t.poa
            && Split(oid, '/') == [oid] && Free(oid, '\0')
            && t.heap == s.heap && t.nextServant == s.nextServant && t.poa == s.poa && !t.homeRemoved
            && t.draws == s.draws + 1
  {
    hide Stamp, Drawn, DrawOf, HeapOk, MapOk, RemovedOk, IssuedOk, GroupsOk, PlacesOk, CookiesOk, Split;
    var oid := Stamp(now, Drawn(s.draws + 1));
    StampDraw(now, s.draws + 1);
    CreatedIsNew(s, oid);
    OnePieceName(oid, s.draws + 1);
  }

  // Its first request is served by a new component servant, on which every
  // port is still to be declared.
  lemma FirstRequestServes(s: System, now: Timeval, group: Option<nat>, isMonolithic: bool)
    requires Reachable(s) && s.draws < MODULUS && !s.homeRemoved && (s.faultTolerant ==> group.Some?)
    ensures var oid := Stamp(now, Drawn(s.draws + 1));
            var t := Next(DoCreate(s, now, group, true), Incarnate(oid, isMonolithic, true));
            && Serving(t, oid, s.nextServant) && t.heap[s.nextServant] == NewComponent(oid, isMonolithic)
            && t.poa == s.poa[oid := Active(ComponentServant(s.nextServant))] && t.draws == s.draws + 1
  {
    hide Reachable, Stamp, Drawn, Inv, Covers, DoCreate, Split;
    var oid := Stamp(now, Drawn(s.draws + 1));
    var t := DoCreate(s, now, group, true);
    ReachableInv(s);
    CreatedFresh(s, now, group);
    CreateKnown(s, now, group);
  }

  lemma CreateKnown(s: System, now: Timeval, group: Option<nat>)
    requires Reachable(s) && s.draws < MODULUS
    ensures var t := DoCreate(s, now, group, true); Covers(t.components, t.heap)
  {
    hide Reachable, Stamp, Drawn, Covers, Inv;
    var step := CreateComponent(now, group, true);
    ReachableStates(s, step);
  }

  lemma SubscribedHolds(c: Component, draws: nat, name: string, subscriber: ObjRef, now: Timeval, servant: nat)
    requires !c.removed && name in c.publishers && subscriber.IsA(c.publishers[name].repId)
    requires NarrowPush(subscriber) == NoPush && Stamp(now, Drawn(draws + 1)) !in c.publishers[name].subscriptions
    requires ':' in Stamp(now, Drawn(draws + 1))
    ensures var a := Subscribe(c, draws, Some(name), subscriber, now, servant, true);
            a.draws == draws + 1 && !a.comp.removed && Holds(a.comp, name, Stamp(now, Drawn(draws + 1)), servant)
  {
    hide Stamp, Drawn, CreateOid;
  }

  // While the home is there, calls on local consumers are answered.
  lemma ServingAnswered(s: System, comp: string, h: nat, op: Op)
    requires Reachable(s) && Serving(s, comp, h) && !op.OpRemove? && (op.OpSubscribe? ==> s.draws < MODULUS)
    ensures Covers(s.components, s.heap) && InAdapter(s, h) && s.heap[h].oid == comp && !CallRefused(s, h, op)
  {
    hide Reachable, IdsOk, HeapOk, PoaOk, RemovedOk, IssuedOk, GroupsOk, PlacesOk, CookiesOk, KnownOk, CallRefused,
      Covers;
    ReachableInv(s);
    AnsweredAtHome(s, h, op);
  }

  // Everything a request changes when its calls are answered.
  lemma RequestStep(s: System, comp: string, h: nat, op: Op)
    requires Covers(s.components, s.heap) && InAdapter(s, h) && s.heap[h].oid == comp
    requires !CallRefused(s, h, WithServant(op, s.nextServant))
    ensures var c := s.heap[h];
            var o := WithServant(op, s.nextServant);
            var a := Apply(c, s.draws, o);
            var made := MadeLocal(c, s.draws, o);
            var t := Next(s, Request(comp, op));
            && t.heap == s.heap[h := a.comp] && t.draws == a.draws && t.nextServant == s.nextServant + 1
            && t.components == s.components && t.homeRemoved == s.homeRemoved && t.faultTolerant == s.faultTolerant
            && t.poa == Deactivate(Activate(s.poa, made, s.nextServant), Deactivated(c, o, a.reply))
            && t.issued == s.issued + Issued(made, a.reply)
  {
    hide Apply, MadeLocal, Deactivated, Deactivate, Activate, Issued, CallRefused, Raising, RaisingTold, Answering,
      Covers;
  }

  // Once subscribe has returned for a subscriber that takes no pushed events
  // itself, the object id of its new local consumer is decoded to it.
  lemma SubscribedIsServed(s: System, comp: string, h: nat, name: string, subscriber: ObjRef, now: Timeval)
    requires Reachable(s) && Serving(s, comp, h) && s.draws < MODULUS
    requires name in s.heap[h].publishers && subscriber.IsA(s.heap[h].publishers[name].repId)
    requires NarrowPush(subscriber) == NoPush
    ensures var t := Next(s, Request(comp, OpSubscribe(Some(name), subscriber, now, 0, true)));
            var oid := CreateOid(comp, name, Stamp(now, Drawn(s.draws + 1)));
            && Covers(t.components, t.heap)
            && LookupServant(t.homeRemoved, t.components, t.heap, oid) == Found(PushServant(s.nextServant))
  {
    hide Reachable, Stamp, Drawn, Holds, LookupServant, CreateOid, Subscribe, Covers, Inv, Next, ComponentOk,
      CallRefused, MadeLocal, Deactivated, Deactivate, Activate, Issued;
    var op := OpSubscribe(Some(name), subscriber, now, 0, true);
    var t := Next(s, Request(comp, op));
    var ck := Stamp(now, Drawn(s.draws + 1));
    ServingAnswered(s, comp, h, WithServant(op, s.nextServant));
    RequestStep(s, comp, h, op);
    ReachablePorts(s, h);
    FreshCookie(s.heap[h], s.draws, now, !s.homeRemoved);
    StampCharacters(now, Drawn(s.draws + 1));
    SubscribedHolds(s.heap[h], s.draws, name, subscriber, now, s.nextServant);
    ReachableNext(s, Request(comp, op));
    assert Live(t, comp, h);
    DispatchFinds(t, CreateOid(comp, name, ck), comp, h, name, ck, s.nextServant);
  }

  // A cookie that is in no subscription is not served.
  lemma LookupNone(components: map<string, ComponentInfo<nat>>, heap: map<nat, Component>,
                   comp: string, h: nat, name: string, ck: string)
    requires Covers(components, heap) && comp in components && components[comp].servant == Some(h) && !heap[h].removed
    requires Free(comp, '/') && Free(name, '/') && Free(ck, '/') && ck != "" && ck != EMITTER_CK
    requires Free(comp, '\0') && Free(name, '\0') && Free(ck, '\0')
    requires name in heap[h].publishers && ck !in heap[h].publishers[name].subscriptions
    ensures LookupServant(false, components, heap, CreateOid(comp, name, ck)) == Refused(ObjectNotExist)
  {
    hide Split, CreateOid;
    ReadCreateLocal(comp, name, ck);
    JoinedFree(comp, name, ck, '\0');
    CStringWhole(ck);
  }

  lemma UnsubscribedGone(c: Component, draws: nat, name: string, ck: Octets)
    requires Unsubscribe(c, draws, Some(name), Some(ck)).reply == Done
    ensures name in c.publishers && ck in c.publishers[name].subscriptions
    ensures var d := Unsubscribe(c, draws, Some(name), Some(ck)).comp;
            !d.removed && name in d.publishers && ck !in d.publishers[name].subscriptions
  {
    hide Comparable;
  }

  // Once unsubscribe has returned, the object id that stood for the cookie is
  // refused, even before its servant is etherealized.
  lemma UnsubscribedIsRefused(s: System, comp: string, h: nat, name: string, ck: Octets)
    requires Reachable(s) && Serving(s, comp, h)
    requires Unsubscribe(s.heap[h], s.draws, Some(name), Some(ck)).reply == Done
    ensures var t := Next(s, Request(comp, OpUnsubscribe(Some(name), Some(ck))));
            && Covers(t.components, t.heap)
            && LookupServant(t.homeRemoved, t.components, t.heap, CreateOid(comp, name, ck)) == Refused(ObjectNotExist)
  {
    hide Reachable, LookupServant, CreateOid, Unsubscribe, Covers, Inv, Next, ComponentOk, CallRefused, MadeLocal,
      Deactivated, Deactivate, Activate, Issued;
    var op := OpUnsubscribe(Some(name), Some(ck));
    var t := Next(s, Request(comp, op));
    ReachableInv(s);
    ServingAnswered(s, comp, h, WithServant(op, s.nextServant));
    RequestStep(s, comp, h, op);
    UnsubscribedGone(s.heap[h], s.draws, name, ck);
    CookieNames(s, comp, h, name, ck);
    ReachableStates(s, Request(comp, op));
    LookupNone(t.components, t.heap, comp, h, name, ck);
  }

  lemma ReachableStates(s: System, step: Step)
    requires Reachable(s) && Legal(step) && Next(s, step).draws <= MODULUS
    ensures Covers(Next(s, step).components, Next(s, step).heap)
  {
    hide Reachable, Next, Inv, Covers, Legal;
    ReachableNext(s, step);
    ReachableInv(Next(s, step));
  }

  lemma CookieNames(s: System, comp: string, h: nat, name: string, ck: Octets)
    requires Reachable(s) && Live(s, comp, h)
    requires name in s.heap[h].publishers && ck in s.heap[h].publishers[name].subscriptions
    ensures Free(comp, '/') && Free(comp, '\0') && Free(name, '/') && Free(name, '\0')
    ensures Free(ck, '/') && Free(ck, '\0') && ck != "" && ck != EMITTER_CK
  {
    hide Reachable, DrawOf, Free, ComponentOk, MapOk, PoaOk, RemovedOk, IssuedOk, GroupsOk, PlacesOk, CookiesOk;
    ReachableInv(s);
    CreatedFree(s, comp);
    assert PortsNamed(s.heap[h]);
    CookieDrawn(s.heap[h], s.draws, PublisherPort(name), ck, !s.homeRemoved);
  }

  // ----- Identifiers -----

  // A component reference made within the first 2^32 draws always adds an
  // entry to the home's map.
  lemma CreateAdds(s: System, now: Timeval, group: Option<nat>)
    requires Reachable(s) && s.draws < MODULUS && !s.homeRemoved && (s.faultTolerant ==> group.Some?)
    ensures var t := DoCreate(s, now, group, true);
            var oid := Stamp(now, Drawn(s.draws + 1));
            && |t.components| == |s.components| + 1 && s.components.Keys < t.components.Keys
            && t.components == s.components[oid := ComponentInfo(None)] && oid !in s.components
            && t.issued == s.issued + {oid} && t.heap == s.heap && t.poa == s.poa
  {
    hide Reachable, Stamp, Drawn, DrawnBefore, HeapOk, MapOk, PoaOk, RemovedOk, IssuedOk, PlacesOk, CookiesOk,
      GroupsOk;
    ReachableInv(s);
    var oid := Stamp(now, Drawn(s.draws + 1));
    StampDraw(now, s.draws + 1);
    assert oid !in s.created;
    AddedKey(s.components, oid, ComponentInfo(None));
  }

  lemma AddedKey<V>(m: map<string, V>, k: string, v: V)
    requires k !in m
    ensures |Insert(m, k, v)| == |m| + 1 && m.Keys < Insert(m, k, v).Keys
  {
    assert m[k := v].Keys == m.Keys + {k};
    assert |m.Keys + {k}| == |m.Keys| + 1;
  }

  // ----- Fault-tolerant homes -----

  function FindComponentGroup(s: System, comp: string): Result<nat, Error> {
    if comp in s.groups then Ok(s.groups[comp]) else Raised(ObjectNotExist)
  }

  // Every component a fault-tolerant home knows has a group, and until the
  // home is removed no group is left without its component.
  lemma GroupsAligned(s: System, comp: string)
    requires Reachable(s) && s.faultTolerant
    ensures comp in s.components ==> FindComponentGroup(s, comp).Ok?
    ensures !s.homeRemoved ==> (comp in s.components <==> FindComponentGroup(s, comp).Ok?)
  {
    hide Reachable, IdsOk, HeapOk, MapOk, PoaOk, RemovedOk, IssuedOk, PlacesOk, CookiesOk;
    ReachableInv(s);
  }

  // Removing the home keeps the two maps aligned only if it had no component
  // left: the group map is not cleared.
  lemma RemoveHomeStrandsGroups(s: System)
    requires Reachable(s) && s.faultTolerant && !s.homeRemoved
    ensures var t := DoRemoveHome(s); t.components.Keys == t.groups.Keys <==> s.components == map[]
  {
    hide Reachable, IdsOk, HeapOk, MapOk, PoaOk, RemovedOk, IssuedOk, PlacesOk, CookiesOk;
    ReachableInv(s);
    assert s.components == map[] <==> s.components.Keys == {};
  }

  // ----- Ports in every reachable state -----

  // Each component servant a run creates keeps its port invariant, settled as
  // long as the home is there.
  lemma ReachablePorts(s: System, h: nat)
    requires Reachable(s) && h in s.heap
    ensures ComponentOk(s.heap[h], s.draws, !s.homeRemoved)
  {
    hide Reachable, IdsOk, MapOk, PoaOk, RemovedOk, IssuedOk, PlacesOk, CookiesOk, GroupsOk, ComponentOk;
    ReachableInv(s);
  }

  // Within the first 2^32 identifiers a cookie in use names one port of one
  // component servant, whatever the clock did, and is no component's object id.
  lemma CookiesNameOnePort(s: System, g: nat, h: nat, p: Port, q: Port, k: Octets)
    requires Reachable(s) && g in s.heap && h in s.heap
    requires CookieAt(s.heap[g], p, k) && CookieAt(s.heap[h], q, k)
    ensures g == h && p == q && k !in s.components
  {
    hide Reachable, CookieAt, HeapOk, MapOk, PoaOk, RemovedOk, IssuedOk, PlacesOk, GroupsOk;
    ReachableInv(s);
  }

  // ----- What stays over any run -----

  lemma NextGroup(s: System, step: Step, comp: string)
    requires comp in s.created && Inv(s)
    requires Next(s, step).draws <= MODULUS
    ensures GroupStays(s, Next(s, step), comp)
  {
    hide Inv, GroupStays, DoCreate, DoIncarnate, DoRequest, DoPassivate, DoEtherealize, DoRemoveHome;
    match step
    case CreateComponent(now, group, made) => CreateGroup(s, now, group, made, comp);
    case _ => OtherGroup(s, step, comp);
  }

  // What is recorded of a component's group and its removal, from s to t.
  ghost predicate GroupStays(s: System, t: System, comp: string) {
    && comp in t.created
    && (comp in t.groups ==> comp in s.groups && t.groups[comp] == s.groups[comp])
    && (comp in s.removedComps ==> comp in t.removedComps)
  }

  lemma CreateGroup(s: System, now: Timeval, group: Option<nat>, made: bool, comp: string)
    requires comp in s.created && Inv(s) && DoCreate(s, now, group, made).draws <= MODULUS
    ensures GroupStays(s, DoCreate(s, now, group, made), comp)
  {
    hide Stamp, Drawn, DrawnBefore, HeapOk, MapOk, PoaOk, RemovedOk, IssuedOk, GroupsOk, PlacesOk, CookiesOk, KnownOk;
    if s.draws < MODULUS { StampDraw(now, s.draws + 1); }
  }

  lemma OtherGroup(s: System, step: Step, comp: string)
    requires comp in s.created && !step.CreateComponent?
    ensures GroupStays(s, Next(s, step), comp)
  {
    hide LookupServant, ReleaseServant, Carry, Covers, DoCreate, Deactivate, Activate, Issued;
  }

  lemma {:induction false} RunGroup(s: System, steps: seq<Step>, comp: string)
    requires Inv(s) && comp in s.created && Run(s, steps).draws <= MODULUS
    requires forall i | 0 <= i < |steps| :: Legal(steps[i])
    ensures GroupStays(s, Run(s, steps), comp)
    decreases |steps|
  {
    hide Next, Inv, Legal;
    if steps != [] {
      RunDraws(Next(s, steps[0]), steps[1..]);
      NextGroup(s, steps[0], comp);
      NextKeeps(s, steps[0]);
      RunGroup(Next(s, steps[0]), steps[1..], comp);
    }
  }

  // The group recorded for a new component is the one found for it as long as
  // it is recorded at all.
  lemma GroupForever(s: System, now: Timeval, group: nat, steps: seq<Step>)
    requires Reachable(s) && s.draws < MODULUS && s.faultTolerant && !s.homeRemoved
    requires forall i | 0 <= i < |steps| :: Legal(steps[i])
    requires Run(Next(s, CreateComponent(now, Some(group), true)), steps).draws <= MODULUS
    ensures var oid := Stamp(now, Drawn(s.draws + 1));
            var t := Next(s, CreateComponent(now, Some(group), true));
            && FindComponentGroup(t, oid) == Ok(group)
            && FindComponentGroup(Run(t, steps), oid) in {Ok(group), Raised(ObjectNotExist)}
  {
    hide Reachable, Stamp, Drawn, Run, Next, Inv;
    GroupCreated(s, now, group);
    RunGroup(Next(s, CreateComponent(now, Some(group), true)), steps, Stamp(now, Drawn(s.draws + 1)));
  }

  lemma GroupCreated(s: System, now: Timeval, group: nat)
    requires Reachable(s) && s.draws < MODULUS && s.faultTolerant && !s.homeRemoved
    ensures var oid := Stamp(now, Drawn(s.draws + 1));
            var t := Next(s, CreateComponent(now, Some(group), true));
            Inv(t) && oid in t.created && oid in t.groups && t.groups[oid] == group
  {
    hide Reachable, Stamp, Drawn, HeapOk, MapOk, PoaOk, RemovedOk, IssuedOk, GroupsOk, PlacesOk, CookiesOk, KnownOk,
      DrawnBefore;
    ReachableInv(s);
    StampDraw(now, s.draws + 1);
    NotKnown(s, Stamp(now, Drawn(s.draws + 1)));
    hide IdsOk;
    CreateKeeps(s, now, Some(group), true);
  }

  // Once the remove of a component succeeded no object id of it is given a
  // servant in any state that follows.
  lemma RemovedForever(s: System, comp: string, steps: seq<Step>, oid: string)
    requires Reachable(s) && comp in s.removedComps && Split(oid, '/')[0] == comp
    requires Run(s, steps).draws <= MODULUS && forall i | 0 <= i < |steps| :: Legal(steps[i])
    ensures var t := Run(s, steps);
            && Covers(t.components, t.heap)
            && LookupServant(t.homeRemoved, t.components, t.heap, oid) == Refused(ObjectNotExist)
  {
    hide Reachable, Split, Run, Legal, HeapOk, MapOk, PoaOk, IssuedOk, GroupsOk, PlacesOk, CookiesOk, KnownOk;
    ReachableInv(s);
    RunGroup(s, steps, comp);
    ReachableRun(s, steps);
    RemovedNeverServed(Run(s, steps), oid);
  }

  lemma {:induction false} ReachableRun(s: System, steps: seq<Step>)
    requires Reachable(s) && Run(s, steps).draws <= MODULUS
    requires forall i | 0 <= i < |steps| :: Legal(steps[i])
    ensures Reachable(Run(s, steps))
    decreases |steps|
  {
    hide Next, Reachable, Legal;
    if steps != [] {
      RunDraws(Next(s, steps[0]), steps[1..]);
      ReachableNext(s, steps[0]);
      ReachableRun(Next(s, steps[0]), steps[1..]);
    }
  }
}
