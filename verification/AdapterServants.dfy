// What the servants that the object adapter keeps active have to do with the
// ones the components store: a second invariant of the machine.
module AdapterServants {
  import opened Outcomes
  import opened Text
  import opened Identifiers
  import opened ObjectIds
  import opened Components
  import opened PortInvariants
  import opened Homes
  import opened OperationEffects
  import opened Lifecycle

  // ----- The invariant -----

  // A component's consumer servants were made after its own servant.
  ghost predicate AgesOk(s: System) {
    forall h, n, k, x: nat | h in s.heap && Holds(s.heap[h], n, k, x) :: h < x
  }

  // Object ids in the adapter are readable, and the longest name consumers.
  ghost predicate NameServed(o: string, a: Activation, nextServant: nat) {
    var names := Split(o, '/');
    Free(o, '\0') && |names| <= 3 && (|names| == 3 ==> a.servant.PushServant? && a.servant.id < nextServant)
  }

  // The servant of a cookie is the only one stored for it anywhere.
  ghost predicate CookieServed(o: string, a: Activation, draws: nat, heap: map<nat, Component>) {
    var names := Split(o, '/');
    |names| == 3 && names[2] != EMITTER_CK && a.servant.PushServant? ==>
      DrawnBefore(names[2], draws)
      && forall h, y: nat | h in heap && Holds(heap[h], names[1], names[2], y) :: y == a.servant.id
  }

  // An active servant of an emitter that is younger than the component
  // servant is the one stored there.
  ghost predicate EmitterServed(o: string, a: Activation, components: map<string, ComponentInfo<nat>>,
                                heap: map<nat, Component>)
  {
    var names := Split(o, '/');
    |names| == 3 && names[2] == EMITTER_CK && a.Active? && a.servant.PushServant?
    && names[0] in components && components[names[0]].servant.Some? ==>
      var h := components[names[0]].servant.value;
      h in heap && h < a.servant.id ==> Holds(heap[h], names[1], EMITTER_CK, a.servant.id)
  }

  ghost predicate OidServed(s: System, o: string)
    requires o in s.poa
  {
    && NameServed(o, s.poa[o], s.nextServant)
    && CookieServed(o, s.poa[o], s.draws, s.heap)
    && EmitterServed(o, s.poa[o], s.components, s.heap)
  }

  ghost predicate Served(s: System) {
    AgesOk(s) && forall o | o in s.poa :: OidServed(s, o)
  }

  // ----- Steps that leave the component servants alone -----

  lemma DrawnLater(text: string, draws: nat, later: nat)
    requires DrawnBefore(text, draws) && draws <= later
    ensures DrawnBefore(text, later)
  {
    hide DrawOf, Free;
  }

  // Nothing is activated and no component gets a servant.
  lemma ServedFrame(s: System, t: System)
    requires Served(s) && s.draws <= t.draws && s.nextServant <= t.nextServant && t.heap == s.heap
    requires forall o | o in t.poa ::
               o in s.poa && t.poa[o].servant == s.poa[o].servant && (t.poa[o].Active? ==> s.poa[o].Active?)
    requires forall c | c in t.components && t.components[c].servant.Some? ::
               c in s.components && s.components[c] == t.components[c]
    ensures Served(t)
  {
    hide Split, Holds, DrawnBefore, Free;
    forall o | o in t.poa ensures OidServed(t, o) {
      assert OidServed(s, o);
      var names := Split(o, '/');
      if |names| == 3 && DrawnBefore(names[2], s.draws) {
        DrawnLater(names[2], s.draws, t.draws);
      }
    }
  }

  // ----- Incarnating -----

  // What the home answers for a port.
  lemma LookupPort(s: System, oid: string)
    requires Covers(s.components, s.heap)
    requires LookupServant(s.homeRemoved, s.components, s.heap, oid).Found?
    ensures var names := Split(oid, '/');
            var servant := LookupServant(s.homeRemoved, s.components, s.heap, oid).servant;
            && Free(oid, '\0') && 2 <= |names| <= 3 && names[0] in s.components && s.components[names[0]].servant.Some?
            && (|names| == 3 ==>
                  && servant.PushServant? && s.components[names[0]].servant.value in s.heap
                  && Holds(s.heap[s.components[names[0]].servant.value], names[1], names[2], servant.id))
  {
    hide Split, Holds, LocalPushConsumer, HasPort;
    var names := Split(oid, '/');
    if |names| == 3 {
      PieceFree(oid, 2);
      var h := s.components[names[0]].servant.value;
      LocalPushConsumerHolds(s.heap[h], names[1], names[2],
        LookupServant(s.homeRemoved, s.components, s.heap, oid).servant.id);
    }
  }

  lemma HeldCookie(c: Component, name: string, ck: string, x: nat)
    requires Holds(c, name, ck, x) && ck != EMITTER_CK
    ensures CookieAt(c, PublisherPort(name), ck)
  {
  }

  lemma HeldOnce(c: Component, name: string, ck: string, x: nat, y: nat)
    requires Holds(c, name, ck, x) && Holds(c, name, ck, y)
    ensures x == y
  {
  }

  // The servant a component stores for a cookie is the only one anywhere.
  lemma HeldAlone(s: System, h: nat, name: string, ck: string, x: nat)
    requires CookiesOk(s) && HeapOk(s) && h in s.heap && Holds(s.heap[h], name, ck, x) && ck != EMITTER_CK
    ensures DrawnBefore(ck, s.draws)
    ensures forall g, y: nat | g in s.heap && Holds(s.heap[g], name, ck, y) :: y == x
  {
    hide Holds, CookieAt, DrawnBefore, ComponentOk, PortsNamed;
    HeldCookie(s.heap[h], name, ck, x);
    CookieDrawn(s.heap[h], s.draws, PublisherPort(name), ck, !s.homeRemoved);
    forall g, y: nat | g in s.heap && Holds(s.heap[g], name, ck, y) ensures y == x {
      HeldCookie(s.heap[g], name, ck, y);
      HeldOnce(s.heap[h], name, ck, x, y);
    }
  }

  lemma PortActivated(s: System, oid: string)
    requires Inv(s) && Served(s) && oid !in s.poa && Covers(s.components, s.heap)
    requires LookupServant(s.homeRemoved, s.components, s.heap, oid).Found?
    ensures var servant := LookupServant(s.homeRemoved, s.components, s.heap, oid).servant;
            Served(s.(poa := s.poa[oid := Active(servant)]))
  {
    hide LookupServant, Split, Holds, DrawnBefore, Free, Covers, IdsOk, HeapOk, MapOk, PoaOk, RemovedOk, IssuedOk,
      GroupsOk, CookiesOk;
    var servant := LookupServant(s.homeRemoved, s.components, s.heap, oid).servant;
    var t := s.(poa := s.poa[oid := Active(servant)]);
    LookupPort(s, oid);
    var names := Split(oid, '/');
    if |names| == 3 && names[2] != EMITTER_CK {
      HeldAlone(s, s.components[names[0]].servant.value, names[1], names[2], servant.id);
    }
    forall o | o in t.poa ensures OidServed(t, o) {
      if o != oid { assert OidServed(s, o); }
    }
  }

  lemma OthersServed(s: System, oid: string, isMonolithic: bool, o: string)
    requires HeapOk(s) && MapOk(s) && o in s.poa && o != oid && OidServed(s, o)
    requires forall n, k, x: nat :: !Holds(NewComponent(oid, isMonolithic), n, k, x)
    ensures OidServed(Incarnated(s, oid, isMonolithic), o)
  {
    hide Split, Holds, DrawnBefore, Free, NewComponent, ComponentOk, PortsNamed;
  }

  lemma ComponentActivated(s: System, oid: string, isMonolithic: bool)
    requires HeapOk(s) && MapOk(s) && Served(s) && Split(oid, '/') == [oid] && Free(oid, '\0')
    ensures Served(Incarnated(s, oid, isMonolithic))
  {
    NewComponentOk(oid, isMonolithic, s.draws, !s.homeRemoved);
    hide Split, Holds, DrawnBefore, Free, NewComponent, ComponentOk, HeapOk, MapOk;
    var t := Incarnated(s, oid, isMonolithic);
    forall o | o in t.poa ensures OidServed(t, o) {
      if o != oid { OthersServed(s, oid, isMonolithic, o); }
    }
  }

  lemma IncarnateServed(s: System, oid: string, isMonolithic: bool, servantMade: bool)
    requires Inv(s) && Served(s)
    ensures Served(DoIncarnate(s, oid, isMonolithic, servantMade))
  {
    hide Inv, Served, Covers, Split, NewComponent;
    InvMapped(s);
    hide HeapOk, MapOk;
    InvCovers(s);
    hide LookupServant;
    var look := LookupServant(s.homeRemoved, s.components, s.heap, oid);
    if oid !in s.poa && look.Create? && servantMade {
      LookupCreate(s, oid);
      CreateNulFree(s, oid);
      ComponentActivated(s, oid, isMonolithic);
    } else if oid !in s.poa && look.Found? {
      PortActivated(s, oid);
    }
  }

  lemma InvMapped(s: System)
    requires Inv(s)
    ensures HeapOk(s) && MapOk(s)
  {
    hide HeapOk, MapOk;
  }

  lemma CreateNulFree(s: System, oid: string)
    requires Covers(s.components, s.heap)
    requires LookupServant(s.homeRemoved, s.components, s.heap, oid).Create?
    ensures Free(oid, '\0')
  {
    hide Split;
  }

  // ----- Carrying out a request -----

  // An operation keeps an emitter's consumer servant unless it deactivates it.
  lemma EmitterKept(c: Component, draws: nat, op: Op, name: string, y: nat)
    requires ComponentOk(c, draws, true) && Holds(c, name, EMITTER_CK, y)
    ensures var a := Apply(c, draws, op);
            Holds(a.comp, name, EMITTER_CK, y) || CreateOid(c.oid, name, EMITTER_CK) in Deactivated(c, op, a.reply)
  {
    EmitterAt(c, draws, name, true);
    hide CreateOid, ComponentOk, EmitterOk, Deactivated, Connect, Disconnect, Subscribe, Unsubscribe,
      ConfigurationComplete, DeclareFacet, DeclareConsumer, DeclareReceptacle, DeclareEmitter, DeclarePublisher,
      ConnectConsumer, DisconnectConsumer, Remove;
    match op
    case OpConnectConsumer(n, o, sv, ok) => ConnectKeepsConsumer(c, draws, n, o, sv, ok, name);
    case OpDisconnectConsumer(n) => DisconnectTakesOwn(c, draws, n, name, y);
    case OpRemove(ok) => RemoveKeepsConsumer(c, draws, ok, name, y);
    case OpDeclareEmitter(n, r, ok) => DeclareKeepsConsumer(c, draws, n, r, ok, name);
    case _ =>
  }

  lemma ConnectKeepsConsumer(c: Component, draws: nat, n: Option<string>, o: ObjRef, sv: nat, ok: bool,
                             name: string)
    requires name in c.emitters && EmitterOk(c.oid, name, c.emitters[name], true) && c.emitters[name].servant.Some?
    ensures ConnectConsumer(c, draws, n, o, sv, ok).comp.emitters[name] == c.emitters[name]
  {
    hide CreateOid;
  }

  lemma DisconnectTakesOwn(c: Component, draws: nat, n: Option<string>, name: string, y: nat)
    requires Holds(c, name, EMITTER_CK, y) && EmitterOk(c.oid, name, c.emitters[name], true)
    ensures var op := OpDisconnectConsumer(n);
            var a := DisconnectConsumer(c, draws, n);
            Holds(a.comp, name, EMITTER_CK, y) || CreateOid(c.oid, name, EMITTER_CK) in Deactivated(c, op, a.reply)
  {
    hide CreateOid;
  }

  lemma RemoveKeepsConsumer(c: Component, draws: nat, ok: bool, name: string, y: nat)
    requires Holds(c, name, EMITTER_CK, y)
    ensures Holds(Remove(c, draws, ok).comp, name, EMITTER_CK, y)
  {
  }

  lemma DeclareKeepsConsumer(c: Component, draws: nat, n: string, r: string, ok: bool, name: string)
    requires name in c.emitters
    ensures var d := DeclareEmitter(c, draws, n, r, ok).comp; name in d.emitters && d.emitters[name] == c.emitters[name]
  {
  }

  // The object id an operation activates, by the port it was called for.
  lemma MadeForEmitter(c: Component, draws: nat, op: Op)
    requires op.OpConnectConsumer? && MadeLocal(c, draws, op).Some?
    ensures op.name.Some? && op.name.value in c.emitters
    ensures MadeLocal(c, draws, op) == Some(CreateOid(c.oid, op.name.value, EMITTER_CK))
    ensures Holds(Apply(c, draws, op).comp, op.name.value, EMITTER_CK, op.servant)
  {
    hide CreateOid;
  }

  lemma MadeForPublisher(c: Component, draws: nat, op: Op)
    requires op.OpSubscribe? && MadeLocal(c, draws, op).Some?
    ensures op.name.Some? && op.name.value in c.publishers && Apply(c, draws, op).draws == draws + 1
    ensures MadeLocal(c, draws, op) == Some(CreateOid(c.oid, op.name.value, Stamp(op.now, Drawn(draws + 1))))
  {
    hide CreateOid, Stamp, Drawn, SubscribeInserted, SubscribeConnected;
  }

  // The machine before and after a request to component servant h.
  ghost predicate Requested(s: System, h: nat, op: Op, t: System) {
    Covers(s.components, s.heap) && InAdapter(s, h) && op == WithServant(op, s.nextServant) && LegalOp(op)
    && var c := s.heap[h];
    var k := Carry(s, h, op);
    && k.applied.draws <= MODULUS && (c.oid in s.components ==> s.components[c.oid].servant == Some(h))
    && t == Changed(s, h, k.applied.comp, k.applied.draws, Deactivate(Activate(s.poa, k.made, s.nextServant), k.off),
                    t.issued, t.removedComps)
  }

  lemma RequestedEffect(s: System, h: nat, op: Op, t: System)
    requires Requested(s, h, op, t)
    ensures h in s.heap
    ensures var c := s.heap[h];
            && h in t.heap && t.heap == s.heap[h := t.heap[h]] && s.draws <= t.draws <= MODULUS
            && t.nextServant == s.nextServant + 1 && t.components == s.components
            && op == WithServant(op, s.nextServant)
            && (c.oid in s.components ==> s.components[c.oid].servant == Some(h))
            && HoldsNew(c, s.draws, op, s.nextServant, t.heap[h])
            && Apply(c, s.draws, op).draws == t.draws
            && (t.draws == s.draws && op.OpSubscribe? ==> t.heap[h] == c)
  {
    hide Apply, MadeLocal, Deactivated, Activate, Deactivate, LegalOp, HoldsNew, CallRefused, Raising, RaisingTold,
      Covers, Answering;
    CarryDraws(s, h, op);
    RefusedDraws(s, h, op);
    CarryNew(s, h, op);
    DrawingStops(s.heap[h], s.draws, op);
  }

  // After a request a cookie drawn before it has no other servant than before,
  // and any other none but the new one.
  lemma CookieHolders(s: System, h: nat, op: Op, t: System, name: string, ck: string, g: nat, y: nat)
    requires Requested(s, h, op, t) && HeapOk(s) && g in t.heap && ck != EMITTER_CK && Holds(t.heap[g], name, ck, y)
    ensures g in s.heap
    ensures DrawnBefore(ck, s.draws) ==> Holds(s.heap[g], name, ck, y)
    ensures !DrawnBefore(ck, s.draws) ==> y == s.nextServant
  {
    hide Requested, Apply, Holds, Stamp, Drawn, DrawnBefore, ComponentOk, PortsNamed, CookieAt, WithServant;
    RequestedEffect(s, h, op, t);
    DrawingStops(s.heap[h], s.draws, op);
    if op.OpSubscribe? && s.draws < MODULUS { StampDraw(op.now, s.draws + 1); }
    if Holds(s.heap[g], name, ck, y) {
      HeldCookie(s.heap[g], name, ck, y);
      CookieDrawn(s.heap[g], s.draws, PublisherPort(name), ck, !s.homeRemoved);
    }
  }

  lemma AgesKept(s: System, h: nat, op: Op, t: System)
    requires AgesOk(s) && HeapOk(s) && Requested(s, h, op, t)
    ensures AgesOk(t)
  {
    hide Requested, Holds, Apply, ComponentOk, PortsNamed, Stamp, Drawn, NewPlace;
    RequestedEffect(s, h, op, t);
  }

  // While the home is there, a request keeps an emitter's consumer servant
  // unless it deactivates it.
  lemma ConsumerKept(s: System, h: nat, op: Op, name: string, y: nat)
    requires IdsOk(s) && HeapOk(s) && PoaOk(s) && KnownOk(s) && Covers(s.components, s.heap) && InAdapter(s, h)
    requires !s.homeRemoved && Carry(s, h, op).applied.draws <= MODULUS && Holds(s.heap[h], name, EMITTER_CK, y)
    ensures var k := Carry(s, h, op);
            Holds(k.applied.comp, name, EMITTER_CK, y) || CreateOid(s.heap[h].oid, name, EMITTER_CK) in k.off
  {
    hide IdsOk, HeapOk, PoaOk, KnownOk, Covers, ComponentOk, PortsNamed, Apply, Called, DuringCalls, Answers, Raising,
      RaisingTold, MadeLocal, Deactivated, CreateOid, Holds;
    Clean(s, h);
    CarryDraws(s, h, op);
    if !CallRefused(s, h, op) {
      EmitterKept(s.heap[h], s.draws, op, name, y);
    } else if op.OpRemove? {
      RaisingKeepsConsumer(s.heap[h], s.draws, op, Answering(s, h, op), name, y);
    } else {
      AnsweredAtHome(s, h, op);
    }
  }

  lemma RaisingKeepsConsumer(c: Component, draws: nat, op: Op, answers: set<string>, name: string, y: nat)
    requires op.OpRemove? && !(Called(c, draws, op) <= answers) && Holds(c, name, EMITTER_CK, y)
    ensures Holds(Raising(c, draws, op, answers).comp, name, EMITTER_CK, y)
  {
    hide Unanswered;
  }

  lemma RequestedPoa(s: System, h: nat, op: Op, t: System, o: string)
    requires Requested(s, h, op, t) && o in s.poa && o in t.poa
    ensures t.poa[o].servant == s.poa[o].servant
    ensures t.poa[o].Active? ==> s.poa[o].Active? && o !in Carry(s, h, op).off
    ensures t.heap == s.heap[h := Carry(s, h, op).applied.comp]
  {
    hide Carry, LegalOp;
  }

  // An object id that was in the adapter before.
  lemma OldServed(s: System, h: nat, op: Op, t: System, o: string)
    requires Requested(s, h, op, t) && IdsOk(s) && HeapOk(s) && MapOk(s) && PoaOk(s) && KnownOk(s) && GroupsOk(s)
    requires o in s.poa && OidServed(s, o) && o in t.poa
    ensures OidServed(t, o)
  {
    hide Holds, Requested, IdsOk, HeapOk, PoaOk, KnownOk, Split, DrawnBefore, Free;
    RequestedPoa(s, h, op, t, o);
    RequestedEffect(s, h, op, t);
    hide GroupsOk, Apply, HoldsNew, Carry;
    var names := Split(o, '/');
    if |names| == 3 && s.poa[o].servant.PushServant? {
      if names[2] == EMITTER_CK {
        OldEmitter(s, h, op, t, o);
      } else {
        DrawnLater(names[2], s.draws, t.draws);
        forall g, y: nat | g in t.heap && Holds(t.heap[g], names[1], names[2], y) ensures y == t.poa[o].servant.id {
          CookieHolders(s, h, op, t, names[1], names[2], g, y);
        }
      }
    }
  }

  lemma OldEmitter(s: System, h: nat, op: Op, t: System, o: string)
    requires Requested(s, h, op, t) && IdsOk(s) && HeapOk(s) && MapOk(s) && PoaOk(s) && KnownOk(s) && GroupsOk(s)
    requires o in s.poa && OidServed(s, o) && o in t.poa && |Split(o, '/')| == 3 && Split(o, '/')[2] == EMITTER_CK
    ensures EmitterServed(o, t.poa[o], t.components, t.heap)
  {
    hide Holds, Apply, IdsOk, HeapOk, PoaOk, KnownOk, Split, DrawnBefore, Free, CreateOid, Carry, HoldsNew, LegalOp;
    RequestedPoa(s, h, op, t, o);
    RequestedEffect(s, h, op, t);
    ReadThree(o);
    var name := Split(o, '/')[1];
    if t.poa[o].Active? && t.poa[o].servant.PushServant? && !s.homeRemoved
        && Holds(s.heap[h], name, EMITTER_CK, t.poa[o].servant.id) {
      ConsumerKept(s, h, op, name, t.poa[o].servant.id);
    }
  }

  // The one a request activates.
  lemma NewServed(s: System, h: nat, op: Op, t: System, o: string)
    requires Requested(s, h, op, t) && IdsOk(s) && HeapOk(s) && MapOk(s) && o !in s.poa && o in t.poa
    ensures OidServed(t, o)
  {
    hide Requested, HeapOk, IdsOk, MapOk, OidServed;
    MadeOnly(s, h, op, t, o);
    if op.OpSubscribe? {
      NewPublisherServed(s, h, op, t, o);
    } else {
      NewEmitterServed(s, h, op, t, o);
    }
  }

  lemma ServedByCookie(t: System, o: string, c: string, n: string, ck: string)
    requires o in t.poa && Split(o, '/') == [c, n, ck] && Free(o, '\0') && ck != EMITTER_CK
    requires t.poa[o].servant.PushServant? && t.poa[o].servant.id < t.nextServant && DrawnBefore(ck, t.draws)
    requires forall g, y: nat | g in t.heap && Holds(t.heap[g], n, ck, y) :: y == t.poa[o].servant.id
    ensures OidServed(t, o)
  {
    hide Holds, DrawnBefore, Free, Split;
  }

  lemma ServedByEmitter(t: System, o: string, c: string, n: string)
    requires o in t.poa && Split(o, '/') == [c, n, EMITTER_CK] && Free(o, '\0')
    requires t.poa[o].servant.PushServant? && t.poa[o].servant.id < t.nextServant
    requires c in t.components && t.components[c].servant.Some? && t.components[c].servant.value in t.heap ==>
               Holds(t.heap[t.components[c].servant.value], n, EMITTER_CK, t.poa[o].servant.id)
    ensures OidServed(t, o)
  {
    hide Holds, DrawnBefore, Free, Split;
  }

  // What the new object id of a subscription says when it is read.
  lemma MadeReads(c: Component, draws: nat, op: Op, o: string)
    requires op.OpSubscribe? && MadeLocal(c, draws, op) == Some(o) && draws < MODULUS
    requires Free(c.oid, '/') && Free(c.oid, '\0')
    requires forall n | n in c.publishers :: Free(n, '/') && Free(n, '\0')
    ensures var names := Split(o, '/');
            && |names| == 3 && names == [c.oid, names[1], names[2]] && Free(o, '\0') && names[2] != EMITTER_CK
            && DrawnBefore(names[2], draws + 1) && !DrawnBefore(names[2], draws)
  {
    hide Apply, MadeLocal, Split, DrawnBefore, Free, CreateOid, Stamp, Drawn;
    MadeForPublisher(c, draws, op);
    var n, ck := op.name.value, Stamp(op.now, Drawn(draws + 1));
    NewCookieText(op.now, draws + 1);
    ReadCreateLocal(c.oid, n, ck);
    JoinedFree(c.oid, n, ck, '\0');
  }

  lemma SubscribeDraws(c: Component, draws: nat, op: Op)
    requires op.OpSubscribe? && MadeLocal(c, draws, op).Some?
    ensures Apply(c, draws, op).draws == draws + 1
  {
    hide Subscribe, CreateOid, Stamp;
  }

  lemma NewPublisherServed(s: System, h: nat, op: Op, t: System, o: string)
    requires Requested(s, h, op, t) && IdsOk(s) && HeapOk(s) && op.OpSubscribe? && o in t.poa
    requires MadeLocal(s.heap[h], s.draws, op) == Some(o) && t.poa[o].servant == PushServant(s.nextServant)
    requires t.heap[h] == Apply(s.heap[h], s.draws, op).comp
    ensures OidServed(t, o)
  {
    hide Holds, Apply, MadeLocal, Split, DrawnBefore, Free, HeapOk, IdsOk, OidServed, Requested, WithServant;
    RequestedEffect(s, h, op, t);
    PortNames(s, h);
    var c := s.heap[h];
    CreatedFree(s, c.oid);
    SubscribeDraws(c, s.draws, op);
    MadeReads(c, s.draws, op, o);
    var names := Split(o, '/');
    NewHolders(s, h, op, t, names[1], names[2]);
    ServedByCookie(t, o, c.oid, names[1], names[2]);
  }

  lemma NewHolders(s: System, h: nat, op: Op, t: System, n: string, ck: string)
    requires Requested(s, h, op, t) && HeapOk(s) && ck != EMITTER_CK && !DrawnBefore(ck, s.draws)
    ensures forall g, y: nat | g in t.heap && Holds(t.heap[g], n, ck, y) :: y == s.nextServant
  {
    hide Requested, HeapOk, Holds, Apply, DrawnBefore, WithServant;
    RequestedEffect(s, h, op, t);
    forall g, y: nat | g in t.heap && Holds(t.heap[g], n, ck, y) ensures y == s.nextServant {
      CookieHolders(s, h, op, t, n, ck, g, y);
    }
  }

  lemma NewEmitterServed(s: System, h: nat, op: Op, t: System, o: string)
    requires Requested(s, h, op, t) && IdsOk(s) && HeapOk(s) && MapOk(s) && op.OpConnectConsumer? && o in t.poa
    requires MadeLocal(s.heap[h], s.draws, op) == Some(o) && t.poa[o].servant == PushServant(s.nextServant)
    requires t.heap[h] == Apply(s.heap[h], s.draws, op).comp
    ensures OidServed(t, o)
  {
    var c := s.heap[h];
    hide Holds, Apply, MadeLocal, Split, Free, CreateOid, HeapOk, IdsOk, MapOk, OidServed, Requested;
    RequestedEffect(s, h, op, t);
    PortNames(s, h);
    CreatedFree(s, c.oid);
    MadeForEmitter(c, s.draws, op);
    EmitterClean();
    ReadCreateLocal(c.oid, op.name.value, EMITTER_CK);
    JoinedFree(c.oid, op.name.value, EMITTER_CK, '\0');
    ServedByEmitter(t, o, c.oid, op.name.value);
  }

  lemma MadeOnly(s: System, h: nat, op: Op, t: System, o: string)
    requires Requested(s, h, op, t) && o !in s.poa && o in t.poa
    ensures MadeLocal(s.heap[h], s.draws, op) == Some(o) && (op.OpSubscribe? || op.OpConnectConsumer?)
    ensures t.poa[o].servant == PushServant(s.nextServant)
    ensures h in t.heap && t.heap[h] == Apply(s.heap[h], s.draws, op).comp
  {
    hide Apply, Deactivated, CreateOid, LegalOp, CallRefused, Raising, RaisingTold, Answering, Covers;
  }

  lemma PortNames(s: System, h: nat)
    requires HeapOk(s) && h in s.heap
    ensures s.heap[h].oid in s.created
    ensures forall n | n in s.heap[h].publishers || n in s.heap[h].emitters :: Free(n, '/') && Free(n, '\0')
  {
    hide ComponentOk, Free, PortRefsOk;
  }

  lemma RequestServed(s: System, oid: string, op: Op)
    requires Inv(s) && Served(s) && LegalOp(op) && DoRequest(s, oid, op).draws <= MODULUS
    ensures Served(DoRequest(s, oid, op))
  {
    hide ComponentOk, PortsNamed, Holds, DrawnBefore, Split, Carry, Deactivate, Activate, Issued, IdsOk, HeapOk, MapOk,
      PoaOk, RemovedOk, IssuedOk, PlacesOk, CookiesOk, KnownOk, GroupsOk, AgesOk, OidServed, Covers;
    var t := DoRequest(s, oid, op);
    if t != s {
      ActiveServant(s, oid);
      var h := s.poa[oid].servant.h;
      var o := WithServant(op, s.nextServant);
      assert Requested(s, h, o, t);
      AgesKept(s, h, o, t);
      forall i | i in t.poa ensures OidServed(t, i) {
        if i in s.poa { OldServed(s, h, o, t, i); } else { NewServed(s, h, o, t, i); }
      }
    }
  }

  // ----- Every step -----

  lemma CreateServed(s: System, now: Timeval, group: Option<nat>, refMade: bool)
    requires Inv(s) && Served(s)
    ensures Served(DoCreate(s, now, group, refMade))
  {
    hide Inv, Served, Stamp, Drawn;
    ServedFrame(s, DoCreate(s, now, group, refMade));
  }

  lemma NextServed(s: System, step: Step)
    requires Inv(s) && Served(s) && Legal(step) && Next(s, step).draws <= MODULUS
    ensures Served(Next(s, step))
  {
    hide Inv, Served, DoCreate, DoIncarnate, DoRequest, ReleaseServant;
    match step
    case CreateComponent(now, group, refMade) => CreateServed(s, now, group, refMade);
    case Incarnate(oid, mono, made) => IncarnateServed(s, oid, mono, made);
    case Request(oid, op) => RequestServed(s, oid, op);
    case _ => ServedFrame(s, Next(s, step));
  }
}
