// A cookie that was given back is never in use again, and the consumer that
// stood for it is never active again, over any run of the machine.
module RetiredCookies {
  import opened Outcomes
  import opened Text
  import opened Identifiers
  import opened ObjectIds
  import opened Cookies
  import opened Components
  import opened PortInvariants
  import opened OperationEffects
  import opened Homes
  import opened Lifecycle
  import opened Dispatch
  import opened AdapterServants
  import opened AdapterEffects

  // No publisher of any component servant has the cookie.
  ghost predicate Unused(heap: map<nat, Component>, k: Octets) {
    forall h, n | h in heap :: !CookieAt(heap[h], PublisherPort(n), k)
  }

  // The object id of a consumer for a cookie that is no longer in use: its
  // servant is at most still to be etherealized.
  ghost predicate Retired(s: System, o: string) {
    var names := Split(o, '/');
    && |names| == 3 && DrawnBefore(names[2], s.draws) && Unused(s.heap, names[2])
    && (o in s.poa ==> s.poa[o].Deactivating?)
  }

  lemma StampNotDrawn(now: Timeval, draws: nat, k: Octets)
    requires draws < MODULUS && DrawnBefore(k, draws)
    ensures k != Stamp(now, Drawn(draws + 1))
  {
    hide Stamp, Drawn, DrawnBefore;
    StampDraw(now, draws + 1);
  }

  lemma NotEmitter(k: Octets, draws: nat)
    requires DrawnBefore(k, draws)
    ensures k != EMITTER_CK
  {
    hide DrawOf;
  }

  lemma UnusedCarried(s: System, h: nat, op: Op, k: Octets)
    requires Covers(s.components, s.heap) && h in s.heap && op == WithServant(op, s.nextServant)
    requires Unused(s.heap, k) && DrawnBefore(k, s.draws) && Carry(s, h, op).applied.draws <= MODULUS
    requires Apply(s.heap[h], s.draws, op).draws == Carry(s, h, op).applied.draws
    ensures Unused(s.heap[h := Carry(s, h, op).applied.comp], k)
  {
    hide Carry, CookieAt, Apply, Stamp, Drawn, DrawnBefore;
    CarryNew(s, h, op);
    var d := Carry(s, h, op).applied.comp;
    forall n ensures !CookieAt(d, PublisherPort(n), k) {
      if CookieAt(d, PublisherPort(n), k) {
        assert NewCookie(s.heap[h], s.draws, op, PublisherPort(n), k);
        StampNotDrawn(op.now, s.draws, k);
      }
    }
  }

  // The consumer an operation makes is for a cookie just drawn or an emitter.
  lemma MadeElsewhere(s: System, h: nat, op: Op, t: System, o: string)
    requires Requested(s, h, op, t) && Inv(s) && Retired(s, o) && o !in s.poa
    ensures o !in t.poa
  {
    hide Requested, Inv, Apply, MadeLocal, CreateOid, Stamp, Drawn, Split, DrawnBefore, Unused;
    RequestedEffect(s, h, op, t);
    if o in t.poa {
      MadeOnly(s, h, op, t, o);
      var c := s.heap[h];
      InvClean(s, h);
      if op.OpSubscribe? {
        MadeForPublisher(c, s.draws, op);
        MadeReads(c, s.draws, op, o);
      } else {
        MadeForEmitter(c, s.draws, op);
        ReadCreateLocal(c.oid, op.name.value, EMITTER_CK);
        EmitterMark();
        NotEmitter(Split(o, '/')[2], s.draws);
      }
    }
  }

  lemma EmitterMark()
    ensures Free(EMITTER_CK, '/') && EMITTER_CK != ""
  {
  }

  lemma InvClean(s: System, h: nat)
    requires Inv(s) && h in s.heap
    ensures Free(s.heap[h].oid, '/') && Free(s.heap[h].oid, '\0')
    ensures forall n | n in s.heap[h].publishers :: Free(n, '/') && Free(n, '\0')
    ensures forall n | n in s.heap[h].emitters :: Free(n, '/') && Free(n, '\0')
  {
    hide MapOk, PoaOk, RemovedOk, IssuedOk, GroupsOk, PlacesOk, CookiesOk, KnownOk, ComponentOk;
    Clean(s, h);
  }

  lemma RequestRetired(s: System, oid: string, op: Op, o: string)
    requires Inv(s) && Retired(s, o) && LegalOp(op) && DoRequest(s, oid, op).draws <= MODULUS
    ensures Retired(DoRequest(s, oid, op), o)
  {
    hide ComponentOk, PortsNamed, Split, Carry, Deactivate, Activate, Issued, IdsOk, HeapOk, MapOk, PoaOk, RemovedOk,
      IssuedOk, GroupsOk, PlacesOk, CookiesOk, KnownOk, Unused, Covers, DrawnBefore;
    var t := DoRequest(s, oid, op);
    if t != s {
      ActiveServant(s, oid);
      var h := s.poa[oid].servant.h;
      var w := WithServant(op, s.nextServant);
      assert Requested(s, h, w, t);
      RequestedEffect(s, h, w, t);
      UnusedCarried(s, h, w, Split(o, '/')[2]);
      DrawnLater(Split(o, '/')[2], s.draws, t.draws);
      hide Requested, DoRequest;
      if o in s.poa && o in t.poa {
        RequestedPoa(s, h, w, t, o);
      } else if o !in s.poa {
        MadeElsewhere(s, h, w, t, o);
      }
      RequestedHeap(s, h, w, t);
    }
  }

  lemma RequestedHeap(s: System, h: nat, op: Op, t: System)
    requires Requested(s, h, op, t)
    ensures t.heap == s.heap[h := Carry(s, h, op).applied.comp]
  {
    hide Carry, LegalOp;
  }

  lemma IncarnateRetired(s: System, oid: string, isMonolithic: bool, servantMade: bool, o: string)
    requires Inv(s) && Retired(s, o)
    ensures Retired(DoIncarnate(s, oid, isMonolithic, servantMade), o)
  {
    hide Inv, Covers, Split, LookupServant, DrawnBefore;
    InvHome(s);
    var t := DoIncarnate(s, oid, isMonolithic, servantMade);
    var look := LookupServant(s.homeRemoved, s.components, s.heap, oid);
    if oid !in s.poa && look.Found? {
      NotFound(s, o);
    } else if oid !in s.poa && look.Create? {
      CreatedOnePiece(s, oid);
    }
  }

  lemma CreatedOnePiece(s: System, oid: string)
    requires Covers(s.components, s.heap) && LookupServant(s.homeRemoved, s.components, s.heap, oid).Create?
    ensures |Split(oid, '/')| == 1
  {
    hide Split;
  }

  lemma NotFound(s: System, o: string)
    requires Covers(s.components, s.heap) && Retired(s, o)
    ensures !LookupServant(s.homeRemoved, s.components, s.heap, o).Found?
  {
    hide Split, LookupServant, DrawnBefore;
    if LookupServant(s.homeRemoved, s.components, s.heap, o).Found? {
      LookupPort(s, o);
      var names := Split(o, '/');
      NotEmitter(names[2], s.draws);
      HeldAt(s.heap[s.components[names[0]].servant.value], names[1], names[2],
             LookupServant(s.homeRemoved, s.components, s.heap, o).servant.id);
    }
  }

  lemma HeldAt(c: Component, n: string, k: Octets, x: nat)
    requires Holds(c, n, k, x) && k != EMITTER_CK
    ensures CookieAt(c, PublisherPort(n), k)
  {
  }

  lemma NextRetired(s: System, step: Step, o: string)
    requires Inv(s) && Retired(s, o) && Legal(step) && Next(s, step).draws <= MODULUS
    ensures Retired(Next(s, step), o)
  {
    hide Inv, Unused, Split, DoRequest, DoIncarnate, DrawnBefore, Stamp, ReleaseServant, DrawOf;
    match step
    case Request(oid, op) => RequestRetired(s, oid, op, o);
    case Incarnate(oid, mono, made) => IncarnateRetired(s, oid, mono, made, o);
    case _ => DrawnLater(Split(o, '/')[2], s.draws, Next(s, step).draws);
  }

  // Whatever happens afterwards, the consumer is not active, and the home
  // refuses to find a servant for it.
  lemma {:induction false} RetiredForever(s: System, steps: seq<Step>, o: string)
    requires Inv(s) && Retired(s, o) && Run(s, steps).draws <= MODULUS
    requires forall i | 0 <= i < |steps| :: Legal(steps[i])
    ensures var t := Run(s, steps);
            && Retired(t, o) && (o in t.poa ==> t.poa[o].Deactivating?)
            && Covers(t.components, t.heap) && !LookupServant(t.homeRemoved, t.components, t.heap, o).Found?
    decreases |steps|
  {
    hide Next, Inv, Legal, Unused, LookupServant;
    if steps == [] {
      InvHome(s);
      NotFound(s, o);
    } else {
      RunDraws(Next(s, steps[0]), steps[1..]);
      NextKeeps(s, steps[0]);
      NextRetired(s, steps[0], o);
      RetiredForever(Next(s, steps[0]), steps[1..], o);
    }
  }

  // ----- From unsubscribe on -----

  // Does unsubscribing with the cookie succeed, for a subscriber that takes no
  // pushed events itself, so that a consumer was made for it?
  ghost predicate MadeFor(s: System, h: nat, name: string, ck: Octets)
    requires h in s.heap
  {
    && Unsubscribe(s.heap[h], s.draws, Some(name), Some(ck)).reply == Done
    && name in s.heap[h].publishers && ck in s.heap[h].publishers[name].subscriptions
    && !s.heap[h].publishers[name].subscriptions[ck].consumer.IsA(PUSH_CONSUMER)
  }

  lemma UnsubscribeRetires(s: System, comp: string, h: nat, name: string, ck: Octets)
    requires Reachable(s) && Serving(s, comp, h)
    requires MadeFor(s, h, name, ck)
    ensures Retired(Next(s, Request(comp, OpUnsubscribe(Some(name), Some(ck)))), CreateOid(comp, name, ck))
  {
    hide Reachable, Next, Covers, CallRefused, CreateOid, Split, DrawnBefore, Unsubscribe, ComponentOk, PortsNamed,
      IdsOk, HeapOk, MapOk, PoaOk, RemovedOk, IssuedOk, GroupsOk, PlacesOk, KnownOk, Served, Issued, OnlyDeactivates;
    var op := OpUnsubscribe(Some(name), Some(ck));
    var t := Next(s, Request(comp, op));
    var o := CreateOid(comp, name, ck);
    ReachableInv(s);
    ServingAnswered(s, comp, h, op);
    UnsubscribedGoes(s, comp, h, name, ck);
    RequestStep(s, comp, h, op);
    UnsubscribedGone(s.heap[h], s.draws, name, ck);
    CookieNames(s, comp, h, name, ck);
    ReadCreateLocal(comp, name, ck);
    CookieDrawn(s.heap[h], s.draws, PublisherPort(name), ck, !s.homeRemoved) by { ReachablePorts(s, h); }
    UnsubscribeUnused(s, h, name, ck);
    Leaves(s, t, o);
  }

  lemma Leaves(s: System, t: System, o: string)
    requires OnlyDeactivates(s, t, {o})
    ensures o in t.poa ==> t.poa[o].Deactivating?
  {
  }

  lemma UnsubscribeUnused(s: System, h: nat, name: string, ck: Octets)
    requires CookiesOk(s) && h in s.heap
    requires name in s.heap[h].publishers && ck in s.heap[h].publishers[name].subscriptions
    requires Unsubscribe(s.heap[h], s.draws, Some(name), Some(ck)).reply == Done
    ensures Unused(s.heap[h := Unsubscribe(s.heap[h], s.draws, Some(name), Some(ck)).comp], ck)
  {
    hide Comparable;
    assert CookieAt(s.heap[h], PublisherPort(name), ck);
    var d := Unsubscribe(s.heap[h], s.draws, Some(name), Some(ck)).comp;
    forall g, n | g in s.heap ensures !CookieAt(s.heap[h := d][g], PublisherPort(n), ck) {
      assert CookieAt(s.heap[h := d][g], PublisherPort(n), ck) ==> CookieAt(s.heap[g], PublisherPort(n), ck);
    }
  }

  // After an unsubscribe that is done the consumer that stood for the cookie
  // is never active again and never found again.
  lemma UnsubscribedForever(s: System, comp: string, h: nat, name: string, ck: Octets, steps: seq<Step>)
    requires Reachable(s) && Serving(s, comp, h)
    requires MadeFor(s, h, name, ck)
    requires forall i | 0 <= i < |steps| :: Legal(steps[i])
    requires Run(Next(s, Request(comp, OpUnsubscribe(Some(name), Some(ck)))), steps).draws <= MODULUS
    ensures var t := Run(Next(s, Request(comp, OpUnsubscribe(Some(name), Some(ck)))), steps);
            var o := CreateOid(comp, name, ck);
            && (o in t.poa ==> t.poa[o].Deactivating?)
            && Covers(t.components, t.heap) && !LookupServant(t.homeRemoved, t.components, t.heap, o).Found?
  {
    hide Next, Run, Retired, CreateOid, Inv, Unsubscribe, Covers, LookupServant, Reachable, CallRefused, Serving;
    var step := Request(comp, OpUnsubscribe(Some(name), Some(ck)));
    UnsubscribeRetires(s, comp, h, name, ck);
    RunDraws(Next(s, step), steps);
    ReachableInv(s);
    NextKeeps(s, step);
    RetiredForever(Next(s, step), steps, CreateOid(comp, name, ck));
  }
}
