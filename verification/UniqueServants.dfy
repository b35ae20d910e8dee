// The adapter has the UNIQUE_ID policy: no servant is ever active under two
// object ids.
module UniqueServants {
  import opened Outcomes
  import opened Text
  import opened Identifiers
  import opened ObjectIds
  import opened Components
  import opened PortInvariants
  import opened OperationEffects
  import opened Homes
  import opened Lifecycle
  import opened Dispatch
  import opened AdapterServants

  // Wherever a component stores consumer servant x, that place makes o.
  ghost predicate PlacedAt(heap: map<nat, Component>, o: string, x: nat) {
    forall h, n, k | h in heap && Holds(heap[h], n, k, x) :: o == CreateOid(heap[h].oid, n, k)
  }

  ghost predicate PlaceOk(s: System, o: string)
    requires o in s.poa
  {
    && (s.poa[o].servant.PushServant? ==>
          s.poa[o].servant.id < s.nextServant && PlacedAt(s.heap, o, s.poa[o].servant.id))
    && (s.poa[o].servant.PortServant? ==>
          s.poa[o].servant.h in s.heap && o == CreateOid(s.heap[s.poa[o].servant.h].oid, s.poa[o].servant.port, ""))
  }

  ghost predicate Apart(s: System) {
    forall o, p | o in s.poa && p in s.poa && s.poa[o].servant.PushServant? && s.poa[o].servant == s.poa[p].servant ::
        o == p
  }

  ghost predicate UniqueOk(s: System) {
    Apart(s) && forall o | o in s.poa :: PlaceOk(s, o)
  }

  lemma UniqueFrame(s: System, t: System)
    requires UniqueOk(s) && t.heap == s.heap && s.nextServant <= t.nextServant
    requires forall o | o in t.poa :: o in s.poa && t.poa[o].servant == s.poa[o].servant
    ensures UniqueOk(t)
  {
    hide CreateOid, PlacedAt;
    forall o | o in t.poa ensures PlaceOk(t, o) {
      assert PlaceOk(s, o);
    }
  }

  // ----- Incarnating -----

  lemma ComponentUnique(s: System, oid: string, isMonolithic: bool)
    requires UniqueOk(s) && HeapOk(s)
    ensures UniqueOk(Incarnated(s, oid, isMonolithic))
  {
    NewComponentOk(oid, isMonolithic, s.draws, true);
    hide CreateOid, Holds, NewComponent, ComponentOk, PortsNamed;
    var t := Incarnated(s, oid, isMonolithic);
    assert s.nextServant !in s.heap;
    forall o | o in t.poa ensures PlaceOk(t, o) {
      if o != oid { assert PlaceOk(s, o); }
    }
  }

  // What the home finds for a port is where its object id says.
  lemma FoundPlace(s: System, oid: string)
    requires Inv(s) && Covers(s.components, s.heap)
    requires LookupServant(s.homeRemoved, s.components, s.heap, oid).Found?
    ensures match LookupServant(s.homeRemoved, s.components, s.heap, oid).servant
            case ComponentServant(_) => false
            case PortServant(h, port) => h in s.heap && oid == CreateOid(s.heap[h].oid, port, "")
            case PushServant(x) =>
              x < s.nextServant && PlacedAt(s.heap, oid, x)
              && exists h, n, k :: h in s.heap && Holds(s.heap[h], n, k, x)
  {
    hide Holds, Split, LocalPushConsumer, HasPort, CreateOid, IdsOk, HeapOk, PoaOk, RemovedOk, IssuedOk, GroupsOk,
      CookiesOk, KnownOk;
    LookupPort(s, oid);
    var names := Split(oid, '/');
    if |names| == 2 {
      ReadTwo(oid);
    } else {
      var h := s.components[names[0]].servant.value;
      var x := LookupServant(s.homeRemoved, s.components, s.heap, oid).servant.id;
      HeldNames(s, h, names[1], names[2], x);
      ReadThree(oid);
      assert Holds(s.heap[h], names[1], names[2], x);
      forall g, n, k | g in s.heap && Holds(s.heap[g], n, k, x) ensures oid == CreateOid(s.heap[g].oid, n, k) {
        assert g == h && n == names[1] && k == names[2];
      }
    }
  }

  lemma SamePlace(heap: map<nat, Component>, o: string, p: string, x: nat)
    requires PlacedAt(heap, o, x) && PlacedAt(heap, p, x)
    requires exists h, n, k :: h in heap && Holds(heap[h], n, k, x)
    ensures o == p
  {
    hide Holds, CreateOid;
    var h, n, k :| h in heap && Holds(heap[h], n, k, x);
  }

  lemma AddedUnique(s: System, oid: string, servant: Servant<nat>)
    requires UniqueOk(s) && oid !in s.poa
    requires PlaceOk(s.(poa := s.poa[oid := Active(servant)]), oid)
    requires servant.PushServant? ==> forall p | p in s.poa :: s.poa[p].servant != servant
    ensures UniqueOk(s.(poa := s.poa[oid := Active(servant)]))
  {
    hide PlacedAt, CreateOid;
    var t := s.(poa := s.poa[oid := Active(servant)]);
    forall o | o in t.poa ensures PlaceOk(t, o) {
      if o != oid { assert PlaceOk(s, o); }
    }
  }

  lemma PortUnique(s: System, oid: string)
    requires Inv(s) && UniqueOk(s) && oid !in s.poa && Covers(s.components, s.heap)
    requires LookupServant(s.homeRemoved, s.components, s.heap, oid).Found?
    ensures var servant := LookupServant(s.homeRemoved, s.components, s.heap, oid).servant;
            UniqueOk(s.(poa := s.poa[oid := Active(servant)]))
  {
    hide LookupServant, Inv, Covers, CreateOid, Holds, PlacedAt, Apart;
    FoundPlace(s, oid);
    var servant := LookupServant(s.homeRemoved, s.components, s.heap, oid).servant;
    if servant.PushServant? {
      forall p | p in s.poa ensures s.poa[p].servant != servant {
        assert PlaceOk(s, p);
        if s.poa[p].servant == servant { SamePlace(s.heap, oid, p, servant.id); }
      }
    }
    hide UniqueOk;
    AddedUnique(s, oid, servant);
  }

  lemma IncarnateUnique(s: System, oid: string, isMonolithic: bool, servantMade: bool)
    requires Inv(s) && UniqueOk(s)
    ensures UniqueOk(DoIncarnate(s, oid, isMonolithic, servantMade))
  {
    hide Inv, UniqueOk, Covers, Split, NewComponent, HeapOk, MapOk, LookupServant;
    InvMapped(s);
    InvCovers(s);
    var look := LookupServant(s.homeRemoved, s.components, s.heap, oid);
    if oid !in s.poa && look.Create? && servantMade {
      LookupCreate(s, oid);
      ComponentUnique(s, oid, isMonolithic);
    } else if oid !in s.poa && look.Found? {
      PortUnique(s, oid);
    }
  }

  // ----- Carrying out a request -----

  // The new consumer servant stands only where its object id says.
  lemma NewPlaced(s: System, h: nat, op: Op, t: System, o: string)
    requires Requested(s, h, op, t) && HeapOk(s) && PlacesOk(s) && MadeLocal(s.heap[h], s.draws, op) == Some(o)
    requires op.OpSubscribe? || op.OpConnectConsumer?
    requires t.heap[h].oid == s.heap[h].oid
    ensures PlacedAt(t.heap, o, s.nextServant)
  {
    hide Requested, HeapOk, Holds, Apply, CreateOid, Stamp, Drawn, MadeLocal;
    RequestedEffect(s, h, op, t);
    if op.OpSubscribe? { MadeForPublisher(s.heap[h], s.draws, op); } else { MadeForEmitter(s.heap[h], s.draws, op); }
    forall g, n, k | g in t.heap && Holds(t.heap[g], n, k, s.nextServant) ensures o == CreateOid(t.heap[g].oid, n, k) {
      assert g in s.heap && Holds(s.heap[g], n, k, s.nextServant) ==> s.nextServant < s.nextServant;
      assert g == h && NewPlace(s.draws, op, n, k);
    }
  }

  lemma OldPlaced(s: System, h: nat, op: Op, t: System, o: string)
    requires Requested(s, h, op, t) && o in s.poa && o in t.poa && PlaceOk(s, o) && t.heap[h].oid == s.heap[h].oid
    ensures PlaceOk(t, o) && t.poa[o].servant == s.poa[o].servant
  {
    hide Requested, Holds, Apply, CreateOid, NewPlace, Carry;
    RequestedEffect(s, h, op, t);
    RequestedPoa(s, h, op, t, o);
  }

  lemma RequestUnique(s: System, oid: string, op: Op)
    requires Inv(s) && UniqueOk(s) && LegalOp(op) && DoRequest(s, oid, op).draws <= MODULUS
    ensures UniqueOk(DoRequest(s, oid, op))
  {
    hide ComponentOk, PortsNamed, Holds, Split, Carry, Deactivate, Activate, Issued, IdsOk, HeapOk, MapOk, PoaOk,
      RemovedOk, IssuedOk, PlacesOk, CookiesOk, KnownOk, GroupsOk, PlacedAt, Covers, CreateOid;
    var t := DoRequest(s, oid, op);
    if t != s {
      ActiveServant(s, oid);
      var h := s.poa[oid].servant.h;
      var o := WithServant(op, s.nextServant);
      assert Requested(s, h, o, t);
      CarryDraws(s, h, o);
      RequestedEffect(s, h, o, t);
      hide Requested;
      forall i | i in t.poa
        ensures PlaceOk(t, i)
        ensures i in s.poa ==> t.poa[i].servant == s.poa[i].servant
        ensures i !in s.poa ==>
                  t.poa[i].servant == PushServant(s.nextServant) && MadeLocal(s.heap[h], s.draws, o) == Some(i)
      {
        if i in s.poa {
          assert PlaceOk(s, i);
          OldPlaced(s, h, o, t, i);
        } else {
          MadeOnly(s, h, o, t, i);
          NewPlaced(s, h, o, t, i);
        }
      }
      forall i | i in s.poa && s.poa[i].servant.PushServant? ensures s.poa[i].servant.id < s.nextServant {
        assert PlaceOk(s, i);
      }
    }
  }

  // ----- Every step and every run -----

  lemma NextUnique(s: System, step: Step)
    requires Inv(s) && UniqueOk(s) && Legal(step) && Next(s, step).draws <= MODULUS
    ensures UniqueOk(Next(s, step))
  {
    hide Inv, UniqueOk, DoCreate, DoIncarnate, DoRequest, DoPassivate, DoEtherealize, DoRemoveHome;
    match step
    case Incarnate(oid, mono, made) => IncarnateUnique(s, oid, mono, made);
    case Request(oid, op) => RequestUnique(s, oid, op);
    case _ => OtherUnique(s, step);
  }

  // No other step activates a servant.
  lemma OtherUnique(s: System, step: Step)
    requires UniqueOk(s) && !step.Incarnate? && !step.Request?
    ensures UniqueOk(Next(s, step))
  {
    hide UniqueOk, DoIncarnate, DoRequest, Stamp;
    hide ReleaseServant;
    UniqueFrame(s, Next(s, step));
  }

  lemma {:induction false} RunUnique(s: System, steps: seq<Step>)
    requires Inv(s) && UniqueOk(s) && Run(s, steps).draws <= MODULUS
    requires forall i | 0 <= i < |steps| :: Legal(steps[i])
    ensures UniqueOk(Run(s, steps))
    decreases |steps|
  {
    hide Next, Inv, UniqueOk, Legal;
    if steps != [] {
      RunDraws(Next(s, steps[0]), steps[1..]);
      NextKeeps(s, steps[0]);
      NextUnique(s, steps[0]);
      RunUnique(Next(s, steps[0]), steps[1..]);
    }
  }

  lemma InitUnique(faultTolerant: bool)
    ensures UniqueOk(Init(faultTolerant))
  {
  }

  lemma ServantsUnique(s: System, o: string, p: string)
    requires Reachable(s) && o in s.poa && p in s.poa && s.poa[o].servant == s.poa[p].servant
    ensures o == p
  {
    hide Inv, UniqueOk, Init, Run;
    var faultTolerant, steps :| EndsIn(faultTolerant, steps, s);
    InitInv(faultTolerant);
    InitUnique(faultTolerant);
    RunUnique(Init(faultTolerant), steps);
    RunKeepsInv(Init(faultTolerant), steps);
    SameServantSameOid(s, o, p);
  }

  lemma SameServantSameOid(s: System, o: string, p: string)
    requires Inv(s) && UniqueOk(s) && o in s.poa && p in s.poa && s.poa[o].servant == s.poa[p].servant
    ensures o == p
  {
    hide Split, CreateOid, PlacedAt, IdsOk, HeapOk, MapOk, RemovedOk, IssuedOk, GroupsOk, PlacesOk, CookiesOk, KnownOk;
    assert PlaceOk(s, o) && PlaceOk(s, p);
  }
}
