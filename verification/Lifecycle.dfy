// Everything that can happen to one home, its components and the object
// adapter around them, as steps of one machine. Servant objects carry the
// number of their creation. Several fields record history only: the object
// ids created and issued, and the components whose removal succeeded.
module Lifecycle {
  import opened Outcomes
  import opened Text
  import opened Identifiers
  import opened ObjectIds
  import opened Components
  import opened PortInvariants
  import opened PortRefusals
  import opened OperationEffects
  import opened Homes

  // The adapter retains servants: an object id is inactive, active, or has
  // been deactivated and waits for its servant to be etherealized.
  datatype Activation = Active(servant: Servant<nat>) | Deactivating(servant: Servant<nat>)

  datatype System = System(
    draws: nat,
    nextServant: nat,
    faultTolerant: bool,
    homeRemoved: bool,
    components: map<string, ComponentInfo<nat>>,
    groups: map<string, nat>,
    heap: map<nat, Component>,
    poa: map<string, Activation>,
    created: set<string>,
    issued: set<string>,
    removedComps: set<string>)

  function Init(faultTolerant: bool): System {
    System(0, 0, faultTolerant, false, map[], map[], map[], map[], {}, {}, {})
  }

  // now, refMade, servantMade and the fields of op are what the clock and
  // foreign code answer during the step.
  datatype Step =
    | CreateComponent(now: Timeval, group: Option<nat>, refMade: bool)
    | Incarnate(oid: string, isMonolithic: bool, servantMade: bool)
    | Request(oid: string, op: Op)
    | Passivate(oid: string)
    | Etherealize(oid: string, remaining: bool)
    | RemoveHome

  predicate Legal(step: Step) {
    step.Request? ==> LegalOp(step.op)
  }

  // ----- The steps -----

  // create_component_ref, in a fault-tolerant home with the group recorded
  // afterwards.
  function DoCreate(s: System, now: Timeval, group: Option<nat>, refMade: bool): System {
    if s.homeRemoved || (s.faultTolerant && group.None?) then s
    else if !refMade then s.(draws := s.draws + 1)
    else
      var oid := Stamp(now, Drawn(s.draws + 1));
      s.(draws := s.draws + 1,
         components := Insert(s.components, oid, ComponentInfo(None)),
         groups := if s.faultTolerant then Insert(s.groups, oid, group.value) else s.groups,
         created := s.created + {oid},
         issued := s.issued + {oid})
  }

  // A request reaches an object id that is not active: the adapter asks the
  // home for a servant. (InvCovers: the home always knows its servants.)
  function DoIncarnate(s: System, oid: string, isMonolithic: bool, servantMade: bool): System {
    if oid in s.poa || !Covers(s.components, s.heap) then s
    else
      match LookupServant(s.homeRemoved, s.components, s.heap, oid)
      case Refused(_) => s
      case Found(servant) => s.(poa := s.poa[oid := Active(servant)])
      case Create(comp) =>
        if !servantMade then s
        else
          var h := s.nextServant;
          s.(nextServant := h + 1,
             heap := s.heap[h := NewComponent(comp, isMonolithic)],
             components := s.components[comp := ComponentInfo(Some(h))],
             poa := s.poa[oid := Active(ComponentServant(h))])
  }

  function Deactivate(poa: map<string, Activation>, oids: set<string>): map<string, Activation> {
    map o | o in poa :: if o in oids then Deactivating(poa[o].servant) else poa[o]
  }

  function Activate(poa: map<string, Activation>, made: Option<string>, servant: nat): map<string, Activation> {
    if made.Some? && made.value !in poa then poa[made.value := Active(PushServant(servant))] else poa
  }

  // Does a call on an object id reach a servant? An active one takes it; for
  // any other the adapter asks the home, once a deactivation is over. A servant
  // found that way is incarnated first, which is a step of its own.
  predicate Answers(s: System, h: nat, d: Component, oid: string)
    requires Covers(s.components, s.heap) && h in s.heap
  {
    || (oid in s.poa && s.poa[oid].Active?)
    || LookupServant(s.homeRemoved, s.components, s.heap[h := d], oid).Found?
  }

  // The calls of an operation on its component's own objects that are answered.
  function Answering(s: System, h: nat, op: Op): set<string>
    requires Covers(s.components, s.heap) && h in s.heap
  {
    set o | o in Called(s.heap[h], s.draws, op) && Answers(s, h, DuringCalls(s.heap[h], s.draws, op), o)
  }

  predicate CallRefused(s: System, h: nat, op: Op)
    requires Covers(s.components, s.heap) && h in s.heap
  {
    !(Called(s.heap[h], s.draws, op) <= Answering(s, h, op))
  }

  // The component after an operation, the local consumer that was made and
  // the object ids that were deactivated.
  datatype Carried = Carried(applied: Applied, made: Option<string>, off: set<string>)

  function Carry(s: System, h: nat, op: Op): Carried
    requires Covers(s.components, s.heap) && h in s.heap
  {
    var c := s.heap[h];
    if CallRefused(s, h, op) then
      Carried(Raising(c, s.draws, op, Answering(s, h, op)), None, RaisingTold(c, op, Answering(s, h, op)))
    else
      var a := Apply(c, s.draws, op);
      Carried(a, MadeLocal(c, s.draws, op), Deactivated(c, op, a.reply))
  }

  // A request is carried out by an active component, or finishes on one being
  // deactivated. Narrowing a new local consumer's reference activates it.
  function DoRequest(s: System, oid: string, op: Op): System {
    if Covers(s.components, s.heap)
       && oid in s.poa && s.poa[oid].servant.ComponentServant? && s.poa[oid].servant.h in s.heap then
      var h := s.poa[oid].servant.h;
      var o := WithServant(op, s.nextServant);
      var k := Carry(s, h, o);
      s.(draws := k.applied.draws,
         nextServant := s.nextServant + 1,
         heap := s.heap[h := k.applied.comp],
         poa := Deactivate(Activate(s.poa, k.made, s.nextServant), k.off),
         issued := s.issued + Issued(k.made, k.applied.reply),
         removedComps := if o.OpRemove? && k.applied.reply == Done then s.removedComps + {s.heap[h].oid}
           else s.removedComps)
    else s
  }

  function DoPassivate(s: System, oid: string): System {
    s.(poa := Deactivate(s.poa, {oid}))
  }

  // The activator releases the servant unless it remains active for others.
  function DoEtherealize(s: System, oid: string, remaining: bool): System {
    if oid in s.poa && s.poa[oid].Deactivating?
       && (s.poa[oid].servant.ComponentServant? ==> s.poa[oid].servant.h in s.heap) then
      var s' := s.(poa := s.poa - {oid});
      if remaining then s'
      else
        match ReleaseServant(s.components.Keys, s.heap, oid, s.poa[oid].servant)
        case DroppedLast(comp) => s'.(components := s.components - {comp}, groups := s.groups - {comp})
        case _ => s'
    else s
  }

  // The home asks every component to remove itself, which are requests of
  // their own, and then clears its component map; the group map stays.
  function DoRemoveHome(s: System): System {
    s.(homeRemoved := true, components := map[])
  }

  function Next(s: System, step: Step): System {
    match step
    case CreateComponent(now, group, refMade) => DoCreate(s, now, group, refMade)
    case Incarnate(oid, mono, made) => DoIncarnate(s, oid, mono, made)
    case Request(oid, op) => DoRequest(s, oid, op)
    case Passivate(oid) => DoPassivate(s, oid)
    case Etherealize(oid, remaining) => DoEtherealize(s, oid, remaining)
    case RemoveHome => DoRemoveHome(s)
  }

  // ----- The invariant -----

  // Object ids come from the identifiers drawn.
  ghost predicate IdsOk(s: System) {
    && (forall c | c in s.created :: DrawnBefore(c, s.draws))
    && s.components.Keys <= s.created && s.removedComps <= s.created
  }

  ghost predicate HeapOk(s: System) {
    forall h | h in s.heap ::
      && h < s.nextServant && s.heap[h].oid in s.created
      && ComponentOk(s.heap[h], s.draws, !s.homeRemoved) && PortsNamed(s.heap[h])
  }

  // A component known to the home has the servant last created for it.
  ghost predicate MapOk(s: System) {
    && (forall c | c in s.components && s.components[c].servant.Some? ::
          s.components[c].servant.value in s.heap && s.heap[s.components[c].servant.value].oid == c)
    && (forall h | h in s.heap && s.heap[h].oid in s.components :: s.components[s.heap[h].oid].servant.Some?)
  }

  // Component object ids are active with the servant in the home's map.
  ghost predicate PoaOk(s: System) {
    forall o | o in s.poa ::
      && (s.poa[o].servant.ComponentServant? ==>
            && s.poa[o].servant.h in s.heap && s.heap[s.poa[o].servant.h].oid == o
            && (o in s.components ==> s.components[o].servant == Some(s.poa[o].servant.h)))
      && (|Split(o, '/')| == 1 ==> s.poa[o].servant.ComponentServant?)
  }

  // While the home is there it knows every component that is active.
  ghost predicate KnownOk(s: System) {
    !s.homeRemoved ==> forall o | o in s.poa && s.poa[o].servant.ComponentServant? :: o in s.components
  }

  ghost predicate RemovedOk(s: System) {
    forall c | c in s.removedComps && c in s.components ::
      s.components[c].servant.Some? && s.components[c].servant.value in s.heap
        && s.heap[s.components[c].servant.value].removed
  }

  ghost predicate IssuedOk(s: System) {
    forall o | o in s.issued ::
      var names := Split(o, '/');
      names[0] in s.created && (|names| > 1 && names[0] in s.components ==> s.components[names[0]].servant.Some?)
  }

  ghost predicate GroupsOk(s: System) {
    && (s.faultTolerant ==> s.components.Keys <= s.groups.Keys)
    && (s.faultTolerant && !s.homeRemoved ==> s.components.Keys == s.groups.Keys)
    && (s.homeRemoved ==> s.components == map[])
  }

  // No servant of a local push consumer stands in two places.
  ghost predicate PlacesOk(s: System) {
    && (forall h, n, k, x: nat | h in s.heap && Holds(s.heap[h], n, k, x) :: x < s.nextServant)
    && (forall g, h, m, n, j, k, x: nat | g in s.heap && h in s.heap && Holds(s.heap[g], m, j, x)
      && Holds(s.heap[h], n, k, x) ::
          g == h && m == n && j == k)
  }

  // No cookie is in use twice, in whatever component, and none equals the
  // object id of a component.
  ghost predicate CookiesOk(s: System) {
    && (forall h, p, k | h in s.heap && CookieAt(s.heap[h], p, k) :: k !in s.created)
    && (forall g, h, p, q, k | g in s.heap && h in s.heap && CookieAt(s.heap[g], p, k) && CookieAt(s.heap[h], q, k) ::
          g == h && p == q)
  }

  ghost predicate Inv(s: System) {
    && IdsOk(s) && HeapOk(s) && MapOk(s) && PoaOk(s) && RemovedOk(s) && IssuedOk(s) && GroupsOk(s) && PlacesOk(s)
    && CookiesOk(s) && KnownOk(s)
  }

  lemma InvCovers(s: System)
    requires MapOk(s)
    ensures Covers(s.components, s.heap)
  {
  }

  // ----- Creating a component -----

  lemma CreateKeeps(s: System, now: Timeval, group: Option<nat>, refMade: bool)
    requires Inv(s) && DoCreate(s, now, group, refMade).draws <= MODULUS
    ensures Inv(DoCreate(s, now, group, refMade))
  {
    hide Stamp, Drawn, DrawnBefore, IdsOk, HeapOk, MapOk, PoaOk, RemovedOk, IssuedOk, GroupsOk, PlacesOk, CookiesOk;
    var t := DoCreate(s, now, group, refMade);
    if t.draws == s.draws + 1 {
      LaterIds(s, t);
      if refMade {
        var oid := Stamp(now, Drawn(s.draws + 1));
        StampDraw(now, s.draws + 1);
        CreatedIsNew(s, oid);
        NotKnown(s, oid);
        CreatedMaps(s, t, oid);
        CreatedHistory(s, t, oid);
      } else {
        SameMaps(s, t);
      }
    }
  }

  // Only the count of draws moved on.
  lemma SameMaps(s: System, t: System)
    requires MapOk(s) && PoaOk(s) && RemovedOk(s) && IssuedOk(s) && GroupsOk(s) && PlacesOk(s) && CookiesOk(s)
    requires t == s.(draws := t.draws)
    requires IdsOk(s) && forall c | c in s.created :: DrawnBefore(c, t.draws)
    ensures MapOk(t) && PoaOk(t) && RemovedOk(t) && IssuedOk(t) && GroupsOk(t) && PlacesOk(t) && CookiesOk(t)
      && IdsOk(t)
  {
    hide Split, Holds, CookieAt, DrawnBefore;
  }

  // An id no component was given yet is on no servant and is no live cookie.
  lemma CreatedIsNew(s: System, oid: string)
    requires IdsOk(s) && HeapOk(s) && PoaOk(s) && !DrawnBefore(oid, s.draws)
    ensures oid !in s.created && (forall h | h in s.heap :: s.heap[h].oid != oid)
    ensures oid in s.poa ==> !s.poa[oid].servant.ComponentServant?
    ensures forall h, p, k | h in s.heap && CookieAt(s.heap[h], p, k) :: k != oid
  {
    hide DrawnBefore, ComponentOk, PortsNamed, CookieAt, Split;
    forall h, p, k | h in s.heap && CookieAt(s.heap[h], p, k) ensures k != oid {
      CookieDrawn(s.heap[h], s.draws, p, k, !s.homeRemoved);
    }
  }

  lemma NotKnown(s: System, oid: string)
    requires IdsOk(s) && GroupsOk(s) && oid !in s.created
    ensures oid !in s.components
    ensures s.faultTolerant && !s.homeRemoved ==> oid !in s.groups
  {
    hide DrawnBefore;
  }

  // The state of the home and the adapter once the new id is known.
  lemma CreatedMaps(s: System, t: System, oid: string)
    requires MapOk(s) && PoaOk(s) && RemovedOk(s) && GroupsOk(s) && IdsOk(s) && !s.homeRemoved && oid !in s.created
    requires t == s.(draws := t.draws, components := s.components[oid := ComponentInfo(None)], groups := t.groups,
                     created := s.created + {oid}, issued := s.issued + {oid})
    requires s.faultTolerant ==> t.groups.Keys == s.groups.Keys + {oid}
    requires forall h | h in s.heap :: s.heap[h].oid != oid
    requires oid in s.poa ==> !s.poa[oid].servant.ComponentServant?
    ensures MapOk(t) && PoaOk(t) && RemovedOk(t) && GroupsOk(t)
  {
    hide DrawnBefore, Split;
  }

  lemma CreatedHistory(s: System, t: System, oid: string)
    requires IdsOk(s) && IssuedOk(s) && PlacesOk(s) && CookiesOk(s) && oid !in s.created
    requires t == s.(draws := t.draws, components := s.components[oid := ComponentInfo(None)], groups := t.groups,
                     created := s.created + {oid}, issued := s.issued + {oid})
    requires DrawnBefore(oid, t.draws) && (forall c | c in s.created :: DrawnBefore(c, t.draws))
    requires forall h, p, k | h in s.heap && CookieAt(s.heap[h], p, k) :: k != oid
    ensures IdsOk(t) && IssuedOk(t) && PlacesOk(t) && CookiesOk(t)
  {
    hide DrawnBefore, Holds, CookieAt, Split;
    OnePieceName(oid, t.draws);
  }

  // More draws and more created ids leave what was known of ids and servants.
  lemma LaterIds(s: System, t: System)
    requires IdsOk(s) && HeapOk(s) && s.draws <= t.draws
    requires t.heap == s.heap && t.nextServant == s.nextServant && s.created <= t.created
    requires t.homeRemoved == s.homeRemoved
    ensures HeapOk(t)
    ensures forall c | c in s.created :: DrawnBefore(c, t.draws)
  {
    hide ComponentOk, DrawOf, PortsNamed, Free;
    forall h | h in t.heap ensures ComponentOk(t.heap[h], t.draws, !s.homeRemoved) {
      LaterDraws(s.heap[h], s.draws, t.draws, !s.homeRemoved);
    }
  }

  // ----- Incarnating an object id -----

  lemma IncarnateKeeps(s: System, oid: string, isMonolithic: bool, servantMade: bool)
    requires Inv(s)
    ensures Inv(DoIncarnate(s, oid, isMonolithic, servantMade))
  {
    hide LookupServant, Split, NewComponent, Covers, IdsOk, HeapOk, MapOk, PoaOk, RemovedOk, IssuedOk, GroupsOk,
      PlacesOk, CookiesOk;
    InvCovers(s);
    hide Inv;
    var look := LookupServant(s.homeRemoved, s.components, s.heap, oid);
    if oid !in s.poa && look.Create? && servantMade {
      LookupCreate(s, oid);
      CreatedServantKeeps(s, oid, isMonolithic);
    } else if oid !in s.poa && look.Found? {
      LookupFound(s, oid);
      ActivatedPortKeeps(s, oid, look.servant);
    }
  }

  lemma ActivatedPortKeeps(s: System, oid: string, servant: Servant<nat>)
    requires Inv(s) && !servant.ComponentServant? && |Split(oid, '/')| > 1
    requires oid !in s.poa
    ensures Inv(s.(poa := s.poa[oid := Active(servant)]))
  {
    hide ComponentOk, PortsNamed, Holds, CookieAt, DrawnBefore, Split, PoaOk, KnownOk;
    ActivatedPoa(s, oid, servant);
  }

  lemma ActivatedPoa(s: System, oid: string, servant: Servant<nat>)
    requires PoaOk(s) && KnownOk(s) && !servant.ComponentServant? && |Split(oid, '/')| > 1
    ensures PoaOk(s.(poa := s.poa[oid := Active(servant)])) && KnownOk(s.(poa := s.poa[oid := Active(servant)]))
  {
    hide Split;
  }

  lemma LookupCreate(s: System, oid: string)
    requires Covers(s.components, s.heap)
    requires LookupServant(s.homeRemoved, s.components, s.heap, oid).Create?
    ensures !s.homeRemoved && oid in s.components && Split(oid, '/') == [oid]
    ensures LookupServant(s.homeRemoved, s.components, s.heap, oid).comp == oid
    ensures s.components[oid].servant.Some? ==> !s.heap[s.components[oid].servant.value].removed
  {
    hide HasPort, LocalPushConsumer;
    var names := Split(oid, '/');
    assert names == [names[0]];
    assert Join(names, '/') == oid;
  }

  lemma LookupFound(s: System, oid: string)
    requires Covers(s.components, s.heap)
    requires LookupServant(s.homeRemoved, s.components, s.heap, oid).Found?
    ensures |Split(oid, '/')| > 1
    ensures !LookupServant(s.homeRemoved, s.components, s.heap, oid).servant.ComponentServant?
  {
    hide HasPort, LocalPushConsumer, Split;
  }

  // The machine once a component servant was made for oid.
  function Incarnated(s: System, oid: string, isMonolithic: bool): System {
    var h := s.nextServant;
    s.(nextServant := h + 1,
       heap := s.heap[h := NewComponent(oid, isMonolithic)],
       components := s.components[oid := ComponentInfo(Some(h))],
       poa := s.poa[oid := Active(ComponentServant(h))])
  }

  lemma CreatedServantKeeps(s: System, oid: string, isMonolithic: bool)
    requires Inv(s) && oid in s.components && oid !in s.poa && !s.homeRemoved
    requires s.components[oid].servant.Some? ==> !s.heap[s.components[oid].servant.value].removed
    ensures Inv(Incarnated(s, oid, isMonolithic))
  {
    NotRemoved(s, oid);
    hide IdsOk, HeapOk, MapOk, PoaOk, RemovedOk, IssuedOk, GroupsOk, PlacesOk, CookiesOk, KnownOk;
    IncarnatedMaps(s, oid, isMonolithic);
    IncarnatedPoa(s, oid, isMonolithic);
    IncarnatedHistory(s, oid, isMonolithic);
  }

  lemma NotRemoved(s: System, oid: string)
    requires RemovedOk(s) && oid in s.components
    requires s.components[oid].servant.Some? && s.components[oid].servant.value in s.heap ==>
               !s.heap[s.components[oid].servant.value].removed
    ensures oid !in s.removedComps
  {
  }

  lemma IncarnatedMaps(s: System, oid: string, isMonolithic: bool)
    requires IdsOk(s) && HeapOk(s) && MapOk(s) && oid in s.components && !s.homeRemoved
    ensures var t := Incarnated(s, oid, isMonolithic); IdsOk(t) && HeapOk(t) && MapOk(t)
  {
    NewComponentOk(oid, isMonolithic, s.draws, !s.homeRemoved);
    hide ComponentOk, PortsNamed, Holds, CookieAt, DrawnBefore, NewComponent, Split;
    assert s.nextServant !in s.heap;
  }

  lemma IncarnatedPoa(s: System, oid: string, isMonolithic: bool)
    requires HeapOk(s) && PoaOk(s) && KnownOk(s) && oid in s.components && !s.homeRemoved
    ensures var t := Incarnated(s, oid, isMonolithic); PoaOk(t) && KnownOk(t)
  {
    NewComponentOk(oid, isMonolithic, s.draws, !s.homeRemoved);
    hide ComponentOk, PortsNamed, Holds, CookieAt, DrawnBefore, NewComponent, Split;
    assert s.nextServant !in s.heap;
  }

  lemma IncarnatedHistory(s: System, oid: string, isMonolithic: bool)
    requires HeapOk(s) && RemovedOk(s) && IssuedOk(s) && GroupsOk(s) && PlacesOk(s) && CookiesOk(s)
    requires oid in s.components && !s.homeRemoved
    requires oid !in s.removedComps
    ensures var t := Incarnated(s, oid, isMonolithic);
            RemovedOk(t) && IssuedOk(t) && GroupsOk(t) && PlacesOk(t) && CookiesOk(t)
  {
    NewComponentOk(oid, isMonolithic, s.draws, !s.homeRemoved);
    hide ComponentOk, PortsNamed, Holds, CookieAt, DrawnBefore, NewComponent, Split;
    assert s.nextServant !in s.heap;
  }

  // ----- Carrying out a request -----

  // The machine after a request changed component servant h to d.
  function Changed(s: System, h: nat, d: Component, draws: nat, poa: map<string, Activation>,
                   issued: set<string>, removedComps: set<string>): System
  {
    s.(draws := draws, nextServant := s.nextServant + 1, heap := s.heap[h := d], poa := poa, issued := issued,
       removedComps := removedComps)
  }

  lemma ChangedHeap(s: System, h: nat, d: Component, t: System)
    requires IdsOk(s) && HeapOk(s) && MapOk(s) && h in s.heap
    requires t == Changed(s, h, d, t.draws, t.poa, t.issued, t.removedComps)
    requires s.draws <= t.draws && ComponentOk(d, t.draws, !s.homeRemoved) && PortsNamed(d) && d.oid == s.heap[h].oid
    requires t.removedComps <= s.removedComps + {d.oid}
    ensures IdsOk(t) && HeapOk(t) && MapOk(t)
  {
    hide ComponentOk, PortsNamed, DrawOf, Free;
    forall g | g in s.heap ensures ComponentOk(s.heap[g], t.draws, !s.homeRemoved) {
      LaterDraws(s.heap[g], s.draws, t.draws, !s.homeRemoved);
    }
  }

  lemma ChangedPoa(s: System, h: nat, d: Component, t: System, made: Option<string>, off: set<string>)
    requires PoaOk(s) && KnownOk(s) && h in s.heap
    requires t == Changed(s, h, d, t.draws, t.poa, t.issued, t.removedComps)
    requires t.poa == Deactivate(Activate(s.poa, made, s.nextServant), off)
    requires made.Some? ==> |Split(made.value, '/')| > 1
    requires d.oid == s.heap[h].oid
    ensures PoaOk(t) && KnownOk(t)
  {
    hide Split;
  }

  lemma ChangedRemoved(s: System, h: nat, d: Component, t: System)
    requires RemovedOk(s) && MapOk(s) && h in s.heap
    requires t == Changed(s, h, d, t.draws, t.poa, t.issued, t.removedComps)
    requires s.heap[h].removed ==> d.removed
    requires t.removedComps == s.removedComps ||
             (t.removedComps == s.removedComps + {d.oid} && d.removed
              && (d.oid in s.components ==> s.components[d.oid].servant == Some(h)))
    ensures RemovedOk(t)
  {
  }

  lemma ChangedIssued(s: System, h: nat, d: Component, t: System, more: set<string>)
    requires IssuedOk(s) && MapOk(s) && HeapOk(s) && h in s.heap
    requires t == Changed(s, h, d, t.draws, t.poa, s.issued + more, t.removedComps)
    requires forall o | o in more :: Split(o, '/')[0] == s.heap[h].oid
    ensures IssuedOk(t)
  {
    hide Split, ComponentOk, PortsNamed;
  }

  // d holds no consumer servant that c did not, but the new one in its place.
  ghost predicate HoldsNew(c: Component, draws: nat, op: Op, servant: nat, d: Component) {
    forall n, k, x: nat | Holds(d, n, k, x) :: Holds(c, n, k, x) || (NewPlace(draws, op, n, k) && x == servant)
  }

  lemma ChangedPlaces(s: System, h: nat, d: Component, t: System, op: Op)
    requires PlacesOk(s) && h in s.heap
    requires t == Changed(s, h, d, t.draws, t.poa, t.issued, t.removedComps)
    requires HoldsNew(s.heap[h], s.draws, op, s.nextServant, d)
    ensures PlacesOk(t)
  {
    hide Holds, Stamp, Drawn;
  }

  // And no cookie but the one drawn.
  ghost predicate CookiesNew(c: Component, draws: nat, op: Op, d: Component) {
    forall p, k | CookieAt(d, p, k) :: CookieAt(c, p, k) || NewCookie(c, draws, op, p, k)
  }

  lemma ChangedCookies(s: System, h: nat, d: Component, t: System, op: Op)
    requires CookiesOk(s) && HeapOk(s) && IdsOk(s) && h in s.heap
    requires t == Changed(s, h, d, t.draws, t.poa, t.issued, t.removedComps)
    requires CookiesNew(s.heap[h], s.draws, op, d) && Apply(s.heap[h], s.draws, op).draws <= MODULUS
    ensures CookiesOk(t)
  {
    hide Apply, CookieAt, Stamp, Drawn, DrawnBefore, ComponentOk, PortsNamed;
    forall p, k | CookieAt(d, p, k)
      ensures CookieAt(s.heap[h], p, k) || (NewCookie(s.heap[h], s.draws, op, p, k) && !DrawnBefore(k, s.draws))
    {
      if NewCookie(s.heap[h], s.draws, op, p, k) {
        StampDraw(op.now, s.draws + 1);
      }
    }
    forall g, p, k | g in s.heap && CookieAt(s.heap[g], p, k) ensures DrawnBefore(k, s.draws) {
      CookieDrawn(s.heap[g], s.draws, p, k, !s.homeRemoved);
    }
  }

  // ----- What is carried out -----

  // A component servant that the adapter has active or is deactivating.
  ghost predicate InAdapter(s: System, h: nat) {
    h in s.heap && s.heap[h].oid in s.poa && s.poa[s.heap[h].oid].servant == ComponentServant(h)
  }

  lemma Clean(s: System, h: nat)
    requires IdsOk(s) && HeapOk(s) && h in s.heap
    ensures ComponentOk(s.heap[h], s.draws, !s.homeRemoved) && PortsNamed(s.heap[h])
    ensures Free(s.heap[h].oid, '/') && Free(s.heap[h].oid, '\0')
  {
    hide ComponentOk, PortsNamed, DrawOf;
  }

  // While the home is there, every call on a local consumer is answered.
  lemma AnsweredAtHome(s: System, h: nat, op: Op)
    requires IdsOk(s) && HeapOk(s) && PoaOk(s) && KnownOk(s) && Covers(s.components, s.heap)
    requires InAdapter(s, h) && !s.homeRemoved && !op.OpRemove? && (op.OpSubscribe? ==> s.draws < MODULUS)
    ensures !CallRefused(s, h, op)
  {
    hide ComponentOk, PortsNamed, IdsOk, HeapOk, DrawnBefore, Called, DuringCalls, LookupServant, Holds, CreateOid,
      Split, Free;
    Clean(s, h);
    var c := s.heap[h];
    forall o | o in Called(c, s.draws, op) ensures Answers(s, h, DuringCalls(c, s.draws, op), o) {
      var n, k, x := DuringHolds(c, s.draws, op, o);
      LookupLocal(s.components, s.heap[h := DuringCalls(c, s.draws, op)], c.oid, h, n, k, x);
    }
  }

  lemma CarryDraws(s: System, h: nat, op: Op)
    requires Covers(s.components, s.heap) && h in s.heap
    ensures var k := Carry(s, h, op);
            var c := s.heap[h];
            && s.draws <= k.applied.draws <= s.draws + 1 && k.applied.comp.oid == c.oid
            && (c.removed ==> k.applied.comp.removed)
            && (op.OpRemove? && k.applied.reply == Done ==> k.applied.comp.removed)
            && (CallRefused(s, h, op) ==> k.applied.reply == Failed(NarrowRaised) && k.made == None)
            && (op.OpSubscribe? && CallRefused(s, h, op) ==> k.applied.draws == s.draws + 1)
  {
    hide Apply, Raising, Called, DuringCalls, Answering, Answers, MadeLocal, Deactivated, RaisingTold;
    DrawingStops(s.heap[h], s.draws, op);
    ApplyRemoved(s.heap[h], s.draws, op);
    if CallRefused(s, h, op) {
      RaisingFrame(s.heap[h], s.draws, op, Answering(s, h, op));
    }
  }

  lemma CarryKeeps(s: System, h: nat, op: Op)
    requires IdsOk(s) && HeapOk(s) && PoaOk(s) && KnownOk(s) && Covers(s.components, s.heap) && InAdapter(s, h)
    requires LegalOp(op) && Carry(s, h, op).applied.draws <= MODULUS
    ensures var a := Carry(s, h, op).applied;
            ComponentOk(a.comp, a.draws, !s.homeRemoved) && PortsNamed(a.comp)
  {
    hide ComponentOk, PortsNamed, IdsOk, HeapOk, PoaOk, KnownOk, Apply, Raising, Called, DuringCalls, Answers,
      MadeLocal, Deactivated, RaisingTold, LegalOp, Covers;
    var c := s.heap[h];
    Clean(s, h);
    CarryDraws(s, h, op);
    if CallRefused(s, h, op) {
      RaisingNamed(c, s.draws, op, Answering(s, h, op));
      RaisingKeeps(c, s.draws, op, Answering(s, h, op), !s.homeRemoved);
      if !s.homeRemoved && !op.OpRemove? { AnsweredAtHome(s, h, op); }
    } else {
      ApplyKeeps(c, s.draws, op, !s.homeRemoved);
      ApplyPortsNamed(c, s.draws, op);
    }
  }

  lemma CarryNew(s: System, h: nat, op: Op)
    requires Covers(s.components, s.heap) && h in s.heap && op == WithServant(op, s.nextServant)
    ensures var d := Carry(s, h, op).applied.comp;
            HoldsNew(s.heap[h], s.draws, op, s.nextServant, d) && CookiesNew(s.heap[h], s.draws, op, d)
  {
    hide Apply, Raising, Called, DuringCalls, Answers, MadeLocal, Deactivated, RaisingTold, Covers, Holds, CookieAt,
      Stamp, Drawn, NewCookie;
    var c := s.heap[h];
    var d := Carry(s, h, op).applied.comp;
    forall n, k, x: nat | Holds(d, n, k, x) ensures Holds(c, n, k, x)
        || (NewPlace(s.draws, op, n, k) && x == s.nextServant) {
      if CallRefused(s, h, op) {
        RaisingHolds(c, s.draws, op, Answering(s, h, op), n, k, x);
      } else {
        ApplyHolds(c, s.draws, op, n, k, x);
      }
    }
    forall p, k | CookieAt(d, p, k) ensures CookieAt(c, p, k) || NewCookie(c, s.draws, op, p, k) {
      if CallRefused(s, h, op) {
        RaisingCookies(c, s.draws, op, Answering(s, h, op), p, k);
      } else {
        ApplyCookies(c, s.draws, op, p, k);
      }
    }
  }

  lemma CarryIssues(s: System, h: nat, op: Op)
    requires Covers(s.components, s.heap) && h in s.heap && Free(s.heap[h].oid, '/') && Free(s.heap[h].oid, '\0')
    ensures var k := Carry(s, h, op);
            && (forall i | i in Issued(k.made, k.applied.reply) :: Split(i, '/')[0] == s.heap[h].oid)
            && (k.made.Some? ==> |Split(k.made.value, '/')| > 1)
  {
    hide Apply, Raising, Called, DuringCalls, Answers, MadeLocal, Deactivated, RaisingTold, Covers, Split, Free;
    CarryDraws(s, h, op);
    RequestIssues(s.heap[h], s.draws, op);
  }

  // A subscribe that draws on its way draws as much when it is refused.
  lemma RefusedDraws(s: System, h: nat, op: Op)
    requires Covers(s.components, s.heap) && h in s.heap
    ensures Apply(s.heap[h], s.draws, op).draws == Carry(s, h, op).applied.draws
  {
    hide Answers, Connect, Disconnect, ConnectConsumer, Unanswered, CreateOid, SubscribeInserted, SubscribeConnected,
      Stamp;
  }

  lemma ActiveServant(s: System, oid: string)
    requires Inv(s) && oid in s.poa && s.poa[oid].servant.ComponentServant?
    ensures var h := s.poa[oid].servant.h;
            && h in s.heap && s.heap[h].oid == oid && ComponentOk(s.heap[h], s.draws, !s.homeRemoved)
              && PortsNamed(s.heap[h])
            && oid in s.created && Free(oid, '/') && Free(oid, '\0')
            && (oid in s.components ==> s.components[oid].servant == Some(h))
  {
    hide ComponentOk, PortsNamed, DrawnBefore, MapOk, RemovedOk, IssuedOk, GroupsOk, PlacesOk, CookiesOk;
    CreatedFree(s, oid);
  }

  lemma RequestKeeps(s: System, oid: string, op: Op)
    requires Inv(s) && LegalOp(op) && DoRequest(s, oid, op).draws <= MODULUS
    ensures Inv(DoRequest(s, oid, op))
  {
    hide Apply, ComponentOk, PortsNamed, Holds, DrawnBefore, Split, Carry, Deactivate, Activate, Issued, HoldsNew,
      CookiesNew, IdsOk, HeapOk, MapOk, PoaOk, RemovedOk, IssuedOk, PlacesOk, CookiesOk, KnownOk, Covers;
    var t := DoRequest(s, oid, op);
    InvCovers(s);
    if t != s {
      ActiveServant(s, oid);
      var h := s.poa[oid].servant.h;
      var o := WithServant(op, s.nextServant);
      var k := Carry(s, h, o);
      var d := k.applied.comp;
      CarryDraws(s, h, o);
      CarryKeeps(s, h, o);
      CarryNew(s, h, o);
      CarryIssues(s, h, o);
      RefusedDraws(s, h, o);
      ChangedHeap(s, h, d, t);
      ChangedPoa(s, h, d, t, k.made, k.off);
      ChangedRemoved(s, h, d, t);
      ChangedIssued(s, h, d, t, Issued(k.made, k.applied.reply));
      ChangedPlaces(s, h, d, t, o);
      ChangedCookies(s, h, d, t, o);
    }
  }

  lemma CreatedFree(s: System, c: string)
    requires IdsOk(s) && c in s.created
    ensures Free(c, '/') && Free(c, '\0')
  {
    hide DrawOf;
  }

  // ----- The remaining steps -----

  lemma PassivateKeeps(s: System, oid: string)
    requires Inv(s)
    ensures Inv(DoPassivate(s, oid))
  {
    hide ComponentOk, PortsNamed, Holds, CookieAt, DrawnBefore, Split;
  }

  // A release that forgets a component is that of its own servant.
  lemma DroppedSelf(s: System, oid: string, servant: Servant<nat>)
    requires servant.ComponentServant? ==> servant.h in s.heap
    ensures var r := ReleaseServant(s.components.Keys, s.heap, oid, servant); r.DroppedLast? ==> r.comp == oid
  {
    var names := Split(oid, '/');
    assert |names| == 1 ==> names == [names[0]] && Join(names, '/') == oid;
  }

  lemma EtherealizeKeeps(s: System, oid: string, remaining: bool)
    requires Inv(s)
    ensures Inv(DoEtherealize(s, oid, remaining))
  {
    hide Inv, ReleaseServant;
    var t := DoEtherealize(s, oid, remaining);
    if t != s {
      DroppedSelf(s, oid, s.poa[oid].servant);
      if t.components == s.components && t.groups == s.groups {
        assert s.components - {} == s.components && s.groups - {} == s.groups;
        ForgetKeeps(s, oid, {});
      } else {
        ForgetKeeps(s, oid, {oid});
      }
    }
  }

  lemma ForgetKeeps(s: System, oid: string, gone: set<string>)
    requires Inv(s) && gone <= {oid}
    ensures Inv(s.(poa := s.poa - {oid}, components := s.components - gone, groups := s.groups - gone))
  {
    hide ComponentOk, PortsNamed, Holds, CookieAt, DrawnBefore, Split;
  }

  lemma RemoveHomeKeeps(s: System)
    requires Inv(s)
    ensures Inv(DoRemoveHome(s))
  {
    hide ComponentOk, PortsNamed, Holds, CookieAt, DrawnBefore, Split;
    forall h | h in s.heap ensures ComponentOk(s.heap[h], s.draws, false) {
      Unsettle(s.heap[h], s.draws, !s.homeRemoved);
    }
  }

  lemma NextKeeps(s: System, step: Step)
    requires Inv(s) && Legal(step) && Next(s, step).draws <= MODULUS
    ensures Inv(Next(s, step))
  {
    hide Inv, DoCreate, DoIncarnate, DoRequest, DoPassivate, DoEtherealize, DoRemoveHome;
    match step
    case CreateComponent(now, group, refMade) => CreateKeeps(s, now, group, refMade);
    case Incarnate(oid, mono, made) => IncarnateKeeps(s, oid, mono, made);
    case Request(oid, op) => RequestKeeps(s, oid, op);
    case Passivate(oid) => PassivateKeeps(s, oid);
    case Etherealize(oid, remaining) => EtherealizeKeeps(s, oid, remaining);
    case RemoveHome => RemoveHomeKeeps(s);
  }
}
