// What an answered request does to the adapter: which object ids it activates,
// which it deactivates, which references it hands out, and what never comes
// back.
module AdapterEffects {
  import opened Outcomes
  import opened Identifiers
  import opened ObjectIds
  import opened Cookies
  import opened Components
  import opened PortInvariants
  import opened PortAnswers
  import opened OperationEffects
  import opened Homes
  import opened Lifecycle
  import opened Dispatch

  // A request to component servant h whose calls are all answered.
  ghost predicate Answered(s: System, comp: string, h: nat, op: Op) {
    && Reachable(s) && Covers(s.components, s.heap) && InAdapter(s, h) && s.heap[h].oid == comp
    && !CallRefused(s, h, WithServant(op, s.nextServant))
  }

  // The adapter with these object ids on their way out and no other change.
  ghost predicate OnlyDeactivates(s: System, t: System, gone: set<string>) {
    && t.poa.Keys == s.poa.Keys
    && forall o | o in s.poa ::
        t.poa[o] == if o in gone then Deactivating(s.poa[o].servant) else s.poa[o]
  }

  ghost predicate OnlyActivates(s: System, t: System, o: string, servant: nat) {
    t.poa == if o in s.poa then s.poa else s.poa[o := Active(PushServant(servant))]
  }

  lemma Quiet(s: System, t: System, off: set<string>, gone: set<string>)
    requires t.poa == Deactivate(Activate(s.poa, None, s.nextServant), off)
    requires forall o | o in s.poa :: o in off <==> o in gone
    ensures OnlyDeactivates(s, t, gone)
  {
  }

  lemma AnsweredStep(s: System, comp: string, h: nat, op: Op)
    requires Answered(s, comp, h, op)
    ensures ComponentOk(s.heap[h], s.draws, !s.homeRemoved) && PortsNamed(s.heap[h])
    ensures var c := s.heap[h];
            var o := WithServant(op, s.nextServant);
            var a := Apply(c, s.draws, o);
            var made := MadeLocal(c, s.draws, o);
            var t := Next(s, Request(comp, op));
            && t.heap == s.heap[h := a.comp] && t.nextServant == s.nextServant + 1
            && t.poa == Deactivate(Activate(s.poa, made, s.nextServant), Deactivated(c, o, a.reply))
            && t.issued == s.issued + Issued(made, a.reply)
  {
    hide Reachable, Covers, CallRefused, Next, ComponentOk, PortsNamed, IdsOk, Apply, Deactivated, MadeLocal, Issued,
      Activate, Deactivate, MapOk, PoaOk, RemovedOk, IssuedOk, GroupsOk, PlacesOk, CookiesOk, KnownOk;
    RequestStep(s, comp, h, op);
    ReachableInv(s);
    Clean(s, h);
  }

  // ----- Deactivating -----

  // An unsubscribe that is done deactivates the consumer made for the cookie,
  // and where the subscriber took the events itself nothing.
  lemma UnsubscribedGoes(s: System, comp: string, h: nat, name: string, ck: Octets)
    requires Answered(s, comp, h, OpUnsubscribe(Some(name), Some(ck)))
    requires Unsubscribe(s.heap[h], s.draws, Some(name), Some(ck)).reply == Done
    ensures name in s.heap[h].publishers && ck in s.heap[h].publishers[name].subscriptions
    ensures var t := Next(s, Request(comp, OpUnsubscribe(Some(name), Some(ck))));
            var subscriber := s.heap[h].publishers[name].subscriptions[ck].consumer;
            OnlyDeactivates(s, t, if subscriber.IsA(PUSH_CONSUMER) then {} else {CreateOid(comp, name, ck)})
  {
    hide Answered, Next, Activate, Deactivate, Comparable, CreateOid, ComponentOk, SubscriptionOk, PortsNamed;
    var op := OpUnsubscribe(Some(name), Some(ck));
    AnsweredStep(s, comp, h, op);
    AnsweredFrom(s, comp, h, op);
    var c := s.heap[h];
    PublisherAt(c, s.draws, name, !s.homeRemoved);
    hide Unsubscribe, OnlyDeactivates;
    SettledEntry(c, s.draws, name, ck, !s.homeRemoved);
    Quiet(s, Next(s, Request(comp, op)), Deactivated(c, op, Done),
          if c.publishers[name].subscriptions[ck].consumer.IsA(PUSH_CONSUMER) then {} else {CreateOid(comp, name, ck)});
  }

  lemma AnsweredFrom(s: System, comp: string, h: nat, op: Op)
    requires Answered(s, comp, h, op)
    ensures h in s.heap && s.heap[h].oid == comp && Reachable(s)
  {
  }

  lemma SettledEntry(c: Component, draws: nat, name: string, ck: Octets, settled: bool)
    requires name in c.publishers && PublisherOk(c.oid, name, c.publishers[name], draws, c.removed, settled)
    requires ck in c.publishers[name].subscriptions && c.publishers[name].subscriptions[ck].proxy.Some?
    ensures var e := c.publishers[name].subscriptions[ck];
            e.pushConsumer == PushTarget(e.consumer, CreateOid(c.oid, name, ck))
  {
    hide CreateOid, ChannelAgrees, DrawnBefore;
  }

  // The same for disconnect_consumer.
  lemma DisconnectedGoes(s: System, comp: string, h: nat, name: string)
    requires Answered(s, comp, h, OpDisconnectConsumer(Some(name)))
    requires DisconnectConsumer(s.heap[h], s.draws, Some(name)).reply.GotConsumer?
    ensures var t := Next(s, Request(comp, OpDisconnectConsumer(Some(name))));
            var consumer := DisconnectConsumer(s.heap[h], s.draws, Some(name)).reply.consumer;
            OnlyDeactivates(s, t, if consumer.IsA(PUSH_CONSUMER) then {} else {CreateOid(comp, name, EMITTER_CK)})
  {
    hide Answered, Next, Activate, Deactivate, CreateOid, ComponentOk, PortsNamed, OnlyDeactivates;
    var op := OpDisconnectConsumer(Some(name));
    AnsweredStep(s, comp, h, op);
    AnsweredFrom(s, comp, h, op);
    var c := s.heap[h];
    EmitterAt(c, s.draws, name, !s.homeRemoved);
    Quiet(s, Next(s, Request(comp, op)), Deactivated(c, op, DisconnectConsumer(c, s.draws, Some(name)).reply),
          if c.emitters[name].consumer.IsA(PUSH_CONSUMER) then {} else {CreateOid(comp, name, EMITTER_CK)});
  }

  // A removal that is done deactivates the component and, unless it is
  // monolithic, each of its facets and sinks.
  lemma RemovedGoes(s: System, comp: string, h: nat)
    requires Answered(s, comp, h, OpRemove(true)) && !s.heap[h].removed
    ensures var c := s.heap[h];
            var t := Next(s, Request(comp, OpRemove(true)));
            && OnlyDeactivates(s, t, set o | o in s.poa &&
                 (o == comp || (!c.isMonolithic && exists n :: HasPort(c, n) && o == PortOid(c, comp, n))))
            && h in t.heap && t.heap[h].removed && comp in t.removedComps
  {
    hide Answered, Activate, Deactivate, PortOid, ComponentOk, OnlyDeactivates;
    var op := OpRemove(true);
    AnsweredStep(s, comp, h, op);
    AnsweredFrom(s, comp, h, op);
    var c := s.heap[h];
    RemovedRecorded(s, comp, h);
    hide Next;
    assert PortRefsOk(c);
    var gone := set o | o in s.poa &&
      (o == comp || (!c.isMonolithic && exists n :: HasPort(c, n) && o == PortOid(c, comp, n)));
    assert forall n | n in c.facets || n in c.consumers :: HasPort(c, n);
    Quiet(s, Next(s, Request(comp, op)), Deactivated(c, op, Done), gone);
  }

  lemma RemovedRecorded(s: System, comp: string, h: nat)
    requires Answered(s, comp, h, OpRemove(true)) && !s.heap[h].removed
    ensures comp in Next(s, Request(comp, OpRemove(true))).removedComps
  {
    hide Reachable, Covers, CallRefused, Activate, Deactivate, MadeLocal, Deactivated, Issued;
  }

  // ----- Activating -----

  // A subscribe that comes so far activates the new consumer, even when the
  // channel then refuses it, and hands its reference out.
  lemma SubscribedIsActive(s: System, comp: string, h: nat, name: string, subscriber: ObjRef, now: Timeval,
                           accepts: bool)
    requires Answered(s, comp, h, OpSubscribe(Some(name), subscriber, now, 0, accepts))
    requires !s.heap[h].removed && name in s.heap[h].publishers && subscriber.IsA(s.heap[h].publishers[name].repId)
    ensures var t := Next(s, Request(comp, OpSubscribe(Some(name), subscriber, now, 0, accepts)));
            var o := CreateOid(comp, name, Stamp(now, Drawn(s.draws + 1)));
            if subscriber.IsA(PUSH_CONSUMER) then OnlyDeactivates(s, t, {}) && t.issued == s.issued
            else OnlyActivates(s, t, o, s.nextServant) && t.issued == s.issued + {o}
  {
    hide Answered, Next, CreateOid, Stamp, Drawn, ComponentOk, PortsNamed, SubscribeInserted, SubscribeConnected;
    var op := OpSubscribe(Some(name), subscriber, now, 0, accepts);
    AnsweredStep(s, comp, h, op);
    AnsweredFrom(s, comp, h, op);
  }

  lemma ConnectedIsActive(s: System, comp: string, h: nat, name: string, consumer: ObjRef, accepts: bool)
    requires Answered(s, comp, h, OpConnectConsumer(Some(name), consumer, 0, accepts))
    requires !s.heap[h].removed && name in s.heap[h].emitters && consumer.IsA(s.heap[h].emitters[name].repId)
    requires s.heap[h].emitters[name].consumer.Nil?
    ensures var t := Next(s, Request(comp, OpConnectConsumer(Some(name), consumer, 0, accepts)));
            var o := CreateOid(comp, name, "Emitter");
            if consumer.IsA(PUSH_CONSUMER) then OnlyDeactivates(s, t, {}) && t.issued == s.issued
            else OnlyActivates(s, t, o, s.nextServant) && t.issued == s.issued + {o}
  {
    hide Answered, Next, CreateOid, ComponentOk, PortsNamed;
    var op := OpConnectConsumer(Some(name), consumer, 0, accepts);
    AnsweredStep(s, comp, h, op);
    AnsweredFrom(s, comp, h, op);
  }

  // No other request changes the adapter, and none but the declaration of a
  // facet or a sink hands out a reference.
  lemma OthersStay(s: System, comp: string, h: nat, op: Op)
    requires Answered(s, comp, h, op)
    requires op.OpConnect? || op.OpDisconnect? || op.OpConfigurationComplete? || op.OpDeclareFacet?
      || op.OpDeclareConsumer? || op.OpDeclareReceptacle? || op.OpDeclareEmitter? || op.OpDeclarePublisher?
    ensures var t := Next(s, Request(comp, op));
            var made := Apply(s.heap[h], s.draws, op).reply;
            && OnlyDeactivates(s, t, {})
            && t.issued == s.issued + (if made.GotOid? then {made.oid} else {})
  {
    hide Answered, Next, Apply, ComponentOk, PortsNamed;
    AnsweredStep(s, comp, h, op);
    AnsweredFrom(s, comp, h, op);
  }

  // A request that fails leaves the adapter alone, but for the consumer that
  // was made before the channel refused it.
  lemma FailedStays(s: System, comp: string, h: nat, op: Op)
    requires Answered(s, comp, h, op)
    requires var r := Apply(s.heap[h], s.draws, WithServant(op, s.nextServant)).reply;
             r.Failed? && r != Failed(ChannelRefused)
    ensures var t := Next(s, Request(comp, op)); OnlyDeactivates(s, t, {}) && t.issued == s.issued
  {
    hide Answered, Next, ComponentOk, PortsNamed, Connect, Disconnect, Unsubscribe, DisconnectConsumer,
      ConfigurationComplete, Remove, DeclareFacet, DeclareConsumer, DeclareReceptacle, DeclareEmitter,
      DeclarePublisher, Stamp, CreateOid, SubscribeInserted, SubscribeConnected;
    AnsweredStep(s, comp, h, op);
    AnsweredFrom(s, comp, h, op);
  }

  // A removal cut short deactivates just the ports that were told before the
  // refusal, and the component stays.
  lemma CutShortGoes(s: System, comp: string, h: nat)
    requires Reachable(s) && Covers(s.components, s.heap) && InAdapter(s, h) && s.heap[h].oid == comp
    requires CallRefused(s, h, OpRemove(true))
    ensures var c := s.heap[h];
            var t := Next(s, Request(comp, OpRemove(true)));
            var answers := Answering(s, h, OpRemove(true));
            && OnlyDeactivates(s, t, set o | o in s.poa && ToldFirst(c, answers, o))
            && t.issued == s.issued && t.removedComps == s.removedComps
            && h in t.heap && !t.heap[h].removed
  {
    hide Reachable, Covers, Activate, Deactivate, OnlyDeactivates, ToldFirst, Answering, RaisingTold, CallRefused;
    var c := s.heap[h];
    var answers := Answering(s, h, OpRemove(true));
    CutShortStep(s, comp, h);
    forall o | o in s.poa
      ensures o in RaisingTold(c, OpRemove(true), answers) <==> ToldFirst(c, answers, o)
    {
      RaisingTells(c, answers, o);
    }
    Quiet(s, Next(s, Request(comp, OpRemove(true))), RaisingTold(c, OpRemove(true), answers),
          set o | o in s.poa && ToldFirst(c, answers, o));
  }

  lemma CutShortStep(s: System, comp: string, h: nat)
    requires Covers(s.components, s.heap) && InAdapter(s, h) && s.heap[h].oid == comp
    requires CallRefused(s, h, OpRemove(true))
    ensures var t := Next(s, Request(comp, OpRemove(true)));
            && t.poa == Deactivate(Activate(s.poa, None, s.nextServant),
                                   RaisingTold(s.heap[h], OpRemove(true), Answering(s, h, OpRemove(true))))
            && t.issued == s.issued && t.removedComps == s.removedComps
            && h in t.heap && !t.heap[h].removed
  {
    hide Covers, Activate, Deactivate, RaisingTold, Unanswered, Answers;
  }

  // ----- Steps of the adapter -----

  // An object id that is not active is activated with the servant the home
  // finds, or with a new component servant that the home then knows, and
  // nothing happens when it is refused or none could be made.
  lemma IncarnatedExactly(s: System, o: string, isMonolithic: bool, made: bool)
    requires Covers(s.components, s.heap)
    ensures var t := Next(s, Incarnate(o, isMonolithic, made));
            var look := LookupServant(s.homeRemoved, s.components, s.heap, o);
            var h := s.nextServant;
            if o in s.poa || look.Refused? || (look.Create? && !made) then t == s
            else if look.Found? then t == s.(poa := t.poa) && t.poa == s.poa[o := Active(look.servant)]
            else
              && t.poa == s.poa[o := Active(ComponentServant(h))] && t.nextServant > h
              && t.components == s.components[o := ComponentInfo(Some(h))]
              && t.heap == s.heap[h := NewComponent(o, isMonolithic)] && t.groups == s.groups && t.draws == s.draws
  {
    LookupAnswers(s.components, s.heap, s.homeRemoved, o);
    hide LookupServant;
  }

  // Passivation deactivates its object id only, and a request that reaches no
  // component servant changes nothing.
  lemma PassivatedGoes(s: System, o: string, op: Op)
    ensures OnlyDeactivates(s, Next(s, Passivate(o)), {o})
    ensures Next(s, Passivate(o)).heap == s.heap && Next(s, Passivate(o)).components == s.components
    ensures o !in s.poa || !s.poa[o].servant.ComponentServant? ==> Next(s, Request(o, op)) == s
  {
    hide Covers, Carry;
  }

  // An etherealization ends just the object id that was deactivated, whether
  // or not the home lets go of its servant.
  lemma EtherealizedLeaves(s: System, o: string, remaining: bool)
    requires o in s.poa && s.poa[o].servant.ComponentServant? ==> s.poa[o].servant.h in s.heap
    ensures var t := Next(s, Etherealize(o, remaining));
            && t.poa == (if o in s.poa && s.poa[o].Deactivating? then s.poa - {o} else s.poa)
            && t.heap == s.heap && t.draws == s.draws && t.homeRemoved == s.homeRemoved
  {
    hide ReleaseServant;
  }
}
