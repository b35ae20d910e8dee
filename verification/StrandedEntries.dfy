// What a refused call leaves in a component stays there, whatever is requested
// of it and whatever happens to the home afterwards.
module StrandedEntries {
  import opened Outcomes
  import opened Identifiers
  import opened ObjectIds
  import opened Cookies
  import opened Components
  import opened PortInvariants
  import opened PortRefusals
  import opened OperationEffects
  import opened Homes
  import opened Lifecycle
  import opened Dispatch

  // A subscription whose proxy supplier is missing or no longer connected.
  predicate StrandedEntry(c: Component, name: string, ck: Octets) {
    && name in c.publishers && ck in c.publishers[name].subscriptions
    && var p := c.publishers[name];
       p.subscriptions[ck].proxy.None?
       || (p.subscriptions[ck].proxy.value < p.channel.next && p.subscriptions[ck].proxy.value !in p.channel.connected)
  }

  lemma EntryFails(c: Component, draws: nat, name: string, ck: Octets)
    requires StrandedEntry(c, name, ck)
    ensures Unsubscribe(c, draws, Some(name), Some(ck)).reply.Failed?
  {
  }

  lemma SubscribeStrands(c: Component, draws: nat, name: string, subscriber: ObjRef, now: Timeval, servant: nat)
    requires ComponentOk(c, draws, false) && draws < MODULUS && SubscribeNarrows(c, Some(name), subscriber)
    ensures StrandedEntry(SubscribeRaising(c, draws, Some(name), subscriber, now, servant).comp, name,
                          Stamp(now, Drawn(draws + 1)))
  {
    hide ComponentOk, Stamp, Drawn, CreateOid;
    FreshCookie(c, draws, now, false);
  }

  lemma UnsubscribeStrands(c: Component, draws: nat, name: string, ck: Octets)
    requires ComponentOk(c, draws, false) && UnsubscribeCalls(c, draws, Some(name), Some(ck))
    ensures StrandedEntry(UnsubscribeRaising(c, draws, Some(name), Some(ck)).comp, name, ck)
  {
    hide ComponentOk, SubscriptionOk, CreateOid, Comparable;
    PublisherAt(c, draws, name, false);
  }

  // While the home is there no component that is not removed has such an entry.
  lemma NoneAtHome(s: System, h: nat, name: string, ck: Octets)
    requires Reachable(s) && !s.homeRemoved && h in s.heap && !s.heap[h].removed
    ensures !StrandedEntry(s.heap[h], name, ck)
  {
    hide Reachable, ComponentOk, SubscriptionOk, CreateOid;
    ReachablePorts(s, h);
    if name in s.heap[h].publishers {
      PublisherAt(s.heap[h], s.draws, name, true);
    }
  }

  // ----- One operation -----

  lemma EntryApplied(c: Component, draws: nat, op: Op, name: string, ck: Octets)
    requires StrandedEntry(c, name, ck) && ComponentOk(c, draws, false) && Apply(c, draws, op).draws <= MODULUS
    ensures StrandedEntry(Apply(c, draws, op).comp, name, ck)
  {
    hide ComponentOk, CreateOid, Stamp, Drawn, Comparable, Connect, Disconnect, ConnectConsumer, DisconnectConsumer,
      ConfigurationComplete, DeclareFacet, DeclareConsumer, DeclareReceptacle, DeclareEmitter;
    if op.OpSubscribe? && draws < MODULUS { FreshCookie(c, draws, op.now, false); }
  }

  lemma EntryRaised(c: Component, draws: nat, op: Op, answers: set<string>, name: string, ck: Octets)
    requires StrandedEntry(c, name, ck) && ComponentOk(c, draws, false) && !(Called(c, draws, op) <= answers)
    requires Raising(c, draws, op, answers).draws <= MODULUS
    ensures StrandedEntry(Raising(c, draws, op, answers).comp, name, ck)
  {
    hide ComponentOk, CreateOid, Stamp, Drawn, Comparable, Unanswered;
    RaisingFrame(c, draws, op, answers);
    if op.OpSubscribe? { FreshCookie(c, draws, op.now, false); }
  }

  lemma EmitterRaised(c: Component, draws: nat, op: Op, answers: set<string>, name: string)
    requires Stranded(c, name) && !(Called(c, draws, op) <= answers)
    ensures Stranded(Raising(c, draws, op, answers).comp, name)
  {
    hide CreateOid, Stamp, Drawn, Unanswered, Comparable;
    RaisingFrame(c, draws, op, answers);
  }

  // ----- Every step of the machine -----

  lemma RequestOnly(s: System, step: Step, h: nat)
    requires HeapOk(s) && h in s.heap && !step.Request?
    ensures var t := Next(s, step); h in t.heap && t.heap[h] == s.heap[h]
  {
    hide DoRequest, LookupServant, ReleaseServant, NewComponent, Stamp, Covers, ComponentOk, PortsNamed;
  }

  lemma RequestOne(s: System, oid: string, op: Op, h: nat)
    requires h in s.heap
    ensures var t := Next(s, Request(oid, op));
            var o := WithServant(op, s.nextServant);
            && h in t.heap
            && (t.heap[h] == s.heap[h]
                || (Covers(s.components, s.heap) && t.heap[h] == Carry(s, h, o).applied.comp
                    && t.draws == Carry(s, h, o).applied.draws))
  {
    hide Carry, Covers;
  }

  lemma NextStranded(s: System, step: Step, h: nat, name: string)
    requires Inv(s) && h in s.heap && Stranded(s.heap[h], name)
    ensures var t := Next(s, step); h in t.heap && Stranded(t.heap[h], name)
  {
    hide Next, Stranded, Covers, Apply, Raising, Called, Answering;
    if step.Request? {
      RequestOne(s, step.oid, step.op, h);
      var o := WithServant(step.op, s.nextServant);
      StrandedStep(s.heap[h], s.draws, o, name);
      if Covers(s.components, s.heap) && CallRefused(s, h, o) {
        EmitterRaised(s.heap[h], s.draws, o, Answering(s, h, o), name);
      }
    } else {
      RequestOnly(s, step, h);
    }
  }

  lemma NextStrandedEntry(s: System, step: Step, h: nat, name: string, ck: Octets)
    requires Inv(s) && Next(s, step).draws <= MODULUS && h in s.heap && StrandedEntry(s.heap[h], name, ck)
    ensures var t := Next(s, step); h in t.heap && StrandedEntry(t.heap[h], name, ck)
  {
    hide Next, StrandedEntry, Covers, Apply, Raising, Called, Answering, ComponentOk;
    if step.Request? {
      RequestOne(s, step.oid, step.op, h);
      var o := WithServant(step.op, s.nextServant);
      Unsettle(s.heap[h], s.draws, !s.homeRemoved);
      if Next(s, step).heap[h] != s.heap[h] {
        if CallRefused(s, h, o) {
          EntryRaised(s.heap[h], s.draws, o, Answering(s, h, o), name, ck);
        } else {
          EntryApplied(s.heap[h], s.draws, o, name, ck);
        }
      }
    } else {
      RequestOnly(s, step, h);
    }
  }

  // ----- Every run -----

  // An emitter once stranded stays so, and so does an entry: no connect or
  // disconnect on that emitter and no unsubscribe with that cookie succeeds in
  // any state that follows.
  lemma {:induction false} StrandedAlways(s: System, steps: seq<Step>, h: nat, name: string)
    requires Inv(s) && Run(s, steps).draws <= MODULUS && h in s.heap && Stranded(s.heap[h], name)
    requires forall i | 0 <= i < |steps| :: Legal(steps[i])
    ensures var t := Run(s, steps); h in t.heap && Stranded(t.heap[h], name)
    decreases |steps|
  {
    hide Next, Inv, Stranded, Legal;
    if steps != [] {
      RunDraws(Next(s, steps[0]), steps[1..]);
      NextKeeps(s, steps[0]);
      NextStranded(s, steps[0], h, name);
      StrandedAlways(Next(s, steps[0]), steps[1..], h, name);
    }
  }

  lemma {:induction false} EntryAlways(s: System, steps: seq<Step>, h: nat, name: string, ck: Octets)
    requires Inv(s) && Run(s, steps).draws <= MODULUS && h in s.heap && StrandedEntry(s.heap[h], name, ck)
    requires forall i | 0 <= i < |steps| :: Legal(steps[i])
    ensures var t := Run(s, steps);
            && h in t.heap && StrandedEntry(t.heap[h], name, ck)
            && forall d: nat :: Unsubscribe(t.heap[h], d, Some(name), Some(ck)).reply.Failed?
    decreases |steps|
  {
    hide Next, Inv, StrandedEntry, Legal, Unsubscribe;
    if steps == [] {
      forall d: nat ensures Unsubscribe(s.heap[h], d, Some(name), Some(ck)).reply.Failed? {
        EntryFails(s.heap[h], d, name, ck);
      }
    } else {
      RunDraws(Next(s, steps[0]), steps[1..]);
      NextKeeps(s, steps[0]);
      NextStrandedEntry(s, steps[0], h, name, ck);
      EntryAlways(Next(s, steps[0]), steps[1..], h, name, ck);
    }
  }
}
