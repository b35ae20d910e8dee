// What every operation of a component keeps true of its ports, and what one
// operation undoes of another.
module PortInvariants {
  import opened Outcomes
  import opened Text
  import opened Identifiers
  import opened ObjectIds
  import opened Cookies
  import opened Components

  // ----- The invariant -----

  ghost predicate ReceptacleOk(r: Receptacle, draws: nat) {
    && (!r.isMultiplex ==> |r.connections| <= 1)
    && (forall k | k in r.connections :: DrawnBefore(k, draws) && r.connections[k].IsA(r.repId))
  }

  // Where events for a consumer go: to itself when it takes pushed events, or
  // else to the component's local consumer at oid.
  function PushTarget(consumer: ObjRef, oid: string): PushRef {
    if consumer.IsA(PUSH_CONSUMER) then Remote(consumer) else Local(oid)
  }

  // settled: no call inside an operation on one of the component's own local
  // consumers was ever refused. Where one was, an entry may have been left
  // without a consumer to push to, or without a connected proxy supplier.
  ghost predicate SubscriptionOk(oid: string, name: string, repId: string, k: Octets, s: Subscription, draws: nat,
                                 settled: bool)
  {
    && DrawnBefore(k, draws)
    && s.consumer.IsA(repId)
    && (s.servant.Some? <==> !s.pushConsumer.Remote?)
    && (s.pushConsumer == PushTarget(s.consumer, CreateOid(oid, name, k))
        || (!settled && s.pushConsumer == NoPush && s.proxy.None?))
  }

  // No proxy supplier is connected but that of a cookie, delivering to the
  // consumer stored for it, and no two cookies share one. When settled, each
  // cookie has its own.
  ghost predicate ChannelAgrees(p: Publisher, settled: bool) {
    && (settled ==> forall k | k in p.subscriptions ::
          p.subscriptions[k].proxy.Some? && p.subscriptions[k].proxy.value in p.channel.connected)
    && (forall k | k in p.subscriptions && p.subscriptions[k].proxy.Some? ::
          var x := p.subscriptions[k].proxy.value;
          x < p.channel.next && (x in p.channel.connected ==>
            p.channel.connected[x] == p.subscriptions[k].pushConsumer))
    && (forall k, m | k in p.subscriptions && m in p.subscriptions && k != m && p.subscriptions[k].proxy.Some? ::
          p.subscriptions[k].proxy != p.subscriptions[m].proxy)
    && (forall x | x in p.channel.connected ::
          x < p.channel.next && exists k :: k in p.subscriptions && p.subscriptions[k].proxy == Some(x))
  }

  ghost predicate PublisherOk(oid: string, name: string, p: Publisher, draws: nat, removed: bool, settled: bool) {
    && (forall k | k in p.subscriptions :: SubscriptionOk(oid, name, p.repId, k, p.subscriptions[k], draws, settled))
    && (!removed ==> ChannelAgrees(p, settled))
  }

  ghost predicate EmitterOk(oid: string, name: string, e: Emitter, settled: bool) {
    && (e.servant.Some? <==> !e.consumer.Nil? && !e.pushConsumer.Remote?)
    && (e.consumer.Nil? ==> e.pushConsumer == NoPush && e.channel.connected == map[])
    && (!e.consumer.Nil? ==> e.consumer.IsA(e.repId))
    && (!e.consumer.Nil? ==> e.pushConsumer == PushTarget(e.consumer, CreateOid(oid, name, EMITTER_CK))
                             || (!settled && e.pushConsumer == NoPush && e.channel.connected == map[]))
    && (forall x | x in e.channel.connected ::
          x < e.channel.next && e.proxy == Some(x) && e.channel.connected[x] == e.pushConsumer)
  }

  ghost predicate ComponentOk(c: Component, draws: nat, settled: bool) {
    && (forall n | n in c.receptacles :: ReceptacleOk(c.receptacles[n], draws))
    && (forall n | n in c.publishers :: PublisherOk(c.oid, n, c.publishers[n], draws, c.removed, settled))
    && (forall n | n in c.emitters :: EmitterOk(c.oid, n, c.emitters[n], settled))
  }

  lemma LaterDraws(c: Component, draws: nat, later: nat, settled: bool)
    requires ComponentOk(c, draws, settled) && draws <= later
    ensures ComponentOk(c, later, settled)
  {
    hide DrawOf, EmitterOk, ChannelAgrees;
    forall n | n in c.receptacles ensures ReceptacleOk(c.receptacles[n], later) {
      assert ReceptacleOk(c.receptacles[n], draws);
    }
    forall n | n in c.publishers ensures PublisherOk(c.oid, n, c.publishers[n], later, c.removed, settled) {
      var p := c.publishers[n];
      assert PublisherOk(c.oid, n, p, draws, c.removed, settled);
      assert forall k | k in p.subscriptions :: SubscriptionOk(c.oid, n, p.repId, k, p.subscriptions[k], draws,
        settled);
    }
  }

  // ----- One port at a time -----

  lemma ReceptacleAt(c: Component, draws: nat, name: string, settled: bool)
    requires ComponentOk(c, draws, settled) && name in c.receptacles
    ensures ReceptacleOk(c.receptacles[name], draws)
  {
    hide PublisherOk, EmitterOk;
  }

  lemma PublisherAt(c: Component, draws: nat, name: string, settled: bool)
    requires ComponentOk(c, draws, settled) && name in c.publishers
    ensures PublisherOk(c.oid, name, c.publishers[name], draws, c.removed, settled)
  {
    hide ReceptacleOk, EmitterOk;
  }

  lemma EmitterAt(c: Component, draws: nat, name: string, settled: bool)
    requires ComponentOk(c, draws, settled) && name in c.emitters
    ensures EmitterOk(c.oid, name, c.emitters[name], settled)
  {
    hide ReceptacleOk, PublisherOk;
  }

  lemma ReceptacleStep(c: Component, draws: nat, name: string, r: Receptacle, settled: bool)
    requires ComponentOk(c, draws, settled) && ReceptacleOk(r, draws)
    ensures ComponentOk(c.(receptacles := c.receptacles[name := r]), draws, settled)
  {
    hide ReceptacleOk, PublisherOk, EmitterOk;
  }

  lemma PublisherStep(c: Component, draws: nat, name: string, p: Publisher, settled: bool)
    requires ComponentOk(c, draws, settled) && PublisherOk(c.oid, name, p, draws, c.removed, settled)
    ensures ComponentOk(WithPublisher(c, name, p), draws, settled)
  {
    hide ReceptacleOk, PublisherOk, EmitterOk;
  }

  lemma EmitterStep(c: Component, draws: nat, name: string, e: Emitter, settled: bool)
    requires ComponentOk(c, draws, settled) && EmitterOk(c.oid, name, e, settled)
    ensures ComponentOk(WithEmitter(c, name, e), draws, settled)
  {
    hide ReceptacleOk, PublisherOk, EmitterOk;
  }

  // The next cookie is in no map of the component.
  lemma FreshCookie(c: Component, draws: nat, now: Timeval, settled: bool)
    requires ComponentOk(c, draws, settled) && draws < MODULUS
    ensures var ck := Stamp(now, Drawn(draws + 1));
            && (forall n | n in c.receptacles :: ck !in c.receptacles[n].connections)
            && (forall n | n in c.publishers :: ck !in c.publishers[n].subscriptions)
            && DrawnBefore(ck, draws + 1)
  {
    hide Stamp, Drawn, DrawnBefore, EmitterOk, ChannelAgrees;
    var ck := Stamp(now, Drawn(draws + 1));
    StampDraw(now, draws + 1);
    forall n | n in c.receptacles ensures ck !in c.receptacles[n].connections {
      ReceptacleAt(c, draws, n, settled);
    }
    forall n | n in c.publishers ensures ck !in c.publishers[n].subscriptions {
      PublisherAt(c, draws, n, settled);
    }
  }

  lemma InsertErase<K, V>(m: map<K, V>, k: K, v: V)
    requires k !in m
    ensures m[k := v] - {k} == m
  {
  }

  lemma WriteBack<K, V>(m: map<K, V>, k: K, v: V)
    requires k in m
    ensures m[k := v][k := m[k]] == m
  {
  }

  // ----- Every operation keeps it -----

  lemma ConnectKeeps(c: Component, draws: nat, name: Option<string>, connection: ObjRef, now: Timeval, settled: bool)
    requires ComponentOk(c, draws, settled) && draws < MODULUS
    ensures var a := Connect(c, draws, name, connection, now); ComponentOk(a.comp, a.draws, settled)
  {
    hide ComponentOk, Stamp, DrawnBefore, Drawn;
    LaterDraws(c, draws, draws + 1, settled);
    FreshCookie(c, draws, now, settled);
    var a := Connect(c, draws, name, connection, now);
    if !a.reply.Failed? {
      ReceptacleAt(c, draws + 1, name.value, settled);
      ReceptacleStep(c, draws + 1, name.value, a.comp.receptacles[name.value], settled);
    }
  }

  lemma DisconnectKeeps(c: Component, draws: nat, name: Option<string>, ck: Option<Octets>, settled: bool)
    requires ComponentOk(c, draws, settled)
    ensures var a := Disconnect(c, draws, name, ck); ComponentOk(a.comp, a.draws, settled)
  {
    hide ComponentOk, DrawnBefore, Comparable;
    var a := Disconnect(c, draws, name, ck);
    if a.reply == Done {
      ReceptacleAt(c, draws, name.value, settled);
      ReceptacleStep(c, draws, name.value, a.comp.receptacles[name.value], settled);
    }
  }

  function Gained(p: Publisher, k: Octets, s: Subscription): Publisher {
    p.(channel := p.channel.Connect(s.pushConsumer), subscriptions := p.subscriptions[k := s])
  }

  lemma GainedEntries(p: Publisher, k: Octets, s: Subscription, settled: bool)
    requires ChannelAgrees(p, settled) && s.proxy == Some(p.channel.next)
    ensures var q := Gained(p, k, s);
            && (settled ==> forall m | m in q.subscriptions ::
                  q.subscriptions[m].proxy.Some? && q.subscriptions[m].proxy.value in q.channel.connected)
            && (forall m | m in q.subscriptions && q.subscriptions[m].proxy.Some? ::
                  var x := q.subscriptions[m].proxy.value;
                  x < q.channel.next
                  && (x in q.channel.connected ==> q.channel.connected[x] == q.subscriptions[m].pushConsumer))
  {
  }

  lemma GainedApart(p: Publisher, k: Octets, s: Subscription, settled: bool)
    requires ChannelAgrees(p, settled) && s.proxy == Some(p.channel.next)
    ensures var q := Gained(p, k, s);
            forall m, n | m in q.subscriptions && n in q.subscriptions && m != n && q.subscriptions[m].proxy.Some? ::
              q.subscriptions[m].proxy != q.subscriptions[n].proxy
  {
  }

  // A fresh cookie with the next proxy keeps the correspondence.
  lemma ChannelGains(p: Publisher, k: Octets, s: Subscription, settled: bool)
    requires ChannelAgrees(p, settled) && k !in p.subscriptions && s.proxy == Some(p.channel.next)
    ensures ChannelAgrees(Gained(p, k, s), settled)
  {
    var q := Gained(p, k, s);
    GainedEntries(p, k, s, settled);
    GainedApart(p, k, s, settled);
    forall x | x in q.channel.connected
      ensures x < q.channel.next && exists m :: m in q.subscriptions && q.subscriptions[m].proxy == Some(x)
    {
      if x == p.channel.next {
        assert k in q.subscriptions && q.subscriptions[k].proxy == Some(x);
      } else {
        var m :| m in p.subscriptions && p.subscriptions[m].proxy == Some(x);
        assert m in q.subscriptions && q.subscriptions[m].proxy == Some(x);
      }
    }
  }

  lemma ChannelLoses(p: Publisher, k: Octets, settled: bool)
    requires ChannelAgrees(p, settled) && k in p.subscriptions && p.subscriptions[k].proxy.Some?
    ensures ChannelAgrees(p.(channel := p.channel.Disconnect(p.subscriptions[k].proxy.value),
      subscriptions := p.subscriptions - {k}), settled)
  {
    var y := p.subscriptions[k].proxy.value;
    var q := p.(channel := p.channel.Disconnect(y), subscriptions := p.subscriptions - {k});
    forall x | x in q.channel.connected ensures x < q.channel.next && exists m ::
        m in q.subscriptions && q.subscriptions[m].proxy == Some(x) {
      var m :| m in p.subscriptions && p.subscriptions[m].proxy == Some(x);
      assert m in q.subscriptions && q.subscriptions[m].proxy == Some(x);
    }
  }

  lemma SubscribeKeeps(c: Component, draws: nat, name: Option<string>, subscriber: ObjRef,
                       now: Timeval, servant: nat, ok: bool, settled: bool)
    requires ComponentOk(c, draws, settled) && draws < MODULUS
    ensures var a := Subscribe(c, draws, name, subscriber, now, servant, ok); ComponentOk(a.comp, a.draws, settled)
  {
    hide ComponentOk, Stamp, DrawnBefore, Drawn, CreateOid, ChannelAgrees;
    LaterDraws(c, draws, draws + 1, settled);
    FreshCookie(c, draws, now, settled);
    var a := Subscribe(c, draws, name, subscriber, now, servant, ok);
    if !ok && name.Some? {
      RefusedSubscribe(c, draws, name.value, subscriber, now, servant, settled);
    } else if a.draws == draws + 1 {
      var ck := Stamp(now, Drawn(draws + 1));
      var p, q := c.publishers[name.value], a.comp.publishers[name.value];
      PublisherAt(c, draws + 1, name.value, settled);
      var s := q.subscriptions[ck];
      var inserted := SubscribeInserted(c, name.value, ck, subscriber, servant).publishers[name.value];
      Overwrite(p.subscriptions, ck, inserted.subscriptions[ck], s);
      Overwrite(c.publishers, name.value, inserted, q);
      ChannelGains(p, ck, s, settled);
      PublisherStep(c, draws + 1, name.value, q, settled);
    }
  }

  // A subscription that the channel refuses leaves the component as it was.
  lemma RefusedSubscribe(c: Component, draws: nat, name: string, subscriber: ObjRef, now: Timeval, servant: nat,
      settled: bool)
    requires ComponentOk(c, draws, settled) && draws < MODULUS
    ensures Subscribe(c, draws, Some(name), subscriber, now, servant, false).comp == c
  {
    hide ComponentOk, Stamp, DrawnBefore, Drawn, CreateOid;
    FreshCookie(c, draws, now, settled);
    var a := Subscribe(c, draws, Some(name), subscriber, now, servant, false);
    if a.draws == draws + 1 {
      var ck := Stamp(now, Drawn(draws + 1));
      var inserted := SubscribeInserted(c, name, ck, subscriber, servant);
      InsertErase(c.publishers[name].subscriptions, ck, inserted.publishers[name].subscriptions[ck]);
      WriteBack(c.publishers, name, inserted.publishers[name]);
    }
  }

  lemma UnsubscribeKeeps(c: Component, draws: nat, name: Option<string>, ck: Option<Octets>, settled: bool)
    requires ComponentOk(c, draws, settled)
    ensures var a := Unsubscribe(c, draws, name, ck); ComponentOk(a.comp, a.draws, settled)
  {
    hide ComponentOk, DrawnBefore, CreateOid, Comparable, SubscriptionOk;
    var a := Unsubscribe(c, draws, name, ck);
    if a.reply == Done {
      PublisherAt(c, draws, name.value, settled);
      ChannelLoses(c.publishers[name.value], ck.value, settled);
      PublisherStep(c, draws, name.value, a.comp.publishers[name.value], settled);
    }
  }

  lemma ConnectConsumerKeeps(c: Component, draws: nat, name: Option<string>, consumer: ObjRef, servant: nat, ok: bool,
      settled: bool)
    requires ComponentOk(c, draws, settled)
    ensures var a := ConnectConsumer(c, draws, name, consumer, servant, ok); ComponentOk(a.comp, a.draws, settled)
  {
    hide ComponentOk, CreateOid;
    var a := ConnectConsumer(c, draws, name, consumer, servant, ok);
    if a.comp != c {
      EmitterAt(c, draws, name.value, settled);
      EmitterStep(c, draws, name.value, a.comp.emitters[name.value], settled);
    }
  }

  lemma DisconnectConsumerKeeps(c: Component, draws: nat, name: Option<string>, settled: bool)
    requires ComponentOk(c, draws, settled)
    ensures var a := DisconnectConsumer(c, draws, name); ComponentOk(a.comp, a.draws, settled)
  {
    hide ComponentOk, CreateOid;
    var a := DisconnectConsumer(c, draws, name);
    if a.comp != c {
      EmitterAt(c, draws, name.value, settled);
      var e := a.comp.emitters[name.value];
      assert e.channel.connected == map[];
      EmitterStep(c, draws, name.value, e, settled);
    }
  }

  lemma RemoveKeeps(c: Component, draws: nat, ok: bool, settled: bool)
    requires ComponentOk(c, draws, settled)
    ensures var a := Remove(c, draws, ok); ComponentOk(a.comp, a.draws, settled)
  {
    hide SubscriptionOk, ChannelAgrees, ReceptacleOk;
    var a := Remove(c, draws, ok);
    if a.reply == Done {
      forall n | n in a.comp.publishers ensures PublisherOk(a.comp.oid, n, a.comp.publishers[n], draws, true, settled) {
        PublisherAt(c, draws, n, settled);
      }
      forall n | n in a.comp.emitters ensures EmitterOk(a.comp.oid, n, a.comp.emitters[n], settled) {
        EmitterAt(c, draws, n, settled);
      }
    }
  }

  lemma DeclareKeeps(c: Component, draws: nat, op: Op, settled: bool)
    requires ComponentOk(c, draws, settled)
    requires op.OpDeclareFacet? || op.OpDeclareConsumer? || op.OpDeclareReceptacle? || op.OpDeclareEmitter?
      || op.OpDeclarePublisher?
    ensures var a := Apply(c, draws, op); ComponentOk(a.comp, a.draws, settled)
  {
    hide ComponentOk, CreateOid;
    var a := Apply(c, draws, op);
    match op
    case OpDeclareReceptacle(n, _, _) =>
      if !a.reply.Failed? { ReceptacleStep(c, draws, n, a.comp.receptacles[n], settled); }
    case OpDeclareEmitter(n, _, _) =>
      if !a.reply.Failed? { EmitterStep(c, draws, n, a.comp.emitters[n], settled); }
    case OpDeclarePublisher(n, _, _) =>
      if !a.reply.Failed? { PublisherStep(c, draws, n, a.comp.publishers[n], settled); }
    case _ =>
      PortNamesOnly(c, a.comp, draws, settled);
  }

  // Facets, sinks and the configured flag are outside the invariant.
  lemma PortNamesOnly(c: Component, d: Component, draws: nat, settled: bool)
    requires ComponentOk(c, draws, settled)
    requires d == c.(facets := d.facets, consumers := d.consumers, configured := d.configured)
    ensures ComponentOk(d, draws, settled)
  {
    hide ReceptacleOk, PublisherOk, EmitterOk;
  }

  lemma ApplyKeeps(c: Component, draws: nat, op: Op, settled: bool)
    requires ComponentOk(c, draws, settled)
    requires Apply(c, draws, op).draws <= MODULUS
    ensures var a := Apply(c, draws, op); ComponentOk(a.comp, a.draws, settled)
  {
    hide ComponentOk, Connect, Disconnect, Subscribe, Unsubscribe, ConnectConsumer, DisconnectConsumer, Remove;
    match op
    case OpConnect(n, o, t) =>
      DrawingStops(c, draws, op);
      if draws < MODULUS { ConnectKeeps(c, draws, n, o, t, settled); }
    case OpDisconnect(n, k) => DisconnectKeeps(c, draws, n, k, settled);
    case OpSubscribe(n, o, t, sv, ok) =>
      DrawingStops(c, draws, op);
      if draws < MODULUS { SubscribeKeeps(c, draws, n, o, t, sv, ok, settled); }
    case OpUnsubscribe(n, k) => UnsubscribeKeeps(c, draws, n, k, settled);
    case OpConnectConsumer(n, o, sv, ok) => ConnectConsumerKeeps(c, draws, n, o, sv, ok, settled);
    case OpDisconnectConsumer(n) => DisconnectConsumerKeeps(c, draws, n, settled);
    case OpConfigurationComplete => PortNamesOnly(c, Apply(c, draws, op).comp, draws, settled);
    case OpRemove(ok) => RemoveKeeps(c, draws, ok, settled);
    case _ => DeclareKeeps(c, draws, op, settled);
  }

  // An operation draws at most one identifier, and one that draws none and
  // could have drawn changes nothing.
  lemma DrawingStops(c: Component, draws: nat, op: Op)
    ensures var a := Apply(c, draws, op); draws <= a.draws <= draws + 1 && a.comp.oid == c.oid
    ensures op.OpConnect? || op.OpSubscribe? ==> Apply(c, draws, op).draws == draws ==> Apply(c, draws, op).comp == c
  {
    hide Connect, Disconnect, Subscribe, Unsubscribe, ConnectConsumer, DisconnectConsumer, ConfigurationComplete,
      Remove, DeclareFacet, DeclareConsumer, DeclareReceptacle, DeclareEmitter, DeclarePublisher;
  }

  // ----- Runs -----

  datatype RunResult = RunResult(comp: Component, draws: nat, replies: seq<Reply>)

  function RunOps(c: Component, draws: nat, ops: seq<Op>): RunResult
    decreases |ops|
  {
    if ops == [] then RunResult(c, draws, [])
    else
      var a := Apply(c, draws, ops[0]);
      var rest := RunOps(a.comp, a.draws, ops[1..]);
      RunResult(rest.comp, rest.draws, [a.reply] + rest.replies)
  }

  lemma {:induction false} DrawsGrow(c: Component, draws: nat, ops: seq<Op>)
    ensures draws <= RunOps(c, draws, ops).draws
    decreases |ops|
  {
    hide Apply;
    if ops != [] {
      var a := Apply(c, draws, ops[0]);
      DrawingStops(c, draws, ops[0]);
      DrawsGrow(a.comp, a.draws, ops[1..]);
    }
  }

  // In every state a run reaches, within the first 2^32 identifiers: simplex
  // receptacles hold at most one connection, every connection and subscriber
  // has the port's interface, cookies and connected proxy suppliers of each
  // publisher correspond one to one.
  lemma {:induction false} RunKeeps(c: Component, draws: nat, ops: seq<Op>, settled: bool)
    requires ComponentOk(c, draws, settled) && RunOps(c, draws, ops).draws <= MODULUS
    ensures ComponentOk(RunOps(c, draws, ops).comp, RunOps(c, draws, ops).draws, settled)
    decreases |ops|
  {
    hide Apply, ComponentOk;
    if ops != [] {
      var a := Apply(c, draws, ops[0]);
      DrawsGrow(a.comp, a.draws, ops[1..]);
      ApplyKeeps(c, draws, ops[0], settled);
      RunKeeps(a.comp, a.draws, ops[1..], settled);
    }
  }

  // ----- Conservation of connections -----

  function Connections(c: Component, name: string): nat {
    if name in c.receptacles then |c.receptacles[name].connections| else 0
  }

  // What one answered request says about the connections of a receptacle.
  function Delta(name: string, op: Op, reply: Reply): int {
    if op.OpConnect? && op.name == Some(name) && reply.GotCookie? then 1
    else if op.OpDisconnect? && op.name == Some(name) && reply == Done then -1
    else 0
  }

  function Balance(name: string, ops: seq<Op>, replies: seq<Reply>): int
    requires |ops| == |replies|
  {
    if ops == [] then 0 else Delta(name, ops[0], replies[0]) + Balance(name, ops[1..], replies[1..])
  }

  lemma ConnectionsStep(c: Component, draws: nat, op: Op, name: string, settled: bool)
    requires ComponentOk(c, draws, settled)
    requires Apply(c, draws, op).draws <= MODULUS
    ensures var a := Apply(c, draws, op); Connections(a.comp, name) == Connections(c, name) + Delta(name, op, a.reply)
  {
    hide ComponentOk, Subscribe, Unsubscribe, ConnectConsumer, DisconnectConsumer, ConfigurationComplete, Remove,
      DeclareFacet, DeclareConsumer, DeclareEmitter, DeclarePublisher, Connect, Disconnect;
    match op
    case OpConnect(n, o, t) => ConnectAdds(c, draws, n, o, t, name, settled);
    case OpDisconnect(n, k) => DisconnectDrops(c, draws, n, k, name, settled);
    case _ =>
  }

  lemma ConnectAdds(c: Component, draws: nat, n: Option<string>, o: ObjRef, t: Timeval, name: string, settled: bool)
    requires ComponentOk(c, draws, settled)
    requires Connect(c, draws, n, o, t).draws <= MODULUS
    ensures var a := Connect(c, draws, n, o, t);
            Connections(a.comp, name) == Connections(c, name) + Delta(name, OpConnect(n, o, t), a.reply)
  {
    hide ComponentOk, Stamp, Drawn, DrawnBefore;
    if draws < MODULUS {
      FreshCookie(c, draws, t, settled);
    }
  }

  lemma DisconnectDrops(c: Component, draws: nat, n: Option<string>, k: Option<Octets>, name: string, settled: bool)
    requires ComponentOk(c, draws, settled)
    ensures var a := Disconnect(c, draws, n, k);
            Connections(a.comp, name) == Connections(c, name) + Delta(name, OpDisconnect(n, k), a.reply)
  {
    hide ComponentOk, Disconnect;
    var a := Disconnect(c, draws, n, k);
    if a.reply == Done {
      DisconnectOne(c, draws, n, k, settled);
    }
  }

  lemma DisconnectOne(c: Component, draws: nat, n: Option<string>, k: Option<Octets>, settled: bool)
    requires ComponentOk(c, draws, settled)
    requires Disconnect(c, draws, n, k).reply == Done
    ensures var a := Disconnect(c, draws, n, k);
            n.Some? && n.value in c.receptacles
            && a.comp.receptacles == c.receptacles[n.value := a.comp.receptacles[n.value]]
            && |a.comp.receptacles[n.value].connections| == |c.receptacles[n.value].connections| - 1
  {
    hide ComponentOk, Comparable, ReceptacleOk;
    var r := c.receptacles[n.value];
    ReceptacleAt(c, draws, n.value, settled);
    SimplexSize(r, draws);
    if r.isMultiplex {
      SmallerBy(r.connections, k.value);
    }
  }

  lemma SimplexSize(r: Receptacle, draws: nat)
    requires ReceptacleOk(r, draws)
    ensures !r.isMultiplex ==> |r.connections| <= 1
  {
    hide DrawnBefore;
  }

  lemma SmallerBy<V>(m: map<Octets, V>, k: Octets)
    requires k in m
    ensures |m - {k}| == |m| - 1
  {
    assert (m - {k}).Keys == m.Keys - {k};
    assert |m.Keys - {k}| == |m.Keys| - 1;
  }

  lemma {:induction false} RepliesCount(c: Component, draws: nat, ops: seq<Op>)
    ensures |RunOps(c, draws, ops).replies| == |ops|
    decreases |ops|
  {
    if ops != [] {
      var a := Apply(c, draws, ops[0]);
      RepliesCount(a.comp, a.draws, ops[1..]);
    }
  }

  // Over every run the connections of a receptacle are those it started with
  // plus the successful connects less the successful disconnects.
  lemma {:induction false} ConnectionsConserved(c: Component, draws: nat, ops: seq<Op>, name: string, settled: bool)
    requires ComponentOk(c, draws, settled) && RunOps(c, draws, ops).draws <= MODULUS
    ensures |RunOps(c, draws, ops).replies| == |ops|
    ensures Connections(RunOps(c, draws, ops).comp, name)
         == Connections(c, name) + Balance(name, ops, RunOps(c, draws, ops).replies)
    decreases |ops|
  {
    RepliesCount(c, draws, ops);
    hide Apply, ComponentOk;
    if ops != [] {
      var a := Apply(c, draws, ops[0]);
      DrawsGrow(a.comp, a.draws, ops[1..]);
      ApplyKeeps(c, draws, ops[0], settled);
      ConnectionsStep(c, draws, ops[0], name, settled);
      ConnectionsConserved(a.comp, a.draws, ops[1..], name, settled);
      assert RunOps(c, draws, ops).replies[1..] == RunOps(a.comp, a.draws, ops[1..]).replies;
    }
  }

  // ----- What one call undoes -----

  // Disconnecting with the cookie just returned restores the component.
  lemma DisconnectUndoesConnect(c: Component, draws: nat, name: string, connection: ObjRef, now: Timeval, settled: bool)
    requires ComponentOk(c, draws, settled) && draws < MODULUS
    requires Connect(c, draws, Some(name), connection, now).reply.GotCookie?
    ensures var a := Connect(c, draws, Some(name), connection, now);
            var b := Disconnect(a.comp, a.draws, Some(name), a.reply.ck);
            b.reply == Done && b.comp == c
  {
    hide ComponentOk, Stamp, Drawn, DrawOf;
    FreshCookie(c, draws, now, settled);
    ReceptacleAt(c, draws, name, settled);
    var ck := Stamp(now, Drawn(draws + 1));
    var r := c.receptacles[name];
    InsertErase(r.connections, ck, connection);
    assert r.isMultiplex || r.connections == map[];
    var a := Connect(c, draws, Some(name), connection, now);
    WriteBack(c.receptacles, name, a.comp.receptacles[name]);
  }

  // What a successful subscription adds to its publisher: an entry for the
  // subscriber given, and a proxy supplier that delivers to it, or to a local
  // consumer named after the cookie when it takes no pushed events itself.
  lemma SubscribeAdds(c: Component, draws: nat, name: string, subscriber: ObjRef, now: Timeval, servant: nat)
    requires name in c.publishers && Stamp(now, Drawn(draws + 1)) !in c.publishers[name].subscriptions
    requires Subscribe(c, draws, Some(name), subscriber, now, servant, true).reply.GotCookie?
    ensures var a := Subscribe(c, draws, Some(name), subscriber, now, servant, true);
            var ck := Stamp(now, Drawn(draws + 1));
            var p, q := c.publishers[name], a.comp.publishers[name];
            && !c.removed && a.reply.ck == Some(ck) && ck in q.subscriptions && a.comp == WithPublisher(c, name, q)
            && q.subscriptions[ck].proxy == Some(p.channel.next)
            && q == p.(channel := p.channel.Connect(q.subscriptions[ck].pushConsumer),
                       subscriptions := p.subscriptions[ck := q.subscriptions[ck]])
            && q.subscriptions[ck].consumer == subscriber
            && q.subscriptions[ck].pushConsumer == PushTarget(subscriber, CreateOid(c.oid, name, ck))
            && q.subscriptions[ck].servant == (if subscriber.IsA(PUSH_CONSUMER) then None else Some(servant))
  {
    hide Stamp, Drawn, CreateOid;
    var a := Subscribe(c, draws, Some(name), subscriber, now, servant, true);
    var q := a.comp.publishers[name];
    var inserted := SubscribeInserted(c, name, a.reply.ck.value, subscriber, servant).publishers[name];
    Overwrite(c.publishers[name].subscriptions, a.reply.ck.value, inserted.subscriptions[a.reply.ck.value],
              q.subscriptions[a.reply.ck.value]);
    Overwrite(c.publishers, name, inserted, q);
  }

  // What the invariant says of a new cookie and the next proxy of a publisher.
  lemma PublisherReady(c: Component, draws: nat, name: string, now: Timeval, settled: bool)
    requires ComponentOk(c, draws, settled) && draws < MODULUS && name in c.publishers && !c.removed
    ensures var ck := Stamp(now, Drawn(draws + 1));
            var p := c.publishers[name];
            ck !in p.subscriptions && p.channel.next !in p.channel.connected
            && Free(ck, '\0')
  {
    hide ComponentOk, Stamp, Drawn, DrawOf, SubscriptionOk, ChannelAgrees;
    FreshCookie(c, draws, now, settled);
    PublisherAt(c, draws, name, settled);
    NextProxyFree(c.publishers[name], settled);
  }

  lemma NextProxyFree(p: Publisher, settled: bool)
    requires ChannelAgrees(p, settled)
    ensures p.channel.next !in p.channel.connected
  {
  }

  // Unsubscribing with the cookie just returned restores every publisher, its
  // subscriptions and the proxies connected in its channel; only the channel's
  // proxy numbering has moved on.
  lemma UnsubscribeUndoesSubscribe(c: Component, draws: nat, name: string, subscriber: ObjRef,
                                   now: Timeval, servant: nat, settled: bool)
    requires ComponentOk(c, draws, settled) && draws < MODULUS
    requires Subscribe(c, draws, Some(name), subscriber, now, servant, true).reply.GotCookie?
    ensures var a := Subscribe(c, draws, Some(name), subscriber, now, servant, true);
            var b := Unsubscribe(a.comp, a.draws, Some(name), a.reply.ck);
            var p := c.publishers[name];
            b.reply == Done && b.comp == WithPublisher(c, name, p.(channel := p.channel.(next := p.channel.next + 1)))
  {
    KnownPublisher(c, draws, name, subscriber, now, servant);
    hide ComponentOk, Stamp, Drawn, Free, Subscribe, Unsubscribe, WithPublisher;
    PublisherReady(c, draws, name, now, settled);
    SubscribeAdds(c, draws, name, subscriber, now, servant);
    var p := c.publishers[name];
    var ck := Stamp(now, Drawn(draws + 1));
    var d := Subscribe(c, draws, Some(name), subscriber, now, servant, true).comp;
    var q := d.publishers[name];
    EntryUndone(p, q, ck);
    WrittenTwice(c, name, q, p.(channel := p.channel.(next := p.channel.next + 1)));
    UnsubscribeDrops(d, draws + 1, name, ck, p.channel.next);
  }

  lemma EntryUndone(p: Publisher, q: Publisher, ck: Octets)
    requires ck !in p.subscriptions && p.channel.next !in p.channel.connected && ck in q.subscriptions
    requires q == p.(channel := p.channel.Connect(q.subscriptions[ck].pushConsumer),
                     subscriptions := p.subscriptions[ck := q.subscriptions[ck]])
    ensures q.(channel := q.channel.Disconnect(p.channel.next), subscriptions := q.subscriptions - {ck})
         == p.(channel := p.channel.(next := p.channel.next + 1))
  {
    var e := q.subscriptions[ck];
    InsertErase(p.subscriptions, ck, e);
    InsertErase(p.channel.connected, p.channel.next, e.pushConsumer);
  }

  lemma WrittenTwice(c: Component, name: string, q: Publisher, r: Publisher)
    ensures WithPublisher(WithPublisher(c, name, q), name, r) == WithPublisher(c, name, r)
    ensures WithPublisher(c, name, q).removed == c.removed
  {
    Overwrite(c.publishers, name, q, r);
  }

  lemma UnsubscribeDrops(d: Component, draws: nat, name: string, ck: Octets, x: nat)
    requires !d.removed && name in d.publishers && ck in d.publishers[name].subscriptions && Free(ck, '\0')
    requires d.publishers[name].subscriptions[ck].proxy == Some(x) && x in d.publishers[name].channel.connected
    ensures var q := d.publishers[name];
            Unsubscribe(d, draws, Some(name), Some(ck))
              == Applied(WithPublisher(d, name, q.(channel := q.channel.Disconnect(x),
                                                   subscriptions := q.subscriptions - {ck})),
                         draws, Done)
  {
  }

  lemma KnownPublisher(c: Component, draws: nat, name: string, subscriber: ObjRef, now: Timeval, servant: nat)
    requires Subscribe(c, draws, Some(name), subscriber, now, servant, true).reply.GotCookie?
    ensures name in c.publishers && !c.removed
  {
    hide SubscribeInserted, SubscribeConnected, Stamp, Drawn;
  }

  // After a call of connect_consumer the emitter's entry and its channel agree
  // exactly when the channel accepted.
  ghost predicate EmitterAgrees(e: Emitter) {
    if e.consumer.Nil? then e.channel.connected == map[]
    else e.proxy.Some? && e.channel.connected == map[e.proxy.value := e.pushConsumer]
  }

  lemma EmitterAgreesIff(c: Component, draws: nat, name: string, consumer: ObjRef, servant: nat, accepts: bool,
      settled: bool)
    requires ComponentOk(c, draws, settled) && name in c.emitters && c.emitters[name].consumer.Nil?
    requires !c.removed && consumer.IsA(c.emitters[name].repId)
    ensures var d := ConnectConsumer(c, draws, Some(name), consumer, servant, accepts).comp;
            EmitterAgrees(d.emitters[name]) <==> accepts
  {
    hide ComponentOk, CreateOid;
    EmitterAt(c, draws, name, settled);
    var e := ConnectConsumer(c, draws, Some(name), consumer, servant, accepts).comp.emitters[name];
    if !accepts && e.proxy.Some? {
      assert e.proxy.value !in e.channel.connected;
    }
  }

  // An emitter whose entry was left behind by a refusal.
  predicate Stranded(c: Component, name: string) {
    && name in c.emitters
    && !c.emitters[name].consumer.Nil?
    && (c.emitters[name].proxy.None? || c.emitters[name].proxy.value !in c.emitters[name].channel.connected)
  }

  lemma RefusalStrands(c: Component, draws: nat, name: string, consumer: ObjRef, servant: nat, settled: bool)
    requires ComponentOk(c, draws, settled)
    requires ConnectConsumer(c, draws, Some(name), consumer, servant, false).reply == Failed(ChannelRefused)
    ensures Stranded(ConnectConsumer(c, draws, Some(name), consumer, servant, false).comp, name)
  {
    hide ComponentOk, CreateOid;
    EmitterAt(c, draws, name, settled);
  }

  lemma StrandedStep(c: Component, draws: nat, op: Op, name: string)
    requires Stranded(c, name)
    ensures Stranded(Apply(c, draws, op).comp, name)
    ensures (op.OpConnectConsumer? || op.OpDisconnectConsumer?) && op.name == Some(name) ==>
      Apply(c, draws, op).reply.Failed?
  {
    hide CreateOid, Connect, Disconnect, Subscribe, Unsubscribe, ConfigurationComplete, DeclareFacet, DeclareConsumer,
      DeclareReceptacle, DeclarePublisher;
  }

  // No later run of requests frees it: every connect and every disconnect on
  // the emitter fails from then on.
  lemma {:induction false} StrandedForever(c: Component, draws: nat, ops: seq<Op>, name: string)
    requires Stranded(c, name)
    ensures Stranded(RunOps(c, draws, ops).comp, name)
    ensures |RunOps(c, draws, ops).replies| == |ops|
    ensures forall i | 0 <= i < |ops| && (ops[i].OpConnectConsumer? || ops[i].OpDisconnectConsumer?)
      && ops[i].name == Some(name) ::
              RunOps(c, draws, ops).replies[i].Failed?
    decreases |ops|
  {
    hide Apply, Stranded;
    if ops != [] {
      var a := Apply(c, draws, ops[0]);
      StrandedStep(c, draws, ops[0], name);
      StrandedForever(a.comp, a.draws, ops[1..], name);
      var r := RunOps(c, draws, ops);
      assert r.replies == [a.reply] + RunOps(a.comp, a.draws, ops[1..]).replies;
      assert forall i | 0 < i < |ops| :: ops[i] == ops[1..][i - 1];
    }
  }
}
