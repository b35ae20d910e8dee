// What the clients of a component can tell from their requests and the answers
// they got: which objects are connected where, who subscribed, and where the
// events go. The operations are proved to be no more and no less than that.
module PortViews {
  import opened Outcomes
  import opened Identifiers
  import opened ObjectIds
  import opened Cookies
  import opened Components
  import opened PortInvariants

  // The objects at a receptacle: by cookie, or, where no cookie is given out,
  // at most one.
  datatype Plugged = Many(byCookie: map<Octets, ObjRef>) | One(objects: set<ObjRef>)

  datatype ReceptacleView = ReceptacleView(repId: string, plugged: Plugged)
  datatype PublisherView = PublisherView(repId: string, subscribers: map<Octets, ObjRef>)
  datatype EmitterView = EmitterView(repId: string, consumer: ObjRef)

  datatype View = View(
    receptacles: map<string, ReceptacleView>,
    publishers: map<string, PublisherView>,
    emitters: map<string, EmitterView>,
    facets: map<string, PortRef>,
    sinks: map<string, PortRef>,
    configured: bool,
    removed: bool)

  const NOTHING := View(map[], map[], map[], map[], map[], false, false)

  // ----- What an answered request tells -----

  function Observed(v: View, op: Op, reply: Reply): View {
    match (op, reply)
    case (OpConnect(Some(n), o, _), GotCookie(ck)) => if n in v.receptacles then
      Plug(v, n, if ck.None? then One({o})
                 else if v.receptacles[n].plugged.Many? then Many(v.receptacles[n].plugged.byCookie[ck.value := o])
                 else Many(map[ck.value := o])) else v
    case (OpDisconnect(Some(n), ck), Done) => if n in v.receptacles then
      Plug(v, n, if v.receptacles[n].plugged.Many? && ck.Some?
                 then Many(v.receptacles[n].plugged.byCookie - {ck.value}) else One({})) else v
    case (OpSubscribe(Some(n), o, _, _, _), GotCookie(Some(ck))) => if n in v.publishers then
      Listen(v, n, v.publishers[n].subscribers[ck := o]) else v
    case (OpUnsubscribe(Some(n), Some(ck)), Done) => if n in v.publishers then
      Listen(v, n, v.publishers[n].subscribers - {ck}) else v
    case (OpConnectConsumer(Some(n), o, _, _), Done) => Consume(v, n, o)
    case (OpConnectConsumer(Some(n), o, _, _), Failed(ChannelRefused)) => Consume(v, n, o)
    case (OpDisconnectConsumer(Some(n)), GotConsumer(_)) => Consume(v, n, Nil)
    case (OpConfigurationComplete, Done) => v.(configured := true)
    case (OpRemove(_), Done) => v.(facets := map[], sinks := map[], removed := true)
    case (OpDeclareFacet(n, t, _), GotOid(o)) => v.(facets := v.facets[n := PortRef(t, o)])
    case (OpDeclareConsumer(n, t, _), GotOid(o)) => v.(sinks := v.sinks[n := PortRef(t, o)])
    case (OpDeclareReceptacle(n, t, multiple), Done) =>
      v.(receptacles := v.receptacles[n := ReceptacleView(t, if multiple then Many(map[]) else One({}))])
    case (OpDeclareEmitter(n, t, _), Done) => v.(emitters := v.emitters[n := EmitterView(t, Nil)])
    case (OpDeclarePublisher(n, t, _), Done) => v.(publishers := v.publishers[n := PublisherView(t, map[])])
    case _ => v
  }

  function Plug(v: View, n: string, plugged: Plugged): View
    requires n in v.receptacles
  {
    v.(receptacles := v.receptacles[n := v.receptacles[n].(plugged := plugged)])
  }

  function Listen(v: View, n: string, subscribers: map<Octets, ObjRef>): View
    requires n in v.publishers
  {
    v.(publishers := v.publishers[n := v.publishers[n].(subscribers := subscribers)])
  }

  function Consume(v: View, n: string, consumer: ObjRef): View {
    if n in v.emitters then v.(emitters := v.emitters[n := v.emitters[n].(consumer := consumer)]) else v
  }

  function ObservedRun(v: View, ops: seq<Op>, replies: seq<Reply>): View
    requires |ops| == |replies|
    decreases |ops|
  {
    if ops == [] then v else ObservedRun(Observed(v, ops[0], replies[0]), ops[1..], replies[1..])
  }

  // ----- What the component holds -----

  function ReceptacleOf(r: Receptacle): ReceptacleView {
    ReceptacleView(r.repId, if r.isMultiplex then Many(r.connections) else One(r.connections.Values))
  }

  function PublisherOf(p: Publisher): PublisherView {
    PublisherView(p.repId, Subscribers(p))
  }

  function EmitterOf(e: Emitter): EmitterView {
    EmitterView(e.repId, e.consumer)
  }

  function ViewOf(c: Component): View {
    View(map n | n in c.receptacles :: ReceptacleOf(c.receptacles[n]),
         map n | n in c.publishers :: PublisherOf(c.publishers[n]),
         map n | n in c.emitters :: EmitterOf(c.emitters[n]),
         c.facets, c.consumers, c.configured, c.removed)
  }

  // ----- One request -----

  lemma ReceptacleSeen(c: Component, n: string, r: Receptacle)
    ensures ViewOf(c.(receptacles := c.receptacles[n := r]))
         == ViewOf(c).(receptacles := ViewOf(c).receptacles[n := ReceptacleOf(r)])
    ensures n in c.receptacles ==>
              n in ViewOf(c).receptacles && ViewOf(c).receptacles[n] == ReceptacleOf(c.receptacles[n])
  {
  }

  lemma PublisherSeen(c: Component, n: string, p: Publisher)
    ensures ViewOf(WithPublisher(c, n, p)) == ViewOf(c).(publishers := ViewOf(c).publishers[n := PublisherOf(p)])
    ensures n in c.publishers ==> n in ViewOf(c).publishers && ViewOf(c).publishers[n] == PublisherOf(c.publishers[n])
  {
  }

  lemma EmitterSeen(c: Component, n: string, e: Emitter)
    ensures ViewOf(WithEmitter(c, n, e)) == ViewOf(c).(emitters := ViewOf(c).emitters[n := EmitterOf(e)])
    ensures n in c.emitters ==> n in ViewOf(c).emitters && ViewOf(c).emitters[n] == EmitterOf(c.emitters[n])
  {
  }

  lemma ConnectSeen(c: Component, draws: nat, name: Option<string>, o: ObjRef, now: Timeval, settled: bool)
    requires ComponentOk(c, draws, settled) && draws < MODULUS
    ensures var a := Connect(c, draws, name, o, now);
            ViewOf(a.comp) == Observed(ViewOf(c), OpConnect(name, o, now), a.reply)
  {
    hide ComponentOk, Stamp, Drawn, ViewOf;
    FreshCookie(c, draws, now, settled);
    var a := Connect(c, draws, name, o, now);
    if a.reply.GotCookie? {
      var r, d := c.receptacles[name.value], a.comp.receptacles[name.value];
      var ck := Stamp(now, Drawn(draws + 1));
      ReceptacleSeen(c, name.value, d);
      assert d.connections == r.connections[ck := o];
      if !r.isMultiplex {
        assert r.connections == map[] && map[ck := o].Values == {o};
      }
    }
  }

  lemma DisconnectSeen(c: Component, draws: nat, name: Option<string>, ck: Option<Octets>)
    ensures var a := Disconnect(c, draws, name, ck);
            ViewOf(a.comp) == Observed(ViewOf(c), OpDisconnect(name, ck), a.reply)
  {
    hide ViewOf, Disconnect;
    var a := Disconnect(c, draws, name, ck);
    if a.reply == Done {
      DisconnectLeaves(c, draws, name, ck);
      ReceptacleSeen(c, name.value, a.comp.receptacles[name.value]);
    }
  }

  lemma DisconnectLeaves(c: Component, draws: nat, name: Option<string>, ck: Option<Octets>)
    requires Disconnect(c, draws, name, ck).reply == Done
    ensures name.Some? && name.value in c.receptacles
    ensures var r, d := c.receptacles[name.value], Disconnect(c, draws, name, ck).comp;
            && name.value in d.receptacles
            && d == c.(receptacles := c.receptacles[name.value := d.receptacles[name.value]])
            && ReceptacleOf(d.receptacles[name.value])
               == ReceptacleView(r.repId,
                                 if r.isMultiplex && ck.Some? then Many(r.connections - {ck.value}) else One({}))
  {
    hide Comparable;
    var d := Disconnect(c, draws, name, ck).comp.receptacles[name.value];
    assert !d.isMultiplex ==> d.connections.Values == {};
  }

  lemma SubscribeSeen(c: Component, draws: nat, name: Option<string>, o: ObjRef, now: Timeval, servant: nat,
                      accepts: bool, settled: bool)
    requires ComponentOk(c, draws, settled) && draws < MODULUS
    ensures var a := Subscribe(c, draws, name, o, now, servant, accepts);
            ViewOf(a.comp) == Observed(ViewOf(c), OpSubscribe(name, o, now, servant, accepts), a.reply)
  {
    hide ComponentOk, Stamp, Drawn, CreateOid, ViewOf;
    FreshCookie(c, draws, now, settled);
    var a := Subscribe(c, draws, name, o, now, servant, accepts);
    if a.reply.GotCookie? {
      SubscribeAdds(c, draws, name.value, o, now, servant);
      hide Subscribe;
      var p, q := c.publishers[name.value], a.comp.publishers[name.value];
      PublisherSeen(c, name.value, q);
      EntrySeen(p, q, a.reply.ck.value, o);
    } else if name.Some? && !accepts {
      RefusedSubscribe(c, draws, name.value, o, now, servant, settled);
    }
  }

  lemma EntrySeen(p: Publisher, q: Publisher, ck: Octets, o: ObjRef)
    requires q.repId == p.repId && ck in q.subscriptions && q.subscriptions[ck].consumer == o
    requires q.subscriptions == p.subscriptions[ck := q.subscriptions[ck]]
    ensures PublisherOf(q) == PublisherView(p.repId, PublisherOf(p).subscribers[ck := o])
  {
    assert PublisherOf(q).subscribers == PublisherOf(p).subscribers[ck := o];
  }

  lemma UnsubscribeSeen(c: Component, draws: nat, name: Option<string>, ck: Option<Octets>)
    ensures var a := Unsubscribe(c, draws, name, ck);
            ViewOf(a.comp) == Observed(ViewOf(c), OpUnsubscribe(name, ck), a.reply)
  {
    hide Comparable, ViewOf;
    var a := Unsubscribe(c, draws, name, ck);
    if a.reply == Done {
      var p, q := c.publishers[name.value], a.comp.publishers[name.value];
      PublisherSeen(c, name.value, q);
      assert PublisherOf(q).subscribers == PublisherOf(p).subscribers - {ck.value};
    }
  }

  lemma ConnectConsumerSeen(c: Component, draws: nat, name: Option<string>, o: ObjRef, servant: nat, accepts: bool)
    ensures var a := ConnectConsumer(c, draws, name, o, servant, accepts);
            ViewOf(a.comp) == Observed(ViewOf(c), OpConnectConsumer(name, o, servant, accepts), a.reply)
  {
    hide CreateOid, ViewOf;
    var a := ConnectConsumer(c, draws, name, o, servant, accepts);
    if a.reply == Done || a.reply == Failed(ChannelRefused) {
      EmitterSeen(c, name.value, a.comp.emitters[name.value]);
    }
  }

  lemma DisconnectConsumerSeen(c: Component, draws: nat, name: Option<string>)
    ensures var a := DisconnectConsumer(c, draws, name);
            && ViewOf(a.comp) == Observed(ViewOf(c), OpDisconnectConsumer(name), a.reply)
            && (a.reply.GotConsumer? ==>
                  name.Some? && name.value in c.emitters
                  && a.reply.consumer == ViewOf(c).emitters[name.value].consumer != Nil)
  {
    var a := DisconnectConsumer(c, draws, name);
    if a.reply.GotConsumer? {
      EmitterSeen(c, name.value, a.comp.emitters[name.value]);
    }
  }

  lemma RemoveSeen(c: Component, draws: nat, agrees: bool)
    ensures var a := Remove(c, draws, agrees); ViewOf(a.comp) == Observed(ViewOf(c), OpRemove(agrees), a.reply)
  {
    var d := Remove(c, draws, agrees).comp;
    assert ViewOf(d).publishers == ViewOf(c).publishers;
    assert ViewOf(d).emitters == ViewOf(c).emitters;
  }

  lemma DeclareSeen(c: Component, draws: nat, op: Op)
    requires op.OpDeclareReceptacle? || op.OpDeclareEmitter? || op.OpDeclarePublisher?
    ensures var a := Apply(c, draws, op); ViewOf(a.comp) == Observed(ViewOf(c), op, a.reply)
  {
    var a := Apply(c, draws, op);
    if a.reply == Done {
      match op
      case OpDeclareReceptacle(n, _, _) =>
        ReceptacleSeen(c, n, a.comp.receptacles[n]);
        assert a.comp.receptacles[n].connections.Values == {};
      case OpDeclareEmitter(n, _, _) => EmitterSeen(c, n, a.comp.emitters[n]);
      case OpDeclarePublisher(n, _, _) => PublisherSeen(c, n, a.comp.publishers[n]);
    }
  }

  lemma OtherSeen(c: Component, draws: nat, op: Op)
    requires op.OpConfigurationComplete? || op.OpDeclareFacet? || op.OpDeclareConsumer?
    ensures var a := Apply(c, draws, op); ViewOf(a.comp) == Observed(ViewOf(c), op, a.reply)
  {
  }

  // After any request the component holds exactly what was held before and
  // what the request and its answer tell.
  lemma ApplySeen(c: Component, draws: nat, op: Op, settled: bool)
    requires ComponentOk(c, draws, settled) && Apply(c, draws, op).draws <= MODULUS
    ensures var a := Apply(c, draws, op); ViewOf(a.comp) == Observed(ViewOf(c), op, a.reply)
  {
    hide ComponentOk, Connect, Disconnect, Subscribe, Unsubscribe, ConnectConsumer, DisconnectConsumer, Remove,
      Observed, ViewOf;
    match op
    case OpConnect(n, o, t) =>
      if draws < MODULUS { ConnectSeen(c, draws, n, o, t, settled); } else { NothingSeen(c, draws, op); }
    case OpDisconnect(n, k) => DisconnectSeen(c, draws, n, k);
    case OpSubscribe(n, o, t, sv, ok) =>
      if draws < MODULUS { SubscribeSeen(c, draws, n, o, t, sv, ok, settled); } else { NothingSeen(c, draws, op); }
    case OpUnsubscribe(n, k) => UnsubscribeSeen(c, draws, n, k);
    case OpConnectConsumer(n, o, sv, ok) => ConnectConsumerSeen(c, draws, n, o, sv, ok);
    case OpDisconnectConsumer(n) => DisconnectConsumerSeen(c, draws, n);
    case OpRemove(ok) => RemoveSeen(c, draws, ok);
    case OpConfigurationComplete => OtherSeen(c, draws, op);
    case OpDeclareFacet(_, _, _) => OtherSeen(c, draws, op);
    case OpDeclareConsumer(_, _, _) => OtherSeen(c, draws, op);
    case _ => DeclareSeen(c, draws, op);
  }

  // Without a new identifier nothing was connected or subscribed.
  lemma NothingSeen(c: Component, draws: nat, op: Op)
    requires op.OpConnect? || op.OpSubscribe?
    requires Apply(c, draws, op).draws == draws
    ensures var a := Apply(c, draws, op); a.comp == c && Observed(ViewOf(c), op, a.reply) == ViewOf(c)
  {
    hide Stamp, CreateOid, SubscribeInserted, SubscribeConnected;
  }

  // ----- Any run of requests -----

  lemma {:induction false} RunSeen(c: Component, draws: nat, ops: seq<Op>, settled: bool)
    requires ComponentOk(c, draws, settled) && RunOps(c, draws, ops).draws <= MODULUS
    ensures var r := RunOps(c, draws, ops);
            |r.replies| == |ops| && ViewOf(r.comp) == ObservedRun(ViewOf(c), ops, r.replies)
    decreases |ops|
  {
    hide ComponentOk, Apply, Observed, ViewOf;
    if ops != [] {
      var a := Apply(c, draws, ops[0]);
      DrawsGrow(a.comp, a.draws, ops[1..]);
      ApplyKeeps(c, draws, ops[0], settled);
      ApplySeen(c, draws, ops[0], settled);
      RunSeen(a.comp, a.draws, ops[1..], settled);
      var r := RunOps(c, draws, ops);
      assert r.replies[1..] == RunOps(a.comp, a.draws, ops[1..]).replies;
    }
  }

  // ----- Requests cut short -----

  // A subscription or a connection cut short leaves the object its client gave
  // in the entry, although the client was told it failed.
  lemma SubscribeCutShort(c: Component, draws: nat, name: string, o: ObjRef, now: Timeval, servant: nat, settled: bool)
    requires ComponentOk(c, draws, settled) && draws < MODULUS && SubscribeNarrows(c, Some(name), o)
    ensures var ck := Stamp(now, Drawn(draws + 1));
            var v := ViewOf(c);
            && name in v.publishers
            && ViewOf(SubscribeRaising(c, draws, Some(name), o, now, servant).comp)
               == Listen(v, name, v.publishers[name].subscribers[ck := o])
  {
    hide ComponentOk, Stamp, Drawn, CreateOid, ViewOf;
    FreshCookie(c, draws, now, settled);
    var ck := Stamp(now, Drawn(draws + 1));
    var q := SubscribeInserted(c, name, ck, o, servant).publishers[name];
    PublisherSeen(c, name, q);
    EntrySeen(c.publishers[name], q, ck, o);
  }

  lemma ConnectCutShort(c: Component, draws: nat, name: string, o: ObjRef, servant: nat)
    requires ConnectNarrows(c, Some(name), o)
    ensures name in ViewOf(c).emitters
    ensures ViewOf(ConnectRaising(c, draws, Some(name), o, servant).comp) == Consume(ViewOf(c), name, o)
  {
    hide ViewOf;
    EmitterSeen(c, name, ConnectRaising(c, draws, Some(name), o, servant).comp.emitters[name]);
  }

  // One that takes a connection back keeps the entry, but delivers nothing
  // more through its proxy supplier and everything else as before.
  lemma CutShortKeeps(c: Component, draws: nat, name: string, ck: Octets)
    ensures UnsubscribeCalls(c, draws, Some(name), Some(ck)) ==>
              var d := UnsubscribeRaising(c, draws, Some(name), Some(ck)).comp;
              && ViewOf(d) == ViewOf(c)
              && d.publishers[name].channel.connected
                 == c.publishers[name].channel.connected - {c.publishers[name].subscriptions[ck].proxy.value}
    ensures DisconnectCalls(c, draws, Some(name)) ==>
              var d := DisconnectRaising(c, draws, Some(name)).comp;
              && ViewOf(d) == ViewOf(c)
              && d.emitters[name].channel.connected
                 == c.emitters[name].channel.connected - {c.emitters[name].proxy.value}
  {
    hide ViewOf, Unsubscribe, DisconnectConsumer;
    if UnsubscribeCalls(c, draws, Some(name), Some(ck)) {
      var q := UnsubscribeRaising(c, draws, Some(name), Some(ck)).comp.publishers[name];
      PublisherSeen(c, name, q);
      SameView(ViewOf(c).publishers, name);
    }
    if DisconnectCalls(c, draws, Some(name)) {
      var e := DisconnectRaising(c, draws, Some(name)).comp.emitters[name];
      EmitterSeen(c, name, e);
      SameView(ViewOf(c).emitters, name);
    }
  }

  lemma SameView<V>(m: map<string, V>, n: string)
    requires n in m
    ensures m[n := m[n]] == m
  {
  }

  // ----- Where the events go -----

  lemma {:induction false} RunSame(c: Component, draws: nat, ops: seq<Op>)
    ensures RunOps(c, draws, ops).comp.oid == c.oid
    decreases |ops|
  {
    hide Apply;
    if ops != [] {
      var a := Apply(c, draws, ops[0]);
      DrawingStops(c, draws, ops[0]);
      RunSame(a.comp, a.draws, ops[1..]);
    }
  }

  // While no call on its own objects was refused, a publisher's channel
  // delivers to exactly those who subscribed, and each emitter's to nobody but
  // the one consumer connected.
  lemma EventsReach(c: Component, draws: nat, name: string)
    requires ComponentOk(c, draws, true)
    ensures name in c.publishers && !c.removed ==>
              var p := c.publishers[name];
              p.channel.connected.Values
                == set k | k in p.subscriptions :: PushTarget(p.subscriptions[k].consumer, CreateOid(c.oid, name, k))
    ensures name in c.emitters ==>
              var e := c.emitters[name];
              && (e.consumer.Nil? ==> e.channel.connected == map[])
              && (forall x | x in e.channel.connected ::
                    e.channel.connected[x] == PushTarget(e.consumer, CreateOid(c.oid, name, EMITTER_CK)))
  {
    hide ComponentOk, CreateOid, DrawnBefore;
    if name in c.publishers && !c.removed {
      PublisherAt(c, draws, name, true);
      var p := c.publishers[name];
      forall t | t in p.channel.connected.Values
        ensures t in set k | k in p.subscriptions ::
                       PushTarget(p.subscriptions[k].consumer, CreateOid(c.oid, name, k))
      {
        var x :| x in p.channel.connected && p.channel.connected[x] == t;
      }
      forall k | k in p.subscriptions
        ensures PushTarget(p.subscriptions[k].consumer, CreateOid(c.oid, name, k)) in p.channel.connected.Values
      {
        assert p.channel.connected[p.subscriptions[k].proxy.value] == p.subscriptions[k].pushConsumer;
      }
    }
    if name in c.emitters { EmitterAt(c, draws, name, true); }
  }

  // So over any run of requests to a new component the requests and their
  // answers tell where the events of a publisher go.
  lemma RunDelivers(oid: string, isMonolithic: bool, ops: seq<Op>, name: string)
    requires var r := RunOps(NewComponent(oid, isMonolithic), 0, ops); r.draws <= MODULUS && !r.comp.removed
    ensures var r := RunOps(NewComponent(oid, isMonolithic), 0, ops);
            && |r.replies| == |ops|
            && var v := ObservedRun(NOTHING, ops, r.replies);
            && (name in r.comp.publishers <==> name in v.publishers)
            && (name in v.publishers ==>
                  r.comp.publishers[name].channel.connected.Values
                    == set k | k in v.publishers[name].subscribers ::
                         PushTarget(v.publishers[name].subscribers[k], CreateOid(oid, name, k)))
  {
    hide RunOps, ComponentOk, ObservedRun, CreateOid;
    var c := NewComponent(oid, isMonolithic);
    NewSeen(oid, isMonolithic);
    var r := RunOps(c, 0, ops);
    RunSeen(c, 0, ops, true);
    RunKeeps(c, 0, ops, true);
    RunSame(c, 0, ops);
    EventsReach(r.comp, r.draws, name);
    assert ViewOf(r.comp).publishers == ObservedRun(NOTHING, ops, r.replies).publishers;
  }

  lemma NewSeen(oid: string, isMonolithic: bool)
    ensures ViewOf(NewComponent(oid, isMonolithic)) == NOTHING && ComponentOk(NewComponent(oid, isMonolithic), 0, true)
  {
  }
}
