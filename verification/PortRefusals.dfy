// When operations of a component are refused or do not return, exactly.
module PortRefusals {
  import opened Outcomes
  import opened Text
  import opened Identifiers
  import opened ObjectIds
  import opened Cookies
  import opened Components
  import opened PortInvariants

  // ----- Cookies with a NUL octet -----

  // In a component that keeps its invariant, comparing a cookie with a stored
  // one ends the process exactly when searching that map does.
  lemma StoredCookieCompares(c: Component, draws: nat, name: string, ck: Octets, k: Octets, settled: bool)
    requires ComponentOk(c, draws, settled)
    ensures name in c.receptacles && k in c.receptacles[name].connections ==>
              (CookieLess(ck, k).None? <==> !Comparable(c.receptacles[name].connections, ck))
    ensures name in c.publishers && k in c.publishers[name].subscriptions ==>
              (CookieLess(ck, k).None? <==> !Comparable(c.publishers[name].subscriptions, ck))
  {
    hide ComponentOk, DrawOf, ChannelAgrees, CreateOid, Comparable, CookieLess;
    if name in c.receptacles && k in c.receptacles[name].connections {
      ReceptacleAt(c, draws, name, settled);
      ComparableIff(c.receptacles[name].connections, ck, k);
    }
    if name in c.publishers && k in c.publishers[name].subscriptions {
      PublisherAt(c, draws, name, settled);
      ComparableIff(c.publishers[name].subscriptions, ck, k);
    }
  }

  // What the caller can see before the call: a cookie with a NUL octet for a
  // multiplex receptacle that has a connection.
  lemma DisconnectTerminatesIff(c: Component, draws: nat, name: Option<string>, ck: Option<Octets>)
    ensures Disconnect(c, draws, name, ck).reply == Failed(ProcessTerminated) <==>
              && !c.removed && name.Some? && name.value in c.receptacles
              && c.receptacles[name.value].isMultiplex && c.receptacles[name.value].connections != map[]
              && ck.Some? && '\0' in ck.value
  {
  }

  // Or for a publisher that has a subscription.
  lemma UnsubscribeTerminatesIff(c: Component, draws: nat, name: Option<string>, ck: Option<Octets>)
    ensures Unsubscribe(c, draws, name, ck).reply == Failed(ProcessTerminated) <==>
              && !c.removed && name.Some? && name.value in c.publishers
              && c.publishers[name.value].subscriptions != map[]
              && ck.Some? && '\0' in ck.value
  {
  }

  // So under the invariant the process ends exactly when some comparison with
  // a stored cookie has no answer.
  lemma DisconnectComparesIff(c: Component, draws: nat, name: string, ck: Octets, settled: bool)
    requires ComponentOk(c, draws, settled) && !c.removed && name in c.receptacles && c.receptacles[name].isMultiplex
    ensures Disconnect(c, draws, Some(name), Some(ck)).reply == Failed(ProcessTerminated) <==>
              exists k :: k in c.receptacles[name].connections && CookieLess(ck, k).None?
  {
    hide ComponentOk, Comparable, CookieLess;
    var m := c.receptacles[name].connections;
    forall k | k in m ensures CookieLess(ck, k).None? <==> !Comparable(m, ck) {
      StoredCookieCompares(c, draws, name, ck, k, settled);
    }
    EmptyComparable(m, ck);
  }

  lemma UnsubscribeComparesIff(c: Component, draws: nat, name: string, ck: Octets, settled: bool)
    requires ComponentOk(c, draws, settled) && !c.removed && name in c.publishers
    ensures Unsubscribe(c, draws, Some(name), Some(ck)).reply == Failed(ProcessTerminated) <==>
              exists k :: k in c.publishers[name].subscriptions && CookieLess(ck, k).None?
  {
    hide ComponentOk, Comparable, CookieLess;
    var m := c.publishers[name].subscriptions;
    forall k | k in m ensures CookieLess(ck, k).None? <==> !Comparable(m, ck) {
      StoredCookieCompares(c, draws, name, ck, k, settled);
    }
    EmptyComparable(m, ck);
  }

  lemma EmptyComparable<V>(m: map<Octets, V>, ck: Octets)
    ensures !Comparable(m, ck) ==> exists k :: k in m
  {
    if m != map[] {
      var k :| k in m;
    }
  }

  lemma RunThreeOps(c: Component, draws: nat, x: Op, y: Op, z: Op)
    ensures var a := Apply(c, draws, x);
            var b := Apply(a.comp, a.draws, y);
            RunOps(c, draws, [x, y, z]).replies == [a.reply, b.reply, Apply(b.comp, b.draws, z).reply]
  {
    hide Apply;
    var a := Apply(c, draws, x);
    var b := Apply(a.comp, a.draws, y);
    assert [x, y, z][1..] == [y, z] && [y, z][1..] == [z] && [z][1..] == [];
    assert RunOps(b.comp, b.draws, [z]).replies == [Apply(b.comp, b.draws, z).reply] + [];
    assert RunOps(a.comp, a.draws, [y, z]).replies == [b.reply] + RunOps(b.comp, b.draws, [z]).replies;
  }

  const USED := Ref(0, {"IDL:Used:1.0"})
  const NUL_COOKIE: Octets := "\0"

  // Three requests to a new component: after the second one, a cookie that is
  // a single NUL octet ends the process.
  lemma NulCookieDisconnects(now: Timeval)
    ensures var r := RunOps(NewComponent("c", false), 0,
                            [OpDeclareReceptacle("port", "IDL:Used:1.0", true), OpConnect(Some("port"), USED, now),
                             OpDisconnect(Some("port"), Some(NUL_COOKIE))]).replies;
            |r| == 3 && r[1].GotCookie? && r[2] == Failed(ProcessTerminated)
  {
    hide Stamp, Drawn;
    RunThreeOps(NewComponent("c", false), 0, OpDeclareReceptacle("port", "IDL:Used:1.0", true),
             OpConnect(Some("port"), USED, now), OpDisconnect(Some("port"), Some(NUL_COOKIE)));
    var c := DeclareReceptacle(NewComponent("c", false), 0, "port", "IDL:Used:1.0", true).comp;
    var d := Connect(c, 0, Some("port"), USED, now).comp;
    assert Stamp(now, Drawn(1)) in d.receptacles["port"].connections;
    DisconnectTerminatesIff(d, 1, Some("port"), Some(NUL_COOKIE));
  }

  lemma NulCookieUnsubscribes(now: Timeval)
    ensures var r := RunOps(NewComponent("c", false), 0,
                            [OpDeclarePublisher("port", "IDL:Used:1.0", true),
                             OpSubscribe(Some("port"), USED, now, 0, true),
                             OpUnsubscribe(Some("port"), Some(NUL_COOKIE))]).replies;
            |r| == 3 && r[1].GotCookie? && r[2] == Failed(ProcessTerminated)
  {
    hide Stamp, Drawn, CreateOid;
    RunThreeOps(NewComponent("c", false), 0, OpDeclarePublisher("port", "IDL:Used:1.0", true),
             OpSubscribe(Some("port"), USED, now, 0, true), OpUnsubscribe(Some("port"), Some(NUL_COOKIE)));
    var c := DeclarePublisher(NewComponent("c", false), 0, "port", "IDL:Used:1.0", true).comp;
    var d := Subscribe(c, 0, Some("port"), USED, now, 0, true).comp;
    assert Stamp(now, Drawn(1)) in d.publishers["port"].subscriptions;
    UnsubscribeTerminatesIff(d, 1, Some("port"), Some(NUL_COOKIE));
  }

  // ----- Completing the configuration -----

  ghost predicate SimplexUnconnected(c: Component) {
    exists n :: n in c.receptacles && !c.receptacles[n].isMultiplex && |c.receptacles[n].connections| == 0
  }

  ghost predicate MultiplexUnconnected(c: Component) {
    exists n :: n in c.receptacles && c.receptacles[n].isMultiplex && |c.receptacles[n].connections| == 0
  }

  // The answer differs from the rule that only simplex receptacles must be
  // connected exactly when a multiplex one alone is not.
  lemma StricterThanSimplexIff(c: Component, draws: nat)
    requires !c.removed
    ensures ConfigurationComplete(c, draws).reply == Failed(InvalidConfiguration) <==>
              SimplexUnconnected(c) || MultiplexUnconnected(c)
    ensures (ConfigurationComplete(c, draws).reply == Failed(InvalidConfiguration)) != SimplexUnconnected(c) <==>
              MultiplexUnconnected(c) && !SimplexUnconnected(c)
  {
    if SimplexUnconnected(c) || MultiplexUnconnected(c) {
      var n :| n in c.receptacles && |c.receptacles[n].connections| == 0;
    }
  }

  // As for a component whose one receptacle is multiplex and not yet used.
  lemma UnusedMultiplexRefused()
    ensures var c := DeclareReceptacle(NewComponent("c", false), 0, "port", "IDL:Used:1.0", true).comp;
            !SimplexUnconnected(c) && ConfigurationComplete(c, 0).reply == Failed(InvalidConfiguration)
  {
    var c := DeclareReceptacle(NewComponent("c", false), 0, "port", "IDL:Used:1.0", true).comp;
    assert "port" in c.receptacles;
  }

  // ----- A narrow that raises -----

  // Inside subscribe it leaves an entry without a proxy supplier: the publisher
  // disagrees with its channel, and an unsubscribe with the cookie, which the
  // caller never got, would fail.
  lemma NarrowFailureStrands(c: Component, draws: nat, name: string, subscriber: ObjRef, now: Timeval, servant: nat,
      settled: bool)
    requires ComponentOk(c, draws, settled) && draws < MODULUS && SubscribeNarrows(c, Some(name), subscriber)
    ensures var ck := Stamp(now, Drawn(draws + 1));
            var d := SubscribeRaising(c, draws, Some(name), subscriber, now, servant).comp;
            && name in d.publishers && ck in d.publishers[name].subscriptions
            && !ChannelAgrees(d.publishers[name], true)
            && Unsubscribe(d, draws + 1, Some(name), Some(ck)).reply == Failed(NilReference)
  {
    hide ComponentOk, Stamp, Drawn, Comparable, CreateOid;
    PublisherReady(c, draws, name, now, settled);
    var ck := Stamp(now, Drawn(draws + 1));
    var d := SubscribeInserted(c, name, ck, subscriber, servant);
    assert d.publishers[name].subscriptions[ck].proxy.None?;
    FreeComparable(d.publishers[name].subscriptions, ck);
  }

  // Inside connect_consumer it leaves the emitter as a refusal does, for good.
  lemma NarrowFailureStrandsEmitter(c: Component, draws: nat, name: string, consumer: ObjRef, servant: nat,
      settled: bool)
    requires ComponentOk(c, draws, settled) && ConnectNarrows(c, Some(name), consumer)
    ensures Stranded(ConnectRaising(c, draws, Some(name), consumer, servant).comp, name)
  {
    hide ComponentOk, CreateOid;
    EmitterAt(c, draws, name, settled);
  }

  // Inside unsubscribe it leaves an entry that no later unsubscribe removes.
  lemma UnsubscribeFailureStrands(c: Component, draws: nat, name: string, ck: Octets)
    requires UnsubscribeCalls(c, draws, Some(name), Some(ck))
    ensures var d := UnsubscribeRaising(c, draws, Some(name), Some(ck)).comp;
            && name in d.publishers && ck in d.publishers[name].subscriptions
            && !ChannelAgrees(d.publishers[name], true)
            && Unsubscribe(d, draws, Some(name), Some(ck)).reply == Failed(ObjectNotExist)
  {
    var d := UnsubscribeRaising(c, draws, Some(name), Some(ck)).comp;
    var x := c.publishers[name].subscriptions[ck].proxy.value;
    assert d.publishers[name].subscriptions[ck].proxy == Some(x) && x !in d.publishers[name].channel.connected;
  }

  // And inside disconnect_consumer a stranded emitter.
  lemma DisconnectFailureStrands(c: Component, draws: nat, name: string)
    requires DisconnectCalls(c, draws, Some(name))
    ensures Stranded(DisconnectRaising(c, draws, Some(name)).comp, name)
  {
  }

  lemma FreeComparable<V>(m: map<Octets, V>, ck: Octets)
    requires Free(ck, '\0')
    ensures Comparable(m, ck)
  {
  }

  // ----- What a refused call leaves of the invariant -----

  lemma Unsettle(c: Component, draws: nat, settled: bool)
    requires ComponentOk(c, draws, settled)
    ensures ComponentOk(c, draws, false)
  {
    hide DrawnBefore, ReceptacleOk, CreateOid;
    forall n | n in c.publishers ensures PublisherOk(c.oid, n, c.publishers[n], draws, c.removed, false) {
      PublisherAt(c, draws, n, settled);
    }
    forall n | n in c.emitters ensures EmitterOk(c.oid, n, c.emitters[n], false) {
      EmitterAt(c, draws, n, settled);
    }
  }

  lemma SubscribeRaisingKeeps(c: Component, draws: nat, n: Option<string>, o: ObjRef, t: Timeval, sv: nat)
    requires ComponentOk(c, draws, false) && SubscribeNarrows(c, n, o) && draws < MODULUS
    ensures ComponentOk(SubscribeRaising(c, draws, n, o, t, sv).comp, draws + 1, false)
  {
    hide ComponentOk, Stamp, Drawn, DrawnBefore, CreateOid;
    LaterDraws(c, draws, draws + 1, false);
    FreshCookie(c, draws, t, false);
    var ck := Stamp(t, Drawn(draws + 1));
    var d := SubscribeInserted(c, n.value, ck, o, sv);
    var p, q := c.publishers[n.value], d.publishers[n.value];
    PublisherAt(c, draws + 1, n.value, false);
    assert q == p.(subscriptions := p.subscriptions[ck := Subscription(o, NoPush, Some(sv), None)]);
    EntryAdded(p, ck, Subscription(o, NoPush, Some(sv), None));
    hide ChannelAgrees;
    PublisherStep(c, draws + 1, n.value, q, false);
  }

  lemma EntryAdded(p: Publisher, k: Octets, s: Subscription)
    requires ChannelAgrees(p, false) && k !in p.subscriptions && s.proxy.None?
    ensures ChannelAgrees(p.(subscriptions := p.subscriptions[k := s]), false)
  {
    var q := p.(subscriptions := p.subscriptions[k := s]);
    forall x | x in q.channel.connected ensures exists m ::
        m in q.subscriptions && q.subscriptions[m].proxy == Some(x) {
      var m :| m in p.subscriptions && p.subscriptions[m].proxy == Some(x);
      assert m in q.subscriptions && q.subscriptions[m].proxy == Some(x);
    }
  }

  lemma UnsubscribeRaisingKeeps(c: Component, draws: nat, n: Option<string>, k: Option<Octets>)
    requires ComponentOk(c, draws, false) && UnsubscribeCalls(c, draws, n, k)
    ensures ComponentOk(UnsubscribeRaising(c, draws, n, k).comp, draws, false)
  {
    hide ComponentOk, DrawnBefore, CreateOid, SubscriptionOk, Comparable;
    var p := c.publishers[n.value];
    PublisherAt(c, draws, n.value, false);
    ProxyGone(p, k.value);
    PublisherStep(c, draws, n.value, UnsubscribeRaising(c, draws, n, k).comp.publishers[n.value], false);
  }

  lemma ProxyGone(p: Publisher, k: Octets)
    requires ChannelAgrees(p, false) && k in p.subscriptions && p.subscriptions[k].proxy.Some?
    ensures ChannelAgrees(p.(channel := p.channel.Disconnect(p.subscriptions[k].proxy.value)), false)
  {
  }

  lemma ConnectRaisingKeeps(c: Component, draws: nat, n: Option<string>, o: ObjRef, sv: nat)
    requires ComponentOk(c, draws, false) && ConnectNarrows(c, n, o)
    ensures ComponentOk(ConnectRaising(c, draws, n, o, sv).comp, draws, false)
  {
    hide ComponentOk, CreateOid;
    EmitterAt(c, draws, n.value, false);
    EmitterStep(c, draws, n.value, ConnectRaising(c, draws, n, o, sv).comp.emitters[n.value], false);
  }

  lemma DisconnectRaisingKeeps(c: Component, draws: nat, n: Option<string>, settled: bool)
    requires ComponentOk(c, draws, settled) && DisconnectCalls(c, draws, n)
    ensures ComponentOk(DisconnectRaising(c, draws, n).comp, draws, settled)
  {
    hide ComponentOk, CreateOid;
    EmitterAt(c, draws, n.value, settled);
    EmitterStep(c, draws, n.value, DisconnectRaising(c, draws, n).comp.emitters[n.value], settled);
  }

  // Interfaces, simplex receptacles, cookies and the proxies connected stay as
  // they should be; only a subscribe, a connect_consumer or an unsubscribe
  // makes the component unsettled.
  lemma RaisingKeeps(c: Component, draws: nat, op: Op, answers: set<string>, settled: bool)
    requires ComponentOk(c, draws, settled) && !(Called(c, draws, op) <= answers)
    requires Raising(c, draws, op, answers).draws <= MODULUS
    ensures var a := Raising(c, draws, op, answers);
            && ComponentOk(a.comp, a.draws, false)
            && (op.OpDisconnectConsumer? || op.OpRemove? ==> ComponentOk(a.comp, a.draws, settled))
  {
    hide ComponentOk, SubscribeInserted, CreateOid, Stamp, Drawn, Unanswered, Comparable;
    Unsettle(c, draws, settled);
    match op
    case OpSubscribe(n, o, t, sv, _) => SubscribeRaisingKeeps(c, draws, n, o, t, sv);
    case OpUnsubscribe(n, k) => UnsubscribeRaisingKeeps(c, draws, n, k);
    case OpConnectConsumer(n, o, sv, _) => ConnectRaisingKeeps(c, draws, n, o, sv);
    case OpDisconnectConsumer(n) =>
      DisconnectRaisingKeeps(c, draws, n, settled);
      DisconnectRaisingKeeps(c, draws, n, false);
    case OpRemove(_) =>
      var d := RemoveRaising(c, draws, answers).comp;
      PortNamesOnly(c, d, draws, settled);
      PortNamesOnly(c, d, draws, false);
  }

  lemma RaisingFrame(c: Component, draws: nat, op: Op, answers: set<string>)
    requires !(Called(c, draws, op) <= answers)
    ensures var a := Raising(c, draws, op, answers);
            && draws <= a.draws <= draws + 1 && (op.OpSubscribe? <==> a.draws == draws + 1)
            && a.reply == Failed(NarrowRaised)
            && a.comp == c.(facets := a.comp.facets, publishers := a.comp.publishers, emitters := a.comp.emitters)
            && (a.comp.facets == c.facets || a.comp.facets == map[])
            && a.comp.publishers.Keys == c.publishers.Keys && a.comp.emitters.Keys == c.emitters.Keys
  {
    hide CreateOid, Stamp, Drawn, Unanswered, Comparable, SubscribeInserted;
  }
}
