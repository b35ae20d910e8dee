// What one operation of a component does to the names of its ports, to the
// places that hold consumer servants, and to cookies, whether or not the calls
// it makes on the component's own objects are answered.
module OperationEffects {
  import opened Outcomes
  import opened Text
  import opened Identifiers
  import opened ObjectIds
  import opened Cookies
  import opened Components
  import opened PortInvariants
  import opened PortRefusals
  import opened Homes

  // Port names are identifiers.
  predicate LegalOp(op: Op) {
    op.OpDeclareEmitter? || op.OpDeclarePublisher? ==> Free(op.port, '/') && Free(op.port, '\0')
  }

  // The servant object an operation creates is a new one.
  function WithServant(op: Op, servant: nat): Op {
    match op
    case OpSubscribe(n, o, t, _, ok) => OpSubscribe(n, o, t, servant, ok)
    case OpConnectConsumer(n, o, _, ok) => OpConnectConsumer(n, o, servant, ok)
    case _ => op
  }

  // The object ids an answered operation deactivates: those of the local
  // consumers it removes and, for the removal of the component, its own and
  // those of its ports.
  function Deactivated(c: Component, op: Op, reply: Reply): set<string> {
    match op
    case OpUnsubscribe(n, k) =>
      if reply == Done && n.Some? && k.Some? && n.value in c.publishers
          && k.value in c.publishers[n.value].subscriptions
         && c.publishers[n.value].subscriptions[k.value].pushConsumer.Local?
      then {c.publishers[n.value].subscriptions[k.value].pushConsumer.oid} else {}
    case OpDisconnectConsumer(n) =>
      if reply.GotConsumer? && n.Some? && n.value in c.emitters && c.emitters[n.value].pushConsumer.Local?
      then {c.emitters[n.value].pushConsumer.oid} else {}
    case OpRemove(_) =>
      if reply != Done then {}
      else {c.oid} + (if c.isMonolithic then {} else PortOids(c.facets) + PortOids(c.consumers))
    case _ => {}
  }

  // The local consumer reference made during an operation.
  function MadeLocal(c: Component, draws: nat, op: Op): Option<string> {
    var a := Apply(c, draws, op);
    match op
    case OpSubscribe(n, o, t, _, _) =>
      if a.draws != draws && n.Some? && NarrowPush(o) == NoPush
      then Some(CreateOid(c.oid, n.value, Stamp(t, Drawn(draws + 1)))) else None
    case OpConnectConsumer(n, o, _, _) =>
      if (a.reply == Done || a.reply == Failed(ChannelRefused)) && n.Some? && NarrowPush(o) == NoPush
      then Some(CreateOid(c.oid, n.value, EMITTER_CK)) else None
    case _ => None
  }

  function Issued(made: Option<string>, reply: Reply): set<string> {
    (if made.Some? then {made.value} else {}) + (if reply.GotOid? then {reply.oid} else {})
  }

  // Event sources have clean names, and every facet and sink the object id
  // made from its own name.
  ghost predicate PortsNamed(c: Component) {
    && (forall n | n in c.publishers :: Free(n, '/') && Free(n, '\0'))
    && (forall n | n in c.emitters :: Free(n, '/') && Free(n, '\0'))
    && PortRefsOk(c)
  }

  ghost predicate PortRefsOk(c: Component) {
    && (forall n | n in c.facets :: c.facets[n].oid == PortOid(c, c.oid, n))
    && (forall n | n in c.consumers :: c.consumers[n].oid == PortOid(c, c.oid, n))
  }

  // Where a cookie is in use.
  datatype Port = ReceptaclePort(name: string) | PublisherPort(name: string)

  ghost predicate CookieAt(c: Component, port: Port, k: Octets) {
    match port
    case ReceptaclePort(n) => n in c.receptacles && k in c.receptacles[n].connections
    case PublisherPort(n) => n in c.publishers && k in c.publishers[n].subscriptions
  }

  lemma CookieDrawn(c: Component, draws: nat, port: Port, k: Octets, settled: bool)
    requires ComponentOk(c, draws, settled) && CookieAt(c, port, k)
    ensures DrawnBefore(k, draws)
  {
    hide ComponentOk, DrawnBefore, EmitterOk, ChannelAgrees;
    match port
    case ReceptaclePort(n) => ReceptacleAt(c, draws, n, settled);
    case PublisherPort(n) => PublisherAt(c, draws, n, settled);
  }

  lemma OnePieceName(oid: string, draws: nat)
    requires DrawnBefore(oid, draws)
    ensures Split(oid, '/') == [oid]
  {
    hide DrawOf;
    ComponentAlone(oid);
  }

  lemma NewComponentOk(oid: string, isMonolithic: bool, draws: nat, settled: bool)
    ensures var c := NewComponent(oid, isMonolithic);
            c.oid == oid && ComponentOk(c, draws, settled) && PortsNamed(c)
            && (forall n, k, x: nat :: !Holds(c, n, k, x)) && (forall p, k :: !CookieAt(c, p, k))
  {
  }

  lemma ApplyRemoved(c: Component, draws: nat, op: Op)
    ensures Apply(c, draws, op).comp.removed <==> c.removed || (op.OpRemove? && Apply(c, draws, op).reply == Done)
  {
    hide Connect, Disconnect, Subscribe, Unsubscribe, ConnectConsumer, DisconnectConsumer, ConfigurationComplete,
      Remove, DeclareFacet, DeclareConsumer, DeclareReceptacle, DeclareEmitter, DeclarePublisher;
  }

  lemma ApplyPortsNamed(c: Component, draws: nat, op: Op)
    requires PortsNamed(c) && LegalOp(op)
    ensures PortsNamed(Apply(c, draws, op).comp)
  {
    ApplyPortRefs(c, draws, op);
    hide Connect, Disconnect, Subscribe, Unsubscribe, ConnectConsumer, DisconnectConsumer, ConfigurationComplete,
      Remove, DeclareFacet, DeclareConsumer, DeclareReceptacle, Free, PortRefsOk;
  }

  lemma ApplyPortRefs(c: Component, draws: nat, op: Op)
    requires PortRefsOk(c)
    ensures PortRefsOk(Apply(c, draws, op).comp)
  {
    hide Connect, Disconnect, Subscribe, Unsubscribe, ConnectConsumer, DisconnectConsumer, ConfigurationComplete,
      Remove, DeclareReceptacle, DeclareEmitter, DeclarePublisher, CreateOid;
    if op.OpRemove? {
      RemovePortRefs(c, draws, op.executorAgrees);
    }
  }

  lemma RemovePortRefs(c: Component, draws: nat, ok: bool)
    requires PortRefsOk(c)
    ensures PortRefsOk(Remove(c, draws, ok).comp)
  {
    hide CreateOid;
  }

  // The place in which an operation may put a new local consumer.
  ghost predicate NewPlace(draws: nat, op: Op, name: string, ck: string) {
    || (op.OpSubscribe? && op.name == Some(name) && ck == Stamp(op.now, Drawn(draws + 1)))
    || (op.OpConnectConsumer? && op.name == Some(name) && ck == EMITTER_CK)
  }

  // After an operation a place holds what it held before, or the new servant
  // if it is the one place made for it.
  lemma ApplyHolds(c: Component, draws: nat, op: Op, name: string, ck: string, x: nat)
    requires Holds(Apply(c, draws, op).comp, name, ck, x)
    ensures Holds(c, name, ck, x) || (NewPlace(draws, op, name, ck) && op == WithServant(op, x))
  {
    hide Stamp, Drawn, Connect, Disconnect, Subscribe, Unsubscribe, ConnectConsumer, DisconnectConsumer,
      ConfigurationComplete, Remove, DeclareFacet, DeclareConsumer, DeclareReceptacle, DeclareEmitter,
      DeclarePublisher;
    match op
    case OpSubscribe(n, o, t, sv, ok) => SubscribeHolds(c, draws, n, o, t, sv, ok, name, ck, x);
    case OpUnsubscribe(n, k) => UnsubscribeHolds(c, draws, n, k, name, ck, x);
    case OpConnectConsumer(n, o, sv, ok) => ConnectConsumerHolds(c, draws, n, o, sv, ok, name, ck, x);
    case OpDisconnectConsumer(n) => DisconnectConsumerHolds(c, draws, n, name, ck, x);
    case OpRemove(ok) => RemoveHolds(c, draws, ok, name, ck, x);
    case OpDeclareEmitter(n, r, ok) => DeclareEmitterHolds(c, draws, n, r, ok, name, ck, x);
    case OpDeclarePublisher(n, r, ok) => DeclarePublisherHolds(c, draws, n, r, ok, name, ck, x);
    case _ =>
  }

  lemma SubscribeHolds(c: Component, draws: nat, n: Option<string>, o: ObjRef, t: Timeval, sv: nat, ok: bool,
                       name: string, ck: string, x: nat)
    requires Holds(Subscribe(c, draws, n, o, t, sv, ok).comp, name, ck, x)
    ensures Holds(c, name, ck, x) || (NewPlace(draws, OpSubscribe(n, o, t, sv, ok), name, ck) && sv == x)
  {
    hide Stamp, Drawn, CreateOid;
  }

  lemma UnsubscribeHolds(c: Component, draws: nat, n: Option<string>, k: Option<Octets>,
                         name: string, ck: string, x: nat)
    requires Holds(Unsubscribe(c, draws, n, k).comp, name, ck, x)
    ensures Holds(c, name, ck, x)
  {
    hide Comparable;
  }

  lemma ConnectConsumerHolds(c: Component, draws: nat, n: Option<string>, o: ObjRef, sv: nat, ok: bool,
                             name: string, ck: string, x: nat)
    requires Holds(ConnectConsumer(c, draws, n, o, sv, ok).comp, name, ck, x)
    ensures Holds(c, name, ck, x) || (NewPlace(draws, OpConnectConsumer(n, o, sv, ok), name, ck) && sv == x)
  {
    hide Stamp, Drawn, CreateOid;
  }

  lemma DisconnectConsumerHolds(c: Component, draws: nat, n: Option<string>, name: string, ck: string, x: nat)
    requires Holds(DisconnectConsumer(c, draws, n).comp, name, ck, x)
    ensures Holds(c, name, ck, x)
  {
  }

  lemma RemoveHolds(c: Component, draws: nat, ok: bool, name: string, ck: string, x: nat)
    requires Holds(Remove(c, draws, ok).comp, name, ck, x)
    ensures Holds(c, name, ck, x)
  {
  }

  lemma DeclareEmitterHolds(c: Component, draws: nat, n: string, r: string, ok: bool, name: string, ck: string, x: nat)
    requires Holds(DeclareEmitter(c, draws, n, r, ok).comp, name, ck, x)
    ensures Holds(c, name, ck, x)
  {
  }

  lemma DeclarePublisherHolds(c: Component, draws: nat, n: string, r: string, ok: bool,
                              name: string, ck: string, x: nat)
    requires Holds(DeclarePublisher(c, draws, n, r, ok).comp, name, ck, x)
    ensures Holds(c, name, ck, x)
  {
  }

  lemma NamesNoOid(c: Component, draws: nat, op: Op)
    requires !op.OpDeclareFacet? && !op.OpDeclareConsumer?
    ensures !Apply(c, draws, op).reply.GotOid?
  {
    hide Stamp, Drawn, CreateOid, Comparable;
  }

  // The object id a port is given by its component.
  lemma PortOidRead(c: Component, name: string)
    requires Free(c.oid, '\0')
    ensures PortOid(c, c.oid, name) == if c.isMonolithic then c.oid else CreateOid(c.oid, CString(name), "")
    ensures Free(c.oid, '/') ==> Split(PortOid(c, c.oid, name), '/')[0] == c.oid
  {
    hide Split, CString, CreateOid;
    if c.isMonolithic {
      CStringWhole(c.oid);
      if Free(c.oid, '/') { ComponentAlone(c.oid); }
    } else {
      CutOid(c.oid, name);
      if Free(c.oid, '/') { ComponentPart(c.oid, CString(name), ""); }
    }
  }

  lemma IssuedFromComponent(c: Component, draws: nat, op: Op, o: string)
    requires Free(c.oid, '/') && Free(c.oid, '\0')
    requires o in Issued(MadeLocal(c, draws, op), Apply(c, draws, op).reply)
    ensures Split(o, '/')[0] == c.oid
    ensures MadeLocal(c, draws, op) == Some(o) ==> |Split(o, '/')| > 1
  {
    hide Split, Free, Stamp, Drawn, CreateOid, Connect, Disconnect, Subscribe, Unsubscribe, ConnectConsumer,
      DisconnectConsumer, ConfigurationComplete, Remove;
    ComponentAlone(c.oid);
    forall n, k ensures |Split(CreateOid(c.oid, n, k), '/')| > 1 && Split(CreateOid(c.oid, n, k), '/')[0] == c.oid {
      ComponentPart(c.oid, n, k);
    }
    hide PortOid;
    if op.OpDeclareFacet? || op.OpDeclareConsumer? {
      PortOidRead(c, op.port);
    } else {
      NamesNoOid(c, draws, op);
    }
  }

  // The port an operation gives a cookie to, and the cookie.
  ghost predicate NewCookie(c: Component, draws: nat, op: Op, port: Port, k: Octets) {
    && Apply(c, draws, op).draws == draws + 1
    && (op.OpConnect? || op.OpSubscribe?) && op.name.Some?
    && k == Stamp(op.now, Drawn(draws + 1))
    && port == if op.OpConnect? then ReceptaclePort(op.name.value) else PublisherPort(op.name.value)
  }

  lemma ApplyCookies(c: Component, draws: nat, op: Op, port: Port, k: Octets)
    requires CookieAt(Apply(c, draws, op).comp, port, k)
    ensures CookieAt(c, port, k) || NewCookie(c, draws, op, port, k)
  {
    hide Stamp, Drawn, Connect, Disconnect, Subscribe, Unsubscribe, ConnectConsumer, DisconnectConsumer,
      ConfigurationComplete, Remove, DeclareFacet, DeclareConsumer, DeclareReceptacle, DeclareEmitter,
      DeclarePublisher;
    match op
    case OpConnect(n, o, t) => ConnectCookies(c, draws, n, o, t, port, k);
    case OpDisconnect(n, o) => DisconnectCookies(c, draws, n, o, port, k);
    case OpSubscribe(n, o, t, sv, ok) => SubscribeCookies(c, draws, n, o, t, sv, ok, port, k);
    case OpUnsubscribe(n, o) => UnsubscribeCookies(c, draws, n, o, port, k);
    case OpRemove(ok) => RemoveCookies(c, draws, ok, port, k);
    case OpDeclareReceptacle(n, r, m) => DeclareReceptacleCookies(c, draws, n, r, m, port, k);
    case OpDeclarePublisher(n, r, ok) => DeclarePublisherCookies(c, draws, n, r, ok, port, k);
    case _ =>
  }

  lemma ConnectCookies(c: Component, draws: nat, n: Option<string>, o: ObjRef, t: Timeval, port: Port, k: Octets)
    requires CookieAt(Connect(c, draws, n, o, t).comp, port, k)
    ensures CookieAt(c, port, k) || NewCookie(c, draws, OpConnect(n, o, t), port, k)
  {
    hide Stamp, Drawn;
  }

  lemma DisconnectCookies(c: Component, draws: nat, n: Option<string>, o: Option<Octets>, port: Port, k: Octets)
    requires CookieAt(Disconnect(c, draws, n, o).comp, port, k)
    ensures CookieAt(c, port, k)
  {
    hide Comparable;
  }

  lemma SubscribeCookies(c: Component, draws: nat, n: Option<string>, o: ObjRef, t: Timeval, sv: nat, ok: bool,
                         port: Port, k: Octets)
    requires CookieAt(Subscribe(c, draws, n, o, t, sv, ok).comp, port, k)
    ensures CookieAt(c, port, k) || NewCookie(c, draws, OpSubscribe(n, o, t, sv, ok), port, k)
  {
    hide Stamp, Drawn, CreateOid;
  }

  lemma UnsubscribeCookies(c: Component, draws: nat, n: Option<string>, o: Option<Octets>, port: Port, k: Octets)
    requires CookieAt(Unsubscribe(c, draws, n, o).comp, port, k)
    ensures CookieAt(c, port, k)
  {
    hide Comparable;
  }

  lemma RemoveCookies(c: Component, draws: nat, ok: bool, port: Port, k: Octets)
    requires CookieAt(Remove(c, draws, ok).comp, port, k)
    ensures CookieAt(c, port, k)
  {
  }

  lemma DeclareReceptacleCookies(c: Component, draws: nat, n: string, r: string, m: bool, port: Port, k: Octets)
    requires CookieAt(DeclareReceptacle(c, draws, n, r, m).comp, port, k)
    ensures CookieAt(c, port, k)
  {
  }

  lemma DeclarePublisherCookies(c: Component, draws: nat, n: string, r: string, ok: bool, port: Port, k: Octets)
    requires CookieAt(DeclarePublisher(c, draws, n, r, ok).comp, port, k)
    ensures CookieAt(c, port, k)
  {
  }

  lemma RequestIssues(c: Component, draws: nat, op: Op)
    requires Free(c.oid, '/') && Free(c.oid, '\0')
    ensures forall i | i in Issued(MadeLocal(c, draws, op), Apply(c, draws, op).reply) :: Split(i, '/')[0] == c.oid
    ensures MadeLocal(c, draws, op).Some? ==> |Split(MadeLocal(c, draws, op).value, '/')| > 1
  {
    hide Split, MadeLocal, Apply;
    var made := MadeLocal(c, draws, op);
    forall i | i in Issued(made, Apply(c, draws, op).reply)
      ensures Split(i, '/')[0] == c.oid && (made == Some(i) ==> |Split(i, '/')| > 1)
    {
      IssuedFromComponent(c, draws, op, i);
    }
    assert made.Some? ==> made.value in Issued(made, Apply(c, draws, op).reply);
  }

  lemma NewCookieText(now: Timeval, n: nat)
    requires 1 <= n <= MODULUS
    ensures var ck := Stamp(now, Drawn(n));
            && Free(ck, '/') && Free(ck, '\0') && ck != "" && ck != EMITTER_CK
            && DrawnBefore(ck, n) && !DrawnBefore(ck, n - 1)
  {
    hide Stamp, Drawn, Free, DrawOf;
    StampDraw(now, n);
    StampCharacters(now, Drawn(n));
    assert ':' !in EMITTER_CK;
  }

  lemma EmitterClean()
    ensures Free(EMITTER_CK, '/') && Free(EMITTER_CK, '\0') && ':' !in EMITTER_CK
  {
  }

  lemma InsertedHolds(c: Component, name: string, ck: Octets, subscriber: ObjRef, servant: nat)
    requires name in c.publishers && ck !in c.publishers[name].subscriptions && ':' in ck
    requires NarrowPush(subscriber) == NoPush
    ensures var d := SubscribeInserted(c, name, ck, subscriber, servant);
            Holds(d, name, ck, servant) && d.removed == c.removed && ck != EMITTER_CK && ck != ""
  {
  }

  // ----- When a call on the component's own objects is refused -----

  lemma RaisingNamed(c: Component, draws: nat, op: Op, answers: set<string>)
    requires PortsNamed(c) && !(Called(c, draws, op) <= answers)
    ensures PortsNamed(Raising(c, draws, op, answers).comp)
  {
    hide Called, Raising, Free, CreateOid;
    RaisingFrame(c, draws, op, answers);
  }

  lemma RaisingHolds(c: Component, draws: nat, op: Op, answers: set<string>, name: string, ck: string, x: nat)
    requires !(Called(c, draws, op) <= answers) && Holds(Raising(c, draws, op, answers).comp, name, ck, x)
    ensures Holds(c, name, ck, x) || (NewPlace(draws, op, name, ck) && op == WithServant(op, x))
  {
    hide Stamp, Drawn, CreateOid, Unanswered, Comparable, Unsubscribe, DisconnectConsumer;
  }

  lemma RaisingCookies(c: Component, draws: nat, op: Op, answers: set<string>, port: Port, k: Octets)
    requires !(Called(c, draws, op) <= answers) && CookieAt(Raising(c, draws, op, answers).comp, port, k)
    ensures CookieAt(c, port, k) || NewCookie(c, draws, op, port, k)
  {
    hide Stamp, Drawn, CreateOid, Unanswered, Comparable, Unsubscribe, DisconnectConsumer, SubscribeConnected;
  }

  // ----- What the calls find -----

  // A call on a local consumer finds its servant stored for the source and the
  // cookie that its object id names.
  lemma DuringHolds(c: Component, draws: nat, op: Op, o: string) returns (n: string, k: string, x: nat)
    requires ComponentOk(c, draws, true) && PortsNamed(c) && o in Called(c, draws, op) && !op.OpRemove?
    requires op.OpSubscribe? ==> draws < MODULUS
    ensures o == CreateOid(c.oid, n, k) && Holds(DuringCalls(c, draws, op), n, k, x) && k != ""
    ensures Free(n, '/') && Free(n, '\0') && Free(k, '/') && Free(k, '\0')
    ensures !c.removed && !DuringCalls(c, draws, op).removed
    ensures (op.OpSubscribe? || op.OpConnectConsumer?) ==> op.name == Some(n) && x == op.servant
    ensures op.OpConnectConsumer? ==> k == EMITTER_CK
    ensures op.OpSubscribe? ==> k == Stamp(op.now, Drawn(draws + 1))
  {
    hide ComponentOk, Free, DrawnBefore, CreateOid, Stamp, Drawn, Comparable;
    EmitterClean();
    n := op.name.value;
    match op
    case OpSubscribe(_, o', t, sv, _) =>
      NewCookieText(t, draws + 1);
      FreshCookie(c, draws, t, true);
      k, x := Stamp(t, Drawn(draws + 1)), sv;
    case OpConnectConsumer(_, _, sv, _) =>
      k, x := EMITTER_CK, sv;
    case OpUnsubscribe(_, ck) =>
      k := ck.value;
      PublisherAt(c, draws, n, true);
      CookieDrawn(c, draws, PublisherPort(n), k, true);
      DrawnClean(k, draws);
      x := c.publishers[n].subscriptions[k].servant.value;
    case OpDisconnectConsumer(_) =>
      k := EMITTER_CK;
      EmitterAt(c, draws, n, true);
      x := c.emitters[n].servant.value;
  }

  lemma DrawnClean(k: string, draws: nat)
    requires DrawnBefore(k, draws)
    ensures Free(k, '/') && Free(k, '\0') && k != "" && k != EMITTER_CK
  {
    hide DrawOf, Free;
    assert ':' !in EMITTER_CK;
  }
}
