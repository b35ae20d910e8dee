// A component's ports as values: what each operation of the component does
// to its receptacles, publishers and emitters. The class in CCMObject.dfy
// performs these operations in place.
module Components {
  import opened Outcomes
  import opened Text
  import opened Identifiers
  import opened ObjectIds
  import opened Cookies

  // The interface a subscriber must support to be connected to a channel directly.
  const PUSH_CONSUMER := "CosEventComm::PushConsumer"
  const EMITTER_CK := "Emitter"

  // An object reference is opaque; types is what _is_a answers true for.
  datatype ObjRef = Nil | Ref(id: nat, types: set<string>)
  {
    predicate IsA(repId: string) {
      Ref? && repId in types
    }
  }

  // A reference to something that takes pushed events: a subscriber that is
  // one itself, or a consumer servant local to the component.
  datatype PushRef = NoPush | Remote(ref: ObjRef) | Local(oid: string)

  function NarrowPush(ref: ObjRef): PushRef {
    if ref.IsA(PUSH_CONSUMER) then Remote(ref) else NoPush
  }

  // The proxy suppliers connected in an event channel, by proxy number;
  // pushing tells whether the proxy consumer that the component itself pushes
  // through is still connected.
  datatype Channel = Channel(connected: map<nat, PushRef>, next: nat, alive: bool, pushing: bool)
  {
    function Connect(target: PushRef): Channel {
      Channel(connected[next := target], next + 1, alive, pushing)
    }

    function Disconnect(proxy: nat): Channel {
      Channel(connected - {proxy}, next, alive, pushing)
    }
  }

  const NEW_CHANNEL := Channel(map[], 0, true, true)

  datatype PortRef = PortRef(repId: string, oid: string)

  datatype Receptacle = Receptacle(repId: string, isMultiplex: bool, connections: map<Octets, ObjRef>)

  datatype Subscription =
    Subscription(consumer: ObjRef, pushConsumer: PushRef, servant: Option<nat>, proxy: Option<nat>)

  datatype Publisher = Publisher(repId: string, channel: Channel, subscriptions: map<Octets, Subscription>)

  datatype Emitter = Emitter(repId: string, channel: Channel, consumer: ObjRef, pushConsumer: PushRef,
                             servant: Option<nat>, proxy: Option<nat>)

  datatype Component = Component(
    oid: string,
    isMonolithic: bool,
    facets: map<string, PortRef>,
    receptacles: map<string, Receptacle>,
    consumers: map<string, PortRef>,
    emitters: map<string, Emitter>,
    publishers: map<string, Publisher>,
    configured: bool,
    removed: bool)

  function NewComponent(oid: string, isMonolithic: bool): Component {
    Component(oid, isMonolithic, map[], map[], map[], map[], map[], false, false)
  }

  datatype Error =
    | ObjectNotExist | BadParam | InvalidName | InvalidConnection | AlreadyConnected | CookieRequired
    | NoConnection | InvalidConfiguration | RemoveFailure | CreateFailure | AlreadyDone | ChannelRefused
    | NarrowRaised | NilReference | Internal | InternalError | AssertionFailed | ProcessTerminated

  datatype Reply =
    | Done
    | GotCookie(ck: Option<Octets>)
    | GotConsumer(consumer: ObjRef)
    | GotOid(oid: string)
    | Failed(error: Error)

  // The component after an operation, the identifiers drawn so far, and the
  // answer to the caller.
  datatype Applied = Applied(comp: Component, draws: nat, reply: Reply)

  // std::map::insert leaves an entry that is already there.
  function Insert<K, V>(m: map<K, V>, k: K, v: V): map<K, V> {
    if k in m then m else m[k := v]
  }

  lemma Overwrite<K, V>(m: map<K, V>, k: K, first: V, second: V)
    ensures m[k := first][k := second] == m[k := second]
  {
  }

  lemma SameEntry<K, V>(m: map<K, V>, k: K)
    requires k in m
    ensures m[k := m[k]] == m
  {
  }

  // ----- Receptacles -----

  function Connect(c: Component, draws: nat, name: Option<string>, connection: ObjRef, now: Timeval): (a: Applied)
    ensures draws <= a.draws <= draws + 1 && (a.draws == draws ==> a.comp == c)
    ensures a.comp == c.(receptacles := a.comp.receptacles)
  {
    if c.removed then Applied(c, draws, Failed(ObjectNotExist))
    else if name.None? then Applied(c, draws, Failed(InvalidName))
    else if connection.Nil? then Applied(c, draws, Failed(BadParam))
    else if name.value !in c.receptacles then Applied(c, draws, Failed(InvalidName))
    else
      var r := c.receptacles[name.value];
      if !r.isMultiplex && |r.connections| > 0 then Applied(c, draws, Failed(AlreadyConnected))
      else if !connection.IsA(r.repId) then Applied(c, draws, Failed(InvalidConnection))
      else
        var ck := Stamp(now, Drawn(draws + 1));
        var r' := r.(connections := Insert(r.connections, ck, connection));
        Applied(c.(receptacles := c.receptacles[name.value := r']), draws + 1,
                GotCookie(if r.isMultiplex then Some(ck) else None))
  }

  function Disconnect(c: Component, draws: nat, name: Option<string>, ck: Option<Octets>): (a: Applied)
    ensures a.draws == draws
    ensures a.comp == c.(receptacles := a.comp.receptacles)
    ensures a.reply == Done || (a.reply.Failed? && a.comp == c)
  {
    if c.removed then Applied(c, draws, Failed(ObjectNotExist))
    else if name.None? || name.value !in c.receptacles then Applied(c, draws, Failed(InvalidName))
    else
      var r := c.receptacles[name.value];
      if r.isMultiplex then
        if ck.None? then Applied(c, draws, Failed(CookieRequired))
        else if !Comparable(r.connections, ck.value) then Applied(c, draws, Failed(ProcessTerminated))
        else if ck.value !in r.connections then Applied(c, draws, Failed(InvalidConnection))
        else
          var r' := r.(connections := r.connections - {ck.value});
          Applied(c.(receptacles := c.receptacles[name.value := r']), draws, Done)
      else if |r.connections| == 0 then Applied(c, draws, Failed(NoConnection))
      else Applied(c.(receptacles := c.receptacles[name.value := r.(connections := map[])]), draws, Done)
  }

  // ----- Publishers -----

  // Who subscribed, by cookie.
  function Subscribers(p: Publisher): map<Octets, ObjRef> {
    map k | k in p.subscriptions :: p.subscriptions[k].consumer
  }

  function WithPublisher(c: Component, name: string, p: Publisher): Component {
    c.(publishers := c.publishers[name := p])
  }

  // The entry that subscribe works on, before the local consumer exists.
  function FirstEntry(p: Publisher, ck: Octets, subscriber: ObjRef): Subscription {
    if ck in p.subscriptions then p.subscriptions[ck]
    else Subscription(subscriber, NarrowPush(subscriber), None, None)
  }

  // The component while subscribe narrows the reference of the local
  // consumer: the entry and its servant are already there.
  function SubscribeInserted(c: Component, name: string, ck: Octets, subscriber: ObjRef, servant: nat): (r: Component)
    requires name in c.publishers
    ensures r == c.(publishers := r.publishers) && r.publishers.Keys == c.publishers.Keys
    ensures ck in r.publishers[name].subscriptions
  {
    var p := c.publishers[name];
    var e := FirstEntry(p, ck, subscriber);
    var e' := if e.pushConsumer == NoPush then e.(servant := Some(servant)) else e;
    WithPublisher(c, name, p.(subscriptions := p.subscriptions[ck := e']))
  }

  // From there on: the local consumer's reference, then the channel. Only a
  // refusal by the channel is undone.
  function SubscribeConnected(c: Component, name: string, ck: Octets, channelAccepts: bool): (r: Component)
    requires name in c.publishers && ck in c.publishers[name].subscriptions
    ensures r == c.(publishers := r.publishers) && r.publishers.Keys == c.publishers.Keys
  {
    var p := c.publishers[name];
    var e := p.subscriptions[ck];
    var e' := if e.pushConsumer == NoPush then e.(pushConsumer := Local(CreateOid(c.oid, name, ck))) else e;
    WithPublisher(c, name,
      if channelAccepts then
        p.(channel := p.channel.Connect(e'.pushConsumer),
           subscriptions := p.subscriptions[ck := e'.(proxy := Some(p.channel.next))])
      else p.(subscriptions := p.subscriptions - {ck}))
  }

  function Subscribe(c: Component, draws: nat, name: Option<string>, subscriber: ObjRef,
                     now: Timeval, servant: nat, channelAccepts: bool): (a: Applied)
    ensures draws <= a.draws <= draws + 1 && (a.draws == draws ==> a.comp == c)
    ensures a.comp == c.(publishers := a.comp.publishers)
    ensures a.comp.publishers.Keys == c.publishers.Keys
  {
    if c.removed then Applied(c, draws, Failed(ObjectNotExist))
    else if name.None? then Applied(c, draws, Failed(InvalidName))
    else if subscriber.Nil? then Applied(c, draws, Failed(BadParam))
    else if name.value !in c.publishers then Applied(c, draws, Failed(InvalidName))
    else if !subscriber.IsA(c.publishers[name.value].repId) then Applied(c, draws, Failed(InvalidConnection))
    else
      var ck := Stamp(now, Drawn(draws + 1));
      var inserted := SubscribeInserted(c, name.value, ck, subscriber, servant);
      Applied(SubscribeConnected(inserted, name.value, ck, channelAccepts), draws + 1,
              if channelAccepts then GotCookie(Some(ck)) else Failed(ChannelRefused))
  }

  // Does subscribe come to narrow the reference of a consumer of its own?
  predicate SubscribeNarrows(c: Component, name: Option<string>, subscriber: ObjRef) {
    && !c.removed && name.Some? && name.value in c.publishers
    && subscriber.IsA(c.publishers[name.value].repId) && NarrowPush(subscriber) == NoPush
  }

  // An exception there, or from making that reference, leaves the entry.
  function SubscribeRaising(c: Component, draws: nat, name: Option<string>, subscriber: ObjRef,
                            now: Timeval, servant: nat): Applied
    requires SubscribeNarrows(c, name, subscriber)
  {
    Applied(SubscribeInserted(c, name.value, Stamp(now, Drawn(draws + 1)), subscriber, servant), draws + 1,
            Failed(NarrowRaised))
  }

  function Unsubscribe(c: Component, draws: nat, name: Option<string>, ck: Option<Octets>): (a: Applied)
    ensures a.draws == draws
    ensures a.comp == c.(publishers := a.comp.publishers)
    ensures a.comp.publishers.Keys == c.publishers.Keys
  {
    if c.removed then Applied(c, draws, Failed(ObjectNotExist))
    else if name.None? then Applied(c, draws, Failed(InvalidName))
    else if ck.None? then Applied(c, draws, Failed(BadParam))
    else if name.value !in c.publishers then Applied(c, draws, Failed(InvalidName))
    else
      var p := c.publishers[name.value];
      if !Comparable(p.subscriptions, ck.value) then Applied(c, draws, Failed(ProcessTerminated))
      else if ck.value !in p.subscriptions then Applied(c, draws, Failed(InvalidConnection))
      else
        var proxy := p.subscriptions[ck.value].proxy;
        if proxy.None? then Applied(c, draws, Failed(NilReference))
        else if proxy.value !in p.channel.connected then Applied(c, draws, Failed(ObjectNotExist))
        else
          var p' := p.(channel := p.channel.Disconnect(proxy.value), subscriptions := p.subscriptions - {ck.value});
          Applied(WithPublisher(c, name.value, p'), draws, Done)
  }

  // Does unsubscribe come to narrow the reference of the local consumer?
  predicate UnsubscribeCalls(c: Component, draws: nat, name: Option<string>, ck: Option<Octets>) {
    && Unsubscribe(c, draws, name, ck).reply == Done
    && name.Some? && ck.Some? && name.value in c.publishers && ck.value in c.publishers[name.value].subscriptions
    && c.publishers[name.value].subscriptions[ck.value].pushConsumer.Local?
    && c.publishers[name.value].subscriptions[ck.value].proxy.Some?
  }

  // An exception there leaves the entry with its proxy supplier disconnected.
  function UnsubscribeRaising(c: Component, draws: nat, name: Option<string>, ck: Option<Octets>): Applied
    requires UnsubscribeCalls(c, draws, name, ck)
  {
    var p := c.publishers[name.value];
    var p' := p.(channel := p.channel.Disconnect(p.subscriptions[ck.value].proxy.value));
    Applied(WithPublisher(c, name.value, p'), draws, Failed(NarrowRaised))
  }

  // ----- Emitters -----

  function WithEmitter(c: Component, name: string, e: Emitter): Component {
    c.(emitters := c.emitters[name := e])
  }

  function ConnectConsumer(c: Component, draws: nat, name: Option<string>, consumer: ObjRef,
                           servant: nat, channelAccepts: bool): (a: Applied)
    ensures a.draws == draws
    ensures a.comp == c.(emitters := a.comp.emitters)
    ensures a.comp.emitters.Keys == c.emitters.Keys
  {
    if c.removed then Applied(c, draws, Failed(ObjectNotExist))
    else if name.None? then Applied(c, draws, Failed(InvalidName))
    else if consumer.Nil? then Applied(c, draws, Failed(BadParam))
    else if name.value !in c.emitters then Applied(c, draws, Failed(InvalidName))
    else
      var e := c.emitters[name.value];
      if !consumer.IsA(e.repId) then Applied(c, draws, Failed(InvalidConnection))
      else if !e.consumer.Nil? then Applied(c, draws, Failed(AlreadyConnected))
      else
        var e1 := e.(consumer := consumer, pushConsumer := NarrowPush(consumer));
        var e2 := if e1.pushConsumer == NoPush
                  then e1.(servant := Some(servant), pushConsumer := Local(CreateOid(c.oid, name.value, EMITTER_CK)))
                  else e1;
        if channelAccepts then
          var e3 := e2.(channel := e2.channel.Connect(e2.pushConsumer), proxy := Some(e2.channel.next));
          Applied(WithEmitter(c, name.value, e3), draws, Done)
        else
          // The refusal is passed on without undoing the entry.
          Applied(WithEmitter(c, name.value, e2), draws, Failed(ChannelRefused))
  }

  predicate ConnectNarrows(c: Component, name: Option<string>, consumer: ObjRef) {
    && !c.removed && name.Some? && name.value in c.emitters && consumer.IsA(c.emitters[name.value].repId)
    && c.emitters[name.value].consumer.Nil? && NarrowPush(consumer) == NoPush
  }

  function ConnectRaising(c: Component, draws: nat, name: Option<string>, consumer: ObjRef, servant: nat): Applied
    requires ConnectNarrows(c, name, consumer)
  {
    var e := c.emitters[name.value].(consumer := consumer, pushConsumer := NoPush, servant := Some(servant));
    Applied(WithEmitter(c, name.value, e), draws, Failed(NarrowRaised))
  }

  function DisconnectConsumer(c: Component, draws: nat, name: Option<string>): (a: Applied)
    ensures a.draws == draws
    ensures a.comp == c.(emitters := a.comp.emitters)
    ensures a.comp.emitters.Keys == c.emitters.Keys
  {
    if c.removed then Applied(c, draws, Failed(ObjectNotExist))
    else if name.None? || name.value !in c.emitters then Applied(c, draws, Failed(InvalidName))
    else
      var e := c.emitters[name.value];
      if e.consumer.Nil? then Applied(c, draws, Failed(NoConnection))
      else if e.proxy.None? then Applied(c, draws, Failed(NilReference))
      else if e.proxy.value !in e.channel.connected then Applied(c, draws, Failed(ObjectNotExist))
      else
        var e' := e.(channel := e.channel.Disconnect(e.proxy.value), consumer := Nil, pushConsumer := NoPush,
          servant := None);
        Applied(WithEmitter(c, name.value, e'), draws, GotConsumer(e.consumer))
  }

  predicate DisconnectCalls(c: Component, draws: nat, name: Option<string>) {
    && DisconnectConsumer(c, draws, name).reply.GotConsumer?
    && name.Some? && name.value in c.emitters
    && c.emitters[name.value].pushConsumer.Local? && c.emitters[name.value].proxy.Some?
  }

  function DisconnectRaising(c: Component, draws: nat, name: Option<string>): Applied
    requires DisconnectCalls(c, draws, name)
  {
    var e := c.emitters[name.value];
    Applied(WithEmitter(c, name.value, e.(channel := e.channel.Disconnect(e.proxy.value))), draws, Failed(NarrowRaised))
  }

  // ----- Life cycle of the component -----

  function ConfigurationComplete(c: Component, draws: nat): (a: Applied)
    ensures a.draws == draws
    ensures a.comp == c.(configured := a.comp.configured)
  {
    if c.removed then Applied(c, draws, Failed(ObjectNotExist))
    else if exists n | n in c.receptacles :: |c.receptacles[n].connections| == 0 then
      Applied(c, draws, Failed(InvalidConfiguration))
    else Applied(c.(configured := true), draws, Done)
  }

  // Publishers own their channels and destroy them; emitters only drop the
  // wrapper around theirs. Both stop pushing, and neither map is emptied.
  function ChannelDestroyed(p: Publisher): Publisher {
    p.(channel := Channel(map[], p.channel.next, false, false))
  }

  function ChannelDropped(e: Emitter): Emitter {
    e.(channel := e.channel.(alive := false, pushing := false))
  }

  function Remove(c: Component, draws: nat, executorAgrees: bool): (a: Applied)
    ensures a.draws == draws
    ensures a.comp.oid == c.oid && a.comp.receptacles == c.receptacles
    ensures a.reply == Done <==> a.comp.removed && !c.removed
    ensures a.comp.publishers.Keys == c.publishers.Keys && a.comp.emitters.Keys == c.emitters.Keys
    ensures a.reply != Done ==> a.comp == c
  {
    if c.removed then Applied(c, draws, Failed(ObjectNotExist))
    else if !executorAgrees then Applied(c, draws, Failed(RemoveFailure))
    else
      Applied(c.(facets := map[], consumers := map[],
                 publishers := map n | n in c.publishers :: ChannelDestroyed(c.publishers[n]),
                 emitters := map n | n in c.emitters :: ChannelDropped(c.emitters[n]),
                 removed := true),
              draws, Done)
  }

  // A component that is not monolithic first asks its facets, then its sinks,
  // each in name order, to remove themselves. answers holds the object ids for
  // which that call is answered.
  function PortOids(ports: map<string, PortRef>): set<string> {
    set n | n in ports :: ports[n].oid
  }

  function Unanswered(ports: map<string, PortRef>, answers: set<string>): set<string> {
    set n | n in ports && ports[n].oid !in answers
  }

  // The object ids told to remove themselves up to the first refusal.
  function Told(ports: map<string, PortRef>, answers: set<string>): set<string> {
    if Unanswered(ports, answers) == {} then PortOids(ports)
    else set n | n in ports && Less(n, Least(Unanswered(ports, answers))) :: ports[n].oid
  }

  predicate RemoveRefused(c: Component, executorAgrees: bool, answers: set<string>) {
    && !c.removed && executorAgrees && !c.isMonolithic
    && (Unanswered(c.facets, answers) != {} || Unanswered(c.consumers, answers) != {})
  }

  // The first refusal ends the removal: facets are forgotten once all were
  // asked, and nothing else is.
  function RemoveRaising(c: Component, draws: nat, answers: set<string>): Applied {
    Applied(if Unanswered(c.facets, answers) != {} then c else c.(facets := map[]), draws, Failed(NarrowRaised))
  }

  // ----- Declaring ports -----

  // The reference a port is given: the component's own when it is monolithic.
  // compOid is what generated code passes for the component; references are
  // made from C strings.
  function PortOid(c: Component, compOid: string, name: string): string {
    CString(if c.isMonolithic then compOid else CreateOid(compOid, name, ""))
  }

  function DeclareFacet(c: Component, draws: nat, compOid: string, name: string, repId: string, refMade: bool)
    : (a: Applied)
    ensures a.draws == draws
    ensures a.comp == c.(facets := a.comp.facets)
  {
    if name in c.facets then Applied(c, draws, Failed(AlreadyDone))
    else if !refMade then Applied(c, draws, Failed(InternalError))
    else
      var oid := PortOid(c, compOid, name);
      Applied(c.(facets := c.facets[name := PortRef(repId, oid)]), draws, GotOid(oid))
  }

  function DeclareConsumer(c: Component, draws: nat, compOid: string, name: string, repId: string, refMade: bool)
    : (a: Applied)
    ensures a.draws == draws
    ensures a.comp == c.(consumers := a.comp.consumers)
  {
    if name in c.consumers then Applied(c, draws, Failed(AlreadyDone))
    else if !refMade then Applied(c, draws, Failed(InternalError))
    else
      var oid := PortOid(c, compOid, name);
      Applied(c.(consumers := c.consumers[name := PortRef(repId, oid)]), draws, GotOid(oid))
  }

  function DeclareReceptacle(c: Component, draws: nat, name: string, repId: string, isMultiplex: bool): (a: Applied)
    ensures a.draws == draws
    ensures a.comp == c.(receptacles := a.comp.receptacles)
  {
    if name in c.receptacles then Applied(c, draws, Failed(AlreadyDone))
    else Applied(c.(receptacles := c.receptacles[name := Receptacle(repId, isMultiplex, map[])]), draws, Done)
  }

  function DeclareEmitter(c: Component, draws: nat, name: string, repId: string, channelMade: bool): (a: Applied)
    ensures a.draws == draws
    ensures a.comp == c.(emitters := a.comp.emitters)
  {
    if c.removed then Applied(c, draws, Failed(ObjectNotExist))
    else if name in c.emitters then Applied(c, draws, Failed(AlreadyDone))
    else if !channelMade then Applied(c, draws, Failed(Internal))
    else Applied(WithEmitter(c, name, Emitter(repId, NEW_CHANNEL, Nil, NoPush, None, None)), draws, Done)
  }

  function DeclarePublisher(c: Component, draws: nat, name: string, repId: string, channelMade: bool): (a: Applied)
    ensures a.draws == draws
    ensures a.comp == c.(publishers := a.comp.publishers)
  {
    if c.removed then Applied(c, draws, Failed(ObjectNotExist))
    else if name in c.publishers then Applied(c, draws, Failed(AlreadyDone))
    else if !channelMade then Applied(c, draws, Failed(Internal))
    else Applied(WithPublisher(c, name, Publisher(repId, NEW_CHANNEL, map[])), draws, Done)
  }

  // ----- Finding a local push consumer -----

  function LocalPushConsumer(c: Component, source: string, ckValue: string): Result<nat, Error> {
    if c.removed then Raised(ObjectNotExist)
    else if ckValue != EMITTER_CK then
      if source !in c.publishers then Raised(ObjectNotExist)
      else
        var ck := StringToOctets(ckValue);
        var subscriptions := c.publishers[source].subscriptions;
        if ck in subscriptions && subscriptions[ck].servant.Some? then Ok(subscriptions[ck].servant.value)
        else Raised(ObjectNotExist)
    else if source in c.emitters && c.emitters[source].servant.Some? then Ok(c.emitters[source].servant.value)
    else Raised(ObjectNotExist)
  }

  // ----- Any operation -----

  // An operation with the answers its environment gives during it: the clock,
  // the number of a servant object it may create, whether foreign calls agree.
  datatype Op =
    | OpConnect(name: Option<string>, connection: ObjRef, now: Timeval)
    | OpDisconnect(name: Option<string>, ck: Option<Octets>)
    | OpSubscribe(name: Option<string>, connection: ObjRef, now: Timeval, servant: nat, channelAccepts: bool)
    | OpUnsubscribe(name: Option<string>, ck: Option<Octets>)
    | OpConnectConsumer(name: Option<string>, connection: ObjRef, servant: nat, channelAccepts: bool)
    | OpDisconnectConsumer(name: Option<string>)
    | OpConfigurationComplete
    | OpRemove(executorAgrees: bool)
    | OpDeclareFacet(port: string, repId: string, refMade: bool)
    | OpDeclareConsumer(port: string, repId: string, refMade: bool)
    | OpDeclareReceptacle(port: string, repId: string, isMultiplex: bool)
    | OpDeclareEmitter(port: string, repId: string, channelMade: bool)
    | OpDeclarePublisher(port: string, repId: string, channelMade: bool)

  // Generated code declares ports with the component's own object id.
  function Apply(c: Component, draws: nat, op: Op): Applied {
    match op
    case OpConnect(n, o, t) => Connect(c, draws, n, o, t)
    case OpDisconnect(n, k) => Disconnect(c, draws, n, k)
    case OpSubscribe(n, o, t, sv, ok) => Subscribe(c, draws, n, o, t, sv, ok)
    case OpUnsubscribe(n, k) => Unsubscribe(c, draws, n, k)
    case OpConnectConsumer(n, o, sv, ok) => ConnectConsumer(c, draws, n, o, sv, ok)
    case OpDisconnectConsumer(n) => DisconnectConsumer(c, draws, n)
    case OpConfigurationComplete => ConfigurationComplete(c, draws)
    case OpRemove(ok) => Remove(c, draws, ok)
    case OpDeclareFacet(n, r, made) => DeclareFacet(c, draws, c.oid, n, r, made)
    case OpDeclareConsumer(n, r, made) => DeclareConsumer(c, draws, c.oid, n, r, made)
    case OpDeclareReceptacle(n, r, m) => DeclareReceptacle(c, draws, n, r, m)
    case OpDeclareEmitter(n, r, ok) => DeclareEmitter(c, draws, n, r, ok)
    case OpDeclarePublisher(n, r, ok) => DeclarePublisher(c, draws, n, r, ok)
  }

  // ----- Calls an operation makes on its component's own objects -----

  // The object ids called: of the local consumer made or removed, or of the
  // ports told to remove themselves.
  function Called(c: Component, draws: nat, op: Op): set<string> {
    match op
    case OpSubscribe(n, o, t, _, _) =>
      if SubscribeNarrows(c, n, o) then {CreateOid(c.oid, n.value, Stamp(t, Drawn(draws + 1)))} else {}
    case OpUnsubscribe(n, k) =>
      if UnsubscribeCalls(c, draws, n, k) then {c.publishers[n.value].subscriptions[k.value].pushConsumer.oid} else {}
    case OpConnectConsumer(n, o, _, _) =>
      if ConnectNarrows(c, n, o) then {CreateOid(c.oid, n.value, EMITTER_CK)} else {}
    case OpDisconnectConsumer(n) =>
      if DisconnectCalls(c, draws, n) then {c.emitters[n.value].pushConsumer.oid} else {}
    case OpRemove(agrees) =>
      if !c.removed && agrees && !c.isMonolithic then PortOids(c.facets) + PortOids(c.consumers) else {}
    case _ => {}
  }

  // The component as those calls find it.
  function DuringCalls(c: Component, draws: nat, op: Op): Component {
    match op
    case OpSubscribe(n, o, t, sv, _) => if SubscribeNarrows(c, n, o) then SubscribeRaising(c, draws, n, o, t, sv).comp
      else c
    case OpUnsubscribe(n, k) => if UnsubscribeCalls(c, draws, n, k) then UnsubscribeRaising(c, draws, n, k).comp else c
    case OpConnectConsumer(n, o, sv, _) => if ConnectNarrows(c, n, o) then ConnectRaising(c, draws, n, o, sv).comp
      else c
    case OpDisconnectConsumer(n) => if DisconnectCalls(c, draws, n) then DisconnectRaising(c, draws, n).comp else c
    case _ => c
  }

  // What an operation comes to when not all of those calls are answered.
  function Raising(c: Component, draws: nat, op: Op, answers: set<string>): Applied
    requires !(Called(c, draws, op) <= answers)
  {
    match op
    case OpSubscribe(n, o, t, sv, _) => SubscribeRaising(c, draws, n, o, t, sv)
    case OpUnsubscribe(n, k) => UnsubscribeRaising(c, draws, n, k)
    case OpConnectConsumer(n, o, sv, _) => ConnectRaising(c, draws, n, o, sv)
    case OpDisconnectConsumer(n) => DisconnectRaising(c, draws, n)
    case OpRemove(_) => RemoveRaising(c, draws, answers)
  }

  // The ports such a removal told to remove themselves before it ended.
  function RaisingTold(c: Component, op: Op, answers: set<string>): set<string> {
    if !op.OpRemove? then {}
    else Told(c.facets, answers) + if Unanswered(c.facets, answers) == {} then Told(c.consumers, answers) else {}
  }
}
