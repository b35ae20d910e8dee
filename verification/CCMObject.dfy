// The component servant: its port maps changed in place, each operation
// against the function of the same name in Components.dfy.
module ComponentObjects {
  import opened Outcomes
  import opened Text
  import opened Identifiers
  import opened ObjectIds
  import opened Cookies
  import C = Components
  import opened Components

  // ----- Port descriptions -----

  datatype ConnectionDescription = ConnectionDescription(ck: Octets, objref: ObjRef)

  datatype ReceptacleDescription =
    ReceptacleDescription(name: string, typeId: string, isMultiple: bool, connections: seq<ConnectionDescription>)

  datatype PublisherDescription =
    PublisherDescription(name: string, typeId: string, consumers: seq<ConnectionDescription>)

  function CookiesOf(list: seq<ConnectionDescription>): (r: seq<Octets>)
    ensures |r| == |list| && forall i | 0 <= i < |list| :: r[i] == list[i].ck
  {
    seq(|list|, i requires 0 <= i < |list| => list[i].ck)
  }

  // The list holds the pairs of the map, each once, in cookie order.
  ghost predicate ListsInOrder(list: seq<ConnectionDescription>, m: map<Octets, ObjRef>) {
    && Ascending(CookiesOf(list))
    && Elements(CookiesOf(list)) == m.Keys
    && forall i | 0 <= i < |list| :: list[i].ck in m && list[i].objref == m[list[i].ck]
  }

  // That leaves no choice: the list is determined by the map.
  lemma ListingUnique(a: seq<ConnectionDescription>, b: seq<ConnectionDescription>, m: map<Octets, ObjRef>)
    requires ListsInOrder(a, m) && ListsInOrder(b, m)
    ensures a == b
  {
    AscendingUnique(CookiesOf(a), CookiesOf(b));
    assert |a| == |CookiesOf(a)| == |b|;
    forall i | 0 <= i < |a| ensures a[i] == b[i] {
      assert CookiesOf(a)[i] == a[i].ck && CookiesOf(b)[i] == b[i].ck;
    }
  }

  // The comparator of the cookie maps agrees: each cookie listed is less than
  // the next, and greater than none after it.
  lemma ListingOrder(list: seq<ConnectionDescription>, m: map<Octets, ObjRef>, i: nat, j: nat)
    requires ListsInOrder(list, m) && i < j < |list| && forall k | k in m :: Free(k, '\0')
    ensures CookieLess(list[i].ck, list[j].ck) == Some(true) && CookieLess(list[j].ck, list[i].ck) == Some(false)
  {
    assert CookiesOf(list)[i] == list[i].ck && CookiesOf(list)[j] == list[j].ck;
    LessAsymmetric(list[i].ck, list[j].ck);
  }

  ghost predicate DescribesReceptacle(d: ReceptacleDescription, name: string, r: Receptacle) {
    d.name == name && d.typeId == r.repId && d.isMultiple == r.isMultiplex && ListsInOrder(d.connections, r.connections)
  }

  ghost predicate DescribesPublisher(d: PublisherDescription, name: string, p: Publisher) {
    d.name == name && d.typeId == p.repId && ListsInOrder(d.consumers, Subscribers(p))
  }

  // Walking a map keyed by cookies from its first entry to its last.
  method ListEntries(m: map<Octets, ObjRef>) returns (list: seq<ConnectionDescription>)
    ensures ListsInOrder(list, m)
  {
    list := [];
    var keys := InOrder(m.Keys);
    var i := 0;
    while i < |keys|
      invariant 0 <= i <= |keys| && |list| == i
      invariant forall j | 0 <= j < i :: keys[j] in m && list[j] == ConnectionDescription(keys[j], m[keys[j]])
    {
      assert keys[i] in Elements(keys);
      list := list + [ConnectionDescription(keys[i], m[keys[i]])];
      i := i + 1;
    }
    assert CookiesOf(list) == keys;
  }

  // Asking ports to remove themselves, in name order up to the first refusal.
  method AskToRemove(ports: map<string, PortRef>, answers: set<string>) returns (answered: bool, told: set<string>)
    ensures answered <==> Unanswered(ports, answers) == {}
    ensures told == Told(ports, answers)
  {
    hide Less;
    answered, told := true, {};
    var rest := ports.Keys;
    while rest != {}
      invariant rest <= ports.Keys
      invariant forall n | n in ports && n !in rest :: ports[n].oid in answers
      invariant forall a, b | a in ports && a !in rest && b in rest :: Less(a, b)
      invariant told == set n | n in ports && n !in rest :: ports[n].oid
      decreases |rest|
    {
      var name := Least(rest);
      if ports[name].oid !in answers {
        FirstUnanswered(ports, answers, rest, name);
        return false, told;
      }
      told := told + {ports[name].oid};
      rest := rest - {name};
    }
  }

  lemma FirstUnanswered(ports: map<string, PortRef>, answers: set<string>, rest: set<string>, name: string)
    requires rest <= ports.Keys && name in rest && ports[name].oid !in answers
    requires forall b | b in rest && b != name :: Less(name, b)
    requires forall n | n in ports && n !in rest :: ports[n].oid in answers
    requires forall a, b | a in ports && a !in rest && b in rest :: Less(a, b)
    ensures Unanswered(ports, answers) != {}
    ensures Told(ports, answers) == set n | n in ports && n !in rest :: ports[n].oid
  {
    hide Less;
    var r := Unanswered(ports, answers);
    assert name in r;
    LeastUnique(name, Least(r), r);
    forall n | n in ports ensures Less(n, name) <==> n !in rest {
      if n in rest {
        if n == name { LessIrreflexive(n); } else { LessAsymmetric(name, n); }
      }
    }
  }

  class CCMObject {
    const ids: IdentifierCounter
    const oid: string
    const isMonolithic: bool
    var facets: map<string, PortRef>
    var receptacles: map<string, Receptacle>
    var consumers: map<string, PortRef>
    var emitters: map<string, Emitter>
    var publishers: map<string, Publisher>
    var configured: bool
    var removed: bool

    function State(): Component
      reads this
    {
      Component(oid, isMonolithic, facets, receptacles, consumers, emitters, publishers, configured, removed)
    }

    constructor (ids: IdentifierCounter, oid: string, isMonolithic: bool)
      ensures State() == NewComponent(oid, isMonolithic) && this.ids == ids
    {
      this.ids, this.oid, this.isMonolithic := ids, oid, isMonolithic;
      facets, receptacles, consumers, emitters, publishers := map[], map[], map[], map[], map[];
      configured, removed := false, false;
    }

    // ----- Receptacles -----

    method Connect(name: Option<string>, connection: ObjRef, now: Timeval) returns (reply: Reply)
      requires ids.Valid()
      modifies this, ids
      ensures ids.Valid()
      ensures Applied(State(), ids.draws, reply) == C.Connect(old(State()), old(ids.draws), name, connection, now)
    {
      if removed { return Failed(ObjectNotExist); }
      if name.None? { return Failed(InvalidName); }
      if connection.Nil? { return Failed(BadParam); }
      if name.value !in receptacles { return Failed(InvalidName); }
      var info := receptacles[name.value];
      if !info.isMultiplex {
        if |info.connections| > 0 { return Failed(AlreadyConnected); }
      }
      if !connection.IsA(info.repId) { return Failed(InvalidConnection); }
      var cookie := ids.CreateStamp(now);
      if cookie !in info.connections {
        info := info.(connections := info.connections[cookie := connection]);
      }
      receptacles := receptacles[name.value := info];
      if !info.isMultiplex {
        reply := GotCookie(None);
      } else {
        reply := GotCookie(Some(cookie));
      }
    }

    method Disconnect(name: Option<string>, ck: Option<Octets>) returns (reply: Reply)
      requires ids.Valid()
      modifies this
      ensures Applied(State(), ids.draws, reply) == C.Disconnect(old(State()), ids.draws, name, ck)
    {
      if removed { return Failed(ObjectNotExist); }
      if name.None? { return Failed(InvalidName); }
      if name.value !in receptacles { return Failed(InvalidName); }
      var info := receptacles[name.value];
      if info.isMultiplex {
        if ck.None? { return Failed(CookieRequired); }
        if info.connections != map[] && '\0' in ck.value { return Failed(ProcessTerminated); }
        if ck.value !in info.connections { return Failed(InvalidConnection); }
        receptacles := receptacles[name.value := info.(connections := info.connections - {ck.value})];
      } else {
        if |info.connections| == 0 { return Failed(NoConnection); }
        receptacles := receptacles[name.value := info.(connections := map[])];
      }
      reply := Done;
    }

    // ----- Publishers -----

    // narrowed: whether the reference of a consumer of its own is made and narrowed.
    method Subscribe(name: Option<string>, subscriber: ObjRef, now: Timeval, newServant: nat,
                     narrowed: bool, channelAccepts: bool)
      returns (reply: Reply)
      requires ids.Valid()
      modifies this, ids
      ensures ids.Valid()
      ensures Applied(State(), ids.draws, reply)
           == if !narrowed && SubscribeNarrows(old(State()), name, subscriber)
              then SubscribeRaising(old(State()), old(ids.draws), name, subscriber, now, newServant)
              else C.Subscribe(old(State()), old(ids.draws), name, subscriber, now, newServant, channelAccepts)
    {
      hide Stamp, CreateOid, Drawn, C.SubscribeInserted, C.SubscribeConnected;
      if removed { return Failed(ObjectNotExist); }
      if name.None? { return Failed(InvalidName); }
      if subscriber.Nil? { return Failed(BadParam); }
      if name.value !in publishers { return Failed(InvalidName); }
      if !subscriber.IsA(publishers[name.value].repId) { return Failed(InvalidConnection); }
      var cookie := ids.CreateStamp(now);
      var local := NarrowPush(subscriber) == NoPush;
      InsertSubscription(name.value, cookie, subscriber, newServant);
      if local && !narrowed { return Failed(NarrowRaised); }
      ConnectSubscription(name.value, cookie, channelAccepts);
      if channelAccepts {
        reply := GotCookie(Some(cookie));
      } else {
        reply := Failed(ChannelRefused);
      }
    }

    // The entry goes in first: narrowing the reference made next looks it up.
    method InsertSubscription(name: string, cookie: Octets, subscriber: ObjRef, newServant: nat)
      requires name in publishers
      modifies this
      ensures State() == C.SubscribeInserted(old(State()), name, cookie, subscriber, newServant)
      ensures name in publishers && cookie in publishers[name].subscriptions
    {
      var info := publishers[name];
      if cookie !in info.subscriptions {
        var entry := Subscription(subscriber, NarrowPush(subscriber), None, None);
        info := info.(subscriptions := info.subscriptions[cookie := entry]);
      }
      var entry := info.subscriptions[cookie];
      SameEntry(info.subscriptions, cookie);
      if entry.pushConsumer == NoPush {
        Overwrite(publishers[name].subscriptions, cookie, entry, entry.(servant := Some(newServant)));
        entry := entry.(servant := Some(newServant));
        info := info.(subscriptions := info.subscriptions[cookie := entry]);
      }
      publishers := publishers[name := info];
    }

    method ConnectSubscription(name: string, cookie: Octets, channelAccepts: bool)
      requires name in publishers && cookie in publishers[name].subscriptions
      modifies this
      ensures State() == C.SubscribeConnected(old(State()), name, cookie, channelAccepts)
    {
      var info := publishers[name];
      var entry := info.subscriptions[cookie];
      if entry.pushConsumer == NoPush {
        entry := entry.(pushConsumer := Local(CreateOid(oid, name, cookie)));
      }
      if channelAccepts {
        entry := entry.(proxy := Some(info.channel.next));
        info := info.(channel := info.channel.Connect(entry.pushConsumer),
                      subscriptions := info.subscriptions[cookie := entry]);
      } else {
        info := info.(subscriptions := info.subscriptions - {cookie});
      }
      publishers := publishers[name := info];
    }

    // narrowed: whether the reference of the local consumer is narrowed.
    method Unsubscribe(name: Option<string>, ck: Option<Octets>, narrowed: bool) returns (reply: Reply)
      requires ids.Valid()
      modifies this
      ensures Applied(State(), ids.draws, reply)
           == if !narrowed && UnsubscribeCalls(old(State()), ids.draws, name, ck)
              then UnsubscribeRaising(old(State()), ids.draws, name, ck)
              else C.Unsubscribe(old(State()), ids.draws, name, ck)
    {
      if removed { return Failed(ObjectNotExist); }
      if name.None? { return Failed(InvalidName); }
      if ck.None? { return Failed(BadParam); }
      if name.value !in publishers { return Failed(InvalidName); }
      var info := publishers[name.value];
      if info.subscriptions != map[] && '\0' in ck.value { return Failed(ProcessTerminated); }
      if ck.value !in info.subscriptions { return Failed(InvalidConnection); }
      var entry := info.subscriptions[ck.value];
      if entry.proxy.None? { return Failed(NilReference); }
      if entry.proxy.value !in info.channel.connected { return Failed(ObjectNotExist); }
      info := info.(channel := info.channel.Disconnect(entry.proxy.value));
      publishers := publishers[name.value := info];
      if entry.pushConsumer.Local? && !narrowed { return Failed(NarrowRaised); }
      info := info.(subscriptions := info.subscriptions - {ck.value});
      publishers := publishers[name.value := info];
      reply := Done;
    }

    // ----- Emitters -----

    method ConnectConsumer(name: Option<string>, consumer: ObjRef, newServant: nat,
                           narrowed: bool, channelAccepts: bool)
      returns (reply: Reply)
      requires ids.Valid()
      modifies this
      ensures Applied(State(), ids.draws, reply)
           == if !narrowed && ConnectNarrows(old(State()), name, consumer)
              then ConnectRaising(old(State()), ids.draws, name, consumer, newServant)
              else C.ConnectConsumer(old(State()), ids.draws, name, consumer, newServant, channelAccepts)
    {
      if removed { return Failed(ObjectNotExist); }
      if name.None? { return Failed(InvalidName); }
      if consumer.Nil? { return Failed(BadParam); }
      if name.value !in emitters { return Failed(InvalidName); }
      var info := emitters[name.value];
      if !consumer.IsA(info.repId) { return Failed(InvalidConnection); }
      if !info.consumer.Nil? { return Failed(AlreadyConnected); }
      info := info.(consumer := consumer, pushConsumer := NarrowPush(consumer));
      if info.pushConsumer == NoPush {
        info := info.(servant := Some(newServant));
        if !narrowed {
          emitters := emitters[name.value := info];
          return Failed(NarrowRaised);
        }
        info := info.(pushConsumer := Local(CreateOid(oid, name.value, EMITTER_CK)));
      }
      emitters := emitters[name.value := info];
      if !channelAccepts { return Failed(ChannelRefused); }
      info := info.(proxy := Some(info.channel.next), channel := info.channel.Connect(info.pushConsumer));
      emitters := emitters[name.value := info];
      reply := Done;
    }

    method DisconnectConsumer(name: Option<string>, narrowed: bool) returns (reply: Reply)
      requires ids.Valid()
      modifies this
      ensures Applied(State(), ids.draws, reply)
           == if !narrowed && DisconnectCalls(old(State()), ids.draws, name)
              then DisconnectRaising(old(State()), ids.draws, name)
              else C.DisconnectConsumer(old(State()), ids.draws, name)
    {
      if removed { return Failed(ObjectNotExist); }
      if name.None? { return Failed(InvalidName); }
      if name.value !in emitters { return Failed(InvalidName); }
      var info := emitters[name.value];
      if info.consumer.Nil? { return Failed(NoConnection); }
      if info.proxy.None? { return Failed(NilReference); }
      if info.proxy.value !in info.channel.connected { return Failed(ObjectNotExist); }
      var local := info.pushConsumer.Local?;
      info := info.(channel := info.channel.Disconnect(info.proxy.value));
      emitters := emitters[name.value := info];
      if local && !narrowed { return Failed(NarrowRaised); }
      reply := GotConsumer(info.consumer);
      info := info.(consumer := Nil, pushConsumer := NoPush, servant := None);
      emitters := emitters[name.value := info];
    }

    // ----- Life cycle -----

    method ConfigurationComplete() returns (reply: Reply)
      requires ids.Valid()
      modifies this
      ensures Applied(State(), ids.draws, reply) == C.ConfigurationComplete(old(State()), ids.draws)
    {
      if removed { return Failed(ObjectNotExist); }
      hide IsLeast;
      var rest := receptacles.Keys;
      while rest != {}
        invariant rest <= receptacles.Keys
        invariant forall n | n in receptacles && n !in rest :: |receptacles[n].connections| != 0
        decreases |rest|
      {
        var name := Least(rest);
        if |receptacles[name].connections| == 0 {
          return Failed(InvalidConfiguration);
        }
        rest := rest - {name};
      }
      configured := true;
      reply := Done;
    }

    // told: the ports asked to remove themselves before the operation ended.
    method Remove(executorAgrees: bool, answers: set<string>) returns (reply: Reply, told: set<string>)
      requires ids.Valid()
      modifies this
      ensures Applied(State(), ids.draws, reply)
           == if RemoveRefused(old(State()), executorAgrees, answers)
              then RemoveRaising(old(State()), ids.draws, answers)
              else C.Remove(old(State()), ids.draws, executorAgrees)
      ensures told == if old(removed) || !executorAgrees || isMonolithic then {}
                      else Told(old(facets), answers)
                           + if Unanswered(old(facets), answers) == {} then Told(old(consumers), answers) else {}
    {
      told := {};
      if removed { return Failed(ObjectNotExist), told; }
      if !executorAgrees { return Failed(RemoveFailure), told; }
      var answered := true;
      hide C.Told;
      if !isMonolithic {
        answered, told := AskToRemove(facets, answers);
        if !answered { return Failed(NarrowRaised), told; }
      }
      facets := map[];
      if !isMonolithic {
        var more;
        answered, more := AskToRemove(consumers, answers);
        told := told + more;
        if !answered { return Failed(NarrowRaised), told; }
      }
      consumers := map[];
      DestroyPublisherChannels();
      DropEmitterChannels();
      removed := true;
      reply := Done;
    }

    method DestroyPublisherChannels()
      modifies this`publishers
      ensures publishers == map n | n in old(publishers) :: ChannelDestroyed(old(publishers)[n])
    {
      hide ChannelDestroyed, IsLeast;
      var rest := publishers.Keys;
      while rest != {}
        invariant publishers.Keys == old(publishers).Keys && rest <= publishers.Keys
        invariant forall n | n in publishers ::
                    publishers[n] == if n in rest then old(publishers)[n] else ChannelDestroyed(old(publishers)[n])
        decreases |rest|
      {
        var name := Least(rest);
        publishers := publishers[name := ChannelDestroyed(publishers[name])];
        rest := rest - {name};
      }
    }

    method DropEmitterChannels()
      modifies this`emitters
      ensures emitters == map n | n in old(emitters) :: ChannelDropped(old(emitters)[n])
    {
      hide ChannelDropped, IsLeast;
      var rest := emitters.Keys;
      while rest != {}
        invariant emitters.Keys == old(emitters).Keys && rest <= emitters.Keys
        invariant forall n | n in emitters ::
                    emitters[n] == if n in rest then old(emitters)[n] else ChannelDropped(old(emitters)[n])
        decreases |rest|
      {
        var name := Least(rest);
        emitters := emitters[name := ChannelDropped(emitters[name])];
        rest := rest - {name};
      }
    }

    // ----- Declaring ports -----

    method DeclareFacet(compOid: string, name: string, repId: string, refMade: bool) returns (reply: Reply)
      requires ids.Valid()
      modifies this
      ensures Applied(State(), ids.draws, reply)
           == C.DeclareFacet(old(State()), ids.draws, compOid, name, repId, refMade)
    {
      if name in facets { return Failed(AlreadyDone); }
      if !refMade { return Failed(InternalError); }
      var ref := compOid;
      if !isMonolithic { ref := CreateOid(compOid, name, ""); }
      ref := CString(ref);
      facets := facets[name := PortRef(repId, ref)];
      reply := GotOid(ref);
    }

    method DeclareConsumer(compOid: string, name: string, repId: string, refMade: bool) returns (reply: Reply)
      requires ids.Valid()
      modifies this
      ensures Applied(State(), ids.draws, reply)
           == C.DeclareConsumer(old(State()), ids.draws, compOid, name, repId, refMade)
    {
      if name in consumers { return Failed(AlreadyDone); }
      if !refMade { return Failed(InternalError); }
      var ref := compOid;
      if !isMonolithic { ref := CreateOid(compOid, name, ""); }
      ref := CString(ref);
      consumers := consumers[name := PortRef(repId, ref)];
      reply := GotOid(ref);
    }

    method DeclareReceptacle(name: string, repId: string, isMultiplex: bool) returns (reply: Reply)
      requires ids.Valid()
      modifies this
      ensures Applied(State(), ids.draws, reply)
           == C.DeclareReceptacle(old(State()), ids.draws, name, repId, isMultiplex)
    {
      if name in receptacles { return Failed(AlreadyDone); }
      receptacles := receptacles[name := Receptacle(repId, isMultiplex, map[])];
      reply := Done;
    }

    method DeclareEmitter(name: string, repId: string, channelMade: bool) returns (reply: Reply)
      requires ids.Valid()
      modifies this
      ensures Applied(State(), ids.draws, reply) == C.DeclareEmitter(old(State()), ids.draws, name, repId, channelMade)
    {
      if removed { return Failed(ObjectNotExist); }
      if name in emitters { return Failed(AlreadyDone); }
      if !channelMade { return Failed(Internal); }
      emitters := emitters[name := Emitter(repId, NEW_CHANNEL, Nil, NoPush, None, None)];
      reply := Done;
    }

    method DeclarePublisher(name: string, repId: string, channelMade: bool) returns (reply: Reply)
      requires ids.Valid()
      modifies this
      ensures Applied(State(), ids.draws, reply)
           == C.DeclarePublisher(old(State()), ids.draws, name, repId, channelMade)
    {
      if removed { return Failed(ObjectNotExist); }
      if name in publishers { return Failed(AlreadyDone); }
      if !channelMade { return Failed(Internal); }
      publishers := publishers[name := Publisher(repId, NEW_CHANNEL, map[])];
      reply := Done;
    }

    // ----- Looking up and listing -----

    method GetLocalPushConsumerServant(source: string, ckValue: string) returns (r: Result<nat, Error>)
      ensures r == LocalPushConsumer(State(), source, ckValue)
    {
      if removed { return Raised(ObjectNotExist); }
      if ckValue != EMITTER_CK {
        if source !in publishers { return Raised(ObjectNotExist); }
        var info := publishers[source];
        var ck := StringToOctets(ckValue);
        if ck !in info.subscriptions { return Raised(ObjectNotExist); }
        var entry := info.subscriptions[ck];
        if entry.servant.None? { return Raised(ObjectNotExist); }
        return Ok(entry.servant.value);
      } else {
        if source !in emitters { return Raised(ObjectNotExist); }
        var info := emitters[source];
        if info.servant.None? { return Raised(ObjectNotExist); }
        return Ok(info.servant.value);
      }
    }

    method GetNamedReceptacles(names: seq<string>) returns (r: Result<seq<ReceptacleDescription>, Error>)
      ensures removed ==> r == Raised(ObjectNotExist)
      ensures !removed ==> (r == Raised(InvalidName) <==> exists i :: 0 <= i < |names| && names[i] !in receptacles)
      ensures !removed && r != Raised(InvalidName) ==>
                r.Ok? && |r.value| == |names|
                && forall i | 0 <= i < |names| ::
                    names[i] in receptacles && DescribesReceptacle(r.value[i], names[i], receptacles[names[i]])
    {
      if removed { return Raised(ObjectNotExist); }
      var desc := [];
      var i := 0;
      while i < |names|
        invariant 0 <= i <= |names| && |desc| == i
        invariant forall j | 0 <= j < i ::
            names[j] in receptacles && DescribesReceptacle(desc[j], names[j], receptacles[names[j]])
      {
        if names[i] !in receptacles { return Raised(InvalidName); }
        var info := receptacles[names[i]];
        var connections := ListEntries(info.connections);
        desc := desc + [ReceptacleDescription(names[i], info.repId, info.isMultiplex, connections)];
        i := i + 1;
      }
      r := Ok(desc);
    }

    // Every receptacle once, in name order; the branch that would answer
    // INTERNAL is never taken.
    method GetAllReceptacles() returns (r: Result<seq<ReceptacleDescription>, Error>)
      ensures removed ==> r == Raised(ObjectNotExist)
      ensures !removed ==> var keys := InOrder(receptacles.Keys);
                r.Ok? && |r.value| == |keys|
                && forall i | 0 <= i < |keys| ::
                    keys[i] in receptacles && DescribesReceptacle(r.value[i], keys[i], receptacles[keys[i]])
    {
      if removed { return Raised(ObjectNotExist); }
      var names := InOrder(receptacles.Keys);
      assert forall i | 0 <= i < |names| :: names[i] in Elements(names);
      r := GetNamedReceptacles(names);
      if r == Raised(InvalidName) {
        r := Raised(Internal);
      }
    }

    method GetConnections(name: Option<string>) returns (r: Result<seq<ConnectionDescription>, Error>)
      ensures removed ==> r == Raised(ObjectNotExist)
      ensures !removed ==> (r == Raised(InvalidName) <==> name.None? || name.value !in receptacles)
      ensures !removed && r != Raised(InvalidName) ==>
        r.Ok? && ListsInOrder(r.value, receptacles[name.value].connections)
    {
      if removed { return Raised(ObjectNotExist); }
      if name.None? { return Raised(InvalidName); }
      var d := GetNamedReceptacles([name.value]);
      assert [name.value][0] == name.value;
      match d {
        case Ok(desc) => r := Ok(desc[0].connections);
        case Raised(e) => r := Raised(e);
      }
    }

    method GetNamedPublishers(names: seq<string>) returns (r: Result<seq<PublisherDescription>, Error>)
      ensures removed ==> r == Raised(ObjectNotExist)
      ensures !removed ==> (r == Raised(InvalidName) <==> exists i :: 0 <= i < |names| && names[i] !in publishers)
      ensures !removed && r != Raised(InvalidName) ==>
                r.Ok? && |r.value| == |names|
                && forall i | 0 <= i < |names| ::
                    names[i] in publishers && DescribesPublisher(r.value[i], names[i], publishers[names[i]])
    {
      if removed { return Raised(ObjectNotExist); }
      var desc := [];
      var i := 0;
      while i < |names|
        invariant 0 <= i <= |names| && |desc| == i
        invariant forall j | 0 <= j < i ::
            names[j] in publishers && DescribesPublisher(desc[j], names[j], publishers[names[j]])
      {
        if names[i] !in publishers { return Raised(InvalidName); }
        var info := publishers[names[i]];
        var subscribers := ListEntries(Subscribers(info));
        desc := desc + [PublisherDescription(names[i], info.repId, subscribers)];
        i := i + 1;
      }
      r := Ok(desc);
    }

    method GetAllPublishers() returns (r: Result<seq<PublisherDescription>, Error>)
      ensures removed ==> r == Raised(ObjectNotExist)
      ensures !removed ==> var keys := InOrder(publishers.Keys);
                r.Ok? && |r.value| == |keys|
                && forall i | 0 <= i < |keys| ::
                    keys[i] in publishers && DescribesPublisher(r.value[i], keys[i], publishers[keys[i]])
    {
      if removed { return Raised(ObjectNotExist); }
      var names := InOrder(publishers.Keys);
      assert forall i | 0 <= i < |names| :: names[i] in Elements(names);
      r := GetNamedPublishers(names);
      if r == Raised(InvalidName) {
        r := Raised(Internal);
      }
    }
  }
}
