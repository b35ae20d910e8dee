// Which answer a client gets from a component, exactly: each error of each
// operation has its one condition, whatever the order of the checks.
module PortAnswers {
  import opened Outcomes
  import opened Text
  import opened Identifiers
  import opened ObjectIds
  import opened Cookies
  import opened Components
  import opened PortInvariants

  // The port named, if it is declared.
  predicate Declared<V>(name: Option<string>, ports: map<string, V>) {
    name.Some? && name.value in ports
  }

  // Can a receptacle take one more connection?
  predicate Full(r: Receptacle) {
    !r.isMultiplex && r.connections != map[]
  }

  lemma Emptiness<K, V>(m: map<K, V>)
    ensures |m| == 0 <==> m == map[]
  {
    assert m.Keys == {} ==> m == map[];
  }

  // A connection is refused over the name before the object, over the object
  // before the room for it, and over the room before its interface; a cookie
  // is given out exactly by a multiplex receptacle.
  lemma ConnectAnswers(c: Component, draws: nat, name: Option<string>, o: ObjRef, now: Timeval)
    ensures var r := Connect(c, draws, name, o, now).reply;
            var fits := !c.removed && Declared(name, c.receptacles) && o.Ref?;
            && (r.GotCookie? || r.Failed?)
            && (r == Failed(ObjectNotExist) <==> c.removed)
            && (r == Failed(InvalidName) <==> !c.removed && !Declared(name, c.receptacles) && (name.None? || o.Ref?))
            && (r == Failed(BadParam) <==> !c.removed && name.Some? && o.Nil?)
            && (r == Failed(AlreadyConnected) <==> fits && Full(c.receptacles[name.value]))
            && (r == Failed(InvalidConnection) <==>
                  fits && !Full(c.receptacles[name.value]) && c.receptacles[name.value].repId !in o.types)
            && (r.GotCookie? <==>
                  fits && !Full(c.receptacles[name.value]) && c.receptacles[name.value].repId in o.types)
            && (r.GotCookie? ==> (r.ck.Some? <==> c.receptacles[name.value].isMultiplex))
  {
    hide Stamp;
    if Declared(name, c.receptacles) { Emptiness(c.receptacles[name.value].connections); }
  }

  lemma DisconnectAnswers(c: Component, draws: nat, name: Option<string>, ck: Option<Octets>)
    ensures var r := Disconnect(c, draws, name, ck).reply;
            var known := !c.removed && Declared(name, c.receptacles);
            var many := known && c.receptacles[name.value].isMultiplex;
            && (r == Done || r.Failed?)
            && (r == Failed(ObjectNotExist) <==> c.removed)
            && (r == Failed(InvalidName) <==> !c.removed && !Declared(name, c.receptacles))
            && (r == Failed(CookieRequired) <==> many && ck.None?)
            && (r == Failed(ProcessTerminated) <==>
                  many && ck.Some? && '\0' in ck.value && c.receptacles[name.value].connections != map[])
            && (r == Failed(InvalidConnection) <==>
                  many && ck.Some? && ck.value !in c.receptacles[name.value].connections
                    && ('\0' in ck.value ==> c.receptacles[name.value].connections == map[]))
            && (r == Failed(NoConnection) <==> known && !many && c.receptacles[name.value].connections == map[])
            && (r == Done <==>
                  known && var m := c.receptacles[name.value].connections;
                           if many then ck.Some? && '\0' !in ck.value && ck.value in m else m != map[])
  {
    if Declared(name, c.receptacles) { Emptiness(c.receptacles[name.value].connections); }
  }

  lemma SubscribeAnswers(c: Component, draws: nat, name: Option<string>, o: ObjRef, now: Timeval, servant: nat,
                         accepts: bool)
    ensures var r := Subscribe(c, draws, name, o, now, servant, accepts).reply;
            var fits := !c.removed && Declared(name, c.publishers) && o.Ref?;
            && (r.GotCookie? || r.Failed?)
            && (r == Failed(ObjectNotExist) <==> c.removed)
            && (r == Failed(InvalidName) <==> !c.removed && !Declared(name, c.publishers) && (name.None? || o.Ref?))
            && (r == Failed(BadParam) <==> !c.removed && name.Some? && o.Nil?)
            && (r == Failed(InvalidConnection) <==> fits && c.publishers[name.value].repId !in o.types)
            && (r == Failed(ChannelRefused) <==> fits && c.publishers[name.value].repId in o.types && !accepts)
            && (r.GotCookie? <==> fits && c.publishers[name.value].repId in o.types && accepts)
            && (r.GotCookie? ==> r.ck.Some?)
  {
    hide Stamp, SubscribeInserted, SubscribeConnected;
  }

  lemma UnsubscribeAnswers(c: Component, draws: nat, name: Option<string>, ck: Option<Octets>)
    requires ComponentOk(c, draws, true)
    ensures var r := Unsubscribe(c, draws, name, ck).reply;
            var known := !c.removed && Declared(name, c.publishers) && ck.Some?;
            && (r == Done || r.Failed?)
            && (r == Failed(ObjectNotExist) <==> c.removed)
            && (r == Failed(InvalidName) <==> !c.removed && !Declared(name, c.publishers) && (name.None? || ck.Some?))
            && (r == Failed(BadParam) <==> !c.removed && name.Some? && ck.None?)
            && (r == Failed(ProcessTerminated) <==>
                  known && '\0' in ck.value && c.publishers[name.value].subscriptions != map[])
            && (r == Failed(InvalidConnection) <==>
                  known && ck.value !in c.publishers[name.value].subscriptions
                    && ('\0' in ck.value ==> c.publishers[name.value].subscriptions == map[]))
            && (r == Done <==>
                  known && '\0' !in ck.value && ck.value in c.publishers[name.value].subscriptions)
  {
    hide ComponentOk, SubscriptionOk;
    if !c.removed && Declared(name, c.publishers) { PublisherAt(c, draws, name.value, true); }
  }

  lemma ConnectConsumerAnswers(c: Component, draws: nat, name: Option<string>, o: ObjRef, servant: nat, accepts: bool)
    ensures var r := ConnectConsumer(c, draws, name, o, servant, accepts).reply;
            var fits := !c.removed && Declared(name, c.emitters) && o.Ref? && c.emitters[name.value].repId in o.types;
            && (r == Done || r.Failed?)
            && (r == Failed(ObjectNotExist) <==> c.removed)
            && (r == Failed(InvalidName) <==> !c.removed && !Declared(name, c.emitters) && (name.None? || o.Ref?))
            && (r == Failed(BadParam) <==> !c.removed && name.Some? && o.Nil?)
            && (r == Failed(InvalidConnection) <==>
                  !c.removed && Declared(name, c.emitters) && o.Ref? && c.emitters[name.value].repId !in o.types)
            && (r == Failed(AlreadyConnected) <==> fits && c.emitters[name.value].consumer.Ref?)
            && (r == Failed(ChannelRefused) <==> fits && c.emitters[name.value].consumer.Nil? && !accepts)
            && (r == Done <==> fits && c.emitters[name.value].consumer.Nil? && accepts)
  {
    hide CreateOid;
  }

  // A consumer given back is the one connected.
  lemma DisconnectConsumerAnswers(c: Component, draws: nat, name: Option<string>)
    requires ComponentOk(c, draws, true)
    ensures var r := DisconnectConsumer(c, draws, name).reply;
            var known := !c.removed && Declared(name, c.emitters);
            && (r == Failed(ObjectNotExist) <==>
                  c.removed || (known && c.emitters[name.value].consumer.Ref? && c.emitters[name.value].proxy.Some?
                                && !EmitterAgrees(c.emitters[name.value])))
            && (r == Failed(InvalidName) <==> !c.removed && !Declared(name, c.emitters))
            && (r == Failed(NoConnection) <==> known && c.emitters[name.value].consumer.Nil?)
            && (r == Failed(NilReference) <==>
                  known && c.emitters[name.value].consumer.Ref? && c.emitters[name.value].proxy.None?)
            && (r.GotConsumer? <==>
                  known && c.emitters[name.value].consumer.Ref? && EmitterAgrees(c.emitters[name.value]))
            && (r.GotConsumer? ==> r.consumer == c.emitters[name.value].consumer)
  {
    hide ComponentOk, CreateOid;
    if !c.removed && Declared(name, c.emitters) {
      EmitterAt(c, draws, name.value, true);
      var e := c.emitters[name.value];
      if e.proxy.Some? && e.proxy.value in e.channel.connected {
        assert e.channel.connected.Keys == {e.proxy.value};
        assert e.channel.connected == map[e.proxy.value := e.pushConsumer];
      }
    }
  }

  // ----- Removal and declarations -----

  // A removal that is done pushes no event and keeps no channel. Nobody is left
  // in the channel of a publisher, which is destroyed; that of an emitter keeps
  // its connections, and whoever was subscribed or connected stays recorded.
  lemma RemoveMeans(c: Component, draws: nat, agrees: bool)
    ensures var a := Remove(c, draws, agrees);
            && (a.reply == Failed(ObjectNotExist) <==> c.removed)
            && (a.reply == Failed(RemoveFailure) <==> !c.removed && !agrees)
            && (a.reply == Done <==> !c.removed && agrees)
            && (a.reply == Done ==>
                  && a.comp.removed && a.comp.facets == map[] && a.comp.consumers == map[]
                  && (forall n | n in c.publishers ::
                        var p := a.comp.publishers[n];
                        !p.channel.alive && !p.channel.pushing && p.channel.connected == map[]
                          && p.subscriptions == c.publishers[n].subscriptions)
                  && (forall n | n in c.emitters ::
                        var e := a.comp.emitters[n];
                        !e.channel.alive && !e.channel.pushing && e.channel.connected == c.emitters[n].channel.connected
                          && e.consumer == c.emitters[n].consumer))
  {
  }

  // A port that is declared is new, has the interface it was declared with,
  // and nobody is connected to it.
  lemma DeclareMeans(c: Component, draws: nat, op: Op)
    ensures var a := Apply(c, draws, op);
      match op
      case OpDeclareReceptacle(n, t, multiple) =>
        && (a.reply == Done <==> n !in c.receptacles) && (a.reply != Done <==> a.reply == Failed(AlreadyDone))
        && (a.reply == Done ==>
              n in a.comp.receptacles && a.comp.receptacles[n].isMultiplex == multiple
              && a.comp.receptacles[n].repId == t && a.comp.receptacles[n].connections == map[])
      case OpDeclareEmitter(n, t, made) =>
        && (a.reply == Failed(ObjectNotExist) <==> c.removed)
        && (a.reply == Failed(AlreadyDone) <==> !c.removed && n in c.emitters)
        && (a.reply == Failed(Internal) <==> !c.removed && n !in c.emitters && !made)
        && (a.reply == Done <==> !c.removed && n !in c.emitters && made)
        && (a.reply == Done ==>
              n in a.comp.emitters && a.comp.emitters[n].repId == t
              && a.comp.emitters[n].consumer == Nil && a.comp.emitters[n].channel.connected == map[]
              && a.comp.emitters[n].channel.alive && a.comp.emitters[n].channel.pushing)
      case OpDeclarePublisher(n, t, made) =>
        && (a.reply == Failed(ObjectNotExist) <==> c.removed)
        && (a.reply == Failed(AlreadyDone) <==> !c.removed && n in c.publishers)
        && (a.reply == Failed(Internal) <==> !c.removed && n !in c.publishers && !made)
        && (a.reply == Done <==> !c.removed && n !in c.publishers && made)
        && (a.reply == Done ==>
              n in a.comp.publishers && a.comp.publishers[n].repId == t
              && a.comp.publishers[n].subscriptions == map[] && a.comp.publishers[n].channel.connected == map[]
              && a.comp.publishers[n].channel.alive && a.comp.publishers[n].channel.pushing)
      case OpDeclareFacet(n, t, made) =>
        && (a.reply == Failed(AlreadyDone) <==> n in c.facets)
        && (a.reply == Failed(InternalError) <==> n !in c.facets && !made)
        && (a.reply.GotOid? <==> n !in c.facets && made)
      case OpDeclareConsumer(n, t, made) =>
        && (a.reply == Failed(AlreadyDone) <==> n in c.consumers)
        && (a.reply == Failed(InternalError) <==> n !in c.consumers && !made)
        && (a.reply.GotOid? <==> n !in c.consumers && made)
      case _ => true
  {
    hide Connect, Disconnect, Subscribe, Unsubscribe, ConnectConsumer, DisconnectConsumer, Remove, CreateOid;
  }

  lemma ConfigurationMeans(c: Component, draws: nat)
    ensures var a := ConfigurationComplete(c, draws);
            && (a.reply == Failed(ObjectNotExist) <==> c.removed)
            && (a.reply == Done <==>
                  !c.removed && forall n | n in c.receptacles :: c.receptacles[n].connections != map[])
            && (a.reply == Done || a.reply == Failed(ObjectNotExist) || a.reply == Failed(InvalidConfiguration))
            && (a.comp.configured <==> c.configured || a.reply == Done)
  {
    forall n | n in c.receptacles
      ensures |c.receptacles[n].connections| == 0 <==> c.receptacles[n].connections == map[]
    {
      Emptiness(c.receptacles[n].connections);
    }
  }

  // ----- A removal that is cut short -----

  // Is the port told to remove itself, when ports are told in name order up to
  // the first that does not answer?
  ghost predicate Reached(ports: map<string, PortRef>, answers: set<string>, n: string) {
    n in ports && forall m | m in ports && (m == n || Less(m, n)) :: ports[m].oid in answers
  }

  lemma ToldMeans(ports: map<string, PortRef>, answers: set<string>, o: string)
    ensures o in Told(ports, answers) <==> exists n :: Reached(ports, answers, n) && ports[n].oid == o
    ensures Unanswered(ports, answers) == {} <==> forall n | n in ports :: Reached(ports, answers, n)
  {
    hide Less;
    var r := Unanswered(ports, answers);
    if r != {} {
      var least := Least(r);
      forall n | n in ports ensures Less(n, least) <==> Reached(ports, answers, n) {
        LessTotal(n, least);
        if Less(n, least) {
          forall m | m in ports && (m == n || Less(m, n)) ensures ports[m].oid in answers {
            if m != n { LessTransitive(m, n, least); }
            LessAsymmetric(m, least);
          }
        }
      }
    } else {
      forall n | n in ports ensures ports[n].oid in answers {
        assert n !in r;
      }
    }
  }

  // The ports told before the first refusal: all facets up to it, and the
  // sinks only once every facet has answered.
  ghost predicate ToldFirst(c: Component, answers: set<string>, o: string) {
    || (exists n :: Reached(c.facets, answers, n) && c.facets[n].oid == o)
    || ((forall n | n in c.facets :: Reached(c.facets, answers, n))
        && exists n :: Reached(c.consumers, answers, n) && c.consumers[n].oid == o)
  }

  lemma RaisingTells(c: Component, answers: set<string>, o: string)
    ensures o in RaisingTold(c, OpRemove(true), answers) <==> ToldFirst(c, answers, o)
  {
    hide Told, Unanswered, Reached;
    ToldMeans(c.facets, answers, o);
    ToldMeans(c.consumers, answers, o);
  }

  // It forgets the facets once all of them have answered, and nothing else.
  lemma RaisingForgets(c: Component, draws: nat, answers: set<string>)
    ensures var a := RemoveRaising(c, draws, answers);
            && a.reply == Failed(NarrowRaised) && a.draws == draws && a.comp == c.(facets := a.comp.facets)
            && ((forall n | n in c.facets :: Reached(c.facets, answers, n)) ==> a.comp.facets == map[])
            && ((exists n :: n in c.facets && !Reached(c.facets, answers, n)) ==> a.comp.facets == c.facets)
  {
    hide Reached, Unanswered;
    ToldMeans(c.facets, answers, "");
  }
}
