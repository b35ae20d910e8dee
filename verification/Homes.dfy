// How a home finds and releases servants from textual object ids. H is the
// kind of handle the home keeps on component servants.
module Homes {
  import opened Outcomes
  import opened Text
  import opened ObjectIds
  import opened Cookies
  import opened Components

  datatype ComponentInfo<H> = ComponentInfo(servant: Option<H>)

  datatype Servant<H> = ComponentServant(h: H) | PortServant(h: H, port: string) | PushServant(id: nat)

  // What lookup_servant does for an object id: create a component servant and
  // return it, return a servant that exists, or raise.
  datatype Lookup<H> = Create(comp: string) | Found(servant: Servant<H>) | Refused(error: Error)

  // Are the servants the home knows among the objects that exist?
  predicate Covers<H(==)>(components: map<string, ComponentInfo<H>>, heap: map<H, Component>) {
    forall c | c in components && components[c].servant.Some? :: components[c].servant.value in heap
  }

  // get_facet_servant belongs to generated code: it knows the declared ports.
  predicate HasPort(c: Component, name: string) {
    name in c.facets || name in c.consumers
  }

  function LookupServant<H(==)>(homeRemoved: bool, components: map<string, ComponentInfo<H>>,
                                heap: map<H, Component>, oid: string): Lookup<H>
    requires Covers(components, heap)
  {
    if homeRemoved || '\0' in oid then Refused(ObjectNotExist)
    else
      var names := Split(oid, '/');
      var comp := names[0];
      if comp !in components then Refused(ObjectNotExist)
      else
        var servant := components[comp].servant;
        if servant.Some? && heap[servant.value].removed then Refused(ObjectNotExist)
        else if |names| == 1 then Create(comp)
        else if |names| > 3 then Refused(Internal)
        else if servant.None? then Refused(AssertionFailed)
        else if |names| == 2 then
          if HasPort(heap[servant.value], names[1]) then Found(PortServant(servant.value, names[1]))
          else Refused(ObjectNotExist)
        else
          match LocalPushConsumer(heap[servant.value], names[1], names[2])
          case Ok(id) => Found(PushServant(id))
          case Raised(e) => Refused(e)
  }

  // What release_servant does: drop the adapter's reference, forget the
  // component as well when it was removed, or raise.
  datatype Release = Dropped | DroppedLast(comp: string) | NotReleased(error: Error)

  function ReleaseServant<H(==)>(known: set<string>, heap: map<H, Component>, oid: string, servant: Servant<H>): Release
    requires servant.ComponentServant? ==> servant.h in heap
  {
    if '\0' in oid then NotReleased(ObjectNotExist)
    else
      var names := Split(oid, '/');
      if names[0] !in known then NotReleased(ObjectNotExist)
      else if |names| > 3 then NotReleased(Internal)
      else if |names| > 1 then Dropped
      else if !servant.ComponentServant? then NotReleased(AssertionFailed)
      else if heap[servant.h].removed then DroppedLast(names[0])
      else Dropped
  }

  // ----- Which servant a local push consumer's place holds -----

  ghost predicate Holds(c: Component, source: string, ck: string, servant: nat) {
    if ck == EMITTER_CK then source in c.emitters && c.emitters[source].servant == Some(servant)
    else
      && source in c.publishers && ck in c.publishers[source].subscriptions
      && c.publishers[source].subscriptions[ck].servant == Some(servant)
  }

  lemma LocalPushConsumerHolds(c: Component, source: string, ck: string, servant: nat)
    requires !c.removed && Free(ck, '\0')
    ensures LocalPushConsumer(c, source, ck) == Ok(servant) <==> Holds(c, source, ck, servant)
  {
    assert StringToOctets(ck) == ck;
  }

  // Decoding the object id of a port of a component the home serves.
  lemma LookupLocal<H>(components: map<string, ComponentInfo<H>>, heap: map<H, Component>,
                    comp: string, h: H, source: string, ck: string, servant: nat)
    requires Covers(components, heap) && comp in components && components[comp].servant == Some(h) && !heap[h].removed
    requires Free(comp, '/') && Free(source, '/') && Free(ck, '/') && ck != ""
    requires Free(comp, '\0') && Free(source, '\0') && Free(ck, '\0')
    requires Holds(heap[h], source, ck, servant)
    ensures LookupServant(false, components, heap, CreateOid(comp, source, ck)) == Found(PushServant(servant))
  {
    hide Holds, Split, LocalPushConsumer, CreateOid;
    ReadCreateLocal(comp, source, ck);
    JoinedFree(comp, source, ck, '\0');
    LocalPushConsumerHolds(heap[h], source, ck, servant);
  }
}
