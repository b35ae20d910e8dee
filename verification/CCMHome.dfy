// The home servant, plain or fault tolerant: its component map and group map
// changed in place, with references to the component servants of
// CCMObject.dfy as handles.
module HomeObjects {
  import opened Outcomes
  import opened Identifiers
  import opened ObjectIds
  import opened Components
  import opened ComponentObjects
  import H = Homes
  import opened Homes

  class CCMHome {
    const ids: IdentifierCounter
    const faultTolerant: bool
    var removed: bool
    var components: map<string, ComponentInfo<CCMObject>>
    var compGroups: map<string, nat>

    ghost function Servants(): set<CCMObject>
      reads this
    {
      set c | c in components && components[c].servant.Some? :: components[c].servant.value
    }

    // The component servants the home knows, each with its present state.
    ghost function Heap(): (heap: map<CCMObject, Component>)
      reads this, Servants()
      ensures Covers(components, heap)
    {
      map o | o in Servants() :: o.State()
    }

    constructor (ids: IdentifierCounter, faultTolerant: bool)
      ensures this.ids == ids && this.faultTolerant == faultTolerant
      ensures !removed && components == map[] && compGroups == map[]
    {
      this.ids, this.faultTolerant := ids, faultTolerant;
      removed, components, compGroups := false, map[], map[];
    }

    // create_component_ref of either kind of home; group is the reference
    // found in the configuration values, refMade whether the adapter made
    // the component reference.
    method CreateComponentRef(now: Timeval, group: Option<nat>, refMade: bool) returns (r: Result<string, Error>)
      requires ids.Valid()
      modifies this, ids
      ensures ids.Valid() && removed == old(removed)
      ensures r.Raised? ==> components == old(components) && compGroups == old(compGroups)
      ensures removed || (faultTolerant && group.None?) ==>
                r == Raised(if removed then ObjectNotExist else CreateFailure) && ids.draws == old(ids.draws)
      ensures !removed && (faultTolerant ==> group.Some?) ==>
                var oid := Stamp(now, Drawn(old(ids.draws) + 1));
                && ids.draws == old(ids.draws) + 1
                && r == (if refMade then Ok(oid) else Raised(Internal))
                && (refMade ==> components == Insert(old(components), oid, ComponentInfo(None)))
                && (refMade ==> compGroups == if faultTolerant then Insert(old(compGroups), oid, group.value)
                  else old(compGroups))
    {
      if removed { return Raised(ObjectNotExist); }
      if faultTolerant && group.None? { return Raised(CreateFailure); }
      var oid := ids.CreateStamp(now);
      if !refMade { return Raised(Internal); }
      if oid !in components {
        components := components[oid := ComponentInfo(None)];
      }
      if faultTolerant && oid !in compGroups {
        compGroups := compGroups[oid := group.value];
      }
      r := Ok(oid);
    }

    // create_component_servant is generated code; servantMade tells whether
    // it succeeds.
    method LookupServant(oid: string, isMonolithic: bool, servantMade: bool)
      returns (r: Result<Servant<CCMObject>, Error>)
      modifies this
      ensures removed == old(removed) && compGroups == old(compGroups)
      ensures match H.LookupServant(old(removed), old(components), old(Heap()), oid)
              case Refused(e) => r == Raised(e) && components == old(components)
              case Found(servant) => r == Ok(servant) && components == old(components)
              case Create(comp) =>
                if servantMade then
                  && r.Ok? && r.value.ComponentServant? && fresh(r.value.h)
                  && r.value.h.State() == NewComponent(comp, isMonolithic) && r.value.h.ids == ids
                  && components == old(components)[comp := ComponentInfo(Some(r.value.h))]
                else r == Raised(ObjectNotExist) && components == old(components)
    {
      if removed { return Raised(ObjectNotExist); }
      if '\0' in oid { return Raised(ObjectNotExist); }
      var names := ReadOid(oid);
      var comp := names[0];
      if comp !in components { return Raised(ObjectNotExist); }
      var servant := components[comp].servant;
      if servant.Some? {
        assert servant.value in Servants();
        if servant.value.removed { return Raised(ObjectNotExist); }
      }
      match |names| {
        case 1 =>
          if !servantMade { return Raised(ObjectNotExist); }
          var made := new CCMObject(ids, comp, isMonolithic);
          components := components[comp := ComponentInfo(Some(made))];
          return Ok(ComponentServant(made));
        case 2 =>
          if servant.None? { return Raised(AssertionFailed); }
          if names[1] in servant.value.facets || names[1] in servant.value.consumers {
            return Ok(PortServant(servant.value, names[1]));
          }
          return Raised(ObjectNotExist);
        case 3 =>
          if servant.None? { return Raised(AssertionFailed); }
          var found := servant.value.GetLocalPushConsumerServant(names[1], names[2]);
          match found {
            case Ok(id) => return Ok(PushServant(id));
            case Raised(e) => return Raised(e);
          }
        case _ =>
          return Raised(Internal);
      }
    }

    method ReleaseServant(oid: string, servant: Servant<CCMObject>) returns (r: Result<(), Error>)
      modifies this
      ensures removed == old(removed)
      ensures var heap := if servant.ComponentServant? then map[servant.h := servant.h.State()] else map[];
              match H.ReleaseServant(old(components).Keys, heap, oid, servant)
              case NotReleased(e) => r == Raised(e) && components == old(components) && compGroups == old(compGroups)
              case Dropped => r == Ok(()) && components == old(components) && compGroups == old(compGroups)
              case DroppedLast(comp) =>
                && r == Ok(()) && components == old(components) - {comp}
                && compGroups == if faultTolerant then old(compGroups) - {comp} else old(compGroups)
    {
      if '\0' in oid { return Raised(ObjectNotExist); }
      var names := ReadOid(oid);
      var comp := names[0];
      if comp !in components { return Raised(ObjectNotExist); }
      match |names| {
        case 1 =>
          if !servant.ComponentServant? { return Raised(AssertionFailed); }
          if servant.h.removed {
            DeleteComponentInfo(comp);
          }
        case 2 =>
        case 3 =>
        case _ =>
          return Raised(Internal);
      }
      r := Ok(());
    }

    // The fault-tolerant home overrides this to forget the group first.
    method DeleteComponentInfo(comp: string)
      modifies this
      ensures removed == old(removed) && components == old(components) - {comp}
      ensures compGroups == if faultTolerant then old(compGroups) - {comp} else old(compGroups)
    {
      if faultTolerant {
        compGroups := compGroups - {comp};
      }
      components := components - {comp};
    }

    method FindComponentGroup(comp: string) returns (r: Result<nat, Error>)
      ensures r == if comp in compGroups then Ok(compGroups[comp]) else Raised(ObjectNotExist)
    {
      if comp !in compGroups { return Raised(ObjectNotExist); }
      r := Ok(compGroups[comp]);
    }

    // What removing the home does after it has asked each component to remove
    // itself; those calls are requests of their own.
    method ClearForRemoval() returns (r: Result<(), Error>)
      modifies this
      ensures r == if old(removed) then Raised(ObjectNotExist) else Ok(())
      ensures removed && compGroups == old(compGroups)
      ensures components == if old(removed) then old(components) else map[]
    {
      if removed { return Raised(ObjectNotExist); }
      components := map[];
      removed := true;
      r := Ok(());
    }
  }
}
