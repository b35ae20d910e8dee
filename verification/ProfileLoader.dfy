// Loading event channel profiles from the configuration document, and the
// manager that keeps them.
module ProfileLoader {
  import opened Outcomes
  import opened Text
  import opened Profiles

  // A document node as the loader sees it. Indentation between elements makes
  // text nodes; comments are Other.
  datatype Node = Element(name: string, children: seq<Node>) | TextNode(value: string) | Other

  // NullNode: the type of the missing first child of an element is asked for.
  datatype LoadError = ProfileNotFound | NameNotFound | NoTextValue | NullNode

  // ----- Searching a child list -----

  function ElementsOf(children: seq<Node>): seq<Node> {
    if children == [] then []
    else if children[0].Element? then [children[0]] + ElementsOf(children[1..])
    else ElementsOf(children[1..])
  }

  // The first element child with a name, with the siblings after it.
  function FromFirst(children: seq<Node>, name: string): seq<Node> {
    if children == [] then []
    else if children[0].Element? && children[0].name == name then children
    else FromFirst(children[1..], name)
  }

  function FirstNamed(children: seq<Node>, name: string): Option<Node> {
    var rest := FromFirst(children, name);
    if rest == [] then None else Some(rest[0])
  }

  lemma {:induction false} ElementsConcat(a: seq<Node>, b: seq<Node>)
    ensures ElementsOf(a + b) == ElementsOf(a) + ElementsOf(b)
    decreases |a|
  {
    if a == [] {
      assert a + b == b;
    } else {
      assert (a + b)[1..] == a[1..] + b;
      ElementsConcat(a[1..], b);
    }
  }

  lemma ElementsStep(children: seq<Node>, i: nat)
    requires i < |children|
    ensures ElementsOf(children[..i + 1])
         == ElementsOf(children[..i]) + (if children[i].Element? then [children[i]] else [])
    ensures |ElementsOf(children[..i])| <= i
    ensures ElementsOf(children) == ElementsOf(children[..i]) + ElementsOf(children[i..])
  {
    assert children[..i + 1] == children[..i] + [children[i]];
    ElementsConcat(children[..i], [children[i]]);
    assert children == children[..i] + children[i..];
    ElementsConcat(children[..i], children[i..]);
    ElementsBound(children[..i]);
  }

  lemma {:induction false} ElementsBound(children: seq<Node>)
    ensures |ElementsOf(children)| <= |children|
    ensures forall i | 0 <= i < |ElementsOf(children)| :: ElementsOf(children)[i].Element?
    decreases |children|
  {
    if children != [] {
      ElementsBound(children[1..]);
    }
  }

  // findNode returns the first element child of that name; the position is
  // kept so that its siblings can be walked.
  method FindNode(children: seq<Node>, element: string) returns (found: Option<Node>, at: nat)
    ensures found == FirstNamed(children, element)
    ensures at <= |children| && children[at..] == FromFirst(children, element)
  {
    found, at := None, |children|;
    var i := 0;
    while i < |children|
      invariant 0 <= i <= |children| && found.None? && at == |children|
      invariant FromFirst(children, element) == FromFirst(children[i..], element)
    {
      var node := children[i];
      if node.Element? && node.name == element {
        found, at := Some(node), i;
        break;
      }
      assert children[i..][1..] == children[i + 1..];
      i := i + 1;
    }
  }

  // The childIndex-th element child, text in between not counted.
  method GetActualChildNode(children: seq<Node>, childIndex: nat) returns (actual: Option<Node>)
    ensures actual == if childIndex < |ElementsOf(children)| then Some(ElementsOf(children)[childIndex]) else None
  {
    actual := None;
    var actualIndex := 0;
    var i := 0;
    while i < |children|
      invariant 0 <= i <= |children| && actual.None?
      invariant actualIndex == |ElementsOf(children[..i])| <= childIndex
    {
      ElementsStep(children, i);
      var child := children[i];
      if child.Element? {
        if childIndex != actualIndex {
          actualIndex := actualIndex + 1;
        } else {
          assert ElementsOf(children[i..])[0] == child;
          actual := Some(child);
          break;
        }
      }
      i := i + 1;
    }
    assert i == |children| ==> children[..i] == children;
  }

  method GetNbEventChannelProfile(children: seq<Node>) returns (nb: nat)
    ensures nb == |ElementsOf(children)|
  {
    nb := 0;
    var i := 0;
    while i < |children|
      invariant 0 <= i <= |children|
      invariant nb == |ElementsOf(children[..i])|
    {
      ElementsStep(children, i);
      if children[i].Element? {
        nb := nb + 1;
      }
      i := i + 1;
    }
    assert children[..i] == children;
  }

  // ----- One profile -----

  function NodeValue(node: Node): Result<string, LoadError> {
    if !node.Element? || node.children == [] then Raised(NullNode)
    else if node.children[0].TextNode? then Ok(node.children[0].value)
    else Raised(NoTextValue)
  }

  function ChildrenOf(node: Node): seq<Node> {
    if node.Element? then node.children else []
  }

  function ChannelName(profile: Node): Result<string, LoadError> {
    match FirstNamed(ChildrenOf(profile), "ChannelName")
    case None => Raised(NameNotFound)
    case Some(node) => NodeValue(node)
  }

  // The structure is not cleared between properties: one without a Name or a
  // Value element repeats the one before it.
  function ReadProperty(node: Node, before: Property): Result<Property, LoadError> {
    match (FirstNamed(ChildrenOf(node), "Name"), FirstNamed(ChildrenOf(node), "Value"))
    case (Some(name), Some(value)) =>
      (match (NodeValue(name), NodeValue(value))
       case (Ok(n), Ok(v)) => Ok(Property(n, v))
       case (Raised(e), _) => Raised(e)
       case (_, Raised(e)) => Raised(e))
    case _ => Ok(before)
  }

  function PropertyList(elements: seq<Node>, before: Property): Result<seq<Property>, LoadError> {
    if elements == [] then Ok([])
    else
      match ReadProperty(elements[0], before)
      case Raised(e) => Raised(e)
      case Ok(p) =>
        match PropertyList(elements[1..], p)
        case Raised(e) => Raised(e)
        case Ok(rest) => Ok([p] + rest)
  }

  const NO_PROPERTY := Property("", "")

  // Every element from the first Property on counts as a property.
  function ProfileProperties(profile: Node): Result<seq<Property>, LoadError> {
    PropertyList(ElementsOf(FromFirst(ChildrenOf(profile), "Property")), NO_PROPERTY)
  }

  // Position by position: a complete element gives its own name and value, an
  // incomplete one repeats what stands before it.
  lemma {:induction false} PropertyListMeaning(elements: seq<Node>, before: Property)
    requires PropertyList(elements, before).Ok?
    ensures var r := PropertyList(elements, before).value;
            |r| == |elements|
            && forall i | 0 <= i < |r| :: ReadProperty(elements[i], if i == 0 then before else r[i - 1]) == Ok(r[i])
    decreases |elements|
  {
    hide ReadProperty;
    if elements != [] {
      var p := ReadProperty(elements[0], before).value;
      PropertyListMeaning(elements[1..], p);
      var r := PropertyList(elements, before).value;
      var rest := PropertyList(elements[1..], p).value;
      assert r == [p] + rest;
      forall i | 0 <= i < |r| ensures ReadProperty(elements[i], if i == 0 then before else r[i - 1]) == Ok(r[i]) {
        if i > 0 {
          assert elements[1..][i - 1] == elements[i] && rest[i - 1] == r[i];
          assert i > 1 ==> rest[i - 2] == r[i - 1];
        }
      }
    }
  }

  method GetNextEventChannelName(children: seq<Node>, index: nat) returns (r: Result<string, LoadError>)
    ensures r == if index < |ElementsOf(children)| then ChannelName(ElementsOf(children)[index])
      else Raised(ProfileNotFound)
  {
    var profile := GetActualChildNode(children, index);
    if profile.None? {
      return Raised(ProfileNotFound);
    }
    var nameNode, _ := FindNode(ChildrenOf(profile.value), "ChannelName");
    if nameNode.None? {
      return Raised(NameNotFound);
    }
    r := NodeValue(nameNode.value);
  }

  // The properties read so far put before the outcome for the rest.
  ghost function Prepend(list: seq<Property>, rest: Result<seq<Property>, LoadError>)
    : Result<seq<Property>, LoadError>
  {
    match rest
    case Ok(tail) => Ok(list + tail)
    case Raised(e) => Raised(e)
  }

  lemma PropertyListStep(siblings: seq<Node>, list: seq<Property>, current: Property)
    requires siblings != []
    ensures var node := siblings[0];
            var before := Prepend(list, PropertyList(ElementsOf(siblings), current));
            if !node.Element? then before == Prepend(list, PropertyList(ElementsOf(siblings[1..]), current))
            else match ReadProperty(node, current)
                 case Raised(e) => before == Raised(e)
                 case Ok(p) => before == Prepend(list + [p], PropertyList(ElementsOf(siblings[1..]), p))
  {
    hide ReadProperty;
    var node := siblings[0];
    if node.Element? {
      assert ElementsOf(siblings)[1..] == ElementsOf(siblings[1..]);
      match ReadProperty(node, current)
      case Raised(e) =>
      case Ok(p) =>
        match PropertyList(ElementsOf(siblings[1..]), p)
        case Raised(e) =>
        case Ok(tail) => ConcatAssociative(list, [p], tail);
    }
  }

  method ReadProperties(profile: Node) returns (r: Result<seq<Property>, LoadError>)
    ensures r == ProfileProperties(profile)
  {
    hide ReadProperty, FromFirst, ElementsOf, PropertyList;
    var siblings := ChildrenOf(profile);
    var first, at := FindNode(siblings, "Property");
    var list: seq<Property> := [];
    var current := NO_PROPERTY;
    ghost var all := ProfileProperties(profile);
    EmptyRest(list, all);
    while at < |siblings|
      invariant at <= |siblings|
      invariant all == Prepend(list, PropertyList(ElementsOf(siblings[at..]), current))
    {
      PropertyListStep(siblings[at..], list, current);
      assert siblings[at..][1..] == siblings[at + 1..];
      var node := siblings[at];
      if node.Element? {
        var p := ReadOne(node, current);
        if p.Raised? {
          return Raised(p.error);
        }
        current := p.value;
        list := list + [current];
      }
      at := at + 1;
    }
    assert siblings[at..] == [];
    NothingLeft(list, current);
    r := Ok(list);
  }

  lemma EmptyRest(list: seq<Property>, rest: Result<seq<Property>, LoadError>)
    requires list == []
    ensures Prepend(list, rest) == rest
  {
    assert rest.Ok? ==> list + rest.value == rest.value;
  }

  lemma NothingLeft(list: seq<Property>, current: Property)
    ensures Prepend(list, PropertyList(ElementsOf([]), current)) == Ok(list)
  {
    assert list + [] == list;
  }

  method ReadOne(node: Node, current: Property) returns (r: Result<Property, LoadError>)
    ensures r == ReadProperty(node, current)
  {
    var name, _ := FindNode(ChildrenOf(node), "Name");
    var value, _ := FindNode(ChildrenOf(node), "Value");
    r := Ok(current);
    if name.Some? && value.Some? {
      var n := NodeValue(name.value);
      if n.Raised? { return Raised(n.error); }
      var v := NodeValue(value.value);
      if v.Raised? { return Raised(v.error); }
      r := Ok(Property(n.value, v.value));
    }
  }

  // ----- All profiles -----

  // One pass over the profiles in which the first of each name counts.
  function FirstWins(profiles: seq<Node>, m: map<string, seq<Property>>)
    : Result<map<string, seq<Property>>, LoadError>
  {
    if profiles == [] then Ok(m)
    else
      match ChannelName(profiles[0])
      case Raised(e) => Raised(e)
      case Ok(name) =>
        if name in m then FirstWins(profiles[1..], m)
        else
          match ProfileProperties(profiles[0])
          case Raised(e) => Raised(e)
          case Ok(properties) => FirstWins(profiles[1..], m[name := properties])
  }

  // What looking a name up from the start of the list gives.
  function LookupProfile(profiles: seq<Node>, name: string): Result<seq<Property>, LoadError> {
    if profiles == [] then Raised(ProfileNotFound)
    else
      match ChannelName(profiles[0])
      case Raised(e) => Raised(e)
      case Ok(n) => if n == name then ProfileProperties(profiles[0]) else LookupProfile(profiles[1..], name)
  }

  lemma {:induction false} LookupSkips(profiles: seq<Node>, name: string, i: nat)
    requires i <= |profiles|
    requires forall k | 0 <= k < i :: ChannelName(profiles[k]).Ok? && ChannelName(profiles[k]) != Ok(name)
    ensures LookupProfile(profiles, name) == LookupProfile(profiles[i..], name)
    decreases i
  {
    hide ChannelName, ProfileProperties;
    if i > 0 {
      assert forall k | 0 <= k < i - 1 :: profiles[1..][k] == profiles[k + 1];
      LookupSkips(profiles[1..], name, i - 1);
      assert profiles[1..][i - 1..] == profiles[i..];
    }
  }

  // The loader looks the name of each profile up again from the start of the
  // list, over as many indices as the list has nodes of any kind.
  method GetEventChannelProfileValue(children: seq<Node>, name: string) returns (r: Result<seq<Property>, LoadError>)
    ensures r == LookupProfile(ElementsOf(children), name)
  {
    hide ChannelName, ProfileProperties, ElementsOf, LookupProfile;
    ElementsBound(children);
    ghost var profiles := ElementsOf(children);
    var channel := 0;
    var found := false;
    while channel < |children|
      invariant 0 <= channel <= |profiles| && !found
      invariant forall k | 0 <= k < channel :: ChannelName(profiles[k]).Ok? && ChannelName(profiles[k]) != Ok(name)
      decreases |children| - channel
    {
      LookupSkips(profiles, name, channel);
      LookupHead(profiles[channel..], name);
      var current := GetNextEventChannelName(children, channel);
      if current.Raised? {
        return Raised(current.error);
      }
      if current.value == name {
        found := true;
        break;
      }
      channel := channel + 1;
    }
    if !found {
      LookupSkips(profiles, name, channel);
      LookupHead(profiles[channel..], name);
      return Raised(ProfileNotFound);
    }
    var profile := GetActualChildNode(children, channel);
    r := ReadProperties(profile.value);
  }

  lemma LookupHead(profiles: seq<Node>, name: string)
    ensures profiles == [] ==> LookupProfile(profiles, name) == Raised(ProfileNotFound)
    ensures profiles != [] ==>
              match ChannelName(profiles[0])
              case Raised(e) => LookupProfile(profiles, name) == Raised(e)
              case Ok(n) => n == name ==> LookupProfile(profiles, name) == ProfileProperties(profiles[0])
  {
    hide ChannelName, ProfileProperties;
  }

  // The map holds the names of the first i profiles, each with what looking
  // it up gives.
  ghost predicate Loaded(profiles: seq<Node>, i: nat, m: map<string, seq<Property>>)
    requires i <= |profiles|
  {
    && (forall k | 0 <= k < i :: ChannelName(profiles[k]).Ok? && ChannelName(profiles[k]).value in m)
    && (forall n | n in m :: LookupProfile(profiles, n) == Ok(m[n]) && exists k ::
      0 <= k < i && ChannelName(profiles[k]) == Ok(n))
  }

  lemma LoadedStep(profiles: seq<Node>, i: nat, m: map<string, seq<Property>>, name: string)
    requires i < |profiles| && Loaded(profiles, i, m) && ChannelName(profiles[i]) == Ok(name)
    ensures name !in m ==> LookupProfile(profiles, name) == ProfileProperties(profiles[i])
    ensures LookupProfile(profiles, name).Ok? ==>
              Loaded(profiles, i + 1, if name in m then m else m[name := LookupProfile(profiles, name).value])
  {
    hide ChannelName, ProfileProperties, LookupProfile;
    if name !in m {
      forall k | 0 <= k < i ensures ChannelName(profiles[k]) != Ok(name) {
        assert ChannelName(profiles[k]).value in m;
      }
      LookupSkips(profiles, name, i);
      LookupHead(profiles[i..], name);
    }
    if LookupProfile(profiles, name).Ok? {
      var m' := if name in m then m else m[name := LookupProfile(profiles, name).value];
      forall n | n in m' ensures LookupProfile(profiles, n) == Ok(m'[n]) && exists k ::
          0 <= k < i + 1 && ChannelName(profiles[k]) == Ok(n) {
        if n in m {
          var k :| 0 <= k < i && ChannelName(profiles[k]) == Ok(n);
          assert k < i + 1;
        } else {
          assert ChannelName(profiles[i]) == Ok(n);
        }
      }
    }
  }

  lemma FirstWinsHead(profiles: seq<Node>, i: nat, m: map<string, seq<Property>>)
    requires i <= |profiles|
    ensures i == |profiles| ==> FirstWins(profiles[i..], m) == Ok(m)
    ensures i < |profiles| && ChannelName(profiles[i]).Raised? ==>
              FirstWins(profiles[i..], m) == Raised(ChannelName(profiles[i]).error)
    ensures i < |profiles| && ChannelName(profiles[i]).Ok? && ChannelName(profiles[i]).value in m ==>
              FirstWins(profiles[i..], m) == FirstWins(profiles[i + 1..], m)
    ensures i < |profiles| && ChannelName(profiles[i]).Ok? && ChannelName(profiles[i]).value !in m ==>
              var p := ProfileProperties(profiles[i]);
              && (p.Raised? ==> FirstWins(profiles[i..], m) == Raised(p.error))
              && (p.Ok? ==> FirstWins(profiles[i..], m) == FirstWins(profiles[i + 1..],
                m[ChannelName(profiles[i]).value := p.value]))
  {
    hide ChannelName, ProfileProperties;
    if i < |profiles| {
      assert profiles[i..][1..] == profiles[i + 1..];
    }
  }

  // The manager's map after a load that succeeds: every channel name in the
  // document, each with the properties of the first profile bearing it.
  lemma {:induction false} FirstWinsMeaning(profiles: seq<Node>, i: nat, m: map<string, seq<Property>>)
    requires i <= |profiles| && Loaded(profiles, i, m) && FirstWins(profiles[i..], m).Ok?
    ensures Loaded(profiles, |profiles|, FirstWins(profiles[i..], m).value)
    decreases |profiles| - i
  {
    hide ChannelName, ProfileProperties, LookupProfile, Loaded, FirstWins;
    FirstWinsHead(profiles, i, m);
    if i < |profiles| {
      var name := ChannelName(profiles[i]).value;
      LoadedStep(profiles, i, m, name);
      if name in m {
        KnownName(profiles, i, m, name);
        FirstWinsMeaning(profiles, i + 1, m);
      } else {
        FirstWinsMeaning(profiles, i + 1, m[name := ProfileProperties(profiles[i]).value]);
      }
    }
  }

  lemma KnownName(profiles: seq<Node>, i: nat, m: map<string, seq<Property>>, name: string)
    requires i <= |profiles| && Loaded(profiles, i, m) && name in m
    ensures LookupProfile(profiles, name) == Ok(m[name])
  {
    hide ChannelName, LookupProfile;
  }

  // Is profile j the first to bear the name?
  ghost predicate FirstBearer(profiles: seq<Node>, j: nat, name: string) {
    && j < |profiles| && ChannelName(profiles[j]) == Ok(name)
    && forall i | 0 <= i < j :: ChannelName(profiles[i]) != Ok(name)
  }

  lemma BearerLookedUp(profiles: seq<Node>, j: nat, name: string)
    requires FirstBearer(profiles, j, name) && forall i | 0 <= i < |profiles| :: ChannelName(profiles[i]).Ok?
    ensures LookupProfile(profiles, name) == ProfileProperties(profiles[j])
  {
    hide ChannelName, ProfileProperties, LookupProfile;
    LookupSkips(profiles, name, j);
    LookupHead(profiles[j..], name);
  }

  lemma LoadMeaning(profiles: seq<Node>, name: string, j: nat)
    requires FirstWins(profiles, map[]).Ok?
    ensures var m := FirstWins(profiles, map[]).value;
            && (name in m <==> exists i: nat :: i < |profiles| && ChannelName(profiles[i]) == Ok(name))
            && (FirstBearer(profiles, j, name) ==> name in m && ProfileProperties(profiles[j]) == Ok(m[name]))
  {
    hide ChannelName, ProfileProperties, LookupProfile, FirstWins;
    assert profiles[0..] == profiles;
    NothingLoaded(profiles);
    FirstWinsMeaning(profiles, 0, map[]);
    if FirstBearer(profiles, j, name) {
      BearerLookedUp(profiles, j, name);
    }
  }

  // A load succeeds exactly when every profile has a readable name and the
  // first of each name has readable properties.
  ghost predicate Readable(profiles: seq<Node>, i: nat)
    requires i < |profiles|
  {
    ChannelName(profiles[i]).Ok?
    && (FirstBearer(profiles, i, ChannelName(profiles[i]).value) ==> ProfileProperties(profiles[i]).Ok?)
  }

  lemma {:induction false} LoadSucceedsFrom(profiles: seq<Node>, i: nat, m: map<string, seq<Property>>)
    requires i <= |profiles| && Loaded(profiles, i, m)
    requires forall k | i <= k < |profiles| :: Readable(profiles, k)
    ensures FirstWins(profiles[i..], m).Ok?
    decreases |profiles| - i
  {
    hide ChannelName, ProfileProperties, LookupProfile, FirstWins;
    FirstWinsHead(profiles, i, m);
    if i < |profiles| {
      assert Readable(profiles, i);
      var name := ChannelName(profiles[i]).value;
      LoadedStep(profiles, i, m, name);
      if name in m {
        LoadSucceedsFrom(profiles, i + 1, m);
      } else {
        assert FirstBearer(profiles, i, name);
        LoadSucceedsFrom(profiles, i + 1, m[name := ProfileProperties(profiles[i]).value]);
      }
    }
  }

  lemma LoadSucceedsIff(profiles: seq<Node>)
    ensures FirstWins(profiles, map[]).Ok? <==> forall i | 0 <= i < |profiles| :: Readable(profiles, i)
  {
    hide ChannelName, ProfileProperties, LookupProfile, FirstWins;
    assert profiles[0..] == profiles;
    NothingLoaded(profiles);
    if FirstWins(profiles, map[]).Ok? {
      FirstWinsMeaning(profiles, 0, map[]);
      forall i | 0 <= i < |profiles| ensures Readable(profiles, i) {
        LoadMeaning(profiles, ChannelName(profiles[i]).value, i);
      }
    }
    if forall i | 0 <= i < |profiles| :: Readable(profiles, i) {
      LoadSucceedsFrom(profiles, 0, map[]);
    }
  }

  datatype ManagerError = AlreadyExistant | InvalidName | NotExist

  class ProfileManager {
    var channelProfiles: map<string, seq<Property>>

    constructor ()
      ensures channelProfiles == map[]
    {
      channelProfiles := map[];
    }

    // The constructor's loading loop, over the child list of the document's
    // root. For every document it gives what the one pass gives, errors
    // included: looking a name up again never fails to find it.
    method Load(children: seq<Node>) returns (r: Result<(), LoadError>)
      requires channelProfiles == map[]
      modifies this
      ensures match FirstWins(ElementsOf(children), map[])
              case Ok(m) => r == Ok(()) && channelProfiles == m
              case Raised(e) => r == Raised(e)
    {
      hide ChannelName, ProfileProperties, LookupProfile, Loaded, FirstWins, ElementsOf;
      ghost var profiles := ElementsOf(children);
      var nb := GetNbEventChannelProfile(children);
      var i := 0;
      NothingLoaded(profiles);
      assert profiles[0..] == profiles;
      while i < nb
        invariant 0 <= i <= nb == |profiles|
        invariant Loaded(profiles, i, channelProfiles)
        invariant FirstWins(profiles, map[]) == FirstWins(profiles[i..], channelProfiles)
      {
        FirstWinsHead(profiles, i, channelProfiles);
        var name := GetNextEventChannelName(children, i);
        if name.Raised? {
          return Raised(name.error);
        }
        LoadedStep(profiles, i, channelProfiles, name.value);
        if name.value in channelProfiles {
          KnownName(profiles, i, channelProfiles, name.value);
        }
        var properties := GetEventChannelProfileValue(children, name.value);
        if properties.Raised? {
          return Raised(properties.error);
        }
        if name.value !in channelProfiles {
          channelProfiles := channelProfiles[name.value := properties.value];
        }
        i := i + 1;
      }
      FirstWinsHead(profiles, i, channelProfiles);
      r := Ok(());
    }

    // validName: whether the naming service reads the name as one component.
    method CreateProfile(name: string, validName: bool, profile: seq<Property>) returns (r: Result<(), ManagerError>)
      modifies this
      ensures r == if name in old(channelProfiles) then Raised(AlreadyExistant)
        else if !validName then Raised(InvalidName) else Ok(())
      ensures channelProfiles == if r.Ok? then old(channelProfiles)[name := profile] else old(channelProfiles)
    {
      if name in channelProfiles { return Raised(AlreadyExistant); }
      if !validName { return Raised(InvalidName); }
      channelProfiles := channelProfiles[name := profile];
      r := Ok(());
    }

    method RemoveProfile(name: string) returns (r: Result<(), ManagerError>)
      modifies this
      ensures r == if name in old(channelProfiles) then Ok(()) else Raised(NotExist)
      ensures channelProfiles == old(channelProfiles) - {name}
    {
      if name !in channelProfiles { return Raised(NotExist); }
      channelProfiles := channelProfiles - {name};
      r := Ok(());
    }

    method UpdateProfile(name: string, profile: seq<Property>) returns (r: Result<(), ManagerError>)
      modifies this
      ensures r == if name in old(channelProfiles) then Ok(()) else Raised(NotExist)
      ensures channelProfiles == if r.Ok? then old(channelProfiles)[name := profile] else old(channelProfiles)
    {
      if name !in channelProfiles { return Raised(NotExist); }
      channelProfiles := channelProfiles - {name};
      channelProfiles := channelProfiles[name := profile];
      r := Ok(());
    }

    method FindProfile(name: string) returns (r: Result<seq<Property>, ManagerError>)
      ensures r == if name in channelProfiles then Ok(channelProfiles[name]) else Raised(NotExist)
    {
      if name !in channelProfiles { return Raised(NotExist); }
      r := Ok(channelProfiles[name]);
    }

    method ManagedEventChannels() returns (names: seq<string>)
      ensures names == InOrder(channelProfiles.Keys)
    {
      hide InOrder, Least, IsLeast;
      names := [];
      var rest := channelProfiles.Keys;
      assert names + InOrder(rest) == InOrder(rest);
      InOrderStep(rest);
      while rest != {}
        invariant names + InOrder(rest) == InOrder(channelProfiles.Keys)
        invariant rest == {} ==> InOrder(rest) == []
        invariant rest != {} ==> InOrder(rest) == [Least(rest)] + InOrder(rest - {Least(rest)})
        decreases |rest|
      {
        var name := Least(rest);
        ConcatAssociative(names, [name], InOrder(rest - {name}));
        names := names + [name];
        rest := rest - {name};
        InOrderStep(rest);
      }
    }
  }

  lemma NothingLoaded(profiles: seq<Node>)
    ensures Loaded(profiles, 0, map[])
  {
  }
}
