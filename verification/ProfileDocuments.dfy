// What the loader reads out of a configuration document, in terms of the
// document alone, and the documents that it reads back as they were written.
module ProfileDocuments {
  import opened Outcomes
  import opened Profiles
  import opened ProfileLoader

  predicate Tagged(node: Node, tag: string) {
    node.Element? && node.name == tag
  }

  // Is i the first of the siblings that bears the tag?
  ghost predicate FirstAt(children: seq<Node>, tag: string, i: int) {
    0 <= i < |children| && Tagged(children[i], tag) && forall k | 0 <= k < i :: !Tagged(children[k], tag)
  }

  ghost predicate Lacks(node: Node, tag: string) {
    node.Element? && forall i | 0 <= i < |node.children| :: !Tagged(node.children[i], tag)
  }

  // The first child with the tag begins with this text; text and other
  // elements may stand around it.
  ghost predicate FirstText(node: Node, tag: string, text: string) {
    node.Element? && exists i ::
      && FirstAt(node.children, tag, i)
      && node.children[i].children != [] && node.children[i].children[0] == TextNode(text)
  }

  // ----- One element -----

  lemma {:induction false} FoundAt(children: seq<Node>, tag: string, i: int)
    requires FirstAt(children, tag, i)
    ensures FromFirst(children, tag) == children[i..]
    decreases |children|
  {
    if i > 0 {
      FoundAt(children[1..], tag, i - 1);
      assert children[1..][i - 1..] == children[i..];
    }
  }

  lemma {:induction false} FoundNone(children: seq<Node>, tag: string)
    ensures FromFirst(children, tag) == [] <==> forall i | 0 <= i < |children| :: !Tagged(children[i], tag)
    decreases |children|
  {
    if children != [] {
      FoundNone(children[1..], tag);
      assert forall i | 0 < i < |children| :: children[i] == children[1..][i - 1];
    }
  }

  lemma {:induction false} SomeFirst(children: seq<Node>, tag: string)
    requires FromFirst(children, tag) != []
    ensures exists i :: FirstAt(children, tag, i)
    decreases |children|
  {
    if Tagged(children[0], tag) {
      assert FirstAt(children, tag, 0);
    } else {
      SomeFirst(children[1..], tag);
      var i :| FirstAt(children[1..], tag, i);
      assert forall k | 0 < k <= i + 1 :: children[k] == children[1..][k - 1];
      assert FirstAt(children, tag, i + 1);
    }
  }

  lemma TextRead(node: Node, tag: string, text: string)
    requires node.Element?
    ensures FirstText(node, tag, text) <==>
              FirstNamed(ChildrenOf(node), tag).Some? && NodeValue(FirstNamed(ChildrenOf(node), tag).value) == Ok(text)
    ensures Lacks(node, tag) <==> FirstNamed(ChildrenOf(node), tag).None?
  {
    FoundNone(node.children, tag);
    if FirstNamed(node.children, tag).Some? {
      SomeFirst(node.children, tag);
      var i :| FirstAt(node.children, tag, i);
      FoundAt(node.children, tag, i);
      assert FromFirst(node.children, tag)[0] == node.children[i];
      forall j | FirstAt(node.children, tag, j) ensures i == j {
      }
    }
  }

  // A complete property is read as its own name and value, whatever stood
  // before it; an incomplete one as what stood before.
  lemma PropertyRead(node: Node, before: Property, name: string, value: string)
    requires node.Element?
    ensures FirstText(node, "Name", name) && FirstText(node, "Value", value) ==>
              ReadProperty(node, before) == Ok(Property(name, value))
    ensures Lacks(node, "Name") || Lacks(node, "Value") ==> ReadProperty(node, before) == Ok(before)
    ensures !Lacks(node, "Name") && !Lacks(node, "Value") && ReadProperty(node, before) == Ok(Property(name, value)) ==>
              FirstText(node, "Name", name) && FirstText(node, "Value", value)
  {
    hide FirstNamed, FirstText, Lacks;
    TextRead(node, "Name", name);
    TextRead(node, "Value", value);
  }

  // The channel name is the first text of the first ChannelName child.
  lemma NameRead(profile: Node, name: string)
    requires profile.Element?
    ensures ChannelName(profile) == Ok(name) <==> FirstText(profile, "ChannelName", name)
    ensures ChannelName(profile) == Raised(NameNotFound) <==> Lacks(profile, "ChannelName")
  {
    hide FirstNamed, FirstText, Lacks;
    TextRead(profile, "ChannelName", name);
  }

  // An element without any child and one that does not begin with text are
  // told apart.
  lemma TextMissing(node: Node, tag: string, i: nat)
    requires node.Element? && FirstAt(node.children, tag, i)
    ensures FirstNamed(node.children, tag) == Some(node.children[i])
    ensures NodeValue(node.children[i]) == Raised(NullNode) <==> node.children[i].children == []
    ensures NodeValue(node.children[i]) == Raised(NoTextValue) <==>
              node.children[i].children != [] && !node.children[i].children[0].TextNode?
  {
    FoundAt(node.children, tag, i);
  }

  // ----- The properties of a profile -----

  // From the first Property child on, the properties read correspond to the
  // element children one by one, in order.
  lemma PropertiesRead(profile: Node, p: nat, q: nat, name: string, value: string)
    requires profile.Element? && FirstAt(profile.children, "Property", p) && p <= q < |profile.children|
    requires profile.children[q].Element? && ProfileProperties(profile).Ok?
    ensures var r := ProfileProperties(profile).value;
            var node := profile.children[q];
            var i := |ElementsOf(profile.children[p..q])|;
            && |r| == |ElementsOf(profile.children[p..])| && i < |r|
            && (FirstText(node, "Name", name) && FirstText(node, "Value", value) ==> r[i] == Property(name, value))
            && (Lacks(node, "Name") || Lacks(node, "Value") ==> r[i] == if i == 0 then NO_PROPERTY else r[i - 1])
  {
    hide ReadProperty, FirstText, Lacks, ElementsOf;
    var tail := profile.children[p..];
    FoundAt(profile.children, "Property", p);
    PropertyListMeaning(ElementsOf(tail), NO_PROPERTY);
    ElementAt(tail, q - p);
    assert tail[..q - p] == profile.children[p..q];
    var i := |ElementsOf(tail[..q - p])|;
    var r := ProfileProperties(profile).value;
    PropertyRead(profile.children[q], if i == 0 then NO_PROPERTY else r[i - 1], name, value);
  }

  lemma ElementAt(children: seq<Node>, q: nat)
    requires q < |children| && children[q].Element?
    ensures var i := |ElementsOf(children[..q])|; i < |ElementsOf(children)| && ElementsOf(children)[i] == children[q]
  {
    ElementsStep(children, q);
    assert ElementsOf(children[q..])[0] == children[q];
  }

  lemma NoProperties(profile: Node)
    requires profile.Element? && Lacks(profile, "Property")
    ensures ProfileProperties(profile) == Ok([])
  {
    FoundNone(profile.children, "Property");
  }

  // ----- The map a load leaves -----

  // Is profile j the first whose ChannelName is this text?
  ghost predicate FirstCalled(profiles: seq<Node>, j: nat, name: string) {
    && j < |profiles| && FirstText(profiles[j], "ChannelName", name)
    && forall i | 0 <= i < j :: !FirstText(profiles[i], "ChannelName", name)
  }

  // After a load that succeeds the manager knows the channel names that stand
  // in the document, and of each the properties as they stand in the first
  // profile of that name.
  lemma LoadedMeaning(profiles: seq<Node>, channel: string, j: nat, p: nat, q: nat, name: string, value: string)
    requires FirstWins(profiles, map[]).Ok? && forall i | 0 <= i < |profiles| :: profiles[i].Element?
    ensures var m := FirstWins(profiles, map[]).value;
            && (channel in m <==> exists i: nat :: i < |profiles| && FirstText(profiles[i], "ChannelName", channel))
            && (FirstCalled(profiles, j, channel) ==> channel in m)
            && (FirstCalled(profiles, j, channel) && Lacks(profiles[j], "Property") ==> m[channel] == [])
            && (FirstCalled(profiles, j, channel) && FirstAt(profiles[j].children, "Property", p)
                && p <= q < |profiles[j].children| && profiles[j].children[q].Element? ==>
                  var node := profiles[j].children[q];
                  var i := |ElementsOf(profiles[j].children[p..q])|;
                  && |m[channel]| == |ElementsOf(profiles[j].children[p..])| && i < |m[channel]|
                  && (FirstText(node, "Name", name) && FirstText(node, "Value", value) ==>
                        m[channel][i] == Property(name, value))
                  && (Lacks(node, "Name") || Lacks(node, "Value") ==>
                        m[channel][i] == if i == 0 then NO_PROPERTY else m[channel][i - 1]))
  {
    hide FirstWins, ChannelName, ProfileProperties, FirstText, Lacks, ElementsOf, FirstAt;
    forall i | 0 <= i < |profiles|
      ensures ChannelName(profiles[i]) == Ok(channel) <==> FirstText(profiles[i], "ChannelName", channel)
    {
      NameRead(profiles[i], channel);
    }
    LoadMeaning(profiles, channel, j);
    if FirstCalled(profiles, j, channel) {
      assert FirstBearer(profiles, j, channel);
      if Lacks(profiles[j], "Property") { NoProperties(profiles[j]); }
      if FirstAt(profiles[j].children, "Property", p) && p <= q < |profiles[j].children|
         && profiles[j].children[q].Element?
      {
        PropertiesRead(profiles[j], p, q, name, value);
      }
    }
  }

  // A load that fails raises what the first unreadable profile does: its name
  // before its properties.
  lemma {:induction false} LoadFailsFrom(profiles: seq<Node>, i: nat, m: map<string, seq<Property>>, j: nat)
    requires i <= j < |profiles| && Loaded(profiles, i, m)
    requires !Readable(profiles, j) && forall k | i <= k < j :: Readable(profiles, k)
    ensures FirstWins(profiles[i..], m)
         == Raised(if ChannelName(profiles[j]).Raised? then ChannelName(profiles[j]).error
                   else ProfileProperties(profiles[j]).error)
    decreases j - i
  {
    hide ChannelName, ProfileProperties, LookupProfile, FirstWins, Loaded;
    FirstWinsHead(profiles, i, m);
    if ChannelName(profiles[i]).Ok? {
      var name := ChannelName(profiles[i]).value;
      LoadedStep(profiles, i, m, name);
      KnownBefore(profiles, i, m, name);
      if i < j {
        assert Readable(profiles, i);
        if name in m {
          KnownName(profiles, i, m, name);
          LoadFailsFrom(profiles, i + 1, m, j);
        } else {
          LoadFailsFrom(profiles, i + 1, m[name := ProfileProperties(profiles[i]).value], j);
        }
      }
    } else {
      assert !Readable(profiles, i);
    }
  }

  lemma KnownBefore(profiles: seq<Node>, i: nat, m: map<string, seq<Property>>, name: string)
    requires i < |profiles| && Loaded(profiles, i, m) && ChannelName(profiles[i]) == Ok(name)
    ensures FirstBearer(profiles, i, name) <==> name !in m
  {
    hide ChannelName, ProfileProperties, LookupProfile;
  }

  lemma LoadFailsWith(profiles: seq<Node>, j: nat)
    requires j < |profiles| && !Readable(profiles, j) && forall k | 0 <= k < j :: Readable(profiles, k)
    ensures FirstWins(profiles, map[])
         == Raised(if ChannelName(profiles[j]).Raised? then ChannelName(profiles[j]).error
                   else ProfileProperties(profiles[j]).error)
  {
    hide ChannelName, ProfileProperties, FirstWins, Readable;
    NothingLoaded(profiles);
    assert profiles[0..] == profiles;
    LoadFailsFrom(profiles, 0, map[], j);
  }

  // ----- Writing a document and loading it -----

  datatype Entry = Entry(channel: string, properties: seq<Property>)

  const INDENT := TextNode("\n  ")

  function TextElement(tag: string, text: string): Node {
    Element(tag, [TextNode(text)])
  }

  function PropertyElement(p: Property): Node {
    Element("Property", [INDENT, TextElement("Name", p.name), INDENT, TextElement("Value", p.value), INDENT])
  }

  function PropertyElements(properties: seq<Property>): seq<Node> {
    if properties == [] then [INDENT]
    else [INDENT, PropertyElement(properties[0])] + PropertyElements(properties[1..])
  }

  function ProfileElement(e: Entry): Node {
    Element("EventChannelProfile", [INDENT, TextElement("ChannelName", e.channel)] + PropertyElements(e.properties))
  }

  function Document(entries: seq<Entry>): seq<Node> {
    if entries == [] then [INDENT] else [INDENT, ProfileElement(entries[0])] + Document(entries[1..])
  }

  // The first entry of each name.
  function FirstOfEach(entries: seq<Entry>): map<string, seq<Property>> {
    if entries == [] then map[] else FirstOfEach(entries[1..])[entries[0].channel := entries[0].properties]
  }

  lemma PropertyWritten(p: Property, before: Property)
    ensures ReadProperty(PropertyElement(p), before) == Ok(p)
  {
    var node := PropertyElement(p);
    assert FirstAt(node.children, "Name", 1) && FirstAt(node.children, "Value", 3);
    assert FirstText(node, "Name", p.name) && FirstText(node, "Value", p.value);
    PropertyRead(node, before, p.name, p.value);
  }

  lemma {:induction false} PropertiesWritten(properties: seq<Property>, before: Property)
    ensures PropertyList(ElementsOf(PropertyElements(properties)), before) == Ok(properties)
    decreases |properties|
  {
    hide ReadProperty, PropertyElement;
    var all := PropertyElements(properties);
    assert all[0] == INDENT;
    if properties == [] {
      assert all[1..] == [];
      assert ElementsOf(all) == [];
    } else {
      var p := properties[0];
      assert all[1..][0] == PropertyElement(p) && all[1..][1..] == PropertyElements(properties[1..]);
      PropertyElementIs(p);
      assert ElementsOf(all) == [PropertyElement(p)] + ElementsOf(PropertyElements(properties[1..]));
      PropertyWritten(p, before);
      PropertiesWritten(properties[1..], p);
      assert ElementsOf(all)[1..] == ElementsOf(PropertyElements(properties[1..]));
      assert [p] + properties[1..] == properties;
    }
  }

  lemma PropertyElementIs(p: Property)
    ensures Tagged(PropertyElement(p), "Property")
  {
  }

  lemma ProfileWritten(e: Entry)
    ensures ChannelName(ProfileElement(e)) == Ok(e.channel) && ProfileProperties(ProfileElement(e)) == Ok(e.properties)
  {
    hide ReadProperty, PropertyElement, PropertyList;
    var node := ProfileElement(e);
    var rest := PropertyElements(e.properties);
    assert FirstAt(node.children, "ChannelName", 1) && FirstText(node, "ChannelName", e.channel);
    NameRead(node, e.channel);
    if e.properties == [] {
      NoProperties(node);
    } else {
      PropertyElementIs(e.properties[0]);
      assert node.children[3] == PropertyElement(e.properties[0]);
      assert FirstAt(node.children, "Property", 3);
      FoundAt(node.children, "Property", 3);
      assert node.children[3..] == rest[1..];
      assert ElementsOf(rest) == ElementsOf(rest[1..]);
      PropertiesWritten(e.properties, NO_PROPERTY);
    }
  }

  lemma {:induction false} DocumentLoads(entries: seq<Entry>, m: map<string, seq<Property>>)
    ensures FirstWins(ElementsOf(Document(entries)), m) == Ok(FirstOfEach(entries) + m)
    decreases |entries|
  {
    hide ChannelName, ProfileProperties, ProfileElement;
    var all := Document(entries);
    assert all[0] == INDENT;
    if entries == [] {
      assert all[1..] == [] && ElementsOf(all) == [];
      assert FirstOfEach(entries) + m == m;
    } else {
      var e := entries[0];
      var rest := Document(entries[1..]);
      assert all[1..][0] == ProfileElement(e) && all[1..][1..] == rest;
      ProfileElementIs(e);
      assert ElementsOf(all) == [ProfileElement(e)] + ElementsOf(rest);
      assert ElementsOf(all)[1..] == ElementsOf(rest);
      ProfileWritten(e);
      if e.channel in m {
        DocumentLoads(entries[1..], m);
        assert FirstOfEach(entries) + m == FirstOfEach(entries[1..]) + m;
      } else {
        DocumentLoads(entries[1..], m[e.channel := e.properties]);
        assert FirstOfEach(entries) + m == FirstOfEach(entries[1..]) + m[e.channel := e.properties];
      }
    }
  }

  lemma ProfileElementIs(e: Entry)
    ensures ProfileElement(e).Element?
  {
  }

  // A document written from any list of profiles is loaded as the first of
  // each name, its properties name by name and value by value.
  lemma LoadWritten(entries: seq<Entry>)
    ensures FirstWins(ElementsOf(Document(entries)), map[]) == Ok(FirstOfEach(entries))
  {
    DocumentLoads(entries, map[]);
    assert FirstOfEach(entries) + map[] == FirstOfEach(entries);
  }
}
