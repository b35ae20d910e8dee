// The console's text form of an event channel profile: the parser of
// create_profile and update_profile, the printer of display_channel_profile.
module ProfileText {
  import opened Outcomes
  import opened Scanning
  import opened Text
  import opened Profiles

  const MAX_PROPERTY: nat := 50
  const URL_TAG := "URL"
  const IDL_TAG := "IDL"

  datatype ParseError = ChannelMissing | UrlMissing | InvalidDescription

  datatype Profile = Profile(channel: string, properties: seq<Property>)

  // ----- The printer -----

  function PrintLine(p: Property): string {
    "\t" + p.name + "=" + p.value + "\n"
  }

  function Print(properties: seq<Property>): string {
    if properties == [] then "" else PrintLine(properties[0]) + Print(properties[1..])
  }

  // ----- What the parser makes of the text from its iterator on -----

  predicate KnownTag(tag: string) {
    tag == URL_TAG || tag == IDL_TAG
  }

  function TagOf(rest: string): string {
    Before(After(rest, NotSpace), IsEqual)
  }

  function AfterTag(rest: string): string {
    After(After(rest, NotSpace), IsEqual)
  }

  function ValueOf(rest: string): string {
    Before(After(rest, NotEqual), IsSpace)
  }

  function AfterValue(rest: string): string {
    After(After(rest, NotEqual), IsSpace)
  }

  function Properties(rest: string, done: seq<Property>, url: string): Result<seq<Property>, ParseError>
    requires |done| <= MAX_PROPERTY
    decreases MAX_PROPERTY - |done|
  {
    if |done| == MAX_PROPERTY then Ok(done)
    else
      var tag := TagOf(rest);
      if tag == "" then if url == "" then Raised(UrlMissing) else Ok(done)
      else if !KnownTag(tag) then Raised(InvalidDescription)
      else
        var value := ValueOf(AfterTag(rest));
        if value == "" then Raised(InvalidDescription)
        else
          Properties(AfterValue(AfterTag(rest)), done + [Property(tag, value)], if tag == URL_TAG then value else url)
  }

  // The profile takes the texts over as C strings.
  function Handed(properties: seq<Property>): (r: seq<Property>)
    ensures |r| == |properties|
  {
    seq(|properties|, i requires 0 <= i < |properties| =>
      Property(CString(properties[i].name), CString(properties[i].value)))
  }

  function Extract(arg: string): Result<Profile, ParseError> {
    var channel := Before(arg, IsSpace);
    if channel == "" then Raised(ChannelMissing)
    else
      match Properties(After(arg, IsSpace), [], "")
      case Ok(properties) => Ok(Profile(channel, Handed(properties)))
      case Raised(e) => Raised(e)
  }

  // ----- The parser -----

  method ScanTag(arg: string, j: nat) returns (tag: string, next: nat)
    requires j <= |arg|
    ensures next <= |arg| && tag == TagOf(arg[j..]) && arg[next..] == AfterTag(arg[j..])
  {
    tag, next := "", j;
    if j != |arg| {
      var i := FindFrom(arg, j, NotSpace);
      FindSlice(arg, j, NotSpace);
      next := FindFrom(arg, i, IsEqual);
      FindSlice(arg, i, IsEqual);
      if i != next {
        tag := arg[i..next];
      }
    } else {
      NothingLeft(arg[j..]);
    }
  }

  method ScanValue(arg: string, j: nat) returns (value: string, next: nat)
    requires j <= |arg|
    ensures next <= |arg| && value == ValueOf(arg[j..]) && arg[next..] == AfterValue(arg[j..])
  {
    value, next := "", j;
    if j != |arg| {
      var i := FindFrom(arg, j, NotEqual);
      FindSlice(arg, j, NotEqual);
      next := FindFrom(arg, i, IsSpace);
      FindSlice(arg, i, IsSpace);
      if i != next {
        value := arg[i..next];
      }
    } else {
      NothingLeft(arg[j..]);
    }
  }

  method ExtractChannelAndProfile(arg: string) returns (r: Result<Profile, ParseError>)
    ensures r == Extract(arg)
  {
    hide Find, IsSpace, Handed, Properties;
    var channel := "";
    var j := FindFrom(arg, 0, IsSpace);
    assert arg[0..] == arg;
    FindSlice(arg, 0, IsSpace);
    if 0 != j {
      channel := arg[0..j];
    }
    if channel == "" {
      return Raised(ChannelMissing);
    }
    var p := ExtractProperties(arg, j);
    match p {
      case Ok(properties) =>
        var profile := HandOver(properties);
        r := Ok(Profile(channel, profile));
      case Raised(e) => r := Raised(e);
    }
  }

  method HandOver(properties: seq<Property>) returns (profile: seq<Property>)
    ensures profile == Handed(properties)
  {
    hide CString;
    profile := [];
    for k := 0 to |properties|
      invariant profile == Handed(properties)[..k]
    {
      profile := profile + [Property(CString(properties[k].name), CString(properties[k].value))];
    }
  }

  method ExtractProperties(arg: string, start: nat) returns (r: Result<seq<Property>, ParseError>)
    requires start <= |arg|
    ensures r == Properties(arg[start..], [], "")
  {
    hide TagOf, AfterTag, ValueOf, AfterValue, Zipped;
    var tags := new string[MAX_PROPERTY](_ => "");
    var values := new string[MAX_PROPERTY](_ => "");
    var url := "";
    var index: nat := 0;
    var endExtraction := false;
    var j: nat := start;
    ghost var all := Properties(arg[start..], [], "");
    assert Zipped(tags[..0], values[..0]) == [];
    while !endExtraction && index < MAX_PROPERTY
      invariant index <= MAX_PROPERTY && j <= |arg|
      invariant endExtraction ==> all == Ok(Zipped(tags[..index], values[..index]))
      invariant !endExtraction ==> all == Properties(arg[j..], Zipped(tags[..index], values[..index]), url)
      decreases !endExtraction, MAX_PROPERTY - index
    {
      var tag, afterTag := ScanTag(arg, j);
      tags[index] := tag;
      if tag == "" {
        if url == "" {
          return Raised(UrlMissing);
        }
        endExtraction := true;
      } else {
        if tag != URL_TAG && tag != IDL_TAG {
          return Raised(InvalidDescription);
        }
        var value, afterValue := ScanValue(arg, afterTag);
        values[index] := value;
        if value == "" {
          return Raised(InvalidDescription);
        }
        if tag == URL_TAG {
          url := value;
        }
        ZippedSnoc(tags[..index], values[..index], tag, value);
        assert tags[..index + 1] == tags[..index] + [tag] && values[..index + 1] == values[..index] + [value];
        j := afterValue;
        index := index + 1;
      }
    }
    r := Ok(Zipped(tags[..index], values[..index]));
  }

  // The properties that two parallel arrays hold.
  function Zipped(tags: seq<string>, values: seq<string>): (r: seq<Property>)
    requires |tags| == |values|
    ensures |r| == |tags|
  {
    seq(|tags|, i requires 0 <= i < |tags| => Property(tags[i], values[i]))
  }

  lemma ZippedSnoc(tags: seq<string>, values: seq<string>, tag: string, value: string)
    requires |tags| == |values|
    ensures Zipped(tags + [tag], values + [value]) == Zipped(tags, values) + [Property(tag, value)]
  {
  }

  lemma NothingLeft(rest: string)
    requires rest == ""
    ensures TagOf(rest) == "" && ValueOf(rest) == "" && AfterTag(rest) == "" && AfterValue(rest) == ""
  {
  }

  // ----- What the parser accepts -----

  ghost predicate GoodValue(value: string) {
    value != "" && Without(value, IsSpace) && value[0] != '='
  }

  ghost predicate GoodProperty(p: Property) {
    KnownTag(p.name) && GoodValue(p.value)
  }

  ghost predicate AllGood(properties: seq<Property>) {
    forall i | 0 <= i < |properties| :: GoodProperty(properties[i])
  }

  predicate HasUrl(properties: seq<Property>) {
    exists i | 0 <= i < |properties| :: properties[i].name == URL_TAG
  }

  ghost predicate GoodChannel(channel: string) {
    channel != "" && Without(channel, IsSpace)
  }

  lemma ScannedValueGood(rest: string)
    requires ValueOf(rest) != ""
    ensures GoodValue(ValueOf(rest))
  {
    var t := After(rest, NotEqual);
    assert NotEqual(t[0]);
  }

  // Whatever the parser returns is a channel name with at most 50 well-formed
  // properties, a URL among them unless there are exactly 50.
  lemma {:induction false} PropertiesGood(rest: string, done: seq<Property>, url: string)
    requires |done| <= MAX_PROPERTY && AllGood(done) && (url != "" <==> HasUrl(done))
    requires Properties(rest, done, url).Ok?
    ensures var r := Properties(rest, done, url).value;
            AllGood(r) && |r| <= MAX_PROPERTY && (HasUrl(r) || |r| == MAX_PROPERTY)
    decreases MAX_PROPERTY - |done|
  {
    hide TagOf, ValueOf, AfterTag, AfterValue, GoodValue;
    if |done| < MAX_PROPERTY && TagOf(rest) != "" {
      var p := Property(TagOf(rest), ValueOf(AfterTag(rest)));
      ScannedValueGood(AfterTag(rest));
      UrlSnoc(done, p);
      PropertiesGood(AfterValue(AfterTag(rest)), done + [p], if p.name == URL_TAG then p.value else url);
    }
  }

  lemma UrlSnoc(done: seq<Property>, p: Property)
    ensures HasUrl(done + [p]) <==> HasUrl(done) || p.name == URL_TAG
  {
    var all := done + [p];
    assert all[|done|] == p;
    assert forall i | 0 <= i < |done| :: all[i] == done[i];
  }

  // ----- Printing and parsing back -----

  lemma TagScanned(lead: string, tag: string, more: string)
    requires lead == "" || lead == "\n"
    requires KnownTag(tag)
    ensures var rest := (lead + "\t") + (tag + ("=" + more));
            TagOf(rest) == tag && AfterTag(rest) == "=" + more
  {
    hide Before, After, Find;
    var fromTag := tag + ("=" + more);
    assert Without(lead + "\t", NotSpace) && NotSpace(fromTag[0]);
    FindStop(lead + "\t", fromTag, NotSpace);
    assert Without(tag, IsEqual) && IsEqual(("=" + more)[0]);
    FindStop(tag, "=" + more, IsEqual);
  }

  lemma ValueScanned(value: string, more: string)
    requires GoodValue(value)
    ensures var rest := "=" + (value + ("\n" + more));
            ValueOf(rest) == value && AfterValue(rest) == "\n" + more
  {
    hide Before, After, Find;
    var fromValue := value + ("\n" + more);
    assert Without("=", NotEqual) && NotEqual(fromValue[0]);
    FindStop("=", fromValue, NotEqual);
    FindStop(value, "\n" + more, IsSpace);
  }

  lemma LineScanned(lead: string, p: Property, more: string)
    requires lead == "" || lead == "\n"
    requires GoodProperty(p)
    ensures var rest := lead + PrintLine(p) + more;
            TagOf(rest) == p.name && ValueOf(AfterTag(rest)) == p.value && AfterValue(AfterTag(rest)) == "\n" + more
  {
    hide TagOf, ValueOf, AfterTag, AfterValue, GoodValue, KnownTag;
    assert lead + PrintLine(p) + more == (lead + "\t") + (p.name + ("=" + (p.value + ("\n" + more))));
    TagScanned(lead, p.name, p.value + ("\n" + more));
    ValueScanned(p.value, more);
  }

  lemma EndScanned(lead: string)
    requires lead == "" || lead == "\n"
    ensures TagOf(lead) == ""
  {
    assert Without(lead, NotSpace);
    FindStop(lead, "", NotSpace);
    assert lead + "" == lead;
  }

  function AtMost(properties: seq<Property>, n: nat): seq<Property> {
    if |properties| <= n then properties else properties[..n]
  }

  lemma {:induction false} PrintedParsed(lead: string, properties: seq<Property>, done: seq<Property>, url: string)
    requires lead == "" || lead == "\n"
    requires |done| <= MAX_PROPERTY && AllGood(properties) && (url != "" <==> HasUrl(done))
    ensures Properties(lead + Print(properties), done, url) ==
              var all := done + properties;
              if |all| < MAX_PROPERTY && !HasUrl(all) then Raised(UrlMissing) else Ok(AtMost(all, MAX_PROPERTY))
    decreases |properties|
  {
    hide TagOf, ValueOf, AfterTag, AfterValue, PrintLine, HasUrl;
    if |done| == MAX_PROPERTY {
      assert AtMost(done + properties, MAX_PROPERTY) == done;
    } else if properties == [] {
      assert lead + "" == lead && done + [] == done;
      EndScanned(lead);
    } else {
      var p := properties[0];
      assert lead + Print(properties) == lead + PrintLine(p) + Print(properties[1..]);
      assert GoodProperty(p);
      LineScanned(lead, p, Print(properties[1..]));
      UrlSnoc(done, p);
      assert done + properties == done + [p] + properties[1..];
      PrintedParsed("\n", properties[1..], done + [p], if p.name == URL_TAG then p.value else url);
    }
  }

  // The text of any number of well-formed properties after a channel name is
  // parsed back to them: all of them up to 50, the first 50 beyond that. A
  // missing URL is noticed only when there are fewer than 50.
  lemma ParsePrinted(channel: string, properties: seq<Property>)
    requires GoodChannel(channel) && AllGood(properties)
    ensures Extract(channel + Print(properties)) ==
              if |properties| < 50 && !HasUrl(properties) then Raised(UrlMissing)
              else Ok(Profile(channel, Handed(AtMost(properties, 50))))
  {
    hide HasUrl, AtMost, Properties, Handed, Find, Before, After, GoodProperty, Print;
    var text := Print(properties);
    PrintStart(properties);
    FindStop(channel, text, IsSpace);
    assert "" + text == text && [] + properties == properties;
    NoUrl();
    PrintedParsed("", properties, [], "");
  }

  lemma PrintStart(properties: seq<Property>)
    ensures Print(properties) == "" || IsSpace(Print(properties)[0])
  {
  }

  lemma NoUrl()
    ensures !HasUrl([])
  {
  }

  // ----- Exactly what comes back -----

  // A property of a profile, whose value may have been cut to nothing.
  ghost predicate HandedProperty(p: Property) {
    KnownTag(p.name) && Free(p.value, '\0') && (p.value == "" || GoodValue(p.value))
  }

  lemma CutProperty(p: Property)
    requires GoodProperty(p)
    ensures HandedProperty(Property(CString(p.name), CString(p.value)))
    ensures Free(p.value, '\0') ==> Property(CString(p.name), CString(p.value)) == p
  {
    CStringWhole(p.name);
    CStringWhole(p.value);
    hide CString;
  }

  lemma EmptyValueScanned(lead: string, tag: string, more: string)
    requires lead == "" || lead == "\n"
    requires KnownTag(tag)
    ensures var rest := lead + PrintLine(Property(tag, "")) + more;
            TagOf(rest) == tag && ValueOf(AfterTag(rest)) == ""
  {
    hide TagOf, AfterTag, Before, After, Find;
    assert lead + PrintLine(Property(tag, "")) + more == (lead + "\t") + (tag + ("=" + ("\n" + more)));
    TagScanned(lead, tag, "\n" + more);
    assert Without("=", NotEqual) && NotEqual(("\n" + more)[0]);
    FindStop("=", "\n" + more, NotEqual);
    FindHere("\n" + more, IsSpace);
  }

  // An empty value that is printed is refused when it is parsed back.
  lemma {:induction false} EmptyValueRefused(lead: string, properties: seq<Property>, done: seq<Property>, url: string)
    requires lead == "" || lead == "\n"
    requires |done| + |properties| <= MAX_PROPERTY
    requires forall i | 0 <= i < |properties| :: HandedProperty(properties[i])
    ensures Properties(lead + Print(properties), done, url).Ok? ==> AllGood(properties)
    decreases |properties|
  {
    hide TagOf, ValueOf, AfterTag, AfterValue, PrintLine, GoodValue;
    if properties != [] {
      var p := properties[0];
      var more := Print(properties[1..]);
      assert lead + Print(properties) == lead + PrintLine(p) + more;
      assert HandedProperty(p);
      if p.value == "" {
        assert p == Property(p.name, "");
        EmptyValueScanned(lead, p.name, more);
      } else {
        LineScanned(lead, p, more);
        EmptyValueRefused("\n", properties[1..], done + [p], if p.name == URL_TAG then p.value else url);
        assert forall i | 0 < i < |properties| :: properties[i] == properties[1..][i - 1];
      }
    }
  }

  // Printing and parsing return what they were given exactly for these
  // channels and property lists.
  ghost predicate RoundTrips(channel: string, properties: seq<Property>) {
    && GoodChannel(channel) && AllGood(properties)
    && (forall i | 0 <= i < |properties| :: Free(properties[i].value, '\0'))
    && |properties| <= MAX_PROPERTY && (HasUrl(properties) || |properties| == MAX_PROPERTY)
  }

  lemma HandedWhole(properties: seq<Property>)
    requires AllGood(properties) && forall i | 0 <= i < |properties| :: Free(properties[i].value, '\0')
    ensures Handed(properties) == properties
  {
    hide GoodProperty, CString;
    forall i | 0 <= i < |properties| ensures Handed(properties)[i] == properties[i] {
      CutProperty(properties[i]);
    }
  }

  lemma HandedAll(properties: seq<Property>)
    requires AllGood(properties)
    ensures forall i | 0 <= i < |properties| :: HandedProperty(Handed(properties)[i])
    ensures HasUrl(Handed(properties)) <==> HasUrl(properties)
  {
    hide GoodValue, CString, HandedProperty;
    var r := Handed(properties);
    forall i | 0 <= i < |properties| ensures HandedProperty(r[i]) && r[i].name == properties[i].name {
      assert GoodProperty(properties[i]);
      CutProperty(properties[i]);
      CStringWhole(properties[i].name);
    }
    assert HasUrl(properties) ==> HasUrl(r) by {
      if HasUrl(properties) {
        var i :| 0 <= i < |properties| && properties[i].name == URL_TAG;
        assert r[i].name == URL_TAG;
      }
    }
  }

  // What the parser returns for a printed text, if it is what was printed.
  lemma ReturnedRoundTrips(channel: string, properties: seq<Property>)
    requires Extract(channel + Print(properties)) == Ok(Profile(channel, properties))
    ensures RoundTrips(channel, properties)
  {
    var text := channel + Print(properties);
    hide Find, IsSpace, Properties, GoodProperty, HandedProperty, HasUrl, Handed, Print;
    NoUrl();
    PropertiesGood(After(text, IsSpace), [], "");
    HandedAll(Properties(After(text, IsSpace), [], "").value);
    ChannelGood(text);
    assert GoodChannel(channel);
    PrintStart(properties);
    FindStop(channel, Print(properties), IsSpace);
    assert "" + Print(properties) == Print(properties);
    EmptyValueRefused("", properties, [], "");
    HandedFree(properties);
  }

  lemma ChannelGood(text: string)
    requires Before(text, IsSpace) != ""
    ensures GoodChannel(Before(text, IsSpace))
  {
  }

  lemma HandedFree(properties: seq<Property>)
    requires forall i | 0 <= i < |properties| :: HandedProperty(properties[i])
    ensures forall i | 0 <= i < |properties| :: Free(properties[i].value, '\0')
  {
    hide GoodValue;
  }

  lemma RoundTripIff(channel: string, properties: seq<Property>)
    ensures Extract(channel + Print(properties)) == Ok(Profile(channel, properties)) <==>
      RoundTrips(channel, properties)
  {
    hide Extract, Handed, Print, HasUrl, GoodChannel, GoodProperty;
    if RoundTrips(channel, properties) {
      ParsePrinted(channel, properties);
      HandedWhole(properties);
    }
    if Extract(channel + Print(properties)) == Ok(Profile(channel, properties)) {
      ReturnedRoundTrips(channel, properties);
    }
  }

  // ----- What is refused -----

  lemma ChannelMissingIff(arg: string)
    ensures Extract(arg) == Raised(ChannelMissing) <==> arg == "" || IsSpace(arg[0])
  {
    hide IsSpace;
    NeverChannel(After(arg, IsSpace), [], "");
  }

  lemma {:induction false} NeverChannel(rest: string, done: seq<Property>, url: string)
    requires |done| <= MAX_PROPERTY
    ensures Properties(rest, done, url) != Raised(ChannelMissing)
    decreases MAX_PROPERTY - |done|
  {
    hide TagOf, ValueOf, AfterTag, AfterValue;
    if |done| < MAX_PROPERTY {
      var tag, value := TagOf(rest), ValueOf(AfterTag(rest));
      NeverChannel(AfterValue(AfterTag(rest)), done + [Property(tag, value)], if tag == URL_TAG then value else url);
    }
  }

  // Well-formed properties that leave room are read before whatever follows.
  lemma {:induction false} PrintedThen(lead: string, properties: seq<Property>, tail: string, done: seq<Property>,
                                       url: string)
    requires lead == "" || lead == "\n"
    requires |done| + |properties| < MAX_PROPERTY && AllGood(properties)
    requires forall d: seq<Property>, u, l | |d| == |done| + |properties| && (l == "" || l == "\n") ::
               Properties(l + tail, d, u) == Raised(InvalidDescription)
    ensures Properties(lead + Print(properties) + tail, done, url) == Raised(InvalidDescription)
    decreases |properties|
  {
    hide TagOf, ValueOf, AfterTag, AfterValue, PrintLine, GoodValue;
    if properties == [] {
      assert lead + Print(properties) + tail == lead + tail;
      assert Properties(lead + tail, done, url) == Raised(InvalidDescription);
    } else {
      var p := properties[0];
      var more := Print(properties[1..]) + tail;
      assert lead + Print(properties) + tail == lead + PrintLine(p) + more;
      assert GoodProperty(p);
      LineScanned(lead, p, more);
      PrintedThen("\n", properties[1..], tail, done + [p], if p.name == URL_TAG then p.value else url);
      assert "\n" + Print(properties[1..]) + tail == "\n" + more;
    }
  }

  lemma UnknownTagRead(lead: string, tag: string, more: string)
    requires lead == "" || lead == "\n"
    requires tag != "" && Without(tag, IsEqual) && NotSpace(tag[0])
    ensures TagOf(lead + ("\t" + tag + "=" + more)) == tag
  {
    hide Before, After, Find;
    assert lead + ("\t" + tag + "=" + more) == (lead + "\t") + (tag + ("=" + more));
    assert Without(lead + "\t", NotSpace);
    FindStop(lead + "\t", tag + ("=" + more), NotSpace);
    FindStop(tag, "=" + more, IsEqual);
  }

  // An unknown tag among the first fifty properties makes the whole
  // description invalid, wherever it stands and whatever follows.
  lemma UnknownTagRefused(channel: string, properties: seq<Property>, tag: string, more: string)
    requires GoodChannel(channel) && AllGood(properties) && |properties| < MAX_PROPERTY
    requires tag != "" && Without(tag, IsEqual) && NotSpace(tag[0]) && !KnownTag(tag)
    ensures Extract(channel + (Print(properties) + ("\t" + tag + "=" + more))) == Raised(InvalidDescription)
  {
    hide TagOf, ValueOf, AfterTag, AfterValue, Find, Before, After, KnownTag, GoodProperty, Print;
    var tail := "\t" + tag + "=" + more;
    forall d: seq<Property>, u, l | |d| == |properties| && (l == "" || l == "\n")
      ensures Properties(l + tail, d, u) == Raised(InvalidDescription)
    {
      UnknownTagRead(l, tag, more);
    }
    Refused(channel, properties, tail);
  }

  // So does an empty value.
  lemma EmptyValueInvalid(channel: string, properties: seq<Property>, tag: string, more: string)
    requires GoodChannel(channel) && AllGood(properties) && |properties| < MAX_PROPERTY && KnownTag(tag)
    ensures Extract(channel + (Print(properties) + (PrintLine(Property(tag, "")) + more))) == Raised(InvalidDescription)
  {
    hide Properties, Extract, GoodProperty, Print, PrintLine, GoodChannel;
    var tail := PrintLine(Property(tag, "")) + more;
    forall d: seq<Property>, u, l | |d| == |properties| && (l == "" || l == "\n")
      ensures Properties(l + tail, d, u) == Raised(InvalidDescription)
    {
      EmptyValueStops(l, tag, more, d, u);
    }
    TailStarts(tag, more);
    Refused(channel, properties, tail);
  }

  lemma EmptyValueStops(lead: string, tag: string, more: string, done: seq<Property>, url: string)
    requires (lead == "" || lead == "\n") && |done| < MAX_PROPERTY && KnownTag(tag)
    ensures Properties(lead + (PrintLine(Property(tag, "")) + more), done, url) == Raised(InvalidDescription)
  {
    hide TagOf, ValueOf, AfterTag, AfterValue, PrintLine;
    assert lead + (PrintLine(Property(tag, "")) + more) == lead + PrintLine(Property(tag, "")) + more;
    EmptyValueScanned(lead, tag, more);
  }

  lemma TailStarts(tag: string, more: string)
    ensures var t := PrintLine(Property(tag, "")) + more; t != "" && t[0] == '\t'
  {
  }

  lemma Refused(channel: string, properties: seq<Property>, tail: string)
    requires GoodChannel(channel) && AllGood(properties) && |properties| < MAX_PROPERTY && tail != "" && tail[0] == '\t'
    requires forall d: seq<Property>, u, l | |d| == |properties| && (l == "" || l == "\n") ::
               Properties(l + tail, d, u) == Raised(InvalidDescription)
    ensures Extract(channel + (Print(properties) + tail)) == Raised(InvalidDescription)
  {
    hide Properties, Find, Before, After, GoodProperty, Handed, Print;
    var text := Print(properties) + tail;
    PrintStart(properties);
    assert IsSpace(text[0]);
    FindStop(channel, text, IsSpace);
    assert "" + Print(properties) + tail == text;
    PrintedThen("", properties, tail, [], "");
  }

  // The texts themselves: a profile with both tags, and one without the URL.
  const BOTH: seq<Property> := [Property("URL", "u"), Property("IDL", "i")]

  lemma TextsPrinted()
    ensures Print(BOTH) == "\tURL=u\n\tIDL=i\n" && Print(BOTH[1..]) == "\tIDL=i\n"
  {
    assert BOTH[1..][1..] == [];
  }

  lemma TextsGood()
    ensures GoodChannel("ch") && AllGood(BOTH) && AllGood(BOTH[1..]) && HasUrl(BOTH) && !HasUrl(BOTH[1..])
    ensures forall i | 0 <= i < |BOTH| :: Free(BOTH[i].value, '\0')
  {
    assert BOTH[0].name == URL_TAG;
  }

  lemma TextsParsed()
    ensures Extract("ch" + "\tURL=u\n\tIDL=i\n") == Ok(Profile("ch", BOTH))
    ensures Extract("ch" + "\tIDL=i\n") == Raised(UrlMissing)
  {
    TextsPrinted();
    TextsGood();
    hide *;
    ParsePrinted("ch", BOTH);
    ParsePrinted("ch", BOTH[1..]);
    HandedWhole(BOTH);
    Two();
  }

  lemma Two()
    ensures AtMost(BOTH, 50) == BOTH && |BOTH[1..]| == 1
  {
  }
}
