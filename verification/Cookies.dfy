// Cookie values: octet sequences, their text, and the order that the maps
// keyed by cookie use.
module Cookies {
  import opened Outcomes
  import opened Text

  type Octets = string

  datatype ConversionError = EmbeddedNul

  function StringToOctets(s: string): Octets {
    CString(s)
  }

  function OctetsToString(octets: Octets): Result<string, ConversionError> {
    if '\0' in octets then Raised(EmbeddedNul) else Ok(octets)
  }

  // The conversions undo each other exactly on NUL-free text; any other text
  // comes back cut at its first NUL.
  lemma ConversionRoundTrip(s: string)
    ensures OctetsToString(StringToOctets(s)) == Ok(s) <==> Free(s, '\0')
    ensures OctetsToString(StringToOctets(s)) == Ok(CString(s))
  {
    CStringWhole(s);
  }

  // Cookie_impl::operator< converts both values to text first. It is declared
  // throw(), so a conversion error ends the process: no answer.
  function CookieLess(a: Octets, b: Octets): Option<bool> {
    match (OctetsToString(a), OctetsToString(b))
    case (Ok(left), Ok(right)) => Some(Less(left, right))
    case _ => None
  }

  // On NUL-free octets the comparison is a strict total order, which is what
  // std::map asks of it.
  lemma CookieOrder(a: Octets, b: Octets, c: Octets)
    requires Free(a, '\0') && Free(b, '\0') && Free(c, '\0')
    ensures CookieLess(a, a) == Some(false)
    ensures CookieLess(a, b) == Some(true) && CookieLess(b, c) == Some(true) ==> CookieLess(a, c) == Some(true)
    ensures CookieLess(a, b) == Some(false) && CookieLess(b, a) == Some(false) <==> a == b
  {
    LessIrreflexive(a);
    LessTotal(a, b);
    if Less(a, b) && Less(b, c) {
      LessTransitive(a, b, c);
    }
  }

  // Searching a map keyed by cookies compares the cookie given with at least
  // one key as soon as the map holds one.
  predicate Comparable<V>(m: map<Octets, V>, ck: Octets) {
    m == map[] || Free(ck, '\0')
  }

  // With NUL-free keys, as create_cookie makes them, every one of those
  // comparisons ends the process, or none does.
  lemma ComparableIff<V>(m: map<Octets, V>, ck: Octets, k: Octets)
    requires k in m && Free(k, '\0')
    ensures CookieLess(ck, k).None? <==> !Comparable(m, ck)
    ensures CookieLess(k, ck).None? <==> !Comparable(m, ck)
  {
    assert m != map[];
  }
}
