// std::find_if over strings, as the console's parsers use it.
module Scanning {

  predicate IsSpace(c: char) {
    c == ' ' || c == '\t' || c == '\n' || c == '\r' || c == 11 as char || c == 12 as char
  }

  predicate NotSpace(c: char) {
    !IsSpace(c)
  }

  predicate IsEqual(c: char) {
    c == '='
  }

  predicate NotEqual(c: char) {
    c != '='
  }

  // The position of the first character that satisfies p, or |s|.
  function Find(s: string, p: char -> bool): (i: nat)
    ensures i <= |s|
    ensures forall k | 0 <= k < i :: !p(s[k])
    ensures i < |s| ==> p(s[i])
  {
    if s == "" || p(s[0]) then 0 else 1 + Find(s[1..], p)
  }

  // find_if from an iterator on.
  function FindFrom(s: string, from: nat, p: char -> bool): (i: nat)
    requires from <= |s|
    ensures from <= i <= |s|
  {
    from + Find(s[from..], p)
  }

  function Before(s: string, p: char -> bool): string {
    s[..Find(s, p)]
  }

  function After(s: string, p: char -> bool): string {
    s[Find(s, p)..]
  }

  ghost predicate Without(s: string, p: char -> bool) {
    forall k | 0 <= k < |s| :: !p(s[k])
  }

  // Searching past a stretch without p.
  lemma {:induction false} FindPast(a: string, b: string, p: char -> bool)
    requires Without(a, p)
    ensures Find(a + b, p) == |a| + Find(b, p)
    ensures Before(a + b, p) == a + Before(b, p) && After(a + b, p) == After(b, p)
    decreases |a|
  {
    if a == "" {
      assert a + b == b;
    } else {
      assert (a + b)[1..] == a[1..] + b;
      FindPast(a[1..], b, p);
    }
  }

  lemma FindHere(b: string, p: char -> bool)
    requires b == "" || p(b[0])
    ensures Find(b, p) == 0 && Before(b, p) == "" && After(b, p) == b
  {
  }

  // A stretch without p, followed by one that begins with p or ends.
  lemma FindStop(a: string, b: string, p: char -> bool)
    requires Without(a, p) && (b == "" || p(b[0]))
    ensures Before(a + b, p) == a && After(a + b, p) == b
  {
    FindPast(a, b, p);
    FindHere(b, p);
    assert a + "" == a;
  }

  // What an iterator pair copies and where the second one stands.
  lemma FindSlice(s: string, from: nat, p: char -> bool)
    requires from <= |s|
    ensures s[from..FindFrom(s, from, p)] == Before(s[from..], p)
    ensures s[FindFrom(s, from, p)..] == After(s[from..], p)
  {
  }

  // The blank-separated words of a text.
  function Tokens(s: string): seq<string>
    decreases |s|
  {
    var t := After(s, NotSpace);
    if t == "" then [] else
      assert NotSpace(t[0]);
      [Before(t, IsSpace)] + Tokens(After(t, IsSpace))
  }

  // Leading blanks do not matter to it.
  lemma TokensSkip(s: string)
    ensures Tokens(After(s, NotSpace)) == Tokens(s)
  {
    var t := After(s, NotSpace);
    FindHere(t, NotSpace);
  }

  // The blanks are the six characters that isspace names in the C locale.
  lemma BlankCodes(c: char)
    ensures IsSpace(c) <==> c as int == 32 || 9 <= c as int <= 13
  {
  }

  // The words of a text are determined by three laws: a text without blanks is
  // one word, nothing is none, and a blank parts the words on its two sides.
  lemma OneWord(word: string)
    requires Without(word, IsSpace)
    ensures Tokens(word) == if word == "" then [] else [word]
  {
    if word != "" {
      FindHere(word, NotSpace);
      assert word + "" == word;
      FindStop(word, "", IsSpace);
      assert Tokens("") == [];
    }
  }

  lemma {:induction false} BlankParts(a: string, blank: char, b: string)
    requires IsSpace(blank)
    ensures Tokens(a + [blank] + b) == Tokens(a) + Tokens(b)
    decreases |a|
  {
    hide IsSpace, Find, Before, After, Tokens;
    var t := After(a, NotSpace);
    var all := a + [blank] + b;
    LeadCut(a, [blank] + b);
    assert all == a + ([blank] + b);
    TokensStep(a);
    if t == "" {
      FindPast([blank], b, NotSpace);
      TokensStep(all);
      TokensStep(b);
      assert Tokens(a) + Tokens(b) == Tokens(b);
    } else {
      StartsWord(a);
      WordCut(t, blank, b);
      var w, rest := Before(t, IsSpace), After(t, IsSpace);
      assert rest + [blank] + b == rest + ([blank] + b);
      TokensStep(all);
      FindShorter(a);
      BlankParts(rest, blank, b);
      assert [w] + (Tokens(rest) + Tokens(b)) == [w] + Tokens(rest) + Tokens(b);
    }
  }

  lemma TokensStep(s: string)
    ensures var t := After(s, NotSpace);
            Tokens(s) == if t == "" then [] else [Before(t, IsSpace)] + Tokens(After(t, IsSpace))
  {
  }

  lemma StartsWord(s: string)
    requires After(s, NotSpace) != ""
    ensures NotSpace(After(s, NotSpace)[0])
  {
  }

  lemma FindShorter(s: string)
    ensures |After(s, NotSpace)| <= |s|
  {
  }

  // Skipping the leading blanks of a text with more behind it.
  lemma LeadCut(a: string, more: string)
    ensures After(a, NotSpace) == "" ==> After(a + more, NotSpace) == After(more, NotSpace)
    ensures After(a, NotSpace) != "" ==> After(a + more, NotSpace) == After(a, NotSpace) + more
  {
    var i := Find(a, NotSpace);
    if i == |a| {
      FindPast(a, more, NotSpace);
    } else {
      assert a + more == a[..i] + (a[i..] + more);
      FindStop(a[..i], a[i..] + more, NotSpace);
    }
  }

  // And taking its first word.
  lemma WordCut(t: string, blank: char, b: string)
    requires t != "" && NotSpace(t[0]) && IsSpace(blank)
    ensures var u := t + ([blank] + b);
            && Before(u, IsSpace) == Before(t, IsSpace) != ""
            && After(u, IsSpace) == After(t, IsSpace) + ([blank] + b)
            && |After(t, IsSpace)| < |t|
  {
    var i := Find(t, IsSpace);
    assert t + ([blank] + b) == t[..i] + (t[i..] + ([blank] + b));
    assert (t[i..] + ([blank] + b))[0] == if i < |t| then t[i] else blank;
    FindStop(t[..i], t[i..] + ([blank] + b), IsSpace);
  }
}
