// The process-wide identifier counter and the texts made from it: cookies,
// component object ids, home ids.
module Identifiers {
  import opened Text

  const MAX_COUNTER: nat := 0xFFFF_FFFF
  const MODULUS: nat := 0x1_0000_0000

  // The value the n-th draw returns.
  function Drawn(n: nat): (id: nat)
    ensures id <= MAX_COUNTER
  {
    n % MODULUS
  }

  // The static counter behind create_identifier; its mutex makes a draw one
  // step. draws counts the calls made since the process started.
  class IdentifierCounter {
    var counter: nat
    ghost var draws: nat

    ghost predicate Valid()
      reads this
    {
      counter == Drawn(draws)
    }

    constructor ()
      ensures Valid() && draws == 0
    {
      counter, draws := 0, 0;
    }

    method CreateIdentifier() returns (id: nat)
      requires Valid()
      modifies this
      ensures Valid() && draws == old(draws) + 1
      ensures id == Drawn(draws)
    {
      if counter == MAX_COUNTER {
        counter := 0;
      } else {
        counter := counter + 1;
      }
      draws := draws + 1;
      id := counter;
    }

    method CreateUniqueIdentifier(prefix: string, fillWidth: int) returns (text: string)
      requires Valid()
      modifies this
      ensures Valid() && draws == old(draws) + 1
      ensures text == UniqueText(prefix, fillWidth, Drawn(draws))
    {
      var id := CreateIdentifier();
      if fillWidth > 0 {
        text := prefix + "_" + ZeroFilled(id, fillWidth);
      } else {
        text := prefix + "_" + Decimal(id);
      }
    }

    // Cookie_impl::create_cookie and Session2Context_impl::create_ObjectId
    // print the same text; now is what the system clock reports.
    method CreateStamp(now: Timeval) returns (text: string)
      requires Valid()
      modifies this
      ensures Valid() && draws == old(draws) + 1
      ensures text == Stamp(now, Drawn(draws))
    {
      var id := CreateIdentifier();
      text := SignedDecimal(now.seconds) + ":" + SignedDecimal(now.microseconds) + ":" + Decimal(id);
    }
  }

  // ----- prefix_counter texts -----

  function UniqueText(prefix: string, fillWidth: int, id: nat): string {
    prefix + "_" + if fillWidth > 0 then ZeroFilled(id, fillWidth) else Decimal(id)
  }

  // Whatever the prefixes hold, underscores and digits included, the text
  // tells both the prefix and the identifier.
  lemma UniqueTextInjective(p: string, m: nat, q: string, n: nat, fillWidth: int)
    requires UniqueText(p, fillWidth, m) == UniqueText(q, fillWidth, n)
    ensures p == q && m == n
  {
    var a := if fillWidth > 0 then ZeroFilled(m, fillWidth) else Decimal(m);
    var b := if fillWidth > 0 then ZeroFilled(n, fillWidth) else Decimal(n);
    LastUnderscore(p, a, q, b);
    if fillWidth > 0 {
      ZeroFilledValue(m, fillWidth);
      ZeroFilledValue(n, fillWidth);
    } else {
      DecimalInjective(m, n);
    }
  }

  lemma {:induction false} LastUnderscore(p: string, a: string, q: string, b: string)
    requires Digits(a) && Digits(b)
    requires p + "_" + a == q + "_" + b
    ensures p == q && a == b
    decreases |a|
  {
    var s := p + "_" + a;
    assert a == [] <==> s[|s| - 1] == '_';
    assert b == [] <==> s[|s| - 1] == '_';
    if a == [] {
      assert p == s[..|s| - 1] == q;
    } else {
      assert s[..|s| - 1] == p + "_" + a[..|a| - 1] == q + "_" + b[..|b| - 1];
      LastUnderscore(p, a[..|a| - 1], q, b[..|b| - 1]);
      assert a[|a| - 1] == s[|s| - 1] == b[|b| - 1];
      assert a == a[..|a| - 1] + [a[|a| - 1]] && b == b[..|b| - 1] + [b[|b| - 1]];
    }
  }

  // ----- sec:usec:counter texts -----

  datatype Timeval = Timeval(seconds: int, microseconds: int)

  function StampFields(t: Timeval, id: nat): (parts: seq<string>)
    ensures |parts| == 3
  {
    [SignedDecimal(t.seconds), SignedDecimal(t.microseconds), Decimal(id)]
  }

  function Stamp(t: Timeval, id: nat): string {
    SignedDecimal(t.seconds) + ":" + SignedDecimal(t.microseconds) + ":" + Decimal(id)
  }

  lemma StampIsJoin(t: Timeval, id: nat)
    ensures Stamp(t, id) == Join(StampFields(t, id), ':')
  {
    hide SignedDecimal, Decimal;
    var f := StampFields(t, id);
    assert f[1..][1..] == [f[2]];
    assert Join(f[1..], ':') == f[1] + [':'] + f[2];
    assert Join(f, ':') == f[0] + [':'] + (f[1] + [':'] + f[2]);
  }

  lemma StampSplit(t: Timeval, id: nat)
    ensures Split(Stamp(t, id), ':') == StampFields(t, id)
  {
    DecimalFree(t.seconds, ':');
    DecimalFree(t.microseconds, ':');
    DecimalFree(id, ':');
    hide SignedDecimal, Decimal, Split, Join;
    var f := StampFields(t, id);
    assert Free(f[0], ':') && Free(f[1], ':') && Free(f[2], ':');
    assert AllFree(f, ':');
    StampIsJoin(t, id);
    SplitJoin(f, ':');
  }

  // Two stamps drawn at any clock readings, running backwards included, are
  // equal only when the readings are equal and the draws lie a multiple of
  // 2^32 apart.
  lemma StampsCollide(s: Timeval, m: nat, t: Timeval, n: nat)
    ensures Stamp(s, Drawn(m)) == Stamp(t, Drawn(n)) <==> s == t && m % 0x1_0000_0000 == n % 0x1_0000_0000
  {
    StampSplit(s, Drawn(m));
    StampSplit(t, Drawn(n));
    hide SignedDecimal, Decimal, Split;
    if Stamp(s, Drawn(m)) == Stamp(t, Drawn(n)) {
      assert StampFields(s, Drawn(m))[0] == StampFields(t, Drawn(n))[0];
      assert StampFields(s, Drawn(m))[1] == StampFields(t, Drawn(n))[1];
      assert StampFields(s, Drawn(m))[2] == StampFields(t, Drawn(n))[2];
      SignedDecimalInjective(s.seconds, t.seconds);
      SignedDecimalInjective(s.microseconds, t.microseconds);
      DecimalInjective(Drawn(m), Drawn(n));
    }
  }

  // The texts of a run that draws once at each clock reading.
  ghost function StampRun(clock: seq<Timeval>): (r: seq<string>)
    ensures |r| == |clock|
  {
    seq(|clock|, i requires 0 <= i < |clock| => Stamp(clock[i], Drawn(i + 1)))
  }

  // Up to 2^32 draws every text is new, whatever the clock does.
  lemma StampRunDistinct(clock: seq<Timeval>, i: nat, j: nat)
    requires i < j < |clock| <= MODULUS
    ensures StampRun(clock)[i] != StampRun(clock)[j]
  {
    hide Stamp, Drawn;
    StampsCollide(clock[i], i + 1, clock[j], j + 1);
    ResiduesDiffer(i + 1, j + 1);
  }

  lemma ResiduesDiffer(m: nat, n: nat)
    requires 1 <= m < n <= MODULUS
    ensures m % MODULUS != n % MODULUS
  {
    assert m % MODULUS == m;
    assert n % MODULUS == if n == MODULUS then 0 else n;
  }

  // One draw more, with the clock standing still, repeats the first text.
  lemma StampRunRepeats(clock: seq<Timeval>)
    requires |clock| > MODULUS && clock[0] == clock[MODULUS]
    ensures StampRun(clock)[0] == StampRun(clock)[MODULUS]
  {
    StampsCollide(clock[0], 1, clock[MODULUS], MODULUS + 1);
  }

  // What makes a stamp usable inside an object id and as a cookie.
  lemma StampCharacters(t: Timeval, id: nat)
    ensures Free(Stamp(t, id), '/') && Free(Stamp(t, id), '\0') && ':' in Stamp(t, id)
  {
    var s := Stamp(t, id);
    DecimalFree(t.seconds, '/');
    DecimalFree(t.microseconds, '/');
    DecimalFree(id, '/');
    DecimalFree(t.seconds, '\0');
    DecimalFree(t.microseconds, '\0');
    DecimalFree(id, '\0');
    hide SignedDecimal, Decimal;
    assert s[|SignedDecimal(t.seconds)|] == ':';
  }

  // ----- Which draw made a text -----

  ghost function CounterOf(text: string): nat {
    var parts := Split(text, ':');
    var last := parts[|parts| - 1];
    if Digits(last) then NatValue(last) else 0
  }

  // The number of the draw among the first 2^32: value 0 is the last of them.
  ghost function DrawOf(text: string): nat {
    if CounterOf(text) == 0 then MODULUS else CounterOf(text)
  }

  // Is text one that the first n draws can have produced?
  ghost predicate DrawnBefore(text: string, n: nat) {
    && 1 <= DrawOf(text) <= n
    && Free(text, '/') && Free(text, '\0') && ':' in text
  }

  lemma StampCounter(t: Timeval, id: nat)
    ensures CounterOf(Stamp(t, id)) == id
  {
    StampSplit(t, id);
    DecimalValue(id);
    hide Stamp, SignedDecimal, Decimal, NatValue, Split;
    assert StampFields(t, id)[2] == Decimal(id);
  }

  lemma StampDraw(t: Timeval, n: nat)
    requires 1 <= n <= MODULUS
    ensures DrawOf(Stamp(t, Drawn(n))) == n
    ensures DrawnBefore(Stamp(t, Drawn(n)), n)
    ensures !DrawnBefore(Stamp(t, Drawn(n)), n - 1)
  {
    hide Stamp, CounterOf, Free, Drawn;
    StampCounter(t, Drawn(n));
    StampCharacters(t, Drawn(n));
    DrawnSmall(n);
  }

  lemma DrawnSmall(n: nat)
    requires 1 <= n <= MODULUS
    ensures Drawn(n) == if n == MODULUS then 0 else n
  {
  }

  // The texts themselves, fields in order and separated as printed.
  lemma StampPrinted()
    ensures Stamp(Timeval(12, -3), 405) == "12:-3:405"
  {
    assert Decimal(1) == "1" && Decimal(3) == "3" && Decimal(4) == "4";
    assert Decimal(12) == "12" && Decimal(40) == "40";
    assert Decimal(405) == "405";
    hide Decimal;
  }

  lemma UniqueTextPrinted()
    ensures UniqueText("home", 3, 7) == "home_007" && UniqueText("home", 0, 7) == "home_7"
  {
    assert Decimal(7) == "7";
    assert Zeros(2) == "00";
    hide Decimal;
  }
}
