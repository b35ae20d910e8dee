// Character strings as the runtime uses them: joining and splitting at a
// separator, decimal text, and the byte-wise order of std::string.
module Text {

  // ----- Joining and splitting -----

  // Does character c occur nowhere in s?
  predicate Free(s: string, c: char) {
    c !in s
  }

  ghost predicate AllFree(parts: seq<string>, c: char) {
    forall i | 0 <= i < |parts| :: Free(parts[i], c)
  }

  // The parts with one separator between each two neighbours.
  function Join(parts: seq<string>, sep: char): string
    requires |parts| > 0
  {
    if |parts| == 1 then parts[0] else parts[0] + [sep] + Join(parts[1..], sep)
  }

  // The position of the first c in s, or |s|.
  function FirstIndex(s: string, c: char): (i: nat)
    ensures i <= |s|
    ensures Free(s[..i], c)
    ensures i < |s| ==> s[i] == c
  {
    if s == [] || s[0] == c then 0
    else
      var i := 1 + FirstIndex(s[1..], c);
      assert s[..i] == [s[0]] + s[1..][..i - 1];
      i
  }

  // A C string ends at its first NUL character.
  function CString(s: string): (r: string)
    ensures r <= s && Free(r, '\0')
  {
    s[..FirstIndex(s, '\0')]
  }

  lemma CStringWhole(s: string)
    ensures CString(s) == s <==> Free(s, '\0')
  {
    assert Free(s, '\0') ==> FirstIndex(s, '\0') == |s|;
    assert s[..|s|] == s;
  }

  // The separator-free pieces of s, in order.
  function Split(s: string, sep: char): (parts: seq<string>)
    ensures |parts| > 0
    ensures AllFree(parts, sep)
    ensures Join(parts, sep) == s
    decreases |s|
  {
    var i := FirstIndex(s, sep);
    if i == |s| then
      assert s[..i] == s;
      [s]
    else
      var rest := Split(s[i + 1..], sep);
      var parts := [s[..i]] + rest;
      assert parts[1..] == rest;
      assert s == s[..i] + [sep] + s[i + 1..];
      parts
  }

  lemma {:induction false} FirstIndexUnique(s: string, c: char, k: nat)
    requires k <= |s| && Free(s[..k], c) && (k < |s| ==> s[k] == c)
    ensures FirstIndex(s, c) == k
  {
    if k > 0 {
      assert s[0] == s[..k][0];
      assert s[1..][..k - 1] == s[..k][1..];
      FirstIndexUnique(s[1..], c, k - 1);
    }
  }

  // Where the first separator of a joined text lies tells its first part.
  lemma FirstPart(parts: seq<string>, sep: char)
    requires |parts| > 0 && AllFree(parts, sep)
    ensures FirstIndex(Join(parts, sep), sep) == |parts[0]|
  {
    var s := Join(parts, sep);
    assert s[..|parts[0]|] == parts[0];
    FirstIndexUnique(s, sep, |parts[0]|);
  }

  // Splitting is the one inverse of joining: no other list of
  // separator-free parts joins to the same text.
  lemma {:induction false} SplitJoin(parts: seq<string>, sep: char)
    requires |parts| > 0 && AllFree(parts, sep)
    ensures Split(Join(parts, sep), sep) == parts
    decreases |parts|
  {
    FirstPart(parts, sep);
    var s := Join(parts, sep);
    if |parts| == 1 {
    } else {
      assert s[..|parts[0]|] == parts[0];
      assert s[|parts[0]| + 1..] == Join(parts[1..], sep);
      SplitJoin(parts[1..], sep);
      assert parts == [parts[0]] + parts[1..];
    }
  }

  // Appending one more separator-free part appends one piece.
  lemma {:induction false} SplitSnoc(s: string, last: string, sep: char)
    requires Free(last, sep)
    ensures Split(s + [sep] + last, sep) == Split(s, sep) + [last]
  {
    var parts := Split(s, sep);
    JoinSnoc(parts, last, sep);
    SplitJoin(parts + [last], sep);
  }

  // Putting a separator-free part in front adds one piece in front.
  lemma SplitCons(first: string, s: string, sep: char)
    requires Free(first, sep)
    ensures Split(first + [sep] + s, sep) == [first] + Split(s, sep)
  {
    hide Split;
    var pieces := Split(s, sep);
    var all := [first] + pieces;
    assert all[1..] == pieces;
    assert AllFree(all, sep);
    SplitJoin(all, sep);
  }

  lemma {:induction false} JoinSnoc(parts: seq<string>, last: string, sep: char)
    requires |parts| > 0
    ensures Join(parts + [last], sep) == Join(parts, sep) + [sep] + last
    decreases |parts|
  {
    if |parts| > 1 {
      JoinSnoc(parts[1..], last, sep);
      assert (parts + [last])[1..] == parts[1..] + [last];
    } else {
      assert (parts + [last])[1..] == [last];
    }
  }

  lemma ConcatAssociative<T>(a: seq<T>, b: seq<T>, c: seq<T>)
    ensures a + b + c == a + (b + c)
  {
  }

  lemma CutAt(s: string, i: nat)
    requires i < |s|
    ensures s == s[..i] + [s[i]] + s[i + 1..]
  {
  }

  // ----- Decimal text -----

  predicate Digit(c: char) {
    '0' <= c <= '9'
  }

  ghost predicate Digits(s: string) {
    forall i | 0 <= i < |s| :: Digit(s[i])
  }

  function DigitValue(c: char): int
    requires Digit(c)
  {
    c as int - '0' as int
  }

  // What the C++ stream prints for an unsigned number.
  function Decimal(n: nat): (s: string)
    ensures |s| > 0 && Digits(s)
  {
    var last := ['0' + (n % 10) as char];
    if n < 10 then last else Decimal(n / 10) + last
  }

  // What it prints for a signed one.
  function SignedDecimal(n: int): string {
    if n < 0 then "-" + Decimal(-n) else Decimal(n)
  }

  // The number a digit string denotes, leading zeros allowed.
  function NatValue(s: string): nat
    requires Digits(s)
  {
    if s == [] then 0 else NatValue(s[..|s| - 1]) * 10 + DigitValue(s[|s| - 1])
  }

  lemma {:induction false} DecimalValue(n: nat)
    ensures NatValue(Decimal(n)) == n
    decreases n
  {
    var last := '0' + (n % 10) as char;
    assert Decimal(n)[|Decimal(n)| - 1] == last;
    assert DigitValue(last) == n % 10;
    if n >= 10 {
      assert Decimal(n)[..|Decimal(n)| - 1] == Decimal(n / 10);
      DecimalValue(n / 10);
    } else {
      assert Decimal(n)[..0] == [];
    }
  }

  lemma DecimalInjective(m: nat, n: nat)
    requires Decimal(m) == Decimal(n)
    ensures m == n
  {
    DecimalValue(m);
    DecimalValue(n);
  }

  lemma SignedDecimalInjective(m: int, n: int)
    requires SignedDecimal(m) == SignedDecimal(n)
    ensures m == n
  {
    assert (m < 0) == (SignedDecimal(m)[0] == '-');
    assert (n < 0) == (SignedDecimal(n)[0] == '-');
    if m < 0 {
      assert SignedDecimal(m)[1..] == Decimal(-m) && SignedDecimal(n)[1..] == Decimal(-n);
      DecimalInjective(-m, -n);
    } else {
      DecimalInjective(m, n);
    }
  }

  // Decimal text holds no separator that is neither a digit nor a minus sign.
  lemma DecimalFree(n: int, c: char)
    requires !Digit(c) && c != '-'
    ensures Free(SignedDecimal(n), c)
  {
    var text := SignedDecimal(n);
    assert n < 0 ==> text[1..] == Decimal(-n);
    assert forall i | 0 <= i < |text| :: Digit(text[i]) || text[i] == '-';
  }

  function Zeros(n: nat): (s: string)
    ensures |s| == n && forall i | 0 <= i < n :: s[i] == '0'
  {
    if n == 0 then [] else ['0'] + Zeros(n - 1)
  }

  // Decimal text padded with zeros on the left up to a minimum width.
  function ZeroFilled(n: nat, width: nat): (s: string)
    ensures |s| > 0 && Digits(s)
  {
    var digits := Decimal(n);
    if |digits| < width then Zeros(width - |digits|) + digits else digits
  }

  lemma {:induction false} LeadingZeros(k: nat, s: string)
    requires Digits(s)
    ensures Digits(Zeros(k) + s) && NatValue(Zeros(k) + s) == NatValue(s)
    decreases |s|, k
  {
    var t := Zeros(k) + s;
    assert forall i | 0 <= i < |t| :: t[i] == if i < k then '0' else s[i - k];
    if s != [] {
      assert t[..|t| - 1] == Zeros(k) + s[..|s| - 1];
      LeadingZeros(k, s[..|s| - 1]);
    } else if k > 0 {
      assert t[..|t| - 1] == Zeros(k - 1) + [];
      LeadingZeros(k - 1, []);
    }
  }

  lemma ZeroFilledValue(n: nat, width: nat)
    ensures NatValue(ZeroFilled(n, width)) == n
  {
    DecimalValue(n);
    if |Decimal(n)| < width {
      LeadingZeros(width - |Decimal(n)|, Decimal(n));
    }
  }

  // ----- The order of std::string -----

  predicate Less(a: string, b: string) {
    b != [] && (a == [] || a[0] < b[0] || (a[0] == b[0] && Less(a[1..], b[1..])))
  }

  lemma {:induction false} LessIrreflexive(a: string)
    ensures !Less(a, a)
    decreases |a|
  {
    if a != [] {
      LessIrreflexive(a[1..]);
    }
  }

  lemma {:induction false} LessTransitive(a: string, b: string, c: string)
    requires Less(a, b) && Less(b, c)
    ensures Less(a, c)
    decreases |b|
  {
    if a != [] && a[0] == b[0] && b[0] == c[0] {
      LessTransitive(a[1..], b[1..], c[1..]);
    }
  }

  lemma {:induction false} LessTotal(a: string, b: string)
    ensures a == b || Less(a, b) || Less(b, a)
    decreases |a|
  {
    if a != [] && b != [] && a[0] == b[0] {
      LessTotal(a[1..], b[1..]);
      assert a == [a[0]] + a[1..] && b == [b[0]] + b[1..];
    }
  }

  lemma LessAsymmetric(a: string, b: string)
    requires Less(a, b)
    ensures !Less(b, a) && a != b
  {
    LessIrreflexive(a);
    if Less(b, a) {
      LessTransitive(a, b, a);
    }
  }

  // Two texts are ordered by the first place in which they differ, where the
  // shorter of two that do not differ comes first.
  lemma {:induction false} LessMeans(a: string, b: string)
    ensures Less(a, b) <==> exists k :: DiffersAt(a, b, k)
    decreases |a|
  {
    if a == [] && b != [] {
      assert DiffersAt(a, b, 0);
    } else if a != [] && b != [] {
      LessMeans(a[1..], b[1..]);
      if a[0] < b[0] { assert DiffersAt(a, b, 0); }
      if k :| a[0] == b[0] && DiffersAt(a[1..], b[1..], k) {
        assert a[..k + 1] == [a[0]] + a[1..][..k] && b[..k + 1] == [b[0]] + b[1..][..k];
        assert DiffersAt(a, b, k + 1);
      }
      if k :| DiffersAt(a, b, k) { DiffersHead(a, b, k); }
    }
  }

  lemma DiffersHead(a: string, b: string, k: int)
    requires DiffersAt(a, b, k) && a != []
    ensures if k == 0 then a[0] < b[0] else a[0] == b[0] && DiffersAt(a[1..], b[1..], k - 1)
  {
    if k > 0 {
      assert a[0] == a[..k][0] && b[0] == b[..k][0];
      assert a[1..][..k - 1] == a[..k][1..] && b[1..][..k - 1] == b[..k][1..];
    }
  }

  ghost predicate DiffersAt(a: string, b: string, k: int) {
    0 <= k <= |a| && k < |b| && a[..k] == b[..k] && (k == |a| || a[k] < b[k])
  }

  // ----- Iterating over a std::map -----

  ghost predicate Ascending(keys: seq<string>) {
    forall i, j | 0 <= i < j < |keys| :: Less(keys[i], keys[j])
  }

  ghost function Elements(keys: seq<string>): set<string> {
    set k | k in keys
  }

  predicate IsLeast(k: string, keys: set<string>) {
    k in keys && forall j | j in keys :: j == k || Less(k, j)
  }

  lemma {:induction false} LeastExists(keys: set<string>)
    requires keys != {}
    ensures exists k :: IsLeast(k, keys)
    decreases |keys|
  {
    var x :| x in keys;
    var rest := keys - {x};
    if rest == {} {
      assert keys == {x};
      assert IsLeast(x, keys);
    } else {
      LeastExists(rest);
      var m :| IsLeast(m, rest);
      LessTotal(x, m);
      if Less(x, m) {
        forall j | j in keys ensures j == x || Less(x, j) {
          if j != x && j != m { LessTransitive(x, m, j); }
        }
        assert IsLeast(x, keys);
      } else {
        assert IsLeast(m, keys);
      }
    }
  }

  lemma LeastUnique(k: string, m: string, keys: set<string>)
    requires IsLeast(k, keys) && IsLeast(m, keys)
    ensures k == m
  {
    if k != m { LessAsymmetric(k, m); }
  }

  lemma LeastIsFunction(keys: set<string>)
    requires keys != {}
    ensures exists k :: IsLeast(k, keys)
    ensures forall k, m | IsLeast(k, keys) && IsLeast(m, keys) :: k == m
  {
    LeastExists(keys);
    forall k, m | IsLeast(k, keys) && IsLeast(m, keys) ensures k == m {
      LeastUnique(k, m, keys);
    }
  }

  // The key an iterator of a std::map meets first.
  function Least(keys: set<string>): (k: string)
    requires keys != {}
    ensures IsLeast(k, keys)
    ensures k in keys
  {
    LeastIsFunction(keys);
    var k :| IsLeast(k, keys);
    k
  }

  // The order in which iterating over a std::map visits its keys.
  function InOrder(keys: set<string>): (r: seq<string>)
    ensures Ascending(r)
    ensures Elements(r) == keys
    ensures |r| == |keys|
    decreases |keys|
  {
    if keys == {} then []
    else
      var k := Least(keys);
      var rest := InOrder(keys - {k});
      LeastFirst(k, rest, keys);
      [k] + rest
  }

  lemma InOrderStep(keys: set<string>)
    ensures keys == {} ==> InOrder(keys) == []
    ensures keys != {} ==> InOrder(keys) == [Least(keys)] + InOrder(keys - {Least(keys)})
  {
  }

  lemma LeastFirst(k: string, rest: seq<string>, keys: set<string>)
    requires IsLeast(k, keys) && Ascending(rest) && Elements(rest) == keys - {k}
    ensures Ascending([k] + rest) && Elements([k] + rest) == keys
  {
    assert forall i | 0 <= i < |rest| :: rest[i] in Elements(rest);
    var all := [k] + rest;
    assert all[0] == k;
    assert forall i | 0 < i < |all| :: all[i] == rest[i - 1];
    forall x | x in keys ensures x in all {
      if x != k { assert x in Elements(rest); }
    }
  }

  // There is one ascending enumeration of a key set, so the order an
  // iteration reports says nothing beyond the set.
  lemma {:induction false} AscendingUnique(a: seq<string>, b: seq<string>)
    requires Ascending(a) && Ascending(b) && Elements(a) == Elements(b)
    ensures a == b
    decreases |a|
  {
    assert forall i | 0 <= i < |a| :: a[i] in Elements(a);
    assert forall i | 0 <= i < |b| :: b[i] in Elements(b);
    if a == [] {
      assert b == [];
    } else {
      assert a[0] in Elements(b) && b[0] in Elements(a);
      var j :| 0 <= j < |b| && b[j] == a[0];
      var i :| 0 <= i < |a| && a[i] == b[0];
      assert i == 0 || Less(a[0], b[0]);
      assert j == 0 || Less(b[0], a[0]);
      if i > 0 { LessAsymmetric(a[0], b[0]); }
      assert a[0] == b[0];
      RestElements(a);
      RestElements(b);
      AscendingUnique(a[1..], b[1..]);
      assert a == [a[0]] + a[1..] && b == [b[0]] + b[1..];
    }
  }

  lemma RestElements(a: seq<string>)
    requires a != [] && Ascending(a)
    ensures Ascending(a[1..]) && Elements(a[1..]) == Elements(a) - {a[0]}
  {
    var tail := a[1..];
    assert forall i | 0 <= i < |tail| :: tail[i] == a[i + 1];
    forall k | k in Elements(a) - {a[0]} ensures k in tail {
      var i :| 0 <= i < |a| && a[i] == k;
      assert tail[i - 1] == k;
    }
    forall k | k in tail ensures k in Elements(a) - {a[0]} {
      var i :| 0 <= i < |tail| && tail[i] == k;
      assert a[i + 1] == k;
      LessAsymmetric(a[0], k);
    }
  }
}
