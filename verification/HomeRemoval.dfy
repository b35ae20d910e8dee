// Removing a home asks every component to remove itself, walking the component
// map with an iterator. A component that is etherealized during such a call is
// erased from that map.
module HomeRemoval {
  import opened Text

  // The components asked, in order. Erasing the entry that the iterator stands
  // on leaves the iterator invalid.
  datatype Walked = Walked(asked: seq<string>) | InvalidIterator(asked: seq<string>)

  // The entries that go while component k is asked.
  function Erased(erases: map<string, set<string>>, k: string): set<string> {
    if k in erases then erases[k] else {}
  }

  function Beyond(keys: set<string>, k: string): set<string> {
    set j | j in keys && Less(k, j)
  }

  function Prepend(asked: seq<string>, w: Walked): Walked {
    match w
    case Walked(more) => Walked(asked + more)
    case InvalidIterator(more) => InvalidIterator(asked + more)
  }

  // From the iterator at k on.
  function WalkFrom(keys: set<string>, k: string, erases: map<string, set<string>>): Walked
    requires k in keys
    decreases |Beyond(keys, k)|
  {
    var left := keys - Erased(erases, k);
    if k !in left then InvalidIterator([k])
    else if Beyond(left, k) == {} then Walked([k])
    else
      BeyondShrinks(keys, left, k);
      Prepend([k], WalkFrom(left, Least(Beyond(left, k)), erases))
  }

  lemma BeyondShrinks(keys: set<string>, left: set<string>, k: string)
    requires left <= keys && Beyond(left, k) != {}
    ensures |Beyond(left, Least(Beyond(left, k)))| < |Beyond(keys, k)|
  {
    var n := Least(Beyond(left, k));
    forall j | j in Beyond(left, n) ensures j in Beyond(keys, k) {
      LessTransitive(k, n, j);
    }
    LessIrreflexive(n);
    assert n in Beyond(keys, k) && n !in Beyond(left, n);
    Smaller(Beyond(left, n), Beyond(keys, k));
  }

  lemma Smaller(a: set<string>, b: set<string>)
    requires a < b
    ensures |a| < |b|
  {
    var x :| x in b && x !in a;
    assert a <= b - {x};
    SubsetSize(a, b - {x});
  }

  lemma {:induction false} SubsetSize(a: set<string>, b: set<string>)
    requires a <= b
    ensures |a| <= |b|
    decreases |a|
  {
    if x :| x in a {
      SubsetSize(a - {x}, b - {x});
    }
  }

  function Walk(keys: set<string>, erases: map<string, set<string>>): Walked {
    if keys == {} then Walked([]) else WalkFrom(keys, Least(keys), erases)
  }

  // The loop of the home's remove.
  method AskComponents(keys: set<string>, erases: map<string, set<string>>) returns (r: Walked)
    ensures r == Walk(keys, erases)
  {
    if keys == {} { return Walked([]); }
    var asked: seq<string> := [];
    var left, k := keys, Least(keys);
    assert Prepend([], WalkFrom(left, k, erases)) == WalkFrom(left, k, erases) by {
      PrependNothing(WalkFrom(left, k, erases));
    }
    while true
      invariant k in left && Walk(keys, erases) == Prepend(asked, WalkFrom(left, k, erases))
      decreases |Beyond(left, k)|
    {
      ghost var w := WalkFrom(left, k, erases);
      var rest := left - Erased(erases, k);
      if k !in rest { return InvalidIterator(asked + [k]); }
      if Beyond(rest, k) == {} { return Walked(asked + [k]); }
      BeyondShrinks(left, rest, k);
      PrependTwice(asked, [k], WalkFrom(rest, Least(Beyond(rest, k)), erases));
      asked := asked + [k];
      left, k := rest, Least(Beyond(rest, k));
    }
  }

  lemma PrependNothing(w: Walked)
    ensures Prepend([], w) == w
  {
    assert [] + w.asked == w.asked;
  }

  lemma PrependTwice(a: seq<string>, b: seq<string>, w: Walked)
    ensures Prepend(a, Prepend(b, w)) == Prepend(a + b, w)
  {
    ConcatAssociative(a, b, w.asked);
  }

  // ----- What the walk comes to -----

  // What the iterator at k still has before it.
  function Ahead(keys: set<string>, k: string): set<string> {
    {k} + Beyond(keys, k)
  }

  lemma AheadStep(left: set<string>, k: string)
    requires Beyond(left, k) != {}
    ensures Ahead(left, Least(Beyond(left, k))) == Beyond(left, k)
  {
    var n := Least(Beyond(left, k));
    hide Less;
    forall j | j in Beyond(left, n) ensures j in Beyond(left, k) {
      LessTransitive(k, n, j);
    }
  }

  // Those asked come in ascending order, so each once, and the iterator stays
  // valid exactly when no call erases the component asked.
  lemma {:induction false} WalkFromMeaning(keys: set<string>, k: string, erases: map<string, set<string>>)
    requires k in keys
    ensures var w := WalkFrom(keys, k, erases);
            && |w.asked| > 0 && w.asked[0] == k && Elements(w.asked) <= Ahead(keys, k) && Ascending(w.asked)
            && (w.Walked? <==> forall i | 0 <= i < |w.asked| :: w.asked[i] !in Erased(erases, w.asked[i]))
    decreases |Beyond(keys, k)|
  {
    hide Less, Beyond;
    var left := keys - Erased(erases, k);
    var w := WalkFrom(keys, k, erases);
    if k in left && Beyond(left, k) != {} {
      var n := Least(Beyond(left, k));
      BeyondLess(left, keys, k);
      BeyondShrinks(keys, left, k);
      WalkFromMeaning(left, n, erases);
      var rest := WalkFrom(left, n, erases);
      AheadStep(left, k);
      assert w.asked == [k] + rest.asked;
      AscendingCons(k, rest.asked);
      assert forall i | 0 < i < |w.asked| :: w.asked[i] == rest.asked[i - 1];
      assert forall i | 0 <= i < |rest.asked| :: rest.asked[i] == w.asked[i + 1];
      forall j | j in Elements(w.asked) ensures j in Ahead(keys, k) {
        if j != k { assert j in Elements(rest.asked); }
      }
    }
  }

  lemma BeyondLess(left: set<string>, keys: set<string>, k: string)
    requires left <= keys
    ensures Beyond(left, k) <= Beyond(keys, k)
    ensures forall j | j in Beyond(left, k) :: j in left && Less(k, j)
  {
  }

  lemma AscendingCons(k: string, rest: seq<string>)
    requires Ascending(rest) && |rest| > 0 && Less(k, rest[0])
    ensures Ascending([k] + rest)
  {
    hide Less;
    var all := [k] + rest;
    forall i, j | 0 <= i < j < |all| ensures Less(all[i], all[j]) {
      if i == 0 && j > 1 { LessTransitive(k, rest[0], rest[j - 1]); }
    }
  }

  // Calls erase only entries that the iterator has passed.
  ghost predicate OnlyPassed(keys: set<string>, erases: map<string, set<string>>) {
    forall k, j | k in keys && j in keys && j in Erased(erases, k) :: Less(j, k)
  }

  // The component at the iterator erases nothing ahead, nor does any later one.
  lemma OnlyPassedStep(keys: set<string>, left: set<string>, k: string, erases: map<string, set<string>>)
    requires k in keys && left == keys - Erased(erases, k)
    ensures OnlyPassed(Ahead(keys, k), erases) <==>
              k in left && Beyond(left, k) == Beyond(keys, k) && OnlyPassed(Beyond(left, k), erases)
  {
    hide Less, Erased;
    LessIrreflexive(k);
    forall j | j in Beyond(keys, k) ensures !Less(j, k) {
      LessAsymmetric(k, j);
    }
    assert forall j | j in Beyond(keys, k) :: j in Beyond(left, k) <==> j !in Erased(erases, k);
  }

  lemma {:induction false} AheadAskedIff(keys: set<string>, k: string, erases: map<string, set<string>>)
    requires k in keys
    ensures var w := WalkFrom(keys, k, erases);
            w.Walked? && Elements(w.asked) == Ahead(keys, k) <==> OnlyPassed(Ahead(keys, k), erases)
    decreases |Beyond(keys, k)|
  {
    hide Less, Erased, OnlyPassed;
    var left := keys - Erased(erases, k);
    var w := WalkFrom(keys, k, erases);
    OnlyPassedStep(keys, left, k, erases);
    BeyondLess(left, keys, k);
    LessIrreflexive(k);
    NothingBeyond(erases);
    assert k !in Beyond(keys, k);
    hide Beyond;
    if k in left && Beyond(left, k) != {} {
      var n := Least(Beyond(left, k));
      BeyondShrinks(keys, left, k);
      AheadStep(left, k);
      AheadAskedIff(left, n, erases);
      WalkFromMeaning(left, n, erases);
      ElementsCons(k, WalkFrom(left, n, erases).asked);
    } else if k in left {
      assert Elements(w.asked) == {k};
    }
  }

  lemma NothingBeyond(erases: map<string, set<string>>)
    ensures OnlyPassed({}, erases)
  {
  }

  lemma ElementsCons(k: string, rest: seq<string>)
    ensures Elements([k] + rest) == {k} + Elements(rest)
  {
    var all := [k] + rest;
    assert all[0] == k;
    assert forall i | 0 <= i < |rest| :: rest[i] == all[i + 1];
    assert forall i | 0 < i < |all| :: all[i] == rest[i - 1];
  }

  // Every component is asked, each once, exactly when no call erases the entry
  // of the component asked or of one that is still to come.
  lemma AllAskedIff(keys: set<string>, erases: map<string, set<string>>)
    ensures var w := Walk(keys, erases);
            && Ascending(w.asked)
            && (w.Walked? <==> forall i | 0 <= i < |w.asked| :: w.asked[i] !in Erased(erases, w.asked[i]))
            && (w.Walked? && Elements(w.asked) == keys <==> OnlyPassed(keys, erases))
  {
    hide Less;
    if keys != {} {
      var k := Least(keys);
      WalkFromMeaning(keys, k, erases);
      AheadAskedIff(keys, k, erases);
      assert Ahead(keys, k) == keys;
    }
  }

  // A component that etherealizes itself within its own removal, the first of
  // two, leaves the iterator invalid.
  lemma SelfErased()
    ensures Walk({"a", "b"}, map["a" := {"a"}]) == InvalidIterator(["a"])
  {
    LessIrreflexive("a");
    assert Less("a", "b") && IsLeast("a", {"a", "b"});
    LeastUnique("a", Least({"a", "b"}), {"a", "b"});
  }
}
