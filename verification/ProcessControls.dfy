// The intrusive reference count of ProcessControl and its handle type
// ProcessControl_var.
module ProcessControls {
  import opened Outcomes

  const COUNT_LIMIT: nat := 0x1_0000_0000

  // A counted object: its 32-bit count, whether the count has dropped to zero
  // and delete is still to come, and how often it was deleted.
  datatype Counted = Counted(count: nat, pending: bool, deletions: nat)

  const NEW_OBJECT := Counted(1, false, 0)

  // _add_ref.
  function Add<P(==)>(m: map<P, Counted>, p: P): map<P, Counted> {
    if p in m then m[p := m[p].(count := (m[p].count + 1) % COUNT_LIMIT)] else m
  }

  // The part of _remove_ref under the lock.
  function Sub<P(==)>(m: map<P, Counted>, p: P): map<P, Counted> {
    if p in m && m[p].count > 0 then
      m[p := m[p].(count := m[p].count - 1, pending := m[p].pending || m[p].count == 1)]
    else m
  }

  // The part after it.
  function Finish<P(==)>(m: map<P, Counted>, p: P): map<P, Counted> {
    if p in m && m[p].pending then m[p := m[p].(pending := false, deletions := m[p].deletions + 1)] else m
  }

  function AddTo<P(==)>(m: map<P, Counted>, p: Option<P>): map<P, Counted> {
    if p.Some? then Add(m, p.value) else m
  }

  function SubFrom<P(==)>(m: map<P, Counted>, p: Option<P>): map<P, Counted> {
    if p.Some? then Sub(m, p.value) else m
  }

  // Assigning handle b to a handle on a.
  function Assign<P(==)>(m: map<P, Counted>, a: Option<P>, b: Option<P>): map<P, Counted> {
    if a == b then m else AddTo(SubFrom(m, a), b)
  }

  // ----- The classes -----

  class ProcessControl {
    var refCount: nat
    var deleted: bool

    constructor ()
      ensures refCount == 1 && !deleted
    {
      refCount, deleted := 1, false;
    }

    method AddRef()
      modifies this
      ensures refCount == (old(refCount) + 1) % COUNT_LIMIT && deleted == old(deleted)
    {
      refCount := if refCount == COUNT_LIMIT - 1 then 0 else (refCount + 1) % COUNT_LIMIT;
    }

    // The source asserts that the count is positive.
    method RemoveRef()
      requires refCount > 0
      modifies this
      ensures refCount == old(refCount) - 1 && deleted == (old(deleted) || old(refCount) == 1)
    {
      var del := false;
      refCount := refCount - 1;
      if refCount == 0 {
        del := true;
      }
      if del {
        deleted := true;
      }
    }
  }

  // The counts of a set of objects; an object deleted is one deletion.
  ghost function Counts(objects: set<ProcessControl>): map<ProcessControl, Counted>
    reads objects
  {
    map o | o in objects :: Counted(o.refCount, false, if o.deleted then 1 else 0)
  }

  function AsOption(p: ProcessControl?): Option<ProcessControl> {
    if p == null then None else Some(p)
  }

  // Releasing a reference and deleting at once, as one thread alone does.
  function Released<P(==)>(m: map<P, Counted>, p: Option<P>): map<P, Counted> {
    if p.Some? then Finish(Sub(m, p.value), p.value) else m
  }

  class ProcessControlVar {
    var ctrl: ProcessControl?

    constructor (p: ProcessControl?)
      ensures ctrl == p
    {
      ctrl := p;
    }

    // objects is any set of counted objects around; the contracts say how
    // all of their counts change.
    constructor Copy(r: ProcessControlVar, ghost objects: set<ProcessControl>)
      requires r.ctrl != null ==> r.ctrl in objects
      modifies objects
      ensures ctrl == old(r.ctrl)
      ensures Counts(objects) == AddTo(old(Counts(objects)), AsOption(ctrl))
    {
      ctrl := r.ctrl;
      new;
      if ctrl != null {
        ctrl.AddRef();
      }
    }

    ghost predicate Releasable(objects: set<ProcessControl>)
      reads this, objects
    {
      ctrl != null ==> ctrl in objects && ctrl.refCount > 0 && !ctrl.deleted
    }

    method Destroy(ghost objects: set<ProcessControl>)
      requires Releasable(objects)
      modifies objects
      ensures Counts(objects) == Released(old(Counts(objects)), AsOption(ctrl))
    {
      if ctrl != null {
        ctrl.RemoveRef();
      }
    }

    method AssignRaw(p: ProcessControl?, ghost objects: set<ProcessControl>)
      requires Releasable(objects)
      modifies this, objects
      ensures ctrl == p
      ensures Counts(objects) == Released(old(Counts(objects)), AsOption(old(ctrl)))
    {
      if ctrl != null {
        ctrl.RemoveRef();
      }
      ctrl := p;
    }

    method AssignVar(b: ProcessControlVar, ghost objects: set<ProcessControl>)
      requires Releasable(objects) && b.Releasable(objects)
      modifies this, objects
      ensures ctrl == old(b.ctrl)
      ensures Counts(objects) == if old(ctrl) == old(b.ctrl) then old(Counts(objects))
                                 else AddTo(Released(old(Counts(objects)), AsOption(old(ctrl))), AsOption(ctrl))
    {
      if ctrl != b.ctrl {
        if ctrl != null {
          ctrl.RemoveRef();
        }
        ctrl := b.ctrl;
        if ctrl != null {
          ctrl.AddRef();
        }
      }
    }

    method Out(ghost objects: set<ProcessControl>)
      requires Releasable(objects)
      modifies this, objects
      ensures ctrl == null
      ensures Counts(objects) == Released(old(Counts(objects)), AsOption(old(ctrl)))
    {
      if ctrl != null {
        ctrl.RemoveRef();
      }
      ctrl := null;
    }

    method Retn() returns (p: ProcessControl?)
      modifies this
      ensures p == old(ctrl) && ctrl == null
    {
      p := ctrl;
      ctrl := null;
    }
  }

  // Deleting later, which is how the steps below count it, comes to the same
  // as deleting at once.
  lemma DeleteLater<P>(m: map<P, Counted>, a: Option<P>, b: Option<P>)
    requires a.Some? && a != b
    ensures Finish(Assign(m, a, b), a.value) == AddTo(Released(m, a), b)
  {
    var p := a.value;
    assert b.Some? ==> Finish(Add(Sub(m, p), b.value), p) == Add(Finish(Sub(m, p), p), b.value);
  }

  // ----- Who holds what -----

  // Objects and handles by number; raw are the raw pointers that own a
  // reference, such as the one new returns.
  datatype Ledger = Ledger(objects: map<nat, Counted>, handles: map<nat, Option<nat>>, raw: multiset<nat>)

  const EMPTY := Ledger(map[], map[], multiset{})

  datatype Step =
    | New(p: nat)
    | Default(v: nat)
    | FromRaw(v: nat, from: Option<nat>)
    | Copy(v: nat, r: nat)
    | AssignRaw(v: nat, from: Option<nat>)
    | AssignVar(v: nat, r: nat)
    | Out(v: nat)
    | Retn(v: nat)
    | Destroy(v: nat)
    | RawAddRef(p: nat)
    | RawRemoveRef(p: nat)
    | Delete(p: nat)

  function Take(raw: multiset<nat>, p: Option<nat>): multiset<nat> {
    if p.Some? then raw - multiset{p.value} else raw
  }

  function Give(raw: multiset<nat>, p: Option<nat>): multiset<nat> {
    if p.Some? then raw + multiset{p.value} else raw
  }

  function Next(l: Ledger, step: Step): Ledger {
    match step
    case New(p) => if p in l.objects then l else l.(objects := l.objects[p := NEW_OBJECT], raw := l.raw + multiset{p})
    case Default(v) => if v in l.handles then l else l.(handles := l.handles[v := None])
    case FromRaw(v, p) => if v in l.handles then l else l.(handles := l.handles[v := p], raw := Take(l.raw, p))
    case Copy(v, r) =>
      if v in l.handles || r !in l.handles then l
      else l.(handles := l.handles[v := l.handles[r]], objects := AddTo(l.objects, l.handles[r]))
    case AssignRaw(v, p) =>
      if v !in l.handles then l
      else l.(handles := l.handles[v := p], objects := SubFrom(l.objects, l.handles[v]), raw := Take(l.raw, p))
    case AssignVar(v, r) =>
      if v !in l.handles || r !in l.handles then l
      else l.(handles := l.handles[v := l.handles[r]], objects := Assign(l.objects, l.handles[v], l.handles[r]))
    case Out(v) =>
      if v !in l.handles then l else l.(handles := l.handles[v := None], objects := SubFrom(l.objects, l.handles[v]))
    case Retn(v) =>
      if v !in l.handles then l else l.(handles := l.handles[v := None], raw := Give(l.raw, l.handles[v]))
    case Destroy(v) =>
      if v !in l.handles then l else l.(handles := l.handles - {v}, objects := SubFrom(l.objects, l.handles[v]))
    case RawAddRef(p) => l.(objects := Add(l.objects, p), raw := l.raw + multiset{p})
    case RawRemoveRef(p) => l.(objects := Sub(l.objects, p), raw := l.raw - multiset{p})
    case Delete(p) => l.(objects := Finish(l.objects, p))
  }

  function HandlesTo(handles: map<nat, Option<nat>>, p: nat): set<nat> {
    set v | v in handles && handles[v] == Some(p)
  }

  function Holders(l: Ledger, p: nat): nat {
    |HandlesTo(l.handles, p)| + l.raw[p]
  }

  // Respecting ownership: a raw pointer handed to a handle or released owns
  // its reference, and a reference is added by someone who holds one. No
  // object is held 2^32 times.
  predicate Respects(l: Ledger, step: Step) {
    && (step.FromRaw? || step.AssignRaw? ==> step.from.Some? ==> l.raw[step.from.value] > 0)
    && (step.RawRemoveRef? ==> l.raw[step.p] > 0)
    && (step.RawAddRef? ==> Holders(l, step.p) > 0 && Holders(l, step.p) + 1 < COUNT_LIMIT)
    && (step.Copy? || step.AssignVar? ==>
          step.r in l.handles && l.handles[step.r].Some? ==> Holders(l, l.handles[step.r].value) + 1 < COUNT_LIMIT)
  }

  // Is object o, with n holders, as it should be?
  ghost predicate Fits(o: Counted, n: nat) {
    o.count == n < COUNT_LIMIT && o.deletions + (if o.pending then 1 else 0) == if o.count == 0 then 1 else 0
  }

  // The count of every object is the number of its holders, and it is deleted
  // once, or about to be, exactly when no holder is left.
  ghost predicate Balanced(l: Ledger) {
    && (forall p | p in l.objects ::
          Fits(l.objects[p], Holders(l, p)))
    && (forall v | v in l.handles && l.handles[v].Some? :: l.handles[v].value in l.objects)
    && (forall p | l.raw[p] > 0 :: p in l.objects)
  }

  // ----- Counting handles -----

  function One(b: bool): nat {
    if b then 1 else 0
  }

  lemma HandlesAfter(handles: map<nat, Option<nat>>, v: nat, x: Option<nat>, p: nat)
    ensures |HandlesTo(handles[v := x], p)| + One(v in handles && handles[v] == Some(p))
         == |HandlesTo(handles, p)| + One(x == Some(p))
  {
    var rest := HandlesTo(handles, p) - {v};
    assert HandlesTo(handles, p) == if v in handles && handles[v] == Some(p) then rest + {v} else rest;
    assert HandlesTo(handles[v := x], p) == if x == Some(p) then rest + {v} else rest;
  }

  lemma HandlesWithout(handles: map<nat, Option<nat>>, v: nat, p: nat)
    requires v in handles
    ensures |HandlesTo(handles - {v}, p)| + One(handles[v] == Some(p)) == |HandlesTo(handles, p)|
  {
    var rest := HandlesTo(handles - {v}, p);
    assert HandlesTo(handles, p) == if handles[v] == Some(p) then rest + {v} else rest;
  }

  lemma HeldObject(l: Ledger, v: nat)
    requires Balanced(l) && v in l.handles && l.handles[v].Some?
    ensures l.handles[v].value in l.objects && l.objects[l.handles[v].value].count > 0
  {
    assert v in HandlesTo(l.handles, l.handles[v].value);
  }

  // ----- Conservation -----

  lemma NewKeeps(l: Ledger, p: nat)
    requires Balanced(l)
    ensures Balanced(Next(l, New(p)))
  {
    if p !in l.objects {
      assert HandlesTo(l.handles, p) == {};
      hide HandlesTo;
    }
  }

  lemma SetHandleKeeps(l: Ledger, v: nat, x: Option<nat>, objects: map<nat, Counted>, raw: multiset<nat>)
    requires Balanced(l) && objects.Keys == l.objects.Keys
    requires x.Some? ==> x.value in l.objects
    requires forall p | raw[p] > 0 :: p in l.objects
    requires forall p | p in objects ::
               var n := Holders(l, p) - l.raw[p] + raw[p] + One(x == Some(p))
                      - One(v in l.handles && l.handles[v] == Some(p));
               n >= 0 && Fits(objects[p], n)
    ensures Balanced(Ledger(objects, l.handles[v := x], raw))
  {
    var m := Ledger(objects, l.handles[v := x], raw);
    forall p | p in objects ensures Fits(objects[p], Holders(m, p)) {
      HandlesAfter(l.handles, v, x, p);
    }
    hide HandlesTo, Fits;
  }

  lemma DefaultKeeps(l: Ledger, v: nat)
    requires Balanced(l) && Respects(l, Default(v))
    ensures Balanced(Next(l, Default(v)))
  {
    hide HandlesTo;
    var m := Next(l, Default(v));
    if m != l {
      SetHandleKeeps(l, v, m.handles[v], m.objects, m.raw);
    }
  }

  lemma FromRawKeeps(l: Ledger, v: nat, p: Option<nat>)
    requires Balanced(l) && Respects(l, FromRaw(v, p))
    ensures Balanced(Next(l, FromRaw(v, p)))
  {
    hide HandlesTo;
    var m := Next(l, FromRaw(v, p));
    if m != l {
      SetHandleKeeps(l, v, m.handles[v], m.objects, m.raw);
    }
  }

  lemma CopyKeeps(l: Ledger, v: nat, r: nat)
    requires Balanced(l) && Respects(l, Copy(v, r))
    ensures Balanced(Next(l, Copy(v, r)))
  {
    hide HandlesTo;
    var m := Next(l, Copy(v, r));
    if m != l {
      if l.handles[r].Some? { HeldObject(l, r); }
      SetHandleKeeps(l, v, m.handles[v], m.objects, m.raw);
    }
  }

  lemma OutKeeps(l: Ledger, v: nat)
    requires Balanced(l) && Respects(l, Out(v))
    ensures Balanced(Next(l, Out(v)))
  {
    hide HandlesTo;
    var m := Next(l, Out(v));
    if m != l {
      if l.handles[v].Some? { HeldObject(l, v); }
      SetHandleKeeps(l, v, m.handles[v], m.objects, m.raw);
    }
  }

  // Assigning is letting go first and then filling the empty handle.
  lemma FillRawKeeps(l: Ledger, v: nat, p: Option<nat>)
    requires Balanced(l) && v in l.handles && l.handles[v].None?
    requires p.Some? ==> l.raw[p.value] > 0
    ensures Balanced(l.(handles := l.handles[v := p], raw := Take(l.raw, p)))
  {
    hide HandlesTo;
    SetHandleKeeps(l, v, p, l.objects, Take(l.raw, p));
  }

  lemma FillCopyKeeps(l: Ledger, v: nat, p: Option<nat>)
    requires Balanced(l) && v in l.handles && l.handles[v].None?
    requires p.Some? ==> p.value in l.objects && 0 < Holders(l, p.value) && Holders(l, p.value) + 1 < COUNT_LIMIT
    ensures Balanced(l.(handles := l.handles[v := p], objects := AddTo(l.objects, p)))
  {
    hide HandlesTo;
    SetHandleKeeps(l, v, p, AddTo(l.objects, p), l.raw);
  }

  lemma SetTwice(handles: map<nat, Option<nat>>, v: nat, x: Option<nat>, y: Option<nat>)
    ensures handles[v := x][v := y] == handles[v := y]
  {
  }

  lemma AssignRawKeeps(l: Ledger, v: nat, p: Option<nat>)
    requires Balanced(l) && Respects(l, AssignRaw(v, p))
    ensures Balanced(Next(l, AssignRaw(v, p)))
  {
    hide HandlesTo, Balanced;
    if v in l.handles {
      OutKeeps(l, v);
      FillRawKeeps(Next(l, Out(v)), v, p);
      SetTwice(l.handles, v, None, p);
    }
  }

  lemma AssignVarKeeps(l: Ledger, v: nat, r: nat)
    requires Balanced(l) && Respects(l, AssignVar(v, r))
    ensures Balanced(Next(l, AssignVar(v, r)))
  {
    hide HandlesTo, Balanced;
    if v in l.handles && r in l.handles {
      var p := l.handles[r];
      if l.handles[v] == p {
        assert l.handles[v := p] == l.handles;
      } else {
        OutKeeps(l, v);
        if p.Some? {
          HeldObject(l, r);
          HandlesAfter(l.handles, v, None, p.value);
          HeldHolders(l, p.value);
        }
        FillCopyKeeps(Next(l, Out(v)), v, p);
        SetTwice(l.handles, v, None, p);
      }
    }
  }

  lemma HeldHolders(l: Ledger, p: nat)
    requires Balanced(l) && p in l.objects && l.objects[p].count > 0
    ensures Holders(l, p) > 0
  {
  }

  lemma RetnKeeps(l: Ledger, v: nat)
    requires Balanced(l) && Respects(l, Retn(v))
    ensures Balanced(Next(l, Retn(v)))
  {
    hide HandlesTo;
    var m := Next(l, Retn(v));
    if m != l {
      if l.handles[v].Some? { HeldObject(l, v); }
      SetHandleKeeps(l, v, m.handles[v], m.objects, m.raw);
    }
  }

  lemma DestroyKeeps(l: Ledger, v: nat)
    requires Balanced(l)
    ensures Balanced(Next(l, Destroy(v)))
  {
    if v in l.handles {
      var m := Next(l, Destroy(v));
      if l.handles[v].Some? { HeldObject(l, v); }
      forall p | p in m.objects ensures Fits(m.objects[p], Holders(m, p)) {
        HandlesWithout(l.handles, v, p);
      }
      hide HandlesTo;
    }
  }

  lemma RawAddRefKeeps(l: Ledger, p: nat)
    requires Balanced(l) && Respects(l, RawAddRef(p))
    ensures Balanced(Next(l, RawAddRef(p)))
  {
    hide HandlesTo;
    HeldSomehow(l, p);
  }

  lemma RawRemoveRefKeeps(l: Ledger, p: nat)
    requires Balanced(l) && Respects(l, RawRemoveRef(p))
    ensures Balanced(Next(l, RawRemoveRef(p)))
  {
    hide HandlesTo;
  }

  lemma DeleteKeeps(l: Ledger, p: nat)
    requires Balanced(l)
    ensures Balanced(Next(l, Delete(p)))
  {
    hide HandlesTo;
  }

  lemma HeldSomehow(l: Ledger, p: nat)
    requires Balanced(l) && Holders(l, p) > 0
    ensures p in l.objects
  {
    if l.raw[p] == 0 {
      var v :| v in HandlesTo(l.handles, p);
    }
  }

  // Every step of every thread keeps the balance, whatever the order in which
  // the threads take theirs.
  lemma NextKeeps(l: Ledger, step: Step)
    requires Balanced(l) && Respects(l, step)
    ensures Balanced(Next(l, step))
  {
    hide Next, Balanced, Respects;
    match step
    case New(p) => NewKeeps(l, p);
    case Destroy(v) => DestroyKeeps(l, v);
    case Default(v) => DefaultKeeps(l, v);
    case FromRaw(v, p) => FromRawKeeps(l, v, p);
    case Copy(v, r) => CopyKeeps(l, v, r);
    case AssignRaw(v, p) => AssignRawKeeps(l, v, p);
    case AssignVar(v, r) => AssignVarKeeps(l, v, r);
    case Out(v) => OutKeeps(l, v);
    case Retn(v) => RetnKeeps(l, v);
    case RawAddRef(p) => RawAddRefKeeps(l, p);
    case RawRemoveRef(p) => RawRemoveRefKeeps(l, p);
    case Delete(p) => DeleteKeeps(l, p);
  }

  function Run(l: Ledger, steps: seq<Step>): Ledger
    decreases |steps|
  {
    if steps == [] then l else Run(Next(l, steps[0]), steps[1..])
  }

  predicate AllRespect(l: Ledger, steps: seq<Step>)
    decreases |steps|
  {
    steps == [] || (Respects(l, steps[0]) && AllRespect(Next(l, steps[0]), steps[1..]))
  }

  lemma {:induction false} RunKeeps(l: Ledger, steps: seq<Step>)
    requires Balanced(l) && AllRespect(l, steps)
    ensures Balanced(Run(l, steps))
    decreases |steps|
  {
    hide Next, Balanced, Respects;
    if steps != [] {
      NextKeeps(l, steps[0]);
      RunKeeps(Next(l, steps[0]), steps[1..]);
    }
  }

  // Over every run that respects ownership, each object's count is the number
  // of handles and raw pointers that hold it; it is never deleted while held,
  // and deleted at most once; and when nobody holds it any more the one
  // deletion has happened or is pending.
  lemma CountsConserved(steps: seq<Step>, p: nat)
    requires AllRespect(EMPTY, steps) && p in Run(EMPTY, steps).objects
    ensures var l := Run(EMPTY, steps); var o := l.objects[p];
            && o.count == Holders(l, p)
            && (Holders(l, p) > 0 ==> o.deletions == 0 && !o.pending)
            && (Holders(l, p) == 0 ==> o.deletions + (if o.pending then 1 else 0) == 1)
  {
    RunKeeps(EMPTY, steps);
    hide Run, Holders;
  }

  // Assigning a raw pointer keeps the balance exactly when the pointer is nil
  // or owns a reference. A handle given its own in() pointer is the case in
  // point: its object loses a count and keeps its holder.
  lemma AssignRawBalancedIff(l: Ledger, v: nat, p: Option<nat>)
    requires Balanced(l) && v in l.handles && (p.Some? ==> p.value in l.objects)
    ensures Balanced(Next(l, AssignRaw(v, p))) <==> p.None? || l.raw[p.value] > 0
  {
    var step := AssignRaw(v, p);
    var m := Next(l, step);
    if p.None? || l.raw[p.value] > 0 {
      AssignRawKeeps(l, v, p);
    } else {
      if l.handles[v].Some? { HeldObject(l, v); }
      HandlesAfter(l.handles, v, p, p.value);
      hide HandlesTo;
      assert m.objects[p.value].count != Holders(m, p.value);
    }
  }

  // The count is 32 bits wide: adding a reference keeps the balance exactly
  // while fewer than 2^32 - 1 references are held.
  lemma AddRefBalancedIff(l: Ledger, p: nat)
    requires Balanced(l) && p in l.objects && Holders(l, p) > 0
    ensures Balanced(Next(l, RawAddRef(p))) <==> Holders(l, p) + 1 < 0x1_0000_0000
  {
    var m := Next(l, RawAddRef(p));
    assert Holders(m, p) == Holders(l, p) + 1;
    if Holders(l, p) + 1 < COUNT_LIMIT {
      RawAddRefKeeps(l, p);
    }
  }
}
