// The registry of value-type factories. Its entries point to registration
// objects without owning them; a registration removes its entry when its last
// reference is dropped.
module ValueTypes {
  import opened Outcomes

  // Who registered a factory with the ORB: other code, or the installer from
  // a library it opened.
  datatype Factory = Outside | Installed(lib: nat)

  // The ORB's factory table and the dynamic loader. Every dlopen gets a new
  // number. factories are the opens behind a registered factory; leaked those
  // whose entry point or factory was missing.
  datatype Platform = Platform(
    table: map<string, Factory>,
    nextLib: nat,
    factories: set<nat>,
    leaked: set<nat>,
    closed: multiset<nat>,
    unregistered: multiset<Factory>)

  datatype Info = Info(registration: nat, lib: Option<nat>, release: bool)

  datatype InstallError = CannotOpen | EntryPointNotFound | NoFactory

  datatype Installation = Installation(registrations: map<string, Info>, platform: Platform,
      result: Result<nat, InstallError>)

  // install_valuetype_factory; registration is the number of the object that
  // new would create, the three flags what the loader and the library answer.
  function Install(registrations: map<string, Info>, p: Platform, repid: string, registration: nat,
                   opens: bool, symbol: bool, made: bool): Installation
  {
    if repid in registrations then Installation(registrations, p, Ok(registrations[repid].registration))
    else if repid in p.table then
      Installation(registrations[repid := Info(registration, None, false)], p, Ok(registration))
    else if !opens then Installation(registrations, p, Raised(CannotOpen))
    else if !symbol || !made then
      Installation(registrations, p.(nextLib := p.nextLib + 1, leaked := p.leaked + {p.nextLib}),
                   Raised(if symbol then NoFactory else EntryPointNotFound))
    else
      Installation(registrations[repid := Info(registration, Some(p.nextLib), true)],
                   p.(table := p.table[repid := Installed(p.nextLib)], nextLib := p.nextLib + 1,
                      factories := p.factories + {p.nextLib}),
                   Ok(registration))
  }

  datatype Removal = Removal(registrations: map<string, Info>, platform: Platform, found: bool)

  // unregister_valuetype_factory, which the destructor calls. The ORB removes
  // whatever factory the table holds for the id.
  function Unregister(registrations: map<string, Info>, p: Platform, repid: string): Removal {
    if repid !in registrations then Removal(registrations, p, false)
    else
      var info := registrations[repid];
      var p' := if info.release && info.lib.Some? then
                  p.(table := p.table - {repid},
                     unregistered := if repid in p.table then p.unregistered + multiset{p.table[repid]}
                       else p.unregistered,
                     closed := p.closed + multiset{info.lib.value})
                else p;
      Removal(registrations - {repid}, p', true)
  }

  class ValueTypeInstaller {
    var registrations: map<string, Info>
    var platform: Platform

    constructor (platform: Platform)
      ensures registrations == map[] && this.platform == platform
    {
      registrations, this.platform := map[], platform;
    }

    method InstallValuetypeFactory(repid: string, newRegistration: nat, opens: bool, symbol: bool, made: bool)
      returns (r: Result<nat, InstallError>)
      modifies this
      ensures Installation(registrations, platform, r)
           == Install(old(registrations), old(platform), repid, newRegistration, opens, symbol, made)
    {
      var info := Info(0, None, false);
      if repid in registrations {
        info := registrations[repid];
        return Ok(info.registration);
      }
      if repid !in platform.table {
        if !opens { return Raised(CannotOpen); }
        var lib := platform.nextLib;
        platform := platform.(nextLib := lib + 1);
        if !symbol || !made {
          platform := platform.(leaked := platform.leaked + {lib});
          return Raised(if symbol then NoFactory else EntryPointNotFound);
        }
        platform := platform.(table := platform.table[repid := Installed(lib)],
          factories := platform.factories + {lib});
        info := info.(lib := Some(lib), release := true);
      }
      info := info.(registration := newRegistration);
      registrations := registrations[repid := info];
      r := Ok(newRegistration);
    }

    method UnregisterValuetypeFactory(repid: string) returns (found: bool)
      modifies this
      ensures Removal(registrations, platform, found) == Unregister(old(registrations), old(platform), repid)
    {
      found := false;
      if repid in registrations {
        var info := registrations[repid];
        if info.release && info.lib.Some? {
          if repid in platform.table {
            platform := platform.(unregistered := platform.unregistered + multiset{platform.table[repid]});
          }
          platform := platform.(table := platform.table - {repid},
            closed := platform.closed + multiset{info.lib.value});
        }
        registrations := registrations - {repid};
        found := true;
      }
    }
  }

  // ----- Registrations and their references -----

  // refs counts the references outstanding to each registration object that
  // has any; dying are those whose last reference was dropped and whose
  // destructor has not yet taken the installer's mutex; repids is what each
  // object was created for.
  datatype World = World(
    registrations: map<string, Info>,
    platform: Platform,
    refs: map<nat, nat>,
    dying: set<nat>,
    repids: map<nat, string>,
    next: nat)

  const NO_PLATFORM := Platform(map[], 0, {}, {}, multiset{}, multiset{})

  const START := World(map[], NO_PLATFORM, map[], {}, map[], 0)

  datatype Step =
    | DoInstall(repid: string, opens: bool, symbol: bool, made: bool)
    | Duplicate(registration: nat)
    | Drop(registration: nat)
    | Destroy(registration: nat)
    | DropAndDestroy(registration: nat)
    | OutsideRegister(repid: string)
    | OutsideReplace(repid: string)
    | OutsideUnregister(repid: string)

  function AddRef(refs: map<nat, nat>, g: nat): map<nat, nat> {
    refs[g := if g in refs then refs[g] + 1 else 1]
  }

  function InstallStep(w: World, repid: string, opens: bool, symbol: bool, made: bool): World {
    var i := Install(w.registrations, w.platform, repid, w.next, opens, symbol, made);
    match i.result
    case Raised(_) => w.(platform := i.platform)
    case Ok(g) =>
      var w' := w.(registrations := i.registrations, platform := i.platform, refs := AddRef(w.refs, g));
      if g == w.next then w'.(repids := w.repids[g := repid], next := w.next + 1) else w'
  }

  function DropStep(w: World, g: nat): World {
    if g !in w.refs then w
    else if w.refs[g] > 1 then w.(refs := w.refs[g := w.refs[g] - 1])
    else w.(refs := w.refs - {g}, dying := w.dying + {g})
  }

  function DestroyStep(w: World, g: nat): World {
    if g !in w.dying || g !in w.repids then w
    else
      var u := Unregister(w.registrations, w.platform, w.repids[g]);
      w.(registrations := u.registrations, platform := u.platform, dying := w.dying - {g})
  }

  // Other code registers where nothing is registered, and replaces or removes
  // what is.
  function Next(w: World, step: Step): World {
    match step
    case DoInstall(r, opens, symbol, made) => InstallStep(w, r, opens, symbol, made)
    case Duplicate(g) => if g in w.refs then w.(refs := AddRef(w.refs, g)) else w
    case Drop(g) => DropStep(w, g)
    case Destroy(g) => DestroyStep(w, g)
    case DropAndDestroy(g) => DestroyStep(DropStep(w, g), g)
    case OutsideRegister(r) =>
      if r in w.platform.table then w else w.(platform := w.platform.(table := w.platform.table[r := Outside]))
    case OutsideReplace(r) => w.(platform := w.platform.(table := w.platform.table[r := Outside]))
    case OutsideUnregister(r) => w.(platform := w.platform.(table := w.platform.table - {r}))
  }

  // ----- The invariant -----

  ghost predicate EntriesOk(w: World) {
    forall r | r in w.registrations ::
      var i := w.registrations[r];
      && (i.registration in w.refs || i.registration in w.dying)
      && i.registration in w.repids && w.repids[i.registration] == r
      && (i.release <==> i.lib.Some?)
      && (i.release ==> r in w.platform.table && w.platform.table[r] == Installed(i.lib.value))
  }

  ghost predicate ObjectsOk(w: World) {
    && (forall g | g in w.refs || g in w.dying ::
          g < w.next && g in w.repids && w.repids[g] in w.registrations
            && w.registrations[w.repids[g]].registration == g)
    && (forall g | g in w.refs :: w.refs[g] > 0 && g !in w.dying)
    && (forall g | g in w.repids :: g < w.next)
  }

  ghost predicate InUse(w: World, lib: nat) {
    exists r :: r in w.registrations && w.registrations[r].lib == Some(lib)
  }

  // Every library opened gave a factory or leaked. One behind a factory is in
  // use, or was closed once after its factory was unregistered once; nothing
  // else was closed or unregistered.
  ghost predicate LibrariesOk(w: World) {
    var p := w.platform;
    && (forall l | l in p.factories ::
        l < p.nextLib && p.closed[l] == p.unregistered[Installed(l)] == if InUse(w, l) then 0 else 1)
    && (forall l | l in p.leaked :: l < p.nextLib && l !in p.factories)
    && (forall l: nat | l < p.nextLib :: l in p.factories || l in p.leaked)
    && (forall l | l !in p.factories :: p.closed[l] == p.unregistered[Installed(l)] == 0)
    && p.unregistered[Outside] == 0
    && (forall r | r in w.registrations && w.registrations[r].lib.Some? :: w.registrations[r].lib.value in p.factories)
    && (forall r, q | r in w.registrations && q in w.registrations && r != q && w.registrations[r].lib.Some? ::
          w.registrations[r].lib != w.registrations[q].lib)
  }

  ghost predicate Inv(w: World) {
    EntriesOk(w) && ObjectsOk(w) && LibrariesOk(w)
  }

  // Would an installation hand out a registration that is being destroyed?
  predicate Dying(w: World, repid: string) {
    repid in w.registrations && w.registrations[repid].registration in w.dying
  }

  // Would other code that replaces or removes a factory take an installed one?
  predicate Displaces(w: World, repid: string) {
    repid in w.registrations && w.registrations[repid].release
  }

  predicate Respects(w: World, step: Step) {
    step.OutsideReplace? || step.OutsideUnregister? ==> !Displaces(w, step.repid)
  }

  predicate Safe(w: World, step: Step) {
    (step.DoInstall? ==> !Dying(w, step.repid)) && Respects(w, step)
  }

  // ----- Every step keeps it, outside the window of destruction -----

  lemma DuplicateKeeps(w: World, g: nat)
    requires Inv(w) && g in w.refs
    ensures Inv(w.(refs := AddRef(w.refs, g)))
  {
    SameLibraries(w, w.(refs := AddRef(w.refs, g)));
  }

  // Libraries are judged by the entries and the platform alone.
  lemma SameLibraries(w: World, v: World)
    requires LibrariesOk(w) && v.registrations == w.registrations
      && v.platform.(table := map[]) == w.platform.(table := map[])
    ensures LibrariesOk(v)
  {
    forall l: nat ensures InUse(v, l) == InUse(w, l) {
    }
  }

  lemma DropKeeps(w: World, g: nat)
    requires Inv(w)
    ensures Inv(DropStep(w, g))
  {
    hide LibrariesOk;
    SameLibraries(w, DropStep(w, g));
  }

  lemma OutsideKeeps(w: World, step: Step)
    requires Inv(w) && Safe(w, step) && (step.OutsideRegister? || step.OutsideReplace? || step.OutsideUnregister?)
    ensures Inv(Next(w, step))
  {
    hide LibrariesOk, EntriesOk, ObjectsOk;
    SameLibraries(w, Next(w, step));
    SameTable(w, Next(w, step));
  }

  lemma SameTable(w: World, v: World)
    requires EntriesOk(w) && ObjectsOk(w) && v == w.(platform := v.platform)
    requires forall r | Displaces(w, r) && r in w.platform.table ::
               r in v.platform.table && v.platform.table[r] == w.platform.table[r]
    ensures EntriesOk(v) && ObjectsOk(v)
  {
  }

  lemma NewEntryObjects(w: World, repid: string, info: Info, p: Platform)
    requires EntriesOk(w) && ObjectsOk(w) && repid !in w.registrations
    requires info.registration == w.next && (info.release <==> info.lib.Some?)
    requires info.release ==> repid in p.table && p.table[repid] == Installed(info.lib.value)
    requires forall r | r in w.platform.table && r != repid :: r in p.table && p.table[r] == w.platform.table[r]
    ensures var v := w.(registrations := w.registrations[repid := info], platform := p, refs := AddRef(w.refs, w.next),
                        repids := w.repids[w.next := repid], next := w.next + 1);
            EntriesOk(v) && ObjectsOk(v)
  {
  }

  lemma NewEntryLibraries(w: World, v: World, repid: string, info: Info)
    requires LibrariesOk(w) && repid !in w.registrations
    requires v.registrations == w.registrations[repid := info]
    requires if info.lib.None? then v.platform == w.platform
             else info.lib == Some(w.platform.nextLib)
                  && v.platform == w.platform.(table := v.platform.table, nextLib := w.platform.nextLib + 1,
                                               factories := w.platform.factories + {w.platform.nextLib})
    ensures LibrariesOk(v)
  {
    forall l: nat ensures InUse(v, l) <==> InUse(w, l) || info.lib == Some(l) {
      if InUse(w, l) {
        var r :| r in w.registrations && w.registrations[r].lib == Some(l);
        assert v.registrations[r].lib == Some(l);
      }
      if info.lib == Some(l) {
        assert v.registrations[repid].lib == Some(l);
      }
    }
    assert info.lib.Some? ==> info.lib.value !in w.platform.factories;
  }

  lemma LeakLibraries(w: World, v: World)
    requires LibrariesOk(w) && v.registrations == w.registrations
    requires v.platform == w.platform.(nextLib := w.platform.nextLib + 1,
      leaked := w.platform.leaked + {w.platform.nextLib})
    ensures LibrariesOk(v)
  {
    forall l: nat ensures InUse(v, l) == InUse(w, l) {
    }
  }

  lemma InstallKeeps(w: World, repid: string, opens: bool, symbol: bool, made: bool)
    requires Inv(w) && !Dying(w, repid)
    ensures Inv(InstallStep(w, repid, opens, symbol, made))
  {
    hide EntriesOk, ObjectsOk, LibrariesOk;
    var v := InstallStep(w, repid, opens, symbol, made);
    var p := w.platform;
    if repid in w.registrations {
      ReferencedEntry(w, repid);
      DuplicateKeeps(w, w.registrations[repid].registration);
      OlderRegistration(w, repid);
    } else if repid in p.table {
      NewEntryObjects(w, repid, Info(w.next, None, false), p);
      NewEntryLibraries(w, v, repid, Info(w.next, None, false));
    } else if opens && symbol && made {
      NewEntryObjects(w, repid, Info(w.next, Some(p.nextLib), true), v.platform);
      NewEntryLibraries(w, v, repid, Info(w.next, Some(p.nextLib), true));
    } else if opens {
      LeakLibraries(w, v);
      SameEntries(w, v);
    }
  }

  lemma ReferencedEntry(w: World, repid: string)
    requires EntriesOk(w) && repid in w.registrations && !Dying(w, repid)
    ensures w.registrations[repid].registration in w.refs
  {
  }

  lemma OlderRegistration(w: World, repid: string)
    requires EntriesOk(w) && ObjectsOk(w) && repid in w.registrations
    ensures w.registrations[repid].registration < w.next
  {
  }

  lemma SameEntries(w: World, v: World)
    requires EntriesOk(w) && ObjectsOk(w) && v == w.(platform := v.platform) && v.platform.table == w.platform.table
    ensures EntriesOk(v) && ObjectsOk(v)
  {
  }

  lemma DestroyKeeps(w: World, g: nat)
    requires Inv(w)
    ensures Inv(DestroyStep(w, g))
  {
    if g in w.dying {
      DestroyEntries(w, g);
      DestroyLibraries(w, g);
    }
  }

  lemma DestroyEntries(w: World, g: nat)
    requires EntriesOk(w) && ObjectsOk(w) && g in w.dying
    ensures EntriesOk(DestroyStep(w, g)) && ObjectsOk(DestroyStep(w, g))
  {
  }

  lemma DestroyLibraries(w: World, g: nat)
    requires Inv(w) && g in w.dying
    ensures LibrariesOk(DestroyStep(w, g))
  {
    var v := DestroyStep(w, g);
    var repid := w.repids[g];
    var info := w.registrations[repid];
    forall l: nat ensures InUse(v, l) <==> InUse(w, l) && info.lib != Some(l) {
      if InUse(w, l) && info.lib != Some(l) {
        var r :| r in w.registrations && w.registrations[r].lib == Some(l);
        assert v.registrations[r].lib == Some(l);
      }
    }
    if info.lib.Some? {
      assert InUse(w, info.lib.value);
    }
    hide InUse;
  }

  lemma NextKeeps(w: World, step: Step)
    requires Inv(w) && Safe(w, step)
    ensures Inv(Next(w, step))
  {
    hide Inv, InstallStep, DropStep, DestroyStep;
    match step
    case DoInstall(r, opens, symbol, made) => InstallKeeps(w, r, opens, symbol, made);
    case Duplicate(g) => if g in w.refs { DuplicateKeeps(w, g); }
    case Drop(g) => DropKeeps(w, g);
    case Destroy(g) => DestroyKeeps(w, g);
    case DropAndDestroy(g) => DropKeeps(w, g); DestroyKeeps(DropStep(w, g), g);
    case _ => OutsideKeeps(w, step);
  }

  // An installation keeps the registry sound exactly when it does not fall
  // between the drop of the last reference and the destructor's unregistering:
  // there it hands out a registration that is already being destroyed.
  lemma InstallSoundIff(w: World, repid: string, opens: bool, symbol: bool, made: bool)
    requires Inv(w)
    ensures Inv(InstallStep(w, repid, opens, symbol, made)) <==> !Dying(w, repid)
  {
    if Dying(w, repid) {
      var g := w.registrations[repid].registration;
      var v := InstallStep(w, repid, opens, symbol, made);
      assert g in v.refs && g in v.dying;
    } else {
      InstallKeeps(w, repid, opens, symbol, made);
    }
  }

  // Other code that replaces a factory, or removes one, keeps it sound exactly
  // when the factory is not one the installer has to take back.
  lemma ReplaceSoundIff(w: World, repid: string)
    requires Inv(w)
    ensures Inv(Next(w, OutsideReplace(repid))) <==> !Displaces(w, repid)
  {
    hide LibrariesOk;
    if !Displaces(w, repid) {
      OutsideKeeps(w, OutsideReplace(repid));
    }
  }

  lemma RemoveSoundIff(w: World, repid: string)
    requires Inv(w)
    ensures Inv(Next(w, OutsideUnregister(repid))) <==> !Displaces(w, repid)
  {
    hide LibrariesOk;
    if !Displaces(w, repid) {
      OutsideKeeps(w, OutsideUnregister(repid));
    }
  }

  // ----- What an installation leaves in the ORB -----

  // A successful installation leaves a factory for the id exactly when, for an
  // id that is registered already, the ORB still has one.
  lemma InstalledInTableIff(registrations: map<string, Info>, p: Platform, repid: string, registration: nat,
                            opens: bool, symbol: bool, made: bool)
    requires Install(registrations, p, repid, registration, opens, symbol, made).result.Ok?
    ensures repid in Install(registrations, p, repid, registration, opens, symbol, made).platform.table <==>
              (repid in registrations ==> repid in p.table)
  {
  }

  // It need not: the factory of other code, which the installer found and so
  // does not own, may be gone when the id is installed again.
  lemma InstalledWithoutFactory(repid: string, opens: bool, symbol: bool, made: bool)
    ensures var w := Run(START, [OutsideRegister(repid), DoInstall(repid, opens, symbol, made),
      OutsideUnregister(repid)]);
            var i := Install(w.registrations, w.platform, repid, w.next, opens, symbol, made);
            i.result == Ok(0) && repid !in i.platform.table && Inv(w)
  {
    var x, y, z := OutsideRegister(repid), DoInstall(repid, opens, symbol, made), OutsideUnregister(repid);
    RunThree(START, x, y, z);
    OutsideFirst(repid, opens, symbol, made);
    StartInv();
    hide Next, Inv, Run;
    NextKeeps(START, x);
    NextKeeps(Next(START, x), y);
    NextKeeps(Next(Next(START, x), y), z);
  }

  lemma StartInv()
    ensures Inv(START)
  {
  }

  lemma OutsideFirst(repid: string, opens: bool, symbol: bool, made: bool)
    ensures var w1 := Next(START, OutsideRegister(repid));
            var w2 := Next(w1, DoInstall(repid, opens, symbol, made));
            var w3 := Next(w2, OutsideUnregister(repid));
            && !Dying(w1, repid) && !Displaces(w2, repid)
            && repid in w3.registrations && w3.registrations[repid].registration == 0 && repid !in w3.platform.table
  {
    var w1 := Next(START, OutsideRegister(repid));
    assert w1 == START.(platform := NO_PLATFORM.(table := map[repid := Outside]));
    var w2 := Next(w1, DoInstall(repid, opens, symbol, made));
    assert w2.registrations == map[repid := Info(0, None, false)];
  }

  // ----- Runs -----

  function Run(w: World, steps: seq<Step>): World
    decreases |steps|
  {
    if steps == [] then w else Run(Next(w, steps[0]), steps[1..])
  }

  predicate AllSafe(w: World, steps: seq<Step>)
    decreases |steps|
  {
    steps == [] || (Safe(w, steps[0]) && AllSafe(Next(w, steps[0]), steps[1..]))
  }

  lemma {:induction false} RunKeeps(w: World, steps: seq<Step>)
    requires Inv(w) && AllSafe(w, steps)
    ensures Inv(Run(w, steps))
    decreases |steps|
  {
    hide Next, Inv, Safe;
    if steps != [] {
      NextKeeps(w, steps[0]);
      RunKeeps(Next(w, steps[0]), steps[1..]);
    }
  }

  // Dropping the last reference and destroying the registration as one step.
  predicate Atomic(step: Step) {
    !step.Drop? && !step.Destroy?
  }

  // Other code leaves the installed factories alone.
  predicate AllRespect(w: World, steps: seq<Step>)
    decreases |steps|
  {
    steps == [] || (Respects(w, steps[0]) && AllRespect(Next(w, steps[0]), steps[1..]))
  }

  lemma {:induction false} AtomicRun(w: World, steps: seq<Step>)
    requires Inv(w) && w.dying == {} && AllRespect(w, steps) && forall i | 0 <= i < |steps| :: Atomic(steps[i])
    ensures Inv(Run(w, steps)) && Run(w, steps).dying == {}
    decreases |steps|
  {
    if steps != [] {
      NextKeeps(w, steps[0]);
      AtomicStep(w, steps[0]);
      hide Next, Inv;
      AtomicRun(Next(w, steps[0]), steps[1..]);
    }
  }

  lemma AtomicStep(w: World, step: Step)
    requires Inv(w) && w.dying == {} && Atomic(step)
    ensures Next(w, step).dying == {}
  {
    hide LibrariesOk, Unregister;
    if step.DropAndDestroy? && step.registration in w.refs {
      var g := step.registration;
      assert g in w.repids;
      assert w.dying + {g} - {g} == {};
    }
  }

  // Then in every run an id has an entry exactly while its registration has
  // outstanding references, every factory the installer registered has been
  // unregistered and its library closed exactly once or is still in use, any
  // other library opened leaked and was never closed, and no factory of other
  // code was ever unregistered.
  lemma RegistryNeverDangles(steps: seq<Step>, repid: string, lib: nat)
    requires AllRespect(START, steps) && forall i | 0 <= i < |steps| :: Atomic(steps[i])
    ensures var w := Run(START, steps);
            && (repid in w.registrations <==> exists g :: g in w.refs && g in w.repids && w.repids[g] == repid)
            && (lib < w.platform.nextLib ==> lib in w.platform.factories || lib in w.platform.leaked)
            && (lib in w.platform.factories ==>
                  w.platform.closed[lib] == w.platform.unregistered[Installed(lib)] == if InUse(w, lib) then 0 else 1)
            && (lib !in w.platform.factories ==> w.platform.closed[lib] == w.platform.unregistered[Installed(lib)] == 0)
            && w.platform.unregistered[Outside] == 0
  {
    var w := Run(START, steps);
    AtomicRun(START, steps);
    hide Run;
    if repid in w.registrations {
      assert w.registrations[repid].registration in w.refs;
    }
  }

  lemma RunFour(w: World, a: Step, b: Step, c: Step, d: Step)
    ensures Run(w, [a, b, c, d]) == Next(Next(Next(Next(w, a), b), c), d)
  {
    hide Next;
    assert [a, b, c, d][1..] == [b, c, d] && [b, c, d][1..] == [c, d] && [c, d][1..] == [d];
    assert Run(Next(w, a), [b, c, d]) == Run(Next(Next(w, a), b), [c, d]);
    assert Run(Next(Next(w, a), b), [c, d]) == Run(Next(Next(Next(w, a), b), c), [d]);
    assert [d][1..] == [];
  }

  // The window is real: one reference dropped, the id installed again before
  // the destructor runs, and the second holder's registration has no entry
  // while its factory is gone.
  lemma WindowDangles(repid: string)
    ensures var install := DoInstall(repid, true, true, true);
            var w := Run(START, [install, Drop(0), install, Destroy(0)]);
            0 in w.refs && w.repids == map[0 := repid] && repid !in w.registrations && repid !in w.platform.table
  {
    var install := DoInstall(repid, true, true, true);
    RunFour(START, install, Drop(0), install, Destroy(0));
    var w1 := Next(START, install);
    assert w1.refs == map[0 := 1] && w1.repids == map[0 := repid];
    var w2 := Next(w1, Drop(0));
    assert w2.refs == map[] && w2.dying == {0};
    var w3 := Next(w2, install);
    assert w3.refs == map[0 := 1] && w3.dying == {0};
  }

  lemma RunThree(w: World, a: Step, b: Step, c: Step)
    ensures Run(w, [a, b, c]) == Next(Next(Next(w, a), b), c)
  {
    hide Next;
    assert [a, b, c][1..] == [b, c] && [b, c][1..] == [c];
    assert Run(Next(w, a), [b, c]) == Run(Next(Next(w, a), b), [c]);
    assert [c][1..] == [];
  }

  // Replacing matters too: the installer then unregisters the factory of the
  // other code and leaves its own, already unknown to the ORB, to the library
  // it closes.
  lemma ReplacedIsUnregistered(repid: string)
    ensures var w := Run(START, [DoInstall(repid, true, true, true), OutsideReplace(repid), DropAndDestroy(0)]);
            && w.platform.unregistered == multiset{Outside}
            && w.platform.closed == multiset{0 as nat}
            && repid !in w.platform.table
  {
    var install := DoInstall(repid, true, true, true);
    RunThree(START, install, OutsideReplace(repid), DropAndDestroy(0));
    var w1 := Next(START, install);
    assert w1.refs == map[0 := 1] && w1.repids == map[0 := repid];
    var w2 := Next(w1, OutsideReplace(repid));
    assert w2.platform.table == map[repid := Outside];
    assert DropStep(w2, 0).dying == {0};
  }

  // A library whose entry point is missing stays open for good.
  lemma MissingEntryPointLeaks(steps: seq<Step>, lib: nat)
    requires AllSafe(START, steps)
    ensures var w := Run(START, steps); lib in w.platform.leaked ==> w.platform.closed[lib] == 0 && !InUse(w, lib)
  {
    RunKeeps(START, steps);
    hide Run;
  }

  // ----- What an installation answers -----

  // Nothing is opened for an id that has a registration or a factory; of what
  // has to be opened the failures are told apart, and a registration is new
  // exactly for an id without one.
  lemma InstallAnswers(registrations: map<string, Info>, p: Platform, repid: string, registration: nat,
                       opens: bool, symbol: bool, made: bool)
    ensures var i := Install(registrations, p, repid, registration, opens, symbol, made);
            var loads := repid !in registrations && repid !in p.table;
            && (!loads ==> i.platform == p)
            && (i.result == Raised(CannotOpen) <==> loads && !opens)
            && (i.result == Raised(EntryPointNotFound) <==> loads && opens && !symbol)
            && (i.result == Raised(NoFactory) <==> loads && opens && symbol && !made)
            && (i.result.Ok? <==> !loads || (opens && symbol && made))
            && (i.result.Ok? ==>
                  repid in i.registrations && i.result.value == i.registrations[repid].registration
                    && i.registrations[repid].release == (if loads then true else
                         repid in registrations && registrations[repid].release))
            && (repid in registrations ==> i.registrations == registrations)
            && (i.result.Ok? && repid !in registrations ==> i.result.value == registration)
            && (loads ==> i.platform.nextLib == p.nextLib + if opens then 1 else 0)
  {
  }

  // ----- References -----

  function RefCount(w: World, g: nat): nat {
    if g in w.refs then w.refs[g] else 0
  }

  // The references to registration g that a step hands out, and takes back.
  function Taken(w: World, step: Step, g: nat): nat {
    match step
    case DoInstall(r, opens, symbol, made) =>
      if Install(w.registrations, w.platform, r, w.next, opens, symbol, made).result == Ok(g) then 1 else 0
    case Duplicate(d) => if d == g && g in w.refs then 1 else 0
    case _ => 0
  }

  function Given(w: World, step: Step, g: nat): nat {
    match step
    case Drop(d) => if d == g && g in w.refs then 1 else 0
    case DropAndDestroy(d) => if d == g && g in w.refs then 1 else 0
    case _ => 0
  }

  function AllTaken(w: World, steps: seq<Step>, g: nat): nat
    decreases |steps|
  {
    if steps == [] then 0 else Taken(w, steps[0], g) + AllTaken(Next(w, steps[0]), steps[1..], g)
  }

  function AllGiven(w: World, steps: seq<Step>, g: nat): nat
    decreases |steps|
  {
    if steps == [] then 0 else Given(w, steps[0], g) + AllGiven(Next(w, steps[0]), steps[1..], g)
  }

  ghost predicate Positive(w: World) {
    forall g | g in w.refs :: w.refs[g] > 0
  }

  lemma NextRefs(w: World, step: Step, g: nat)
    requires Positive(w)
    ensures Positive(Next(w, step))
    ensures RefCount(Next(w, step), g) + Given(w, step, g) == RefCount(w, g) + Taken(w, step, g)
  {
    hide Unregister, InstallStep;
    if step.DoInstall? { InstallRefs(w, step.repid, step.opens, step.symbol, step.made, g); }
  }

  lemma InstallRefs(w: World, repid: string, opens: bool, symbol: bool, made: bool, g: nat)
    requires Positive(w)
    ensures var v := InstallStep(w, repid, opens, symbol, made);
            && Positive(v)
            && RefCount(v, g) == RefCount(w, g) + Taken(w, DoInstall(repid, opens, symbol, made), g)
  {
    hide Install;
  }

  // Over any run the references outstanding to a registration are those handed
  // out by installations and duplications less those dropped.
  lemma {:induction false} RefsConserved(w: World, steps: seq<Step>, g: nat)
    requires Positive(w)
    ensures RefCount(Run(w, steps), g) + AllGiven(w, steps, g) == RefCount(w, g) + AllTaken(w, steps, g)
    decreases |steps|
  {
    hide Next, Taken, Given, Positive, RefCount;
    if steps != [] {
      NextRefs(w, steps[0], g);
      RefsConserved(Next(w, steps[0]), steps[1..], g);
    }
  }
}
