// The hand-off between the threads that run initialise and those that report
// the end of the process's initialisation, under every interleaving.
module InitHandOff {
  import opened Outcomes

  // Where a thread inside initialise stands. The first four are before its
  // decision; at Deciding it has left the loop and still holds the mutex.
  datatype InitPc =
    | Start | Testing | Waiting | Woken | Deciding
    | Activating | Calling | Initialised | Failing | Failed | Unexpected

  // A thread that calls one of the two setters and then broadcasts.
  datatype SetPc = Locking | Setting | Unlocking | Broadcasting | Finished

  datatype Thread = Initialiser(at: InitPc) | Setter(exception: bool, pc: SetPc)

  datatype State = State(
    mutex: Option<nat>,
    exceptionRaised: bool,
    initDone: bool,
    poaActive: bool,
    threads: seq<Thread>)

  function Wake(threads: seq<Thread>): (r: seq<Thread>)
    ensures |r| == |threads|
    ensures forall i | 0 <= i < |threads| ::
              r[i] == if threads[i] == Initialiser(Waiting) then Initialiser(Woken) else threads[i]
  {
    seq(|threads|, i requires 0 <= i < |threads| =>
      if threads[i] == Initialiser(Waiting) then Initialiser(Woken) else threads[i])
  }

  // Can thread t take its next step? A lock waits for the mutex, a waiter for
  // a broadcast.
  predicate Enabled(s: State, t: nat) {
    t < |s.threads| &&
    match s.threads[t]
    case Initialiser(at) =>
      (match at
       case Start => s.mutex.None?
       case Woken => s.mutex.None?
       case Waiting => false
       case Initialised => false
       case Failed => false
       case Unexpected => false
       case _ => true)
    case Setter(_, pc) =>
      (match pc
       case Locking => s.mutex.None?
       case Finished => false
       case _ => true)
  }

  function Advance(s: State, t: nat): State
    requires Enabled(s, t)
  {
    match s.threads[t]
    case Initialiser(at) =>
      (match at
       case Start => s.(mutex := Some(t), threads := s.threads[t := Initialiser(Testing)])
       case Woken => s.(mutex := Some(t), threads := s.threads[t := Initialiser(Testing)])
       case Testing =>
         if !(s.exceptionRaised || s.initDone) then s.(mutex := None, threads := s.threads[t := Initialiser(Waiting)])
         else s.(threads := s.threads[t := Initialiser(Deciding)])
       case Deciding =>
         s.(mutex := None,
            threads := s.threads[t := Initialiser(
              if s.exceptionRaised then Failing else if s.initDone then Activating else Unexpected)])
       case Activating => s.(poaActive := true, threads := s.threads[t := Initialiser(Calling)])
       case Calling => s.(threads := s.threads[t := Initialiser(Initialised)])
       case _ => s.(threads := s.threads[t := Initialiser(Failed)]))
    case Setter(exception, pc) =>
      (match pc
       case Locking => s.(mutex := Some(t), threads := s.threads[t := Setter(exception, Setting)])
       case Setting =>
         s.(exceptionRaised := s.exceptionRaised || exception, initDone := s.initDone || !exception,
            threads := s.threads[t := Setter(exception, Unlocking)])
       case Unlocking => s.(mutex := None, threads := s.threads[t := Setter(exception, Broadcasting)])
       case _ => s.(threads := Wake(s.threads)[t := Setter(exception, Finished)]))
  }

  // Threads take turns in any order; a waiter may also wake for no reason.
  datatype Step = Turn(t: nat) | Spurious(t: nat)

  function Next(s: State, step: Step): State {
    match step
    case Turn(t) => if Enabled(s, t) then Advance(s, t) else s
    case Spurious(t) =>
      if t < |s.threads| && s.threads[t] == Initialiser(Waiting)
      then s.(threads := s.threads[t := Initialiser(Woken)]) else s
  }

  function Run(s: State, steps: seq<Step>): State
    decreases |steps|
  {
    if steps == [] then s else Run(Next(s, steps[0]), steps[1..])
  }

  // Any number of threads of either kind, none of which has begun.
  ghost predicate Fresh(s: State) {
    && s.mutex.None? && !s.exceptionRaised && !s.initDone && !s.poaActive
    && forall i | 0 <= i < |s.threads| ::
        s.threads[i] == Initialiser(Start) || (s.threads[i].Setter? && s.threads[i].pc == Locking)
  }

  // ----- The invariant -----

  predicate Flag(s: State) {
    s.exceptionRaised || s.initDone
  }

  predicate HoldsMutex(x: Thread) {
    x == Initialiser(Testing) || x == Initialiser(Deciding) || (x.Setter? && (x.pc == Setting || x.pc == Unlocking))
  }

  // A thread that has set a flag and not yet broadcast.
  predicate Pending(x: Thread) {
    x.Setter? && (x.pc == Unlocking || x.pc == Broadcasting)
  }

  ghost predicate SignalPending(s: State) {
    exists i :: 0 <= i < |s.threads| && Pending(s.threads[i])
  }

  ghost predicate Blocked(s: State, t: nat) {
    t < |s.threads| && s.threads[t] == Initialiser(Waiting)
  }

  ghost predicate ThreadOk(s: State, t: nat)
    requires t < |s.threads|
  {
    var x := s.threads[t];
    && (HoldsMutex(x) <==> s.mutex == Some(t))
    && (x == Initialiser(Deciding) ==> Flag(s))
    && x != Initialiser(Unexpected)
    && (x.Initialiser? && (x.at == Activating || x.at == Calling || x.at == Initialised) ==> s.initDone)
    && (x.Initialiser? && (x.at == Calling || x.at == Initialised) ==> s.poaActive)
    && (x.Initialiser? && (x.at == Failing || x.at == Failed) ==> s.exceptionRaised)
    && (x.Setter? && (Pending(x) || x.pc == Finished) ==> if x.exception then s.exceptionRaised else s.initDone)
    && (Blocked(s, t) && Flag(s) ==> SignalPending(s))
  }

  ghost predicate Inv(s: State) {
    && (forall t | 0 <= t < |s.threads| :: ThreadOk(s, t))
    && (s.mutex.Some? ==> s.mutex.value < |s.threads|)
  }

  lemma PendingSurvives(s: State, s': State, t: nat)
    requires SignalPending(s) && |s'.threads| == |s.threads| && t < |s.threads|
    requires forall i | 0 <= i < |s.threads| && i != t :: s'.threads[i] == s.threads[i]
    requires Pending(s.threads[t]) ==> Pending(s'.threads[t])
    ensures SignalPending(s')
  {
    var i :| 0 <= i < |s.threads| && Pending(s.threads[i]);
    assert Pending(s'.threads[i]);
  }

  lemma AdvanceInitialiser(s: State, t: nat)
    requires Inv(s) && Enabled(s, t) && s.threads[t].Initialiser?
    ensures Inv(Advance(s, t))
  {
    var s' := Advance(s, t);
    if SignalPending(s) { PendingSurvives(s, s', t); }
    hide SignalPending, Advance, Enabled;
    forall u | 0 <= u < |s'.threads| ensures ThreadOk(s', u) {
      assert ThreadOk(s, u) && ThreadOk(s, t);
      hide Inv, ThreadOk;
      if u == t { InitialiserItself(s, t); } else { InitialiserOthers(s, t, u); }
    }
    InitialiserMutex(s, t);
  }

  lemma InitialiserMutex(s: State, t: nat)
    requires Enabled(s, t) && s.threads[t].Initialiser?
    ensures var s' := Advance(s, t);
        |s'.threads| == |s.threads| && (s'.mutex == s.mutex || s'.mutex.None? || s'.mutex == Some(t))
  {
  }

  lemma InitialiserItself(s: State, t: nat)
    requires Enabled(s, t) && s.threads[t].Initialiser? && ThreadOk(s, t)
    ensures ThreadOk(Advance(s, t), t)
  {
    hide SignalPending;
  }

  lemma InitialiserOthers(s: State, t: nat, u: nat)
    requires Enabled(s, t) && s.threads[t].Initialiser? && u < |s.threads| && u != t
    requires ThreadOk(s, t) && ThreadOk(s, u)
    requires SignalPending(s) ==> SignalPending(Advance(s, t))
    ensures ThreadOk(Advance(s, t), u)
  {
    hide SignalPending;
  }

  lemma AdvanceSetter(s: State, t: nat)
    requires Inv(s) && Enabled(s, t) && s.threads[t].Setter?
    ensures Inv(Advance(s, t))
  {
    var s' := Advance(s, t);
    SetterSignals(s, t);
    hide SignalPending, Advance, Enabled;
    forall u | 0 <= u < |s'.threads| ensures ThreadOk(s', u) {
      assert ThreadOk(s, u) && ThreadOk(s, t);
      hide Inv, ThreadOk;
      if u == t { SetterItself(s, t); } else { SetterOthers(s, t, u); }
    }
    SetterMutex(s, t);
  }

  lemma SetterMutex(s: State, t: nat)
    requires Enabled(s, t) && s.threads[t].Setter?
    ensures var s' := Advance(s, t);
        |s'.threads| == |s.threads| && (s'.mutex == s.mutex || s'.mutex.None? || s'.mutex == Some(t))
  {
  }

  // Until it broadcasts, a setter keeps a broadcast pending that was, and
  // makes its own pending with the flag it sets.
  lemma SetterSignals(s: State, t: nat)
    requires Enabled(s, t) && s.threads[t].Setter?
    ensures var s' := Advance(s, t);
            s.threads[t].pc != Broadcasting ==>
              && (SignalPending(s) ==> SignalPending(s'))
              && (s.threads[t].pc == Setting ==> SignalPending(s'))
  {
    var s' := Advance(s, t);
    if s.threads[t].pc != Broadcasting {
      if SignalPending(s) { PendingSurvives(s, s', t); }
      if s.threads[t].pc == Setting { assert Pending(s'.threads[t]); }
    }
  }

  lemma SetterItself(s: State, t: nat)
    requires Enabled(s, t) && s.threads[t].Setter? && ThreadOk(s, t)
    ensures ThreadOk(Advance(s, t), t)
  {
    hide SignalPending;
  }

  lemma SetterOthers(s: State, t: nat, u: nat)
    requires Enabled(s, t) && s.threads[t].Setter? && u < |s.threads| && u != t
    requires ThreadOk(s, t) && ThreadOk(s, u)
    requires s.threads[t].pc != Broadcasting ==> SignalPending(s) ==> SignalPending(Advance(s, t))
    requires s.threads[t].pc == Setting ==> SignalPending(Advance(s, t))
    ensures ThreadOk(Advance(s, t), u)
  {
    hide SignalPending;
  }

  lemma SpuriousKeeps(s: State, t: nat)
    requires Inv(s) && t < |s.threads| && s.threads[t] == Initialiser(Waiting)
    ensures Inv(s.(threads := s.threads[t := Initialiser(Woken)]))
  {
    var s' := s.(threads := s.threads[t := Initialiser(Woken)]);
    if SignalPending(s) { PendingSurvives(s, s', t); }
    hide SignalPending;
    forall u | 0 <= u < |s'.threads| ensures ThreadOk(s', u) {
      assert ThreadOk(s, u) && ThreadOk(s, t);
    }
  }

  lemma NextKeeps(s: State, step: Step)
    requires Inv(s)
    ensures Inv(Next(s, step)) && |Next(s, step).threads| == |s.threads|
  {
    hide Inv;
    match step
    case Turn(t) =>
      if Enabled(s, t) {
        if s.threads[t].Initialiser? { AdvanceInitialiser(s, t); } else { AdvanceSetter(s, t); }
      }
    case Spurious(t) =>
      if t < |s.threads| && s.threads[t] == Initialiser(Waiting) { SpuriousKeeps(s, t); }
  }

  lemma {:induction false} RunKeeps(s: State, steps: seq<Step>)
    requires Inv(s)
    ensures Inv(Run(s, steps)) && |Run(s, steps).threads| == |s.threads|
    decreases |steps|
  {
    hide Inv, Next;
    if steps != [] {
      NextKeeps(s, steps[0]);
      RunKeeps(Next(s, steps[0]), steps[1..]);
    }
  }

  lemma FreshInv(s: State)
    requires Fresh(s)
    ensures Inv(s)
  {
  }

  // ----- Safety in every reachable state -----

  // A thread that calls on_initialise, or has, does so after initialisation
  // was reported done and the POA manager was activated; no thread reaches
  // the statement marked unexpected; and while a flag is set a thread blocked
  // in wait has a broadcast coming.
  lemma HandOffSafe(s: State, steps: seq<Step>, t: nat)
    requires Fresh(s) && t < |s.threads|
    ensures var r := Run(s, steps);
            && t < |r.threads|
            && (r.threads[t] == Initialiser(Calling) || r.threads[t] == Initialiser(Initialised) ==>
              r.initDone && r.poaActive)
            && (r.threads[t] == Initialiser(Failed) ==> r.exceptionRaised)
            && r.threads[t] != Initialiser(Unexpected)
            && (Blocked(r, t) && Flag(r) ==> SignalPending(r))
  {
    FreshInv(s);
    RunKeeps(s, steps);
    hide Run;
    assert ThreadOk(Run(s, steps), t);
  }

  // Has the thread yet to look at the flags for the last time?
  predicate Undecided(x: Thread) {
    x.Initialiser? && x.at in {Start, Testing, Waiting, Woken, Deciding}
  }

  predicate Refused(x: Thread) {
    x.Initialiser? && x.at in {Failing, Failed}
  }

  // Once the exception flag is set, a thread that has not decided by then
  // never comes to call on_initialise, whatever else happens.
  lemma {:induction false} ExceptionPreventsCall(s: State, steps: seq<Step>, t: nat)
    requires s.exceptionRaised && t < |s.threads| && (Undecided(s.threads[t]) || Refused(s.threads[t]))
    ensures var r := Run(s, steps); t < |r.threads| && (Undecided(r.threads[t]) || Refused(r.threads[t]))
    decreases |steps|
  {
    if steps != [] {
      ExceptionPreventsCall(Next(s, steps[0]), steps[1..], t);
    }
  }

  // ----- Progress -----

  // How many turns a thread has left once a flag is set.
  function Rank(x: Thread): nat {
    match x
    case Initialiser(at) =>
      (match at
       case Waiting => 7
       case Start => 6
       case Woken => 6
       case Testing => 5
       case Deciding => 4
       case Activating => 2
       case Calling => 1
       case Failing => 1
       case _ => 0)
    case Setter(_, pc) =>
      (match pc
       case Locking => 4
       case Setting => 3
       case Unlocking => 2
       case Broadcasting => 1
       case Finished => 0)
  }

  function Total(threads: seq<Thread>): nat {
    if threads == [] then 0 else Rank(threads[0]) + Total(threads[1..])
  }

  lemma {:induction false} TotalUpdate(threads: seq<Thread>, t: nat, x: Thread)
    requires t < |threads|
    ensures Total(threads[t := x]) == Total(threads) - Rank(threads[t]) + Rank(x)
    decreases |threads|
  {
    if t > 0 {
      TotalUpdate(threads[1..], t - 1, x);
      assert threads[t := x][1..] == threads[1..][t - 1 := x];
    } else {
      assert threads[t := x][1..] == threads[1..];
    }
  }

  lemma {:induction false} TotalWake(threads: seq<Thread>)
    ensures Total(Wake(threads)) <= Total(threads)
    decreases |threads|
  {
    if threads != [] {
      assert Wake(threads)[1..] == Wake(threads[1..]);
      TotalWake(threads[1..]);
    }
  }

  // Once a flag is set, every turn brings the threads nearer to their end.
  lemma TurnDecreases(s: State, t: nat)
    requires Inv(s) && Flag(s) && Enabled(s, t)
    ensures Flag(Advance(s, t)) && Total(Advance(s, t).threads) < Total(s.threads)
  {
    assert ThreadOk(s, t);
    hide Inv, Total;
    TurnEffect(s, t);
    var x := Advance(s, t).threads[t];
    if s.threads[t].Setter? && s.threads[t].pc == Broadcasting {
      hide Advance, Enabled, ThreadOk, Rank;
      TotalWake(s.threads);
      TotalUpdate(Wake(s.threads), t, x);
    } else {
      hide Advance, Enabled, ThreadOk, Rank;
      TotalUpdate(s.threads, t, x);
    }
  }

  // A turn moves its own thread nearer to its end; only a broadcast touches
  // the others, and wakes those that wait.
  lemma TurnEffect(s: State, t: nat)
    requires Flag(s) && Enabled(s, t) && ThreadOk(s, t)
    ensures var s' := Advance(s, t);
            && Flag(s') && |s'.threads| == |s.threads|
            && Rank(s'.threads[t]) < Rank(s.threads[t])
            && s'.threads == if s.threads[t].Setter? && s.threads[t].pc == Broadcasting
                             then Wake(s.threads)[t := s'.threads[t]] else s.threads[t := s'.threads[t]]
  {
    hide SignalPending;
  }

  // And some thread can take a turn until every one has come to its end: no
  // wakeup is lost and nobody is left waiting for the mutex.
  lemma SomeTurn(s: State)
    requires Inv(s) && Flag(s) && forall t: nat :: !Enabled(s, t)
    ensures forall t | 0 <= t < |s.threads| ::
              s.threads[t] in {Initialiser(Initialised), Initialiser(Failed)}
                || (s.threads[t].Setter? && s.threads[t].pc == Finished)
  {
    if s.mutex.Some? {
      assert ThreadOk(s, s.mutex.value);
      assert Enabled(s, s.mutex.value);
    }
    assert !SignalPending(s) by {
      if SignalPending(s) {
        var i :| 0 <= i < |s.threads| && Pending(s.threads[i]);
        assert Enabled(s, i);
      }
    }
    forall t | 0 <= t < |s.threads|
      ensures s.threads[t] in {Initialiser(Initialised), Initialiser(Failed)}
        || (s.threads[t].Setter? && s.threads[t].pc == Finished)
    {
      assert ThreadOk(s, t);
      assert !Enabled(s, t);
    }
  }

  // A step that changes something: an enabled turn, or a spurious wakeup of a
  // thread that waits.
  predicate Effective(s: State, step: Step) {
    match step
    case Turn(t) => Enabled(s, t)
    case Spurious(t) => t < |s.threads| && s.threads[t] == Initialiser(Waiting)
  }

  lemma StepDecreases(s: State, step: Step)
    requires Inv(s) && Flag(s) && Effective(s, step)
    ensures Flag(Next(s, step)) && Total(Next(s, step).threads) < Total(s.threads)
  {
    hide Inv, Total;
    match step
    case Turn(t) => TurnDecreases(s, t);
    case Spurious(t) => TotalUpdate(s.threads, t, Initialiser(Woken));
  }

  ghost predicate AllEffective(s: State, steps: seq<Step>)
    decreases |steps|
  {
    steps == [] || (Effective(s, steps[0]) && AllEffective(Next(s, steps[0]), steps[1..]))
  }

  // So from any reachable state with a flag set, any schedule of such steps is
  // finite, and when it can go no further every initialise call has ended.
  lemma {:induction false} SchedulesEnd(s: State, steps: seq<Step>)
    requires Inv(s) && Flag(s) && AllEffective(s, steps)
    ensures |steps| <= Total(s.threads)
    decreases |steps|
  {
    hide Inv, Next, Effective, Flag, Total;
    if steps != [] {
      StepDecreases(s, steps[0]);
      NextKeeps(s, steps[0]);
      SchedulesEnd(Next(s, steps[0]), steps[1..]);
    }
  }

  // ----- Where a flag comes from, and how a caller ends -----

  predicate Past(x: Thread, exception: bool) {
    x.Setter? && x.exception == exception && x.pc != Locking && x.pc != Setting
  }

  // Somebody raised each flag that is up, and activated the POA manager.
  ghost predicate Origin(s: State) {
    && (s.exceptionRaised ==> exists i :: 0 <= i < |s.threads| && Past(s.threads[i], true))
    && (s.initDone ==> exists i :: 0 <= i < |s.threads| && Past(s.threads[i], false))
  }

  // The threads of a state are those it began with.
  ghost predicate SameThreads(s: State, r: State) {
    && |r.threads| == |s.threads|
    && forall i | 0 <= i < |s.threads| ::
        if s.threads[i].Initialiser? then r.threads[i].Initialiser?
        else r.threads[i].Setter? && r.threads[i].exception == s.threads[i].exception
  }

  lemma PastStays(s: State, step: Step, i: nat, exception: bool)
    requires i < |s.threads| && Past(s.threads[i], exception)
    ensures i < |Next(s, step).threads| && Past(Next(s, step).threads[i], exception)
  {
  }

  // Only a setter at its one statement raises a flag, and only its own.
  lemma FlagsRaised(s: State, step: Step)
    ensures var r := Next(s, step);
            && (r.exceptionRaised && !s.exceptionRaised ==>
                  step.Turn? && step.t < |r.threads| && Past(r.threads[step.t], true))
            && (r.initDone && !s.initDone ==>
                  step.Turn? && step.t < |r.threads| && Past(r.threads[step.t], false))
            && (s.exceptionRaised ==> r.exceptionRaised) && (s.initDone ==> r.initDone)
  {
  }

  lemma NextSame(s: State, step: Step)
    ensures SameThreads(s, Next(s, step))
  {
  }

  lemma NextOrigin(s: State, step: Step)
    requires Origin(s)
    ensures Origin(Next(s, step)) && SameThreads(s, Next(s, step))
  {
    hide Next, SameThreads;
    NextSame(s, step);
    FlagsRaised(s, step);
    if s.exceptionRaised {
      var i :| 0 <= i < |s.threads| && Past(s.threads[i], true);
      PastStays(s, step, i, true);
    }
    if s.initDone {
      var i :| 0 <= i < |s.threads| && Past(s.threads[i], false);
      PastStays(s, step, i, false);
    }
  }

  lemma {:induction false} RunOrigin(s: State, steps: seq<Step>)
    requires Origin(s)
    ensures Origin(Run(s, steps)) && SameThreads(s, Run(s, steps))
    decreases |steps|
  {
    hide Next, Origin;
    if steps != [] {
      NextOrigin(s, steps[0]);
      RunOrigin(Next(s, steps[0]), steps[1..]);
    }
  }

  // Whoever runs, each flag is up only after one of its own setters raised it,
  // and stays down when it has none. So with nobody to report an exception no
  // caller fails, and with nobody to report the end of it no caller succeeds.
  lemma FlagsHaveSetters(s: State, steps: seq<Step>)
    requires Fresh(s)
    ensures var r := Run(s, steps);
            && (r.exceptionRaised ==> exists i :: 0 <= i < |r.threads| && Past(r.threads[i], true))
            && (r.initDone ==> exists i :: 0 <= i < |r.threads| && Past(r.threads[i], false))
            && ((forall i | 0 <= i < |s.threads| && s.threads[i].Setter? :: !s.threads[i].exception) ==>
                  !r.exceptionRaised && forall t | 0 <= t < |r.threads| :: r.threads[t] != Initialiser(Failed))
            && ((forall i | 0 <= i < |s.threads| && s.threads[i].Setter? :: s.threads[i].exception) ==>
                  !r.initDone && forall t | 0 <= t < |r.threads| :: r.threads[t] != Initialiser(Initialised))
  {
    RunOrigin(s, steps);
    hide Run;
    forall t | 0 <= t < |Run(s, steps).threads|
      ensures Run(s, steps).threads[t] == Initialiser(Initialised) ==> Run(s, steps).initDone
      ensures Run(s, steps).threads[t] == Initialiser(Failed) ==> Run(s, steps).exceptionRaised
    {
      HandOffSafe(s, steps, t);
    }
  }

  // When no thread can move and there is a setter, a flag is up.
  lemma SettersDone(s: State, i: nat)
    requires Inv(s) && i < |s.threads| && s.threads[i].Setter? && forall t: nat :: !Enabled(s, t)
    ensures Flag(s)
  {
    if s.mutex.Some? {
      assert ThreadOk(s, s.mutex.value);
      assert Enabled(s, s.mutex.value);
    }
    assert ThreadOk(s, i) && !Enabled(s, i);
  }

  // On a normal start every caller comes to call on_initialise: once nobody
  // can move, each has, with the POA manager activated.
  lemma CallersSucceed(s: State, steps: seq<Step>, i: nat, t: nat)
    requires Fresh(s) && i < |s.threads| && s.threads[i].Setter?
    requires forall j | 0 <= j < |s.threads| && s.threads[j].Setter? :: !s.threads[j].exception
    requires forall u: nat :: !Enabled(Run(s, steps), u)
    requires t < |s.threads| && s.threads[t].Initialiser?
    ensures var r := Run(s, steps); t < |r.threads| && r.threads[t] == Initialiser(Initialised) && r.poaActive
  {
    EndReached(s, steps, i, t);
    FlagsHaveSetters(s, steps);
    HandOffSafe(s, steps, t);
  }

  // Where only an exception is reported, each fails.
  lemma CallersFail(s: State, steps: seq<Step>, i: nat, t: nat)
    requires Fresh(s) && i < |s.threads| && s.threads[i].Setter?
    requires forall j | 0 <= j < |s.threads| && s.threads[j].Setter? :: s.threads[j].exception
    requires forall u: nat :: !Enabled(Run(s, steps), u)
    requires t < |s.threads| && s.threads[t].Initialiser?
    ensures var r := Run(s, steps); t < |r.threads| && r.threads[t] == Initialiser(Failed)
  {
    EndReached(s, steps, i, t);
    FlagsHaveSetters(s, steps);
  }

  lemma EndReached(s: State, steps: seq<Step>, i: nat, t: nat)
    requires Fresh(s) && i < |s.threads| && s.threads[i].Setter?
    requires forall u: nat :: !Enabled(Run(s, steps), u)
    requires t < |s.threads| && s.threads[t].Initialiser?
    ensures var r := Run(s, steps);
            t < |r.threads| && r.threads[t] in {Initialiser(Initialised), Initialiser(Failed)}
  {
    FreshInv(s);
    RunKeeps(s, steps);
    RunOrigin(s, steps);
    hide Run, Inv, Enabled;
    SettersDone(Run(s, steps), i);
    SomeTurn(Run(s, steps));
  }
}
