/** Signals sent between a waiter's release of the mutex and its registration, and waiters that were interrupted
    (pthread/cond.c). */
module CondMissed {
  import opened Threads
  import opened Cond
  import opened CondProofs
  import opened CondRuns
  import opened CondScenes
  import opened Runs

  /** Registered, and not woken since. */
  predicate Entered(p: Pc) { p.Cw? && (p.c.CwWait? || p.c.CwAsleep?) }

  /** Inside a wait, after the release of the mutex, and not woken. */
  predicate InWait(p: Pc) { Entered(p) || (p.Cw? && p.c.CwEnter?) || (p.UlWake? && p.n.ThenWait?) }

  /** On the way out of a wait, or out of it. */
  predicate Leaving(p: Pc) {
    match p
    case Out(_) => true
    case Lk(_, v) => v.FromWait?
    case UlSwap(_) => false
    case UlWake(_) => false
    case Cw(c) => c.CwMoved? || c.CwLeave? || c.CxLeave? || c.CxWake? || c.CwMark?
    case Mx(_) => false
  }

  /** Thread `t` does not begin another call in the run. */
  ghost predicate OneCall(s: State, es: seq<Event>, t: Tid)
    decreases |es|
  {
    es == [] || (Enabled(s, es[0]) && (es[0].t == t ==> !s.pc[t].Out?) && OneCall(Step(s, es[0]), es[1..], t))
  }

  lemma MoveLeaving(p: Pc, w: Words, e: Event)
    requires Leaving(p) && !p.Out?
    ensures Leaving(Next(p, w, e).p)
  {
    match p
    case Out(_) =>
    case Lk(_, _) =>
    case UlSwap(_) =>
    case UlWake(_) =>
    case Cw(_) =>
    case Mx(_) =>
  }

  lemma MoveInWait(p: Pc, w: Words, e: Event)
    requires InWait(p)
    ensures var q := Next(p, w, e).p;
      && (InWait(q) || Leaving(q))
      && (Entered(q) ==> q.c.sw == (if Entered(p) then p.c.sw else w.gen))
  {
    match p
    case Out(_) =>
    case Lk(_, _) =>
    case UlSwap(_) =>
    case UlWake(_) =>
    case Cw(_) =>
    case Mx(_) =>
  }

  /** A thread that makes no step is woken or moved, or stays where it is. */
  lemma Bystander(s: State, e: Event, t: Tid)
    requires e.t in s.pc && t in s.pc && t != e.t
    ensures var q := Step(s, e).pc[t];
      q == s.pc[t] || (Asleep(s.pc[t]) && (Leaving(s.pc[t]) || Entered(s.pc[t]) ==> Leaving(q)))
  {}

  lemma {:induction false} StaysLeaving(s: State, es: seq<Event>, s': State, t: Tid)
    requires Run(s, es, s') && OneCall(s, es, t) && t in s.pc && Leaving(s.pc[t])
    ensures t in s'.pc && Leaving(s'.pc[t])
    decreases |es|
  {
    if es != [] {
      if es[0].t == t { MoveLeaving(s.pc[t], s.w, es[0]); } else { Bystander(s, es[0], t); }
      StaysLeaving(Step(s, es[0]), es[1..], s', t);
    }
  }

  /** The number a waiter carries is its count of bumps at its registration. */
  lemma {:induction false} EntryDecides(s: State, es: seq<Event>, s': State, t: Tid, b: nat)
    requires Run(s, es, s') && OneCall(s, es, t) && t in s.pc && InWait(s.pc[t]) && t in s'.pc && Entered(s'.pc[t])
    requires b <= s.w.gen && Dating(s) && (Entered(s.pc[t]) ==> s.pc[t].c.sw < b)
    ensures s'.pc[t].c.sw < b <==> Entered(s.pc[t])
    decreases |es|
  {
    if es != [] {
      var m := Step(s, es[0]);
      StepDated(s, es[0]);
      if es[0].t == t { MoveInWait(s.pc[t], s.w, es[0]); } else { Bystander(s, es[0], t); }
      if Leaving(m.pc[t]) {
        StaysLeaving(m, es[1..], s', t);
      } else if Entered(m.pc[t]) && !Entered(s.pc[t]) {
        EntryStays(m, es[1..], s', t);
      } else {
        EntryDecides(m, es[1..], s', t, b);
      }
    }
  }

  lemma {:induction false} EntryStays(s: State, es: seq<Event>, s': State, t: Tid)
    requires Run(s, es, s') && OneCall(s, es, t) && t in s.pc && Entered(s.pc[t]) && t in s'.pc && Entered(s'.pc[t])
    ensures s'.pc[t].c.sw == s.pc[t].c.sw
    decreases |es|
  {
    if es != [] {
      var m := Step(s, es[0]);
      if es[0].t == t { MoveInWait(s.pc[t], s.w, es[0]); } else { Bystander(s, es[0], t); }
      if Leaving(m.pc[t]) { StaysLeaving(m, es[1..], s', t); } else { EntryStays(m, es[1..], s', t); }
    }
  }

  /** A signal or broadcast that bumps the sequence after a waiter has released the mutex is behind the waiter's number if
      and only if the waiter had not registered yet. When no other bump follows, and 2^32 have not gone by, the waiter
      then sleeps in exactly that case. */
  lemma BumpMissedBeforeEntry(s0: State, es: seq<Event>, s: State, e: Event, more: seq<Event>, s': State, t: Tid,
                              e': Event)
    requires Initial(s0) && Run(s0, es, s) && Enabled(s, e) && (s.pc[e.t] == Mx(SgAdd) || s.pc[e.t] == Mx(BcAdd))
    requires t in s.pc && InWait(s.pc[t])
    requires Run(Step(s, e), more, s') && OneCall(Step(s, e), more, t)
    requires t in s'.pc && s'.pc[t].Cw? && s'.pc[t].c.CwWait?
    requires Enabled(s', e') && e'.t == t && !Expired(s'.pc[t].c.k, e')
    ensures s'.pc[t].c.sw <= s.w.gen <==> Entered(s.pc[t])
    ensures s'.w.gen == s.w.gen + 1 && s'.w.gen < s'.pc[t].c.sw + LIMB ==>
      (CondSleeping(Step(s', e').pc[t]) <==> !Entered(s.pc[t]))
  {
    hide Good;
    InitialHolds(s0);
    RunKeeps(s0, es, s);
    StepGood(s, e);
    GoodIsDated(Step(s, e), e.t);
    Bystander(s, e, t);
    GoodIsDated(s, t);
    EntryDecides(Step(s, e), more, s', t, s.w.gen + 1);
    RunKeeps(Step(s, e), more, s');
    GoodIsDated(s', t);
    if s'.w.gen < s'.pc[t].c.sw + LIMB { Compares(s', e'); }
  }

  lemma GoodIsDated(s: State, t: Tid)
    requires Good(s) && t in s.pc
    ensures Dating(s) && Dated(s.pc[t], s.w.gen)
  {}

  /** Within 2^32 bumps a comparison is exact. */
  lemma Compares(s: State, e: Event)
    requires e.t in s.pc && s.pc[e.t].Cw? && s.pc[e.t].c.CwWait? && !Expired(s.pc[e.t].c.k, e)
    requires s.pc[e.t].c.sw <= s.w.gen < s.pc[e.t].c.sw + LIMB
    ensures CondSleeping(Step(s, e).pc[e.t]) <==> s.w.gen == s.pc[e.t].c.sw
  {}

  // Runs.

  /** Thread 1 has released the mutex in a wait, and thread 2 has it, about to bump the sequence. */
  const SIGNALLING: Scene := RELEASED.(w := Words(1, 0, 0, true), b := Mx(SgAdd), holders := {2})

  lemma ComesToSignal()
    ensures Comes(START, SIGNALLING)
  {
    hide Comes, Enabled, Step, Of;
    Releases();
    var e, x, w, w' := Go(2, Lock(Block)), RELEASED, RELEASED.w, Words(1, 0, 0, true);
    Second(START, x, e, Lk(LkPeek, Plain(Block)), w, Nothing);
    Second(START, x.(b := Lk(LkPeek, Plain(Block))), e, Lk(LkCas, Plain(Block)), w, Nothing);
    Second(START, x.(b := Lk(LkCas, Plain(Block))), e, Out(OK), w', Grant);
    assert x.holders + {2} == {2};
    Second(START, x.(w := w', holders := {2}), Go(2, Signal), Mx(SgAdd), w', Nothing);
  }

  const ASLEEP: Scene := RELEASED.(w := Words(0, 1, 1, true), a := Cw(CwAsleep(Block, 1)))

  lemma FallsAsleep()
    ensures Comes(SIGNALLING, ASLEEP)
  {
    hide Comes, Enabled, Step, Of;
    Starts(SIGNALLING);
    var x0, unlock, wait, w := SIGNALLING, Go(2, Unlock), Go(1, Wait(Block)), Words(1, 1, 0, true);
    Second(x0, x0, Go(2, Signal), Out(OK), w, Nothing);
    Second(x0, x0.(b := Out(OK), w := w), unlock, UlSwap(Done), w, Nothing);
    Second(x0, x0.(b := UlSwap(Done), w := w), unlock, Out(OK), Words(0, 1, 0, true), Drop);
    assert x0.holders - {2} == {};
    First(x0, RELEASED.(w := Words(0, 1, 0, true)), wait, Cw(CwWait(Block, 1)), ASLEEP.w, Nothing);
    First(x0, RELEASED.(w := ASLEEP.w, a := Cw(CwWait(Block, 1))), wait, Cw(CwAsleep(Block, 1)), ASLEEP.w, Nothing);
  }

  /** Thread 1 releases the mutex in a wait; thread 2 takes it, signals while it holds it, and unlocks; then thread 1
      registers and sleeps, and nobody is left to wake it. */
  lemma SignalMissed() returns (es: seq<Event>, s: State, more: seq<Event>, s': State)
    ensures Initial(Of(START)) && Run(Of(START), es, s) && Run(s, more, s')
    ensures s.pc == map[1 := Cw(CwEnter(Block)), 2 := Mx(SgAdd)] && s.holders == {2}
    ensures s'.pc == map[1 := Cw(CwAsleep(Block, 1)), 2 := Out(OK)] && Quiet(s') && s'.w.gen == s.w.gen + 1
  {
    ComesToSignal();
    FallsAsleep();
    s, s' := Of(SIGNALLING), Of(ASLEEP);
    es :| Leads(Attempt, Of(START), es, s);
    more :| Leads(Attempt, s, more, s');
  }

  /** When nobody is registered, the condition variable is refused destruction exactly if a waiter was ever interrupted. */
  lemma BusyForGood(s0: State, es: seq<Event>, s: State)
    requires Initial(s0) && Run(s0, es, s) && !Any(s.pc, Registered)
    ensures s.w.nw == s.leaked && (Destroy(s.w) == EBUSY <==> s.leaked > 0)
  {
    ExclusionAndAccounting(s0, es, s);
    TallyAny(s.pc, Registered);
  }

  const INTERRUPTED: Scene := Scene(Words(2, 1, 1, true), Out(OK), Out(OK), {1}, 1)

  lemma Interrupts()
    ensures Comes(SIGNALLING, INTERRUPTED)
  {
    hide Comes, Enabled, Step, Of;
    FallsAsleep();
    var x0, e, w, v := SIGNALLING, Go(1, Wait(Block)), ASLEEP.w, FromWait(OK);
    First(x0, ASLEEP, e.(cut := Interrupt), Lk(LkPeek, v), w, Leak);
    var x := ASLEEP.(a := Lk(LkPeek, v), leaked := 1);
    First(x0, x, e, Lk(LkCas, v), w, Nothing);
    First(x0, x.(a := Lk(LkCas, v)), e, Cw(CwMark(OK)), Words(1, 1, 1, true), Grant);
    assert x.holders + {1} == {1};
    First(x0, x.(w := Words(1, 1, 1, true), a := Cw(CwMark(OK)), holders := {1}), e, Out(OK), Words(2, 1, 1, true), Nothing);
  }

  /** A waiter that was interrupted comes back, with nobody registered and the condition variable not to be destroyed. */
  lemma InterruptedStaysCounted() returns (es: seq<Event>, s: State)
    ensures Initial(Of(START)) && Run(Of(START), es, s)
    ensures !Any(s.pc, Registered) && s.w.nw == 1 && s.leaked == 1 && Destroy(s.w) == EBUSY
    ensures forall t :: t in s.pc ==> s.pc[t] == Out(OK)
  {
    ComesToSignal();
    Interrupts();
    s := Of(INTERRUPTED);
    var before :| Leads(Attempt, Of(START), before, Of(SIGNALLING));
    var after :| Leads(Attempt, Of(SIGNALLING), after, s);
    Join(Attempt, Of(START), before, Of(SIGNALLING), after, s);
    es := before + after;
  }
}
