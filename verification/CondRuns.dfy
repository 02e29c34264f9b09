/** What every run of a mutex and its condition variable keeps (pthread/lowlevellock.c, pthread/cond.c). */
module CondRuns {
  import opened Threads
  import opened Cond
  import opened CondProofs
  import opened Runs

  /** The state after a step, if it is possible. */
  function Attempt(s: State, e: Event): Option<State> { if Enabled(s, e) then Some(Step(s, e)) else None }

  /** `es` leads from `s` to `s'`. */
  ghost predicate Run(s: State, es: seq<Event>, s': State) { Leads(Attempt, s, es, s') }

  /** Nobody that registered before bump `b` compares its number with a sequence that is equal to it again. */
  ghost predicate NoLap(s: State, es: seq<Event>, b: nat)
    decreases |es|
  {
    es == [] || (Enabled(s, es[0]) && !Laps(s, es[0], b) && NoLap(Step(s, es[0]), es[1..], b))
  }

  ghost predicate NoneEarly(s: State, b: nat) { !Any(s.pc, EarlyTo(b)) }

  /** All along the run nobody is asleep on the condition variable since before bump `b`. */
  ghost predicate NeverEarly(s: State, es: seq<Event>, b: nat)
    decreases |es|
  {
    NoneEarly(s, b) && (es == [] || (Enabled(s, es[0]) && NeverEarly(Step(s, es[0]), es[1..], b)))
  }

  /** What the steps keep. */
  ghost predicate Good(s: State) { Safe(s) && Covered(s) && Dating(s) }

  lemma StepGood(s: State, e: Event)
    requires Good(s) && Enabled(s, e)
    ensures Good(Step(s, e)) && s.w.gen <= Step(s, e).w.gen
  {
    StepSafe(s, e);
    StepCovered(s, e);
    StepDated(s, e);
  }

  lemma RunKeeps(s: State, es: seq<Event>, s': State)
    requires Good(s) && Run(s, es, s')
    ensures Good(s') && s.w.gen <= s'.w.gen
  {
    hide Step, Good;
    forall x, e | Good(x) && s.w.gen <= x.w.gen && Enabled(x, e)
      ensures Good(Step(x, e)) && s.w.gen <= Step(x, e).w.gen
    {
      StepGood(x, e);
    }
    Keeps(Attempt, x => Good(x) && s.w.gen <= x.w.gen, s, es, s');
  }

  lemma InitialHolds(s: State)
    requires Initial(s)
    ensures Good(s)
  {
    TallyAny(s.pc, Registered);
  }

  predicate Quiet(s: State) { forall t :: t in s.pc ==> s.pc[t].Out? || Asleep(s.pc[t]) }

  /** At most one thread holds the mutex, the word is 0 exactly when none does, and the waiter count is the number
      of registered waiters plus those that an interruption left in it. */
  lemma ExclusionAndAccounting(s0: State, es: seq<Event>, s: State)
    requires Initial(s0) && Run(s0, es, s)
    ensures |s.holders| <= 1 && (s.w.lock == 0 <==> s.holders == {}) && s.w.lock <= 2
    ensures s.w.nw == Tally(s.pc, Registered) + s.leaked
  {
    InitialHolds(s0);
    RunKeeps(s0, es, s);
  }

  /** Whoever sleeps on the mutex word, having contended for it or having been moved there by a broadcast, is covered
      by the word's value 2, by a pending wake, by a thread about to swap 2 in, or by one coming back from a wait. */
  lemma NobodyStranded(s0: State, es: seq<Event>, s: State)
    requires Initial(s0) && Run(s0, es, s) && Any(s.pc, LockSleeping)
    ensures s.w.lock == 2 || Any(s.pc, Covers)
    ensures Quiet(s) ==> s.w.lock == 2 && |s.holders| == 1
  {
    InitialHolds(s0);
    RunKeeps(s0, es, s);
    if Quiet(s) { NobodyAwake(s); }
  }

  lemma NobodyAwake(s: State)
    requires Quiet(s)
    ensures !Any(s.pc, Covers)
  {}

  lemma {:induction false} NeverEarlyIfNoLap(s: State, es: seq<Event>, s': State, b: nat)
    requires Run(s, es, s') && NoneEarly(s, b)
    ensures NeverEarly(s, es, b) <==> NoLap(s, es, b)
    decreases |es|
  {
    if es != [] {
      var m := Step(s, es[0]);
      StepEarly(s, es[0], b);
      if Laps(s, es[0], b) {
        assert Any(m.pc, EarlyTo(b));
      } else {
        assert forall u :: u in m.pc && Early(m.pc[u], b) ==> u in Where(m.pc, EarlyTo(b));
        NeverEarlyIfNoLap(m, es[1..], s', b);
      }
    }
  }

  /** Once the broadcast of bump `b` has been carried out, nobody who registered before the bump is asleep on the
      condition variable, then or at any time after, if and only if no such waiter then finds the sequence equal to its
      number again. */
  lemma BroadcastIsComplete(s0: State, before: seq<Event>, s: State, e: Event, after: seq<Event>, s': State)
    requires Initial(s0) && Run(s0, before, s) && Enabled(s, e) && Run(Step(s, e), after, s')
    requires var d := Next(s.pc[e.t], s.w, e).deed; d.Requeue? || d.WakeAllCond? || d.Flush?
    ensures var b := Next(s.pc[e.t], s.w, e).deed.b; NeverEarly(Step(s, e), after, b) <==> NoLap(Step(s, e), after, b)
  {
    InitialHolds(s0);
    RunKeeps(s0, before, s);
    StepFlushes(s, e);
    NeverEarlyIfNoLap(Step(s, e), after, s', Next(s.pc[e.t], s.w, e).deed.b);
  }

  /** A waiter goes to sleep exactly if the bumps since it registered are a multiple of 2^32; so it finds the sequence
      equal to its number after a later bump only if 2^32 of them, or a multiple, have gone by. */
  lemma SleepsAfterFullWrap(s0: State, es: seq<Event>, s: State, e: Event, b: nat)
    requires Initial(s0) && Run(s0, es, s) && Enabled(s, e)
    requires s.pc[e.t].Cw? && s.pc[e.t].c.CwWait? && !Expired(s.pc[e.t].c.k, e)
    ensures s.pc[e.t].c.sw <= s.w.gen
    ensures CondSleeping(Step(s, e).pc[e.t]) <==> (s.w.gen - s.pc[e.t].c.sw) % 0x1_0000_0000 == 0
    ensures b <= s.w.gen ==>
      (Laps(s, e, b) <==> s.pc[e.t].c.sw < b && s.w.gen - s.pc[e.t].c.sw >= LIMB && (s.w.gen - s.pc[e.t].c.sw) % LIMB == 0)
  {
    InitialHolds(s0);
    RunKeeps(s0, es, s);
    assert Dated(s.pc[e.t], s.w.gen);
    LimbsAgree(s.pc[e.t].c.sw, s.w.gen);
  }

  lemma LimbsAgree(a: nat, b: nat)
    requires a <= b
    ensures Limb(a) == Limb(b) <==> (b - a) % 0x1_0000_0000 == 0
  {}

  /** A signal sent while a waiter is asleep always gets to its wake. */
  lemma SignalGetsToWake(s0: State, es: seq<Event>, s: State, e: Event)
    requires Initial(s0) && Run(s0, es, s) && Enabled(s, e) && Any(s.pc, CondSleeping)
    requires s.pc[e.t] == Mx(SgAdd)
    ensures Step(s, e).pc[e.t] == Mx(SgWake)
  {
    InitialHolds(s0);
    RunKeeps(s0, es, s);
    var u :| u in s.pc && CondSleeping(s.pc[u]);
    assert Registered(s.pc[u]);
    TallyAny(s.pc, Registered);
  }

  /** The wake of a signal takes exactly one waiter off the condition variable's queue. */
  lemma SignalWakesOne(s: State, e: Event)
    requires Enabled(s, e) && Any(s.pc, CondSleeping) && s.pc[e.t] == Mx(SgWake)
    ensures Tally(Step(s, e).pc, CondSleeping) == Tally(s.pc, CondSleeping) - 1
    ensures CondSleeping(s.pc[e.pick]) && Step(s, e).pc[e.pick] == Cw(CwLeave(OK))
  {
    var woken := s.pc[e.pick := Cw(CwLeave(OK))];
    assert Step(s, e).pc == woken[e.t := Out(OK)];
    TallyStep(s.pc, CondSleeping, e.pick, Cw(CwLeave(OK)));
    TallyStep(woken, CondSleeping, e.t, Out(OK));
  }

  lemma {:induction false} EarlyDwindle(s: State, es: seq<Event>, s': State, b: nat)
    requires Run(s, es, s') && NoLap(s, es, b)
    ensures Where(s'.pc, EarlyTo(b)) <= Where(s.pc, EarlyTo(b))
    decreases |es|
  {
    if es != [] {
      StepEarly(s, es[0], b);
      EarlyDwindle(Step(s, es[0]), es[1..], s', b);
    }
  }

  /** A signal that finds threads asleep goes on to its wake. By the end of that, at least one of them sleeps no more,
      unless the wake went to a waiter that registered after the signal's bump. */
  lemma SignalServesWaiters(s0: State, es: seq<Event>, s: State, e: Event, more: seq<Event>, s': State, e': Event)
    requires Initial(s0) && Run(s0, es, s) && Enabled(s, e) && Any(s.pc, CondSleeping) && s.pc[e.t] == Mx(SgAdd)
    requires Run(Step(s, e), more, s') && NoLap(Step(s, e), more, s.w.gen + 1)
    requires Enabled(s', e') && s'.pc[e'.t] == Mx(SgWake)
    ensures Step(s, e).pc[e.t] == Mx(SgWake)
    ensures Where(Step(s', e').pc, EarlyTo(s.w.gen + 1)) < Where(s.pc, CondSleeping)
            || (e'.pick in s'.pc && CondSleeping(s'.pc[e'.pick]) && s'.pc[e'.pick].c.sw > s.w.gen)
  {
    var b := s.w.gen + 1;
    SignalGetsToWake(s0, es, s, e);
    InitialHolds(s0);
    RunKeeps(s0, es, s);
    assert Where(s.pc, EarlyTo(b)) <= Where(s.pc, CondSleeping);
    StepEarly(s, e, b);
    EarlyDwindle(Step(s, e), more, s', b);
    StepEarly(s', e', b);
    var u :| u in s.pc && CondSleeping(s.pc[u]);
    assert u in Where(s.pc, CondSleeping);
    if Any(s'.pc, CondSleeping) {
      SignalWakesOne(s', e');
      assert e'.pick !in Where(Step(s', e').pc, EarlyTo(b));
      if s'.pc[e'.pick].c.sw < b { assert e'.pick in Where(s'.pc, EarlyTo(b)); }
    } else {
      assert u !in Where(s'.pc, EarlyTo(b));
    }
  }

  /** A condition wait returns with the mutex held by the caller and marked as contended. */
  lemma WaitReturnsHolding(s0: State, es: seq<Event>, s: State, e: Event)
    requires Initial(s0) && Run(s0, es, s) && Enabled(s, e)
    requires s.pc[e.t].Cw? && s.pc[e.t].c.CwMark?
    ensures Step(s, e).holders == {e.t} && Step(s, e).w.lock == 2
  {
    InitialHolds(s0);
    RunKeeps(s0, es, s);
    assert Here(s.pc[e.t], Me(e.t in s.holders));
    SubsetSize({e.t}, s.holders);
    if u :| u in s.holders && u != e.t { SubsetSize({e.t, u}, s.holders); }
  }
}
