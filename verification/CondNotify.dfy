/** What broadcasts and cancelled waiters do for the others (pthread/cond.c). */
module CondNotify {
  import opened Threads
  import opened Cond
  import opened CondProofs
  import opened CondRuns
  import opened Runs

  /** A thread that relies on the mutex having been saved in the condition variable. */
  predicate Binds(p: Pc) {
    match p
    case Out(_) => false
    case Lk(_, v) => v.FromWait?
    case UlSwap(n) => n.ThenWait?
    case UlWake(n) => n.ThenWait?
    case Cw(c) => !c.CwSee? && !c.CwBind?
    case Mx(x) => x.BcMove?
  }

  ghost predicate Bound(s: State) { Any(s.pc, Binds) ==> s.w.bound }

  lemma MoveBinds(p: Pc, w: Words, e: Event)
    ensures var m := Next(p, w, e); (w.bound ==> m.w.bound) && (Binds(m.p) && !Binds(p) ==> m.w.bound)
  {
    match p
    case Out(_) =>
    case Lk(_, _) =>
    case UlSwap(_) =>
    case UlWake(_) =>
    case Cw(_) =>
    case Mx(_) =>
  }

  lemma WakeBinds(s: State, e: Event, u: Tid)
    requires e.t in s.pc && u in Step(s, e).pc && u != e.t && Binds(Step(s, e).pc[u])
    ensures u in s.pc && Binds(s.pc[u])
  {}

  lemma StepBinds(s: State, e: Event)
    requires Bound(s) && Enabled(s, e)
    ensures Bound(Step(s, e))
  {
    hide Next, Wake, Binds;
    MoveBinds(s.pc[e.t], s.w, e);
    if u :| u in Step(s, e).pc && Binds(Step(s, e).pc[u]) {
      if u != e.t { WakeBinds(s, e, u); }
    }
  }

  lemma RunBinds(s: State, es: seq<Event>, s': State)
    requires Bound(s) && Run(s, es, s')
    ensures Bound(s')
  {
    hide Step, Bound;
    forall x, e | Bound(x) && Enabled(x, e)
      ensures Bound(Step(x, e))
    {
      StepBinds(x, e);
    }
    Keeps(Attempt, Bound, s, es, s');
  }

  /** A broadcast never requeues to a mutex that was not saved; and in every run, one that finds a waiter registered
      requeues: a waiter has always saved the mutex before. */
  lemma BroadcastRequeues(s0: State, es: seq<Event>, s: State, t: Tid)
    requires Initial(s0) && Run(s0, es, s) && t in s.pc
    ensures s.pc[t].Mx? && s.pc[t].x.BcMove? ==> s.w.bound
    ensures Any(s.pc, Registered) ==> s.w.bound
  {
    RunBinds(s0, es, s);
    if u :| u in s.pc && Registered(s.pc[u]) { assert Binds(s.pc[u]); }
  }

  /** So a broadcast by thread `e.t` that finds waiters asleep wakes one of them and moves all the others to the mutex. */
  lemma BroadcastSparesTheHerd(s0: State, es: seq<Event>, s: State, e: Event)
    requires Initial(s0) && Run(s0, es, s) && Enabled(s, e) && Any(s.pc, CondSleeping) && s.pc[e.t].Mx?
    ensures s.pc[e.t].x.BcAdd? ==> Step(s, e).pc[e.t] == Mx(BcPeek(s.w.gen + 1))
    ensures s.pc[e.t].x.BcPeek? ==> Step(s, e).pc[e.t] == Mx(BcMove(s.pc[e.t].x.b))
    ensures s.pc[e.t].x.BcMove? ==>
      && e.pick in s.pc && CondSleeping(s.pc[e.pick]) && e.pick in Step(s, e).pc
      && Step(s, e).pc[e.pick] == Cw(CwLeave(OK))
      && forall u :: u in s.pc && u != e.pick && CondSleeping(s.pc[u]) ==>
           u in Step(s, e).pc && Step(s, e).pc[u] == Cw(CwMoved(s.pc[u].c.k, s.pc[u].c.sw))
  {
    var u :| u in s.pc && CondSleeping(s.pc[u]);
    assert Registered(s.pc[u]);
    BroadcastRequeues(s0, es, s, u);
    ExclusionAndAccounting(s0, es, s);
    TallyAny(s.pc, Registered);
  }

  /** A cancelled waiter may have been the one that a signal was meant for. It passes it on exactly if the bumps since it
      registered are not a multiple of 2^32. */
  lemma CancelledPassesOn(s0: State, es: seq<Event>, s: State, e: Event)
    requires Initial(s0) && Run(s0, es, s) && Enabled(s, e) && s.pc[e.t].Cw? && s.pc[e.t].c.CxLeave?
    ensures s.pc[e.t].c.sw <= s.w.gen
    ensures Step(s, e).pc[e.t] == Cw(CxWake) <==> (s.w.gen - s.pc[e.t].c.sw) % 0x1_0000_0000 != 0
    ensures Step(s, e).pc[e.t] != Cw(CxWake) ==> Step(s, e).pc[e.t] == Lk(LkPeek, FromWait(CANCELED))
  {
    InitialHolds(s0);
    RunKeeps(s0, es, s);
    assert Dated(s.pc[e.t], s.w.gen);
    LimbsAgree(s.pc[e.t].c.sw, s.w.gen);
  }

  /** Passing it on wakes everybody that is asleep on the condition variable. */
  lemma CancelledWakesAll(s: State, e: Event)
    requires Enabled(s, e) && s.pc[e.t] == Cw(CxWake)
    ensures !Any(Step(s, e).pc, CondSleeping) && Step(s, e).pc[e.t] == Lk(LkPeek, FromWait(CANCELED))
    ensures forall u :: u in s.pc && CondSleeping(s.pc[u]) ==> Step(s, e).pc[u] == Cw(CwLeave(OK))
  {}
}
