/** What every run of a barrier keeps (pthread/barrier.c). */
module BarrierRuns {
  import opened Threads
  import opened Barrier
  import opened BarrierProofs
  import opened Runs

  /** The state after a step, if it is possible. */
  function Attempt(s: State, e: Event): Option<State> { if Enabled(s, e) then Some(Step(s, e)) else None }

  /** `es` leads from `s` to `s'`. */
  ghost predicate Run(s: State, es: seq<Event>, s': State) { Leads(Attempt, s, es, s') }

  lemma RunKeeps(s: State, es: seq<Event>, s': State)
    requires Safe(s) && Run(s, es, s')
    ensures Safe(s') && s'.pc.Keys == s.pc.Keys
  {
    hide Step, Safe;
    forall x, e | Safe(x) && x.pc.Keys == s.pc.Keys && Enabled(x, e)
      ensures Safe(Step(x, e)) && Step(x, e).pc.Keys == s.pc.Keys
    {
      StepSafe(x, e);
      StepThreads(x, e);
    }
    Keeps(Attempt, x => Safe(x) && x.pc.Keys == s.pc.Keys, s, es, s');
  }

  lemma StepThreads(s: State, e: Event)
    requires Enabled(s, e)
    ensures Step(s, e).pc.Keys == s.pc.Keys
  {}

  lemma Reached(s0: State, es: seq<Event>, s: State)
    requires Initial(s0) && Run(s0, es, s)
    ensures Safe(s) && s.pc.Keys == s0.pc.Keys
  {
    InitialHolds(s0);
    RunKeeps(s0, es, s);
  }

  lemma InitialHolds(s: State)
    requires Initial(s)
    ensures Safe(s)
  {
    assert Arrived(s) == {};
    TallyAny(s.pc, Inside);
  }

  /** No wait returns before every thread has been counted for that round, and the opener of a round, nobody else, is
      given the special return value. */
  lemma RoundsAgree(s0: State, es: seq<Event>, s: State, t: Tid, k: nat)
    requires Initial(s0) && Run(s0, es, s) && (t, k) in s.log
    ensures forall u :: u in s0.pc ==> u in s.arrivals && s.arrivals[u] >= k
    ensures 1 <= k <= |s.winners| && s.winners[k - 1] in s0.pc
    ensures s.log[(t, k)] <==> t == s.winners[k - 1]
  {
    Reached(s0, es, s);
    Entry(s, t, k);
    EveryoneArrived(s, s.gen);
  }

  lemma Entry(s: State, t: Tid, k: nat)
    requires Logged(s) && (t, k) in s.log
    ensures 1 <= k <= s.gen == |s.winners| && s.winners[k - 1] in s.pc
    ensures s.log[(t, k)] <==> t == s.winners[k - 1]
  {}

  lemma EveryoneArrived(s: State, k: nat)
    requires Claimed(s) && k <= s.gen
    ensures forall u :: u in s.pc ==> u in s.arrivals && s.arrivals[u] >= k
  {
    forall u | u in s.pc
      ensures s.arrivals[u] >= k
    {
      Placed(s, u);
    }
  }

  /** A round that has returned to everybody has exactly one special return value. */
  lemma OneSerialPerRound(s0: State, es: seq<Event>, s: State, k: nat)
    requires Initial(s0) && Run(s0, es, s) && s0.pc.Keys != {}
    requires forall t :: t in s0.pc ==> (t, k) in s.log
    ensures exists t :: t in s0.pc && s.log[(t, k)] && forall u :: u in s0.pc && s.log[(u, k)] ==> u == t
  {
    var v :| v in s0.pc;
    RoundsAgree(s0, es, s, v, k);
    var t := s.winners[k - 1];
    forall u | u in s0.pc
      ensures s.log[(u, k)] <==> u == t
    {
      RoundsAgree(s0, es, s, u, k);
    }
    assert t in s0.pc && s.log[(t, k)];
  }

  /** The branch for more threads than the barrier was made for is never taken, and a thread that compares sequence
      numbers carries the current one or the one before, so that their 32-bit wrap-around does no harm. */
  lemma StrayUnreachable(s0: State, es: seq<Event>, s: State, t: Tid)
    requires Initial(s0) && Run(s0, es, s) && t in s.pc
    ensures !s.pc[t].BaStray?
    ensures s.pc[t].BaTest? || s.pc[t].BaWait? || s.pc[t].BaAsleep? ==>
              && t in s.arrivals && 0 < s.arrivals[t]
              && (s.arrivals[t] == s.gen + 1 || s.arrivals[t] == s.gen) && s.pc[t].sq == Limb(s.arrivals[t] - 1)
              && (s.w.lo == s.pc[t].sq <==> s.arrivals[t] == s.gen + 1)
  {
    Reached(s0, es, s);
    Placed(s, t);
    OneBehind(s.pc[t], Self(s, t), s.w.lo);
  }

  lemma OneBehind(p: Pc, me: Me, lo: nat)
    requires Here(p, me, lo)
    ensures p.BaTest? || p.BaWait? || p.BaAsleep? ==> (lo == p.sq <==> me.a == me.gen + 1)
  {
    LimbNext(me.gen);
    if me.gen > 0 { LimbNext(me.gen - 1); }
  }

  /** At any time, whoever sleeps in a round that has been opened is about to be woken; everybody else asleep waits for a
      thread that has not come yet. */
  lemma NobodySleepsPast(s0: State, es: seq<Event>, s: State, t: Tid)
    requires Initial(s0) && Run(s0, es, s) && t in s.pc && Sleeping(s.pc[t])
    ensures t in s.arrivals && (s.arrivals[t] == s.gen || s.arrivals[t] == s.gen + 1)
    ensures s.arrivals[t] == s.gen ==> Any(s.pc, Waking)
    ensures s.arrivals[t] == s.gen + 1 ==>
      Any(s.pc, Opening) || exists u :: u in s.pc && u in s.arrivals && s.arrivals[u] == s.gen
  {
    Reached(s0, es, s);
    Placed(s, t);
    if s.arrivals[t] == s.gen + 1 && !Any(s.pc, Opening) {
      var u := NotCome(s);
      Placed(s, u);
    }
  }

  /** While nobody opens the barrier, somebody has not been counted. */
  lemma NotCome(s: State) returns (u: Tid)
    requires Claimed(s) && Counted(s) && !Any(s.pc, Opening)
    ensures u in s.pc && u !in Arrived(s)
  {
    assert s.pc.Keys - Arrived(s) != {} by {
      SubsetSize(s.pc.Keys, (s.pc.Keys - Arrived(s)) + Arrived(s));
    }
    u :| u in s.pc.Keys - Arrived(s);
  }

  predicate Quiet(s: State) { forall t :: t in s.pc ==> s.pc[t].Idle? || Sleeping(s.pc[t]) }

  /** At rest, whoever sleeps in the barrier waits for a thread that has not come yet. */
  lemma SleepersAtRest(s0: State, es: seq<Event>, s: State, t: Tid)
    requires Initial(s0) && Run(s0, es, s) && Quiet(s) && t in s.pc && Sleeping(s.pc[t])
    ensures t in s.arrivals
    ensures exists u :: u in s.pc && u in s.arrivals && s.pc[u].Idle? && s.arrivals[u] < s.arrivals[t]
  {
    Reached(s0, es, s);
    SomeoneMissing(s, t);
  }

  lemma SomeoneMissing(s: State, t: Tid)
    requires Claimed(s) && Counted(s) && Covered(s) && Quiet(s) && t in s.pc && Sleeping(s.pc[t])
    ensures exists u :: u in s.pc && u in s.arrivals && s.pc[u].Idle? && s.arrivals[u] < s.arrivals[t]
  {
    assert !Any(s.pc, Opening) && !Any(s.pc, Waking);
    Placed(s, t);
    assert s.arrivals[t] == s.gen + 1;
    var u := NotCome(s);
    Placed(s, u);
    assert s.arrivals[u] == s.gen;
  }

  /** Destruction returns only when no thread is between its two accesses to the reference count; a destroyer asleep
      at rest waits for threads that are asleep inside. */
  lemma DestroyWaits(s0: State, es: seq<Event>, s: State)
    requires Initial(s0) && Run(s0, es, s)
    ensures s.w.nrefs == Tally(s.pc, Inside) + Base(s.d)
    ensures s.d.DDone? ==> !Any(s.pc, Inside)
    ensures s.d.DAsleep? ==> Any(s.pc, Inside) || Any(s.pc, Last)
    ensures s.d.DAsleep? && Quiet(s) ==> Any(s.pc, Sleeping)
  {
    Reached(s0, es, s);
    TallyAny(s.pc, Inside);
  }
}
