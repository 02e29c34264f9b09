/** One step of a barrier keeps the rounds in order, the references counted, and a waker for every sleeper. */
module BarrierProofs {
  import opened Threads
  import opened Barrier

  lemma LimbNext(g: nat)
    ensures Limb(g + 1) == Inc(Limb(g)) && Limb(g + 1) != Limb(g) && Limb(g) < LIMB
  {}

  /** A subset as large as the whole. */
  lemma Full<T>(a: set<T>, b: set<T>)
    requires a <= b && |a| == |b|
    ensures a == b
  {
    assert b == a + (b - a);
  }

  function After(me: Me, d: Deed): Me {
    if d.Arrive? then me.(a := me.a + 1, won := false)
    else if d.Open? then Me(me.a, me.gen + 1, true)
    else me
  }

  /** The mover keeps its place in the round; in particular its saved sequence number is at most one behind, so that
      comparing limbs is comparing rounds. */
  lemma MoveHere(p: Pc, w: Words, total: nat, me: Me)
    requires Here(p, me, w.lo) && (p.BaAdd? ==> w.cnt <= total)
    requires total + 2 < LIMB
    ensures var m := WaitMove(p, w, total);
      && Here(m.p, After(me, m.deed), m.w.lo)
      && (m.deed.Open? <==> p.BaStore?) && (m.deed.Arrive? <==> p.BaAdd?)
      && m.w.lo == (if m.deed.Open? then Limb(me.gen + 1) else w.lo)
      && m.w.cnt == (if m.deed.Open? then 0 else if m.deed.Arrive? then Inc(w.cnt) else w.cnt)
      && (Opening(m.p) <==> p.BaSee? || (p.BaAdd? && w.cnt == total))
      && (Sleeping(m.p) ==> me.a == me.gen + 1)
      && (m.deed.WakeAll? <==> p.BaWake?) && (Waking(m.p) <==> p.BaStore?)
  {
    LimbNext(me.gen);
    if me.gen > 0 { LimbNext(me.gen - 1); }
  }

  lemma WokenHere(p: Pc, me: Me, lo: nat)
    requires Here(p, me, lo)
    ensures Here(Woken(p), me, lo)
  {}

  /** A waiter is one behind once the barrier has opened. */
  lemma WaiterHere(p: Pc, me: Me, lo: nat)
    requires Here(p, me, lo) && (p.BaTest? || p.BaWait? || p.BaAsleep?) && me.a == me.gen + 1
    ensures Here(p, Me(me.a, me.gen + 1, false), Limb(me.gen + 1))
  {}

  lemma NotAllArrived(s: State, t: Tid)
    requires Claimed(s) && Counted(s) && t in s.pc && s.pc[t].BaAdd?
    ensures s.w.cnt <= s.total && t !in Arrived(s) && s.arrivals[t] == s.gen
  {
    assert Here(s.pc[t], Self(s, t), s.w.lo);
    SubsetSize(Arrived(s) + {t}, s.pc.Keys);
  }

  /** When someone opens the barrier, everyone has arrived and everyone else waits. */
  lemma AllArrived(s: State, t: Tid, u: Tid)
    requires Claimed(s) && Counted(s) && t in s.pc && Opening(s.pc[t]) && u in s.pc
    ensures Arrived(s) == s.pc.Keys && s.arrivals[u] == s.gen + 1
    ensures u != t ==> s.pc[u].BaTest? || s.pc[u].BaWait? || s.pc[u].BaAsleep?
  {
    assert Any(s.pc, Opening);
    Full(Arrived(s), s.pc.Keys);
    assert u in Arrived(s);
    assert Here(s.pc[u], Self(s, u), s.w.lo);
  }

  lemma StepClaimed(s: State, t: Tid)
    requires Claimed(s) && Counted(s) && t in s.pc && Enabled(s, Waiter(t))
    ensures Claimed(Step(s, Waiter(t)))
  {
    hide Here, WaitMove;
    var s', m := Step(s, Waiter(t)), WaitMove(s.pc[t], s.w, s.total);
    if s.pc[t].BaAdd? { NotAllArrived(s, t); }
    MoveHere(s.pc[t], s.w, s.total, Self(s, t));
    forall u | u in s'.pc
      ensures Here(s'.pc[u], Self(s', u), s'.w.lo)
    {
      assert Here(s.pc[u], Self(s, u), s.w.lo);
      if u != t && m.deed.Open? {
        AllArrived(s, t, u);
        assert Self(s', u) == Me(s.gen + 1, s.gen + 1, false);
        WaiterHere(s.pc[u], Self(s, u), s.w.lo);
      } else if u != t {
        assert Self(s', u) == Self(s, u);
        WokenHere(s.pc[u], Self(s, u), s.w.lo);
      } else if m.deed.Open? {
        AllArrived(s, t, t);
        assert Self(s', t) == After(Self(s, t), m.deed);
      } else if m.deed.Arrive? {
        assert Self(s', t) == After(Self(s, t), m.deed);
      } else {
        assert Self(s', t) == Self(s, t);
      }
    }
  }

  lemma StepCounted(s: State, t: Tid)
    requires Claimed(s) && Counted(s) && t in s.pc && Enabled(s, Waiter(t))
    ensures Counted(Step(s, Waiter(t)))
  {
    hide Here, WaitMove, Arrived;
    assert Step(s, Waiter(t)).pc.Keys == s.pc.Keys;
    if s.pc[t].BaAdd? { NotAllArrived(s, t); }
    Placed(s, t);
    MoveHere(s.pc[t], s.w, s.total, Self(s, t));
    Openers(s, t);
    if Opening(s.pc[t]) { AllArrived(s, t, t); }
    StepArrived(s, t);
  }

  lemma StepArrived(s: State, t: Tid)
    requires t in s.pc && t in s.arrivals
    requires s.pc[t].BaAdd? ==> t !in Arrived(s) && s.arrivals[t] == s.gen
    requires s.pc[t].BaStore? ==> s.arrivals.Keys == Arrived(s)
    ensures Arrived(Step(s, Waiter(t))) ==
      if s.pc[t].BaStore? then {} else if s.pc[t].BaAdd? then Arrived(s) + {t} else Arrived(s)
  {
    var s' := Step(s, Waiter(t));
    if s.pc[t].BaStore? {
      assert forall u :: u in s.arrivals ==> u in Arrived(s);
    }
  }

  lemma Placed(s: State, t: Tid)
    requires Claimed(s) && t in s.pc
    ensures Here(s.pc[t], Self(s, t), s.w.lo)
  {}

  /** Who is opening the barrier after a step: the mover or whoever was before, and still one at most. */
  lemma Openers(s: State, t: Tid)
    requires Counted(s) && t in s.pc && t in s.arrivals
    requires Opening(s.pc[t]) || Opening(WaitMove(s.pc[t], s.w, s.total).p) ==> s.w.cnt == s.total || Opening(s.pc[t])
    ensures var s' := Step(s, Waiter(t));
      && (Any(s'.pc, Opening) <==> Opening(s'.pc[t]) || (!Opening(s.pc[t]) && Any(s.pc, Opening)))
      && (forall x, y :: x in s'.pc && y in s'.pc && Opening(s'.pc[x]) && Opening(s'.pc[y]) ==> x == y)
  {
    var s' := Step(s, Waiter(t));
    forall u | u in s.pc && u != t
      ensures Opening(s'.pc[u]) <==> Opening(s.pc[u])
    {}
    if Opening(s'.pc[t]) { assert t in s'.pc; }
    if !Opening(s.pc[t]) && Any(s.pc, Opening) {
      var x :| x in s.pc && Opening(s.pc[x]);
      assert x in s'.pc && Opening(s'.pc[x]);
    }
  }

  lemma StepCovered(s: State, t: Tid)
    requires Claimed(s) && Covered(s) && t in s.pc && Enabled(s, Waiter(t))
    requires s.pc[t].BaAdd? ==> s.w.cnt <= s.total
    requires s.total + 2 < LIMB
    ensures Covered(Step(s, Waiter(t)))
  {
    hide Here, WaitMove;
    var s', m := Step(s, Waiter(t)), WaitMove(s.pc[t], s.w, s.total);
    Placed(s, t);
    MoveHere(s.pc[t], s.w, s.total, Self(s, t));
    if u :| u in s'.pc && Sleeping(s'.pc[u]) && s'.arrivals[u] == s'.gen {
      if m.deed.Open? {
        assert t in s'.pc && Waking(s'.pc[t]);
      } else {
        assert u != t && Sleeping(s.pc[u]) && s.arrivals[u] == s.gen;
        var x :| x in s.pc && Waking(s.pc[x]);
        assert x in s'.pc && Waking(s'.pc[x]);
      }
    }
  }

  lemma MoveRefs(p: Pc, w: Words, total: nat)
    requires if Inside(p) then 0 < w.nrefs < LIMB else w.nrefs + 1 < LIMB
    ensures var m := WaitMove(p, w, total);
      && m.w.nrefs - (if Inside(m.p) then 1 else 0) == w.nrefs - (if Inside(p) then 1 else 0)
      && (m.w.nrefs == 0 ==> Last(m.p) || w.nrefs == 0)
      && (Last(p) ==> m.deed.WakeAndReturn?)
  {}

  lemma StepReferenced(s: State, t: Tid)
    requires Referenced(s) && t in s.pc && Enabled(s, Waiter(t))
    ensures Referenced(Step(s, Waiter(t)))
  {
    var s', m := Step(s, Waiter(t)), WaitMove(s.pc[t], s.w, s.total);
    assert s'.pc.Keys == s.pc.Keys;
    RefsInRange(s, t);
    MoveRefs(s.pc[t], s.w, s.total);
    assert Tally(s'.pc, Inside) == Tally(s.pc[t := m.p], Inside) by {
      assert Where(s'.pc, Inside) == Where(s.pc[t := m.p], Inside);
    }
    TallyStep(s.pc, Inside, t, m.p);
    if s'.d.DAsleep? && s'.w.nrefs == 0 {
      assert t in s'.pc && Last(s'.pc[t]);
    }
  }

  lemma RefsInRange(s: State, t: Tid)
    requires Referenced(s) && t in s.pc
    ensures if Inside(s.pc[t]) then 0 < s.w.nrefs < LIMB else s.w.nrefs + 1 < LIMB
  {
    TallyAny(s.pc, Inside);
    TallyBound(s.pc, Inside);
    TallyStep(s.pc, Inside, t, BaLoad);
    TallyBound(s.pc[t := BaLoad], Inside);
    assert s.pc[t := BaLoad].Keys == s.pc.Keys;
  }

  lemma MoveReturns(p: Pc, w: Words, total: nat)
    ensures var m := WaitMove(p, w, total);
      && (m.deed.Return? || m.deed.WakeAndReturn? ==> (p.BaOut? || p.BaLast?) && m.p.Idle? && m.deed.serial == p.serial)
      && (m.deed.Arrive? <==> p.BaAdd?)
      && (!m.deed.Return? && !m.deed.WakeAndReturn? && !m.deed.Arrive? ==>
            (m.p.Idle? || m.p.BaLoad? || m.p.BaAdd? <==> p.Idle? || p.BaLoad? || p.BaAdd?))
      && (m.deed.Arrive? ==> !m.p.Idle? && !m.p.BaLoad? && !m.p.BaAdd?)
  {}

  lemma StepReturned(s: State, t: Tid, u: Tid)
    requires t in s.pc && t in s.arrivals && u in s.pc && u in s.arrivals
    requires s.pc[t].BaOut? || s.pc[t].BaLast? ==> s.arrivals[t] > 0
    ensures var s', m := Step(s, Waiter(t)), WaitMove(s.pc[t], s.w, s.total);
      && u in s'.pc && u in s'.arrivals
      && Returned(s', u) == Returned(s, u) + (if u == t && (m.deed.Return? || m.deed.WakeAndReturn?) then 1 else 0)
  {
    MoveReturns(s.pc[t], s.w, s.total);
  }

  /** A wait that returns is the one of the round that was opened last. */
  lemma Returning(s: State, t: Tid)
    requires Claimed(s) && t in s.pc
    ensures t in s.arrivals
    ensures s.pc[t].BaOut? || s.pc[t].BaLast? ==>
      && 0 < s.arrivals[t] == s.gen && Returned(s, t) == s.arrivals[t] - 1
      && (s.pc[t].serial <==> s.winners[s.gen - 1] == t)
  {
    Placed(s, t);
  }

  lemma StepLogged(s: State, t: Tid)
    requires Claimed(s) && Logged(s) && t in s.pc && Enabled(s, Waiter(t))
    ensures Logged(Step(s, Waiter(t)))
  {
    hide Here, WaitMove, Returned, Logged, Self;
    var s', m := Step(s, Waiter(t)), WaitMove(s.pc[t], s.w, s.total);
    Returning(s, t);
    MoveReturns(s.pc[t], s.w, s.total);
    forall u | u in s.pc
      ensures Returned(s', u) == Returned(s, u) + (if u == t && (m.deed.Return? || m.deed.WakeAndReturn?) then 1 else 0)
    {
      StepReturned(s, t, u);
    }
    LogExtended(s, s', t, m.deed);
  }

  lemma LogExtended(s: State, s': State, t: Tid, d: Deed)
    requires Logged(s) && t in s.pc && t in s.arrivals
    requires s'.pc.Keys == s.pc.Keys && s'.arrivals.Keys == s.arrivals.Keys
    requires forall u :: u in s.pc ==>
      Returned(s', u) == Returned(s, u) + (if u == t && (d.Return? || d.WakeAndReturn?) then 1 else 0)
    requires if d.Open? then s'.gen == s.gen + 1 && s'.winners == s.winners + [t]
             else s'.gen == s.gen && s'.winners == s.winners
    requires d.Return? || d.WakeAndReturn? ==>
      && 0 < s.arrivals[t] == s.gen && Returned(s, t) == s.arrivals[t] - 1
      && (d.serial <==> s.winners[s.gen - 1] == t)
    requires s'.log == if d.Return? || d.WakeAndReturn? then s.log[(t, s.arrivals[t]) := d.serial] else s.log
    ensures Logged(s')
  {
    hide Returned;
    forall r | r in s'.log
      ensures r.0 in s'.pc && 1 <= r.1 <= s'.gen && (s'.log[r] <==> s'.winners[r.1 - 1] == r.0)
    {
      if r in s.log { assert s'.winners[r.1 - 1] == s.winners[r.1 - 1]; }
    }
    forall u, k: nat | u in s'.pc
      ensures (u, k) in s'.log <==> 1 <= k <= Returned(s', u)
    {
      assert (u, k) in s.log <==> 1 <= k <= Returned(s, u);
    }
  }

  lemma StepSafe(s: State, e: Event)
    requires Safe(s) && Enabled(s, e)
    ensures Safe(Step(s, e))
  {
    match e
    case Waiter(t) =>
      StepClaimed(s, t);
      StepCounted(s, t);
      StepLogged(s, t);
      if s.pc[t].BaAdd? { NotAllArrived(s, t); }
      StepCovered(s, t);
      StepReferenced(s, t);
    case Destroyer =>
      DestroySafe(s);
  }

  lemma DestroySafe(s: State)
    requires Safe(s)
    ensures Safe(Step(s, Destroyer))
  {
    var s' := Step(s, Destroyer);
    DestroyClaimed(s);
    DestroyReferenced(s);
    DestroyCounted(s);
    assert forall u :: u in s.pc ==> Returned(s', u) == Returned(s, u);
  }

  lemma DestroyClaimed(s: State)
    requires Claimed(s)
    ensures Claimed(Step(s, Destroyer))
  {
    var s' := Step(s, Destroyer);
    forall u | u in s'.pc
      ensures Here(s'.pc[u], Self(s', u), s'.w.lo)
    {
      assert Here(s.pc[u], Self(s, u), s.w.lo) && Self(s', u) == Self(s, u);
    }
  }

  lemma DestroyCounted(s: State)
    requires Counted(s)
    ensures Counted(Step(s, Destroyer))
  {
    assert Arrived(Step(s, Destroyer)) == Arrived(s);
  }

  lemma DestroyReferenced(s: State)
    requires Referenced(s)
    ensures Referenced(Step(s, Destroyer))
  {
    TallyBound(s.pc, Inside);
  }
}
