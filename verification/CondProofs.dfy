/** One step of a mutex and its condition variable keeps the accounting, a waker for every sleeper on the mutex word, and
    the effect of broadcasts. */
module CondProofs {
  import opened Threads
  import opened Cond

  function Share(p: Pc): nat { if Registered(p) then 1 else 0 }

  /** What a step of a thread at `p` may rely on. */
  predicate Local(p: Pc, w: Words, me: Me) {
    && Here(p, me)
    && w.lock <= 2
    && (me.holder ==> w.lock != 0)
    && Share(p) <= w.nw < LIMB
  }

  function After(me: Me, d: Deed): Me { Me(!d.Drop? && (me.holder || d.Grant?)) }

  /** Interrupted waiters stay in the count. */
  function Leaks(d: Deed): nat { if d.Leak? then 1 else 0 }

  /** What the move must establish. */
  predicate Fits(p: Pc, w: Words, me: Me, m: Move) {
    && Here(m.p, After(me, m.deed))
    && m.w.lock <= 2
    && (m.deed.Grant? ==> w.lock == 0 && m.w.lock != 0)
    && (m.deed.Drop? ==> me.holder && m.w.lock == 0)
    && (!m.deed.Grant? && !m.deed.Drop? ==> (m.w.lock == 0 <==> w.lock == 0))
    && m.w.nw - Share(m.p) - Leaks(m.deed) == w.nw - Share(p)
    && m.w.nw < LIMB
  }

  lemma MoveFits(p: Pc, w: Words, e: Event, me: Me)
    requires Local(p, w, me)
    requires p.Out? && (e.op.Unlock? || e.op.Wait?) ==> me.holder
    requires p.Cw? && p.c.CwEnter? ==> w.nw + 1 < LIMB
    ensures Fits(p, w, me, Next(p, w, e))
  {
    match p
    case Out(_) =>
    case Lk(_, _) =>
    case UlSwap(_) =>
    case UlWake(_) =>
    case Cw(_) =>
    case Mx(_) =>
  }

  lemma Room(s: State, t: Tid)
    requires Safe(s) && t in s.pc
    ensures Local(s.pc[t], s.w, Me(t in s.holders))
  {
    TallyAny(s.pc, Registered);
  }

  /** No wake touches a thread that is awake, and the woken are still registered, or still contending. */
  lemma WakeOne(s: State, d: Deed, pick: Tid, u: Tid)
    requires u in s.pc
    ensures u in Wake(s.pc, d, pick)
    ensures !Asleep(s.pc[u]) ==> Wake(s.pc, d, pick)[u] == s.pc[u]
    ensures Registered(Wake(s.pc, d, pick)[u]) <==> Registered(s.pc[u])
    ensures Here(s.pc[u], Me(u in s.holders)) ==> Here(Wake(s.pc, d, pick)[u], Me(u in s.holders))
  {}

  lemma WakeKeeps(s: State, d: Deed, pick: Tid)
    requires Safe(s)
    ensures Safe(s.(pc := Wake(s.pc, d, pick)))
  {
    var pc' := Wake(s.pc, d, pick);
    assert pc'.Keys == s.pc.Keys;
    forall u | u in s.pc
      ensures Here(pc'[u], Me(u in s.holders)) && (Registered(pc'[u]) <==> Registered(s.pc[u]))
    {
      WakeOne(s, d, pick, u);
    }
    assert Where(pc', Registered) == Where(s.pc, Registered);
  }

  function Moved(s: State, t: Tid, m: Move): State {
    State(m.w, s.pc[t := m.p], Holders(s.holders, m.deed, t), s.leaked + Leaks(m.deed))
  }

  lemma Frame(s: State, t: Tid, m: Move)
    requires Safe(s) && t in s.pc && Fits(s.pc[t], s.w, Me(t in s.holders), m)
    ensures Safe(Moved(s, t, m))
  {
    FrameClaims(s, t, m);
    FrameOwned(s, t, m);
    TallyStep(s.pc, Registered, t, m.p);
  }

  lemma FrameClaims(s: State, t: Tid, m: Move)
    requires Claimed(s) && t in s.pc && Here(m.p, After(Me(t in s.holders), m.deed))
    ensures Claimed(Moved(s, t, m))
  {
    var s' := Moved(s, t, m);
    forall u | u in s'.pc
      ensures Here(s'.pc[u], Me(u in s'.holders))
    {
      if u != t {
        assert Me(u in s'.holders) == Me(u in s.holders);
        assert Here(s.pc[u], Me(u in s.holders));
      }
    }
  }

  lemma FrameOwned(s: State, t: Tid, m: Move)
    requires Owned(s) && t in s.pc && Fits(s.pc[t], s.w, Me(t in s.holders), m)
    ensures Owned(Moved(s, t, m))
  {
    if m.deed.Drop? {
      assert s.holders == {t} by {
        SubsetSize({t}, s.holders);
        if u :| u in s.holders && u != t { SubsetSize({t, u}, s.holders); }
      }
    }
  }

  lemma StepSafe(s: State, e: Event)
    requires Safe(s) && Enabled(s, e)
    ensures Safe(Step(s, e))
  {
    var p, m := s.pc[e.t], Next(s.pc[e.t], s.w, e);
    Room(s, e.t);
    MoveFits(p, s.w, e, Me(e.t in s.holders));
    var s' := s.(pc := Wake(s.pc, m.deed, e.pick));
    WakeKeeps(s, m.deed, e.pick);
    MoverAwake(p, s.w, e);
    WakeOne(s, m.deed, e.pick, e.t);
    Frame(s', e.t, m);
  }

  /** A thread that wakes others is awake itself. */
  lemma MoverAwake(p: Pc, w: Words, e: Event)
    ensures var d := Next(p, w, e).deed; Asleep(p) ==> d.Nothing? || d.Leak?
  {
    match p
    case Out(_) =>
    case Lk(_, _) =>
    case UlSwap(_) =>
    case UlWake(_) =>
    case Cw(_) =>
    case Mx(_) =>
  }

  // ---------------------------------------------------------------- nobody is stranded on the mutex word

  /** How the mover keeps the sleepers on the mutex word covered. */
  lemma MoveCovers(p: Pc, w: Words, e: Event, me: Me)
    requires Local(p, w, me)
    ensures var m := Next(p, w, e);
      && (LockSleeping(m.p) ==> m.w.lock == 2)
      && (w.lock == 2 ==> m.w.lock == 2 || Covers(m.p))
      && (Covers(p) ==> m.w.lock == 2 || Covers(m.p) || (p.UlWake? && m.deed.WakeLock?))
      && (LockSleeping(p) ==> m.w.lock == 2 || Covers(m.p) || w.lock == 2 || (p.Lk? && !Covers(p)))
  {
    match p
    case Out(_) =>
    case Lk(_, _) =>
    case UlSwap(_) =>
    case UlWake(_) =>
    case Cw(_) =>
    case Mx(_) =>
  }

  /** Who sleeps on the mutex word after a wake slept there before, or was moved there while another was woken. */
  lemma NewSleeper(s: State, e: Event, u: Tid)
    requires Enabled(s, e) && u in s.pc && u != e.t && LockSleeping(Step(s, e).pc[u])
    ensures LockSleeping(s.pc[u]) ||
            (e.pick in s.pc && CondSleeping(s.pc[e.pick]) && Next(s.pc[e.t], s.w, e).deed.Requeue?)
  {
    var p, d := s.pc[e.t], Next(s.pc[e.t], s.w, e).deed;
    if d.Requeue? {
      RequeueIsBroadcast(p, s.w, e);
      if !LockSleeping(s.pc[u]) { assert CondSleeping(s.pc[u]); }
    }
  }

  lemma RequeueIsBroadcast(p: Pc, w: Words, e: Event)
    requires Next(p, w, e).deed.Requeue?
    ensures p.Mx? && p.x.BcMove?
  {
    match p
    case Out(_) =>
    case Lk(_, _) =>
    case UlSwap(_) =>
    case UlWake(_) =>
    case Cw(_) =>
    case Mx(_) =>
  }

  lemma StillCovers(s: State, e: Event, x: Tid)
    requires e.t in s.pc && x in s.pc && x != e.t && Covers(s.pc[x])
    ensures Any(Step(s, e).pc, Covers)
  {
    WakeOne(s, Next(s.pc[e.t], s.w, e).deed, e.pick, x);
    assert x in Step(s, e).pc && Covers(Step(s, e).pc[x]);
  }

  lemma StepCovered(s: State, e: Event)
    requires Safe(s) && Enabled(s, e) && Covered(s)
    ensures Covered(Step(s, e))
  {
    var t, s', d := e.t, Step(s, e), Next(s.pc[e.t], s.w, e).deed;
    Room(s, t);
    MoveCovers(s.pc[t], s.w, e, Me(t in s.holders));
    if u :| u in s'.pc && LockSleeping(s'.pc[u]) && s'.w.lock != 2 && !Covers(s'.pc[t]) {
      assert u != t && u in s.pc;
      NewSleeper(s, e, u);
      MoverAwake(s.pc[t], s.w, e);
      if LockSleeping(s.pc[u]) {
        var x :| x in s.pc && Covers(s.pc[x]);
        if x != t {
          StillCovers(s, e, x);
        } else {
          assert e.pick in s'.pc && Covers(s'.pc[e.pick]);
        }
      } else {
        assert e.pick in s'.pc && Covers(s'.pc[e.pick]);
      }
    }
  }

  // ---------------------------------------------------------------- broadcasts reach everybody

  lemma MoveDated(p: Pc, w: Words, e: Event)
    requires Dated(p, w.gen)
    ensures var m := Next(p, w, e);
      && w.gen <= m.w.gen && Dated(m.p, m.w.gen)
      && (m.deed.WakeAllCond? || m.deed.Requeue? || m.deed.Flush? ==> m.deed.b <= m.w.gen && !CondSleeping(m.p))
      && (m.deed.Flush? ==> w.nw == 0)
  {
    match p
    case Out(_) =>
    case Lk(_, _) =>
    case UlSwap(_) =>
    case UlWake(_) =>
    case Cw(_) =>
    case Mx(_) =>
  }

  lemma StepDated(s: State, e: Event)
    requires Dating(s) && e.t in s.pc
    ensures Dating(Step(s, e)) && s.w.gen <= Step(s, e).w.gen
  {
    var t, s', m := e.t, Step(s, e), Next(s.pc[e.t], s.w, e);
    MoveDated(s.pc[t], s.w, e);
    forall u | u in s'.pc && u != t
      ensures Dated(s'.pc[u], s'.w.gen)
    {
      WakeOne(s, m.deed, e.pick, u);
      assert Dated(s.pc[u], s.w.gen);
    }
  }

  /** The only way to fall asleep. */
  lemma MoveSleeps(p: Pc, w: Words, e: Event, b: nat)
    ensures Early(Next(p, w, e).p, b) <==>
      p.Cw? && p.c.CwWait? && !Expired(p.c.k, e) && p.c.sw < b && Limb(w.gen) == Limb(p.c.sw)
  {
    match p
    case Out(_) =>
    case Lk(_, _) =>
    case UlSwap(_) =>
    case UlWake(_) =>
    case Cw(_) =>
    case Mx(_) =>
  }

  /** No step but a lap adds to those asleep since before a bump. */
  lemma StepEarly(s: State, e: Event, b: nat)
    requires e.t in s.pc
    ensures !Laps(s, e, b) ==> Where(Step(s, e).pc, EarlyTo(b)) <= Where(s.pc, EarlyTo(b))
    ensures Laps(s, e, b) ==> e.t in Where(Step(s, e).pc, EarlyTo(b))
  {
    var s' := Step(s, e);
    MoveSleeps(s.pc[e.t], s.w, e, b);
    forall u | u in s'.pc && u != e.t && Early(s'.pc[u], b)
      ensures u in s.pc && Early(s.pc[u], b)
    {
      WakeOne(s, Next(s.pc[e.t], s.w, e).deed, e.pick, u);
    }
  }

  /** Carrying out a broadcast leaves nobody asleep on the condition variable. */
  lemma StepFlushes(s: State, e: Event)
    requires Safe(s) && Dating(s) && Enabled(s, e)
    requires var d := Next(s.pc[e.t], s.w, e).deed; d.Requeue? || d.WakeAllCond? || d.Flush?
    ensures forall u :: u in Step(s, e).pc ==> !CondSleeping(Step(s, e).pc[u])
  {
    var s', d := Step(s, e), Next(s.pc[e.t], s.w, e).deed;
    MoveDated(s.pc[e.t], s.w, e);
    TallyAny(s.pc, Registered);
    if d.Flush? {
      assert !Any(s.pc, Registered);
      assert forall u :: u in s.pc && u != e.t ==> !Registered(s.pc[u]);
    }
  }
}
