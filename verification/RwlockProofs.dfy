/** One step of a read-write lock keeps its accounting, and a waker for every sleeper. */
module RwlockProofs {
  import opened Threads
  import opened Rwlock

  function RdShareOf(p: Pc): nat { if RdQueued(p) then 1 else 0 }
  function WrShareOf(p: Pc): nat { if WrQueued(p) then 1 else 0 }

  /** How a deed changes the number of read holds. */
  function Gain(d: Deed): int { if d.GrantRead? then 1 else if d.DropRead? then -1 else 0 }

  /** What a step of thread `t` at `p` may rely on; `nr` is the number of read holds. */
  predicate Local(p: Pc, w: Words, me: Me, nr: nat) {
    && 0 < me.t < ID_LIMIT && Here(p, me)
    && (w.oid < ID_LIMIT || w.oid == RO)
    && (me.writer <==> w.oid == me.t)
    && (nr > 0 ==> w.oid == RO)
    && (me.reader ==> nr > 0)
    && nr + RdShareOf(p) <= w.nrd < LIMB
    && WrShareOf(p) <= w.qwr < LIMB - 1 + WrShareOf(p)
  }

  function After(me: Me, d: Deed): Me {
    Me(me.t, !d.DropRead? && (me.reader || d.GrantRead?), !d.DropWrite? && (me.writer || d.GrantWrite?))
  }

  /** What the move must establish. */
  predicate Fits(p: Pc, w: Words, me: Me, nr: nat, m: Move) {
    && Here(m.p, After(me, m.deed))
    && (m.deed.GrantRead? ==> (w.oid == UNOWNED || w.oid == RO) && m.w.oid == RO)
    && (m.deed.GrantWrite? ==> w.oid == UNOWNED && m.w.oid == me.t)
    && (m.deed.DropRead? ==> me.reader && m.w.oid == if w.nrd == 1 then UNOWNED else RO)
    && (m.deed.DropWrite? ==> me.writer && m.w.oid == UNOWNED)
    && (m.deed.Nothing? || m.deed.WakeWriter? || m.deed.WakeReaders? ==> m.w.oid == w.oid)
    && m.w.nrd - RdShareOf(m.p) == w.nrd - RdShareOf(p) + Gain(m.deed)
    && m.w.nrd < LIMB
    && m.w.qwr - WrShareOf(m.p) == w.qwr - WrShareOf(p)
  }

  lemma MoveFits(p: Pc, w: Words, e: Event, me: Me, nr: nat)
    requires Local(p, w, me, nr) && e.t == me.t
    requires p.Out? && e.op.Unlock? ==> me.reader || me.writer
    requires p.Rd? && (p.r.RdCas? || p.r.RdEnter?) ==> w.nrd + 1 < LIMB
    ensures Fits(p, w, me, nr, Next(p, w, e))
  {
    match p
    case Out(_) =>
    case Rd(_) => ReadFits(p, w, e, me, nr);
    case Wr(_) => WriteFits(p, w, e, me, nr);
    case Un(_) => UnlockFits(p, w, e, me, nr);
  }

  lemma ReadFits(p: Pc, w: Words, e: Event, me: Me, nr: nat)
    requires p.Rd? && Local(p, w, me, nr) && e.t == me.t
    requires p.r.RdCas? || p.r.RdEnter? ==> w.nrd + 1 < LIMB
    ensures Fits(p, w, me, nr, ReadMove(p.r, w, e))
  {}

  lemma WriteFits(p: Pc, w: Words, e: Event, me: Me, nr: nat)
    requires p.Wr? && Local(p, w, me, nr) && e.t == me.t
    ensures Fits(p, w, me, nr, WriteMove(p.w, w, e))
  {}

  lemma UnlockFits(p: Pc, w: Words, e: Event, me: Me, nr: nat)
    requires p.Un? && Local(p, w, me, nr) && e.t == me.t
    ensures Fits(p, w, me, nr, UnlockMove(p.u, w, e))
  {}

  lemma Room(s: State, t: Tid)
    requires Safe(s) && t in s.pc
    ensures Local(s.pc[t], s.w, Self(s, t), |s.readers|)
  {
    var w := Wr(WrAsleep(Block));
    TallyStep(s.pc, WrQueued, t, w);
    TallyBound(s.pc[t := w], WrQueued);
    TallyAny(s.pc, RdQueued);
    TallyAny(s.pc, WrQueued);
    assert s.pc[t := w].Keys == s.pc.Keys;
  }

  lemma WakeClaims(s: State, d: Deed, pick: Tid)
    requires Claimed(s)
    ensures Claimed(s.(pc := Wake(s.pc, d, pick)))
  {
    var s' := s.(pc := Wake(s.pc, d, pick));
    forall u | u in s'.pc
      ensures 0 < u < ID_LIMIT && Here(s'.pc[u], Self(s', u))
    {
      assert Self(s', u) == Self(s, u);
      assert Here(s.pc[u], Self(s, u));
    }
  }

  lemma WakeCounts(s: State, d: Deed, pick: Tid)
    requires Counted(s)
    ensures Counted(s.(pc := Wake(s.pc, d, pick)))
  {
    assert Wake(s.pc, d, pick).Keys == s.pc.Keys;
    if d.WakeReaders? {
      TallyAll(s.pc, RdQueued, ReaderWoken);
      TallyAll(s.pc, WrQueued, ReaderWoken);
    } else if d.WakeWriter? && pick in s.pc {
      TallyStep(s.pc, RdQueued, pick, WriterWoken(s.pc[pick]));
      TallyStep(s.pc, WrQueued, pick, WriterWoken(s.pc[pick]));
    }
  }

  lemma DropOne(r: multiset<Tid>, t: Tid)
    requires t in r
    ensures |r - multiset{t}| == |r| - 1
  {
    assert r == (r - multiset{t}) + multiset{t};
  }

  /** The state after thread `t` alone made move `m`. */
  function Moved(s: State, t: Tid, m: Move): State {
    State(m.w, s.pc[t := m.p], Readers(s.readers, m.deed, t), Writers(s.writers, m.deed, t))
  }

  lemma Frame(s: State, t: Tid, m: Move)
    requires Safe(s) && t in s.pc && Fits(s.pc[t], s.w, Self(s, t), |s.readers|, m)
    ensures Safe(Moved(s, t, m))
  {
    FrameClaims(s, t, m);
    FrameCounts(s, t, m);
    FrameOwned(s, t, m);
  }

  lemma FrameClaims(s: State, t: Tid, m: Move)
    requires Claimed(s) && t in s.pc && Here(m.p, After(Self(s, t), m.deed))
    ensures Claimed(Moved(s, t, m))
  {
    var s' := Moved(s, t, m);
    forall u | u in s'.pc
      ensures 0 < u < ID_LIMIT && Here(s'.pc[u], Self(s', u))
    {
      if u != t {
        assert Self(s', u) == Self(s, u);
        assert Here(s.pc[u], Self(s, u));
      }
    }
  }

  lemma FrameCounts(s: State, t: Tid, m: Move)
    requires Counted(s) && t in s.pc && Fits(s.pc[t], s.w, Self(s, t), |s.readers|, m)
    ensures Counted(Moved(s, t, m))
  {
    TallyStep(s.pc, RdQueued, t, m.p);
    TallyStep(s.pc, WrQueued, t, m.p);
    assert s.pc[t := m.p].Keys == s.pc.Keys;
    if m.deed.DropRead? { DropOne(s.readers, t); }
  }

  lemma FrameOwned(s: State, t: Tid, m: Move)
    requires Owned(s.w, s.readers, s.writers) && s.writers <= s.pc.Keys
    requires t in s.pc && 0 < t < ID_LIMIT && Fits(s.pc[t], s.w, Self(s, t), |s.readers|, m)
    requires |s.readers| <= s.w.nrd
    ensures var s' := Moved(s, t, m); Owned(s'.w, s'.readers, s'.writers) && s'.writers <= s'.pc.Keys
  {
    if m.deed.DropRead? { DropOne(s.readers, t); }
  }

  lemma StepSafe(s: State, e: Event)
    requires Safe(s) && Enabled(s, e)
    ensures Safe(Step(s, e))
  {
    var p, m := s.pc[e.t], Next(s.pc[e.t], s.w, e);
    Room(s, e.t);
    MoveFits(p, s.w, e, Self(s, e.t), |s.readers|);
    var s' := s.(pc := Wake(s.pc, m.deed, e.pick));
    WakeClaims(s, m.deed, e.pick);
    WakeCounts(s, m.deed, e.pick);
    assert s'.pc.Keys == s.pc.Keys;
    assert s'.pc[e.t] == p;
    Frame(s', e.t, m);
  }

  // ---------------------------------------------------------------- no lost wake-up

  /** Who was asleep after the step, other than the mover, was asleep before and was not woken. */
  lemma Sleepers(s: State, e: Event, u: Tid)
    requires e.t in s.pc && u != e.t
    ensures u in Step(s, e).pc <==> u in s.pc
    ensures u in s.pc && RdSleeping(Step(s, e).pc[u]) ==> RdSleeping(s.pc[u]) && !Next(s.pc[e.t], s.w, e).deed.WakeReaders?
    ensures u in s.pc && WrSleeping(Step(s, e).pc[u]) ==> WrSleeping(s.pc[u])
    ensures u in s.pc && !RdSleeping(s.pc[u]) && !WrSleeping(s.pc[u]) ==> Step(s, e).pc[u] == s.pc[u]
    ensures u in s.pc && WrSleeping(s.pc[u]) ==>
      Step(s, e).pc[u] == (if Next(s.pc[e.t], s.w, e).deed.WakeWriter? && u == e.pick then WriterWoken(s.pc[u]) else s.pc[u])
  {}

  /** What a queued thread contributes to the counts. */
  lemma Queued(s: State, u: Tid)
    requires Safe(s) && u in s.pc
    ensures RdQueued(s.pc[u]) ==> s.w.nrd > |s.readers|
    ensures WrQueued(s.pc[u]) ==> s.w.qwr > 0
  {
    TallyAny(s.pc, RdQueued);
    TallyAny(s.pc, WrQueued);
  }

  /** The mover does not fall asleep on a lock it could take, and hands over what it was there to hand over. */
  lemma MoveCovers(p: Pc, w: Words, e: Event, me: Me, nr: nat)
    requires Local(p, w, me, nr) && e.t == me.t
    ensures var m := Next(p, w, e);
      && (RdSleeping(m.p) ==> m.w.oid != UNOWNED && m.w.oid != RO)
      && (WrSleeping(m.p) ==> m.w.oid != UNOWNED)
      && (m.w.oid == RO && w.oid != RO && w.nrd > 0 ==> Sharing(m.p))
      && (Sharing(p) ==> m.deed.WakeReaders?)
      && (m.w.oid == UNOWNED && w.oid != UNOWNED ==> m.p == Un(UnSeeWr) || (m.p == Un(UnLastSee) && w.nrd == 1 && nr > 0))
      && (m.w.oid == UNOWNED && w.oid == UNOWNED && w.qwr > 0 && WakesWriter(p) ==>
            WakesWriter(m.p) || (p == Un(UnWakeWr) && m.deed.WakeWriter?))
  {}

  /** The same for a thread that queued readers rely on. */
  lemma MoveCoversReaders(p: Pc, w: Words, e: Event, me: Me, nr: nat)
    requires Local(p, w, me, nr) && e.t == me.t && WakesReader(p)
    requires w.oid == UNOWNED && w.nrd > 0
    ensures var m := Next(p, w, e);
      m.w.oid == UNOWNED ==>
        || WakesReader(m.p) || m.deed.WakeReaders? || WrSleeping(m.p)
        || (p == Un(UnSeeWr) && w.qwr > 0) || (WrQueued(p) && w.qwr > 1)
  {}

  lemma RoSleepersCovered(s: State, e: Event, u: Tid)
    requires Safe(s) && Enabled(s, e) && Covered(s)
    requires u in s.pc && Step(s, e).w.oid == RO && RdSleeping(Step(s, e).pc[u])
    ensures Any(Step(s, e).pc, Sharing)
  {
    var t, s' := e.t, Step(s, e);
    Room(s, t);
    MoveCovers(s.pc[t], s.w, e, Self(s, t), |s.readers|);
    Sleepers(s, e, u);
    Queued(s, u);
    if s.w.oid == RO {
      var x :| x in s.pc && Sharing(s.pc[x]);
      Sleepers(s, e, x);
      assert x in s'.pc && Sharing(s'.pc[x]);
    } else {
      assert t in s'.pc && Sharing(s'.pc[t]);
    }
  }

  lemma WritersCovered(s: State, e: Event, u: Tid)
    requires Safe(s) && Enabled(s, e) && Covered(s)
    requires u in s.pc && Step(s, e).w.oid == UNOWNED && WrSleeping(Step(s, e).pc[u])
    ensures Any(Step(s, e).pc, WakesWriter)
  {
    var t, s' := e.t, Step(s, e);
    Room(s, t);
    MoveCovers(s.pc[t], s.w, e, Self(s, t), |s.readers|);
    Sleepers(s, e, u);
    Queued(s, u);
    if s.w.oid != UNOWNED {
      assert t in s'.pc && WakesWriter(s'.pc[t]);
    } else {
      var x :| x in s.pc && WakesWriter(s.pc[x]);
      if x != t {
        Sleepers(s, e, x);
        assert x in s'.pc && WakesWriter(s'.pc[x]);
      } else if s.pc[t] == Un(UnWakeWr) {
        Sleepers(s, e, e.pick);
        assert e.pick in s'.pc && WakesWriter(s'.pc[e.pick]);
      } else {
        assert t in s'.pc && WakesWriter(s'.pc[t]);
      }
    }
  }

  lemma ReadersCovered(s: State, e: Event, u: Tid)
    requires Safe(s) && Enabled(s, e) && Covered(s)
    requires u in s.pc && Step(s, e).w.oid == UNOWNED && RdSleeping(Step(s, e).pc[u])
    ensures Any(Step(s, e).pc, WakesReader) || Any(Step(s, e).pc, WrSleeping)
  {
    var t, s' := e.t, Step(s, e);
    Room(s, t);
    MoveCovers(s.pc[t], s.w, e, Self(s, t), |s.readers|);
    Sleepers(s, e, u);
    Queued(s, u);
    if s.w.oid != UNOWNED {
      assert t in s'.pc && WakesReader(s'.pc[t]);
    } else {
      var x :| x in s.pc && (WakesReader(s.pc[x]) || WrSleeping(s.pc[x]));
      if x != t {
        StillCovers(s, e, x);
      } else if WrSleeping(s.pc[t]) {
        assert t in s'.pc && WakesReader(s'.pc[t]);
      } else {
        MoveCoversReaders(s.pc[t], s.w, e, Self(s, t), |s.readers|);
        if WakesReader(s'.pc[t]) || WrSleeping(s'.pc[t]) {
        } else if s.pc[t] == Un(UnSeeWr) {
          TallyAny(s.pc, WrQueued);
          var y :| y in s.pc && WrQueued(s.pc[y]);
          StillCovers(s, e, y);
        } else {
          var y := TallyOther(s.pc, WrQueued, t);
          StillCovers(s, e, y);
        }
      }
    }
  }

  /** A bystander that readers can rely on stays one, awake or asleep. */
  lemma StillCovers(s: State, e: Event, x: Tid)
    requires e.t in s.pc && x in s.pc && x != e.t
    requires WakesReader(s.pc[x]) || WrQueued(s.pc[x])
    ensures Any(Step(s, e).pc, WakesReader) || Any(Step(s, e).pc, WrSleeping)
  {
    Sleepers(s, e, x);
    var s' := Step(s, e);
    assert x in s'.pc && (WakesReader(s'.pc[x]) || WrSleeping(s'.pc[x]));
  }

  lemma StepCovered(s: State, e: Event)
    requires Safe(s) && Enabled(s, e) && Covered(s)
    ensures Covered(Step(s, e))
  {
    var s' := Step(s, e);
    assert forall u :: u in s'.pc ==> u in s.pc;
    if s'.w.oid == RO && Any(s'.pc, RdSleeping) {
      var u :| u in s'.pc && RdSleeping(s'.pc[u]);
      RoSleepersCovered(s, e, u);
    }
    if s'.w.oid == UNOWNED && Any(s'.pc, WrSleeping) {
      var u :| u in s'.pc && WrSleeping(s'.pc[u]);
      WritersCovered(s, e, u);
    }
    if s'.w.oid == UNOWNED && Any(s'.pc, RdSleeping) {
      var u :| u in s'.pc && RdSleeping(s'.pc[u]);
      ReadersCovered(s, e, u);
    }
  }

  /** A timed reader gives up as the last thread that `nrd` counts while the word still says "readers". */
  predicate Deserts(s: State, e: Event)
    requires e.t in s.pc
  {
    s.pc[e.t].Rd? && s.pc[e.t].r.RdLeave? && s.pc[e.t].r.late && s.w.oid == RO && s.w.nrd == 1
  }

  lemma MoveBacks(p: Pc, w: Words, e: Event, me: Me, nr: nat)
    requires Local(p, w, me, nr) && e.t == me.t
    requires p.Rd? && (p.r.RdCas? || p.r.RdEnter?) ==> w.nrd + 1 < LIMB
    ensures var m := Next(p, w, e);
      m.w.oid == RO ==>
        || m.w.nrd > 0 || Probing(m.p)
        || (w.oid == RO && w.nrd == 0 && !Probing(p))
        || (p.Rd? && p.r.RdLeave? && p.r.late && w.oid == RO && w.nrd == 1)
  {
    match p
    case Out(_) =>
    case Rd(_) =>
    case Wr(_) =>
    case Un(_) =>
  }

  lemma StepBacked(s: State, e: Event)
    requires Safe(s) && Enabled(s, e) && Backed(s) && !Deserts(s, e)
    ensures Backed(Step(s, e))
  {
    var t, s' := e.t, Step(s, e);
    Room(s, t);
    MoveBacks(s.pc[t], s.w, e, Self(s, t), |s.readers|);
    if s'.w.oid == RO && s'.w.nrd == 0 && !Probing(s'.pc[t]) {
      var x :| x in s.pc && Probing(s.pc[x]);
      Sleepers(s, e, x);
      assert x in s'.pc && Probing(s'.pc[x]);
    }
  }
}
