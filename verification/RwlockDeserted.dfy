/** A read-write lock that a timed reader has deserted: it stays unusable until a reader comes (pthread/rwlock.c). */
module RwlockDeserted {
  import opened Threads
  import opened Rwlock
  import opened RwlockAlone
  import opened RwlockProofs
  import opened RwlockRuns
  import opened Runs

  /** The word says "readers", the count says none, and nobody is inside a read call. */
  ghost predicate Deserted(s: State) {
    s.w.oid == RO && s.w.nrd == 0 && forall t :: t in s.pc ==> !s.pc[t].Rd?
  }

  predicate BeginsRead(s: State, e: Event)
    requires e.t in s.pc
  {
    s.pc[e.t].Out? && e.op.Read?
  }

  /** No read call begins in the run. */
  ghost predicate NoReader(s: State, es: seq<Event>)
    decreases |es|
  {
    es == [] || (Enabled(s, es[0]) && !BeginsRead(s, es[0]) && NoReader(Step(s, es[0]), es[1..]))
  }

  /** Nobody but a reader does anything about such words. */
  lemma MoveDeserted(p: Pc, w: Words, e: Event, me: Me)
    requires Local(p, w, me, 0) && e.t == me.t && w.oid == RO && w.nrd == 0 && !p.Rd?
    requires p.Out? ==> !e.op.Read? && !e.op.Unlock?
    ensures var m := Next(p, w, e);
      && m.w.oid == RO && m.w.nrd == 0 && !m.p.Rd?
      && !m.deed.GrantRead? && !m.deed.GrantWrite?
  {
    match p
    case Out(_) =>
    case Rd(_) =>
    case Wr(_) =>
    case Un(_) =>
  }

  lemma NobodyHolds(s: State)
    requires Safe(s) && s.w.oid == RO && s.w.nrd == 0
    ensures s.readers == multiset{} && s.writers == {}
  {}

  lemma StepDeserted(s: State, e: Event)
    requires Safe(s) && Deserted(s) && Enabled(s, e) && !BeginsRead(s, e)
    ensures Deserted(Step(s, e))
  {
    NobodyHolds(s);
    Room(s, e.t);
    MoveDeserted(s.pc[e.t], s.w, e, Self(s, e.t));
    forall u | u in Step(s, e).pc && u != e.t
      ensures !Step(s, e).pc[u].Rd?
    {
      Sleepers(s, e, u);
      assert !s.pc[u].Rd?;
    }
  }

  /** Such a lock stays as it is, and nobody gets it, through every run in which no read call begins: writers wait,
      whatever their deadlines and whoever wakes them. */
  lemma {:induction false} DesertedLasts(s: State, es: seq<Event>, s': State)
    requires Safe(s) && Deserted(s) && Run(s, es, s') && NoReader(s, es)
    ensures Deserted(s') && !Held(s')
    decreases |es|
  {
    if es == [] {
      NobodyHolds(s);
    } else {
      StepDeserted(s, es[0]);
      StepSafe(s, es[0]);
      DesertedLasts(Step(s, es[0]), es[1..], s');
    }
  }

  lemma LeavesDeserted(s: State, e: Event)
    requires Safe(s) && Enabled(s, e) && Deserts(s, e)
    ensures !Held(Step(s, e)) && Step(s, e).w.oid == RO
    ensures Deserted(Step(s, e)) <==> forall t :: t in s.pc && t != e.t ==> !s.pc[t].Rd?
  {
    Room(s, e.t);
    StepSafe(s, e);
    var s' := Step(s, e);
    forall u | u in s.pc && u != e.t
      ensures u in s'.pc && s'.pc[u] == s.pc[u]
    {}
    assert s'.pc[e.t] == Out(ETIMEDOUT);
  }

  /** A timed reader that gives up as the last one counted leaves the lock unheld and marked as read-owned. Unless another
      thread is inside a read call, nobody gets it from then on until a read call begins. */
  lemma DesertionStrands(s: State, e: Event, es: seq<Event>, s': State)
    requires Safe(s) && Enabled(s, e) && Deserts(s, e)
    requires Run(Step(s, e), es, s') && NoReader(Step(s, e), es)
    ensures !Held(Step(s, e)) && Step(s, e).w.oid == RO
    ensures Deserted(Step(s, e)) <==> forall t :: t in s.pc && t != e.t ==> !s.pc[t].Rd?
    ensures Deserted(Step(s, e)) ==> Deserted(s') && !Held(s')
  {
    LeavesDeserted(s, e);
    StepSafe(s, e);
    if Deserted(Step(s, e)) { DesertedLasts(Step(s, e), es, s'); }
  }

  // The way out.

  /** A reader takes the deserted lock, unlocks it, and comes to wake a writer. */
  lemma ComesToWake(s: State, t: Tid)
    requires Safe(s) && Deserted(s) && t in s.pc && s.pc[t].Out? && s.w.qwr > 0
    ensures Comes(s, At(s, t, Un(UnWakeWr), s.w.(oid := UNOWNED)))
  {
    hide Comes, Next;
    NobodyHolds(s);
    assert 0 < t < ID_LIMIT by { Room(s, t); }
    Starts(s);
    Reads(s, s, t);
    var m := At(Did(s, t, GrantRead), t, Out(OK), s.w.(nrd := 1));
    UnlocksRead(s, m, t);
    assert s.pc[t := Out(OK)][t := Un(UnLastSee)] == s.pc[t := Un(UnLastSee)];
    assert m.readers - multiset{t} == s.readers;
    assert At(Did(m, t, DropRead), t, Un(UnLastSee), s.w.(oid := UNOWNED)) == At(s, t, Un(UnLastSee), s.w.(oid := UNOWNED));
    SeesWriter(s, s, t, s.w.(oid := UNOWNED));
  }

  lemma SeesWriter(s0: State, s: State, t: Tid, w: Words)
    requires t in s.pc && Comes(s0, At(s, t, Un(UnLastSee), w)) && w.qwr > 0
    ensures Comes(s0, At(s, t, Un(UnWakeWr), w))
  {
    Hop(s0, s, t, Un(UnLastSee), w, Go(t, Unlock, t), Un(UnWakeWr), w, Nothing);
    assert Did(s, t, Nothing) == s;
  }

  lemma Wakes(s0: State, s: State, t: Tid, w: Words, u: Tid)
    requires t in s.pc && Comes(s0, At(s, t, Un(UnWakeWr), w)) && u in s.pc && u != t && WrSleeping(s.pc[u])
    ensures Comes(s0, At(s.(pc := s.pc[u := WriterWoken(s.pc[u])]), t, Out(OK), w))
  {
    var m, e := At(s, t, Un(UnWakeWr), w), Go(t, Unlock, u);
    assert m.pc[u] == s.pc[u];
    ReachesOn(Attempt, s0, m, e);
    assert Step(m, e).pc == s.pc[u := WriterWoken(s.pc[u])][t := Out(OK)];
    assert Step(m, e) == At(s.(pc := s.pc[u := WriterWoken(s.pc[u])]), t, Out(OK), w);
  }

  /** So it is not for ever: any thread outside can read and unlock, and that frees the lock and wakes a writer. */
  lemma ReaderFreesWriter(s: State, t: Tid, u: Tid) returns (s': State)
    requires Safe(s) && Deserted(s) && t in s.pc && s.pc[t].Out? && u in s.pc && WrSleeping(s.pc[u])
    ensures Comes(s, s') && s'.w.oid == UNOWNED && !Held(s')
    ensures u in s'.pc && s'.pc[u] == WriterWoken(s.pc[u]) && WakesWriter(s'.pc[u])
  {
    var w := s.w.(oid := UNOWNED);
    assert s.w.qwr > 0 by { Queued(s, u); }
    ComesToWake(s, t);
    Wakes(s, s, t, w, u);
    NobodyHolds(s);
    s' := At(s.(pc := s.pc[u := WriterWoken(s.pc[u])]), t, Out(OK), w);
  }
}
