/** What one thread can do to a read-write lock while the others stand still (pthread/rwlock.c). */
module RwlockAlone {
  import opened Threads
  import opened Rwlock
  import opened RwlockProofs
  import opened RwlockRuns
  import opened Runs

  /** The state with thread `t` at `p`, and the words `w`. */
  function At(s: State, t: Tid, p: Pc, w: Words): State { s.(w := w, pc := s.pc[t := p]) }

  /** The state after deed `d` of thread `t`, but for the words and the thread's place. */
  function Did(s: State, t: Tid, d: Deed): State {
    s.(readers := Readers(s.readers, d, t), writers := Writers(s.writers, d, t))
  }

  ghost predicate Comes(s0: State, s: State) { Reaches(Attempt, s0, s) }

  lemma Starts(s: State)
    ensures Comes(s, s)
  {
    Stays(Attempt, s);
  }

  lemma Standing(s: State, t: Tid)
    requires t in s.pc
    ensures At(s, t, s.pc[t], s.w) == s
  {
    assert s.pc[t := s.pc[t]] == s.pc;
  }

  function Go(t: Tid, op: Op, pick: Tid): Event { Event(t, op, false, false, pick) }

  /** The rules of the interface, but for wakes. */
  predicate Able(p: Pc, w: Words, e: Event, me: Me) {
    && (p.Out? && e.op.Unlock? ==> me.reader || me.writer)
    && p != Un(UnWakeWr)
    && (p.Rd? && (p.r.RdCas? || p.r.RdEnter?) ==> w.nrd + 1 < LIMB)
  }

  lemma WakesNobody(s: State, t: Tid, p: Pc, p': Pc, d: Deed, pick: Tid)
    requires t in s.pc && !d.WakeWriter? && (d.WakeReaders? ==> forall u :: u in s.pc && u != t ==> !RdSleeping(s.pc[u]))
    ensures Wake(s.pc[t := p], d, pick)[t := p'] == s.pc[t := p']
  {}

  /** One step more of thread `t`, that wakes nobody. */
  lemma Hop(s0: State, s: State, t: Tid, p: Pc, w: Words, e: Event, p': Pc, w': Words, d: Deed)
    requires t in s.pc && Comes(s0, At(s, t, p, w)) && e.t == t && Able(p, w, e, Self(s, t))
    requires Next(p, w, e) == Move(p', w', d) && !d.WakeWriter?
    requires d.WakeReaders? ==> forall u :: u in s.pc && u != t ==> !RdSleeping(s.pc[u])
    ensures Comes(s0, At(Did(s, t, d), t, p', w'))
  {
    ReachesOn(Attempt, s0, At(s, t, p, w), e);
    assert s.pc[t := p][t := p'] == s.pc[t := p'];
    WakesNobody(s, t, p, p', d, e.pick);
    assert Step(At(s, t, p, w), e) == At(Did(s, t, d), t, p', w');
  }

  /** A thread outside takes a lock that nobody has, for writing. */
  lemma Writes(s0: State, s: State, t: Tid)
    requires t in s.pc && Comes(s0, s) && s.pc[t].Out? && s.w.oid == UNOWNED && t > 0
    ensures Comes(s0, At(Did(s, t, GrantWrite), t, Out(OK), s.w.(oid := t)))
  {
    hide Comes;
    var e, w := Go(t, Write(Block), t), s.w;
    Standing(s, t);
    Hop(s0, s, t, s.pc[t], w, e, Wr(WrEntry(Block)), w, Nothing);
    Hop(s0, s, t, Wr(WrEntry(Block)), w, e, Wr(WrLoad(Block)), w, Nothing);
    Hop(s0, s, t, Wr(WrLoad(Block)), w, e, Wr(WrCas(Block)), w, Nothing);
    Hop(s0, s, t, Wr(WrCas(Block)), w, e, Out(OK), w.(oid := t), GrantWrite);
  }

  /** A timed reader queues on another's write lock, sleeps and reaches its deadline. */
  lemma QueuesTooLong(s0: State, s: State, t: Tid)
    requires t in s.pc && Comes(s0, s) && s.pc[t].Out? && IdBits(s.w.oid) != 0 && s.w.oid != t && s.w.nrd + 1 < LIMB
    ensures Comes(s0, At(s, t, Rd(RdLeave(Timed(true), true)), s.w.(nrd := s.w.nrd + 1)))
  {
    hide Comes;
    var k, w, o := Timed(true), s.w, s.w.oid;
    var e, w1 := Go(t, Read(k), t), w.(nrd := w.nrd + 1);
    Standing(s, t);
    Hop(s0, s, t, s.pc[t], w, e, Rd(RdEntry(k)), w, Nothing);
    Hop(s0, s, t, Rd(RdEntry(k)), w, e, Rd(RdLoad(k)), w, Nothing);
    Hop(s0, s, t, Rd(RdLoad(k)), w, e, Rd(RdEnter(k, o)), w, Nothing);
    Hop(s0, s, t, Rd(RdEnter(k, o)), w, e, Rd(RdWait(k, o)), w1, Nothing);
    Hop(s0, s, t, Rd(RdWait(k, o)), w1, e, Rd(RdAsleep(k)), w1, Nothing);
    Hop(s0, s, t, Rd(RdAsleep(k)), w1, e.(late := true), Rd(RdLeave(k, true)), w1, Nothing);
  }

  /** The writer unlocks; its broadcast finds no reader asleep. */
  lemma UnlocksWrite(s0: State, s: State, t: Tid)
    requires t in s.pc && Comes(s0, s) && s.pc[t].Out? && s.w.oid == t && 0 < t < ID_LIMIT && t in s.writers
    requires s.w.nrd > 0 && s.w.qwr == 0 && forall u :: u in s.pc && u != t ==> !RdSleeping(s.pc[u])
    ensures Comes(s0, At(Did(s, t, DropWrite), t, Out(OK), s.w.(oid := UNOWNED)))
  {
    hide Comes;
    var e, w, w1, s1 := Go(t, Unlock, t), s.w, s.w.(oid := UNOWNED), Did(s, t, DropWrite);
    Standing(s, t);
    Hop(s0, s, t, s.pc[t], w, e, Un(UnLoad), w, Nothing);
    Hop(s0, s, t, Un(UnLoad), w, e, Un(UnOwner), w, Nothing);
    Hop(s0, s, t, Un(UnOwner), w, e, Un(UnStore), w, Nothing);
    Hop(s0, s, t, Un(UnStore), w, e, Un(UnSeeWr), w1, DropWrite);
    Hop(s0, s1, t, Un(UnSeeWr), w1, e, Un(UnSeeRd), w1, Nothing);
    Hop(s0, s1, t, Un(UnSeeRd), w1, e, Un(UnWakeRd), w1, Nothing);
    Hop(s0, s1, t, Un(UnWakeRd), w1, e, Out(OK), w1, WakeReaders);
  }

  /** A thread outside takes the lock for reading; its broadcast finds no reader asleep. */
  lemma Reads(s0: State, s: State, t: Tid)
    requires t in s.pc && Comes(s0, s) && s.pc[t].Out? && 0 < t < ID_LIMIT
    requires (s.w.oid == UNOWNED || s.w.oid == RO) && s.w.nrd + 1 < LIMB
    requires s.w.oid == UNOWNED && s.w.nrd > 0 ==> forall u :: u in s.pc && u != t ==> !RdSleeping(s.pc[u])
    ensures Comes(s0, At(Did(s, t, GrantRead), t, Out(OK), s.w.(oid := RO, nrd := s.w.nrd + 1)))
  {
    hide Comes;
    var e, w := Go(t, Read(Block), t), s.w;
    var w1, s1, q := w.(oid := RO, nrd := w.nrd + 1), Did(s, t, GrantRead), Rd(RdCas(Block, w.oid, w.nrd));
    Standing(s, t);
    Hop(s0, s, t, s.pc[t], w, e, Rd(RdEntry(Block)), w, Nothing);
    Hop(s0, s, t, Rd(RdEntry(Block)), w, e, Rd(RdLoad(Block)), w, Nothing);
    Hop(s0, s, t, Rd(RdLoad(Block)), w, e, q, w, Nothing);
    if w.oid == UNOWNED && w.nrd > 0 {
      Hop(s0, s, t, q, w, e, Rd(RdShare), w1, GrantRead);
      Hop(s0, s1, t, Rd(RdShare), w1, e, Out(OK), w1, WakeReaders);
    } else {
      Hop(s0, s, t, q, w, e, Out(OK), w1, GrantRead);
    }
  }

  /** A reader unlocks; as the last one counted it clears the word, and goes on to look for writers. */
  lemma UnlocksRead(s0: State, s: State, t: Tid)
    requires t in s.pc && Comes(s0, s) && s.pc[t].Out? && t in s.readers && s.w.oid == RO && s.w.nrd > 0
    ensures Comes(s0, At(Did(s, t, DropRead), t, if s.w.nrd == 1 then Un(UnLastSee) else Out(OK),
                         s.w.(oid := if s.w.nrd == 1 then UNOWNED else RO, nrd := s.w.nrd - 1)))
  {
    hide Comes;
    var e, w := Go(t, Unlock, t), s.w;
    Standing(s, t);
    Hop(s0, s, t, s.pc[t], w, e, Un(UnLoad), w, Nothing);
    Hop(s0, s, t, Un(UnLoad), w, e, Un(UnCount), w, Nothing);
    Hop(s0, s, t, Un(UnCount), w, e, Un(UnRdLoad), w, Nothing);
    Hop(s0, s, t, Un(UnRdLoad), w, e, Un(UnRdCas(RO, w.nrd)), w, Nothing);
    Hop(s0, s, t, Un(UnRdCas(RO, w.nrd)), w, e, if w.nrd == 1 then Un(UnLastSee) else Out(OK),
        w.(oid := if w.nrd == 1 then UNOWNED else RO, nrd := w.nrd - 1), DropRead);
  }

  /** A late reader gives up. */
  lemma GivesUp(s0: State, s: State, t: Tid)
    requires t in s.pc && Comes(s0, s) && s.pc[t] == Rd(RdLeave(Timed(true), true)) && s.w.nrd > 0
    ensures Comes(s0, At(s, t, Out(ETIMEDOUT), s.w.(nrd := s.w.nrd - 1)))
  {
    hide Comes;
    Standing(s, t);
    Hop(s0, s, t, s.pc[t], s.w, Go(t, Unlock, t), Out(ETIMEDOUT), s.w.(nrd := s.w.nrd - 1), Nothing);
  }

  /** A writer queues on a lock that is not free, and sleeps. */
  lemma QueuesToWrite(s0: State, s: State, t: Tid)
    requires t in s.pc && Comes(s0, s) && s.pc[t].Out? && s.w.oid != UNOWNED && s.w.oid != t && s.w.qwr + 1 < LIMB
    ensures Comes(s0, At(s, t, Wr(WrAsleep(Block)), s.w.(qwr := s.w.qwr + 1)))
  {
    hide Comes;
    var e, w, o := Go(t, Write(Block), t), s.w, s.w.oid;
    var w1, p := w.(qwr := w.qwr + 1), Wr(WrWait(Block, w.qwr + 1, o));
    Standing(s, t);
    Hop(s0, s, t, s.pc[t], w, e, Wr(WrEntry(Block)), w, Nothing);
    Hop(s0, s, t, Wr(WrEntry(Block)), w, e, Wr(WrLoad(Block)), w, Nothing);
    Hop(s0, s, t, Wr(WrLoad(Block)), w, e, Wr(WrEnter(Block, o)), w, Nothing);
    Hop(s0, s, t, Wr(WrEnter(Block, o)), w, e, p, w1, Nothing);
    Hop(s0, s, t, p, w1, e, Wr(WrAsleep(Block)), w1, Nothing);
  }
}
