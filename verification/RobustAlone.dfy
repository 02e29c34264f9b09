/** What one thread can do to a robust mutex while the others stand still. */
module RobustAlone {
  import opened Threads
  import opened Robust
  import opened RobustRuns
  import opened Runs

  /** A step of a machine in which no process dies, and no thread intrudes. */
  function Living(s: State, e: Event): Option<State> { if e.Act? then Orderly(s, e) else None }

  /** The event of a thread that calls `op` when it is outside, with no spurious failure and no timeout. */
  function Go(t: Tid, op: Op): Event { Act(t, op, false, false) }

  /** The state with thread `t` at `p`, and the words `w`. */
  function At(s: State, t: Tid, p: Pc, w: Words): State { s.(w := w, pc := s.pc[t := p]) }

  /** The state after deed `d` of thread `t`, but for the words and the thread's place. */
  function Did(s: State, t: Tid, d: Deed): State {
    if d.Nothing? then s
    else s.(holder := HolderAfter(s.holder, d, t), held := HeldAfter(s.held, d, t), torn := TornAfter(s.torn, d),
            doomed := s.doomed || (d.Drop? && s.torn), taken := if d.Takeover? then s.taken + 1 else s.taken)
  }

  predicate Present(s: State, t: Tid) { t in s.pc && t in s.who }

  ghost predicate Comes(s0: State, s: State) { Reaches(Living, s0, s) }

  /** Nobody dies on the way. */
  lemma LivingRuns(s0: State, s: State) returns (es: seq<Event>)
    requires Comes(s0, s)
    ensures OrderlyRun(s0, es, s) && forall e :: e in es ==> e.Act?
  {
    es :| Leads(Living, s0, es, s);
    AllAct(s0, es, s);
  }

  lemma {:induction false} AllAct(s0: State, es: seq<Event>, s: State)
    requires Leads(Living, s0, es, s)
    ensures OrderlyRun(s0, es, s) && forall e :: e in es ==> e.Act?
    decreases |es|
  {
    if es != [] {
      AllAct(Living(s0, es[0]).value, es[1..], s);
      assert forall e :: e in es ==> e == es[0] || e in es[1..];
    }
  }

  /** One step more of thread `t`. */
  lemma Hop(s0: State, s: State, t: Tid, p: Pc, w: Words, e: Event, p': Pc, w': Words, d: Deed)
    requires Present(s, t) && Comes(s0, At(s, t, p, w)) && e.Act? && e.t == t && Enabled(At(s, t, p, w), e)
    requires p == Ru(RuPid) ==> t in s.held || w.lock.pid != s.who[t].pid
    requires Next(p, w, s.ty, s.who[t], s.alive, e) == Move(p', w', d)
    ensures Comes(s0, At(Did(s, t, d), t, p', w'))
  {
    ReachesOn(Living, s0, At(s, t, p, w), e);
    assert s.pc[t := p][t := p'] == s.pc[t := p'];
    assert Step(At(s, t, p, w), e) == At(Did(s, t, d), t, p', w');
  }

  lemma Standing(s: State, t: Tid)
    requires t in s.pc
    ensures At(s, t, s.pc[t], s.w) == s
  {
    assert s.pc[t := s.pc[t]] == s.pc;
  }

  /** Any call may begin with the checks. */
  lemma Begins(s0: State, s: State, t: Tid, k: Kind)
    requires Present(s, t) && Comes(s0, s) && s.pc[t].Out?
    ensures Comes(s0, At(s, t, Rk(RkTest, k), s.w))
  {
    Standing(s, t);
    Hop(s0, s, t, s.pc[t], s.w, Go(t, Lock(k)), Rk(RkTest, k), s.w, Nothing);
  }

  /** A thread outside locks a free mutex. */
  lemma LocksFree(s0: State, s: State, t: Tid)
    requires Present(s, t) && Comes(s0, s) && s.pc[t].Out? && s.w.lock == ZERO
    requires s.w.owner != NOTRECOVERABLE_ID && s.w.owner != s.who[t].id
    ensures Comes(s0, At(s.(holder := By(t), held := s.held + {t}), t, Out(OK),
                         Words(Word(s.who[t].pid, false, false), s.who[t].id, 1)))
  {
    var k, e, w := Block, Go(t, Lock(Block)), s.w;
    var w1 := w.(lock := Word(s.who[t].pid, false, false));
    var w2 := w1.(owner := s.who[t].id);
    var s1 := Did(s, t, Acquire);
    Begins(s0, s, t, k);
    Hop(s0, s, t, Rk(RkTest, k), w, e, Rk(RkFirst, k), w, Nothing);
    Hop(s0, s, t, Rk(RkFirst, k), w, e, Rk(RkGrab, k), w, Nothing);
    Hop(s0, s, t, Rk(RkGrab, k), w, e, Rw(RwWon(false)), w1, Acquire);
    Hop(s0, s1, t, Rw(RwWon(false)), w1, e, Rw(RwOwn(false)), w1, Nothing);
    Hop(s0, s1, t, Rw(RwOwn(false)), w1, e, Rw(RwOne(false)), w2, Nothing);
    Hop(s0, s1, t, Rw(RwOne(false)), w2, e, Out(OK), w2.(cnt := 1), Grant);
  }

  /** It marks a word that another has as contended, and comes to the second loop. */
  lemma Contends(s0: State, s: State, t: Tid)
    requires Present(s, t) && Comes(s0, s) && s.pc[t].Out? && s.w.lock != ZERO
    requires s.w.owner != NOTRECOVERABLE_ID && s.w.owner != s.who[t].id
    ensures Comes(s0, At(s, t, Rk(RkSecond, Block), s.w.(lock := s.w.lock.(waiters := true))))
  {
    var k, e, w := Block, Go(t, Lock(Block)), s.w;
    Begins(s0, s, t, k);
    Hop(s0, s, t, Rk(RkTest, k), w, e, Rk(RkFirst, k), w, Nothing);
    Hop(s0, s, t, Rk(RkFirst, k), w, e, Rk(RkMark(w.lock), k), w, Nothing);
    Hop(s0, s, t, Rk(RkMark(w.lock), k), w, e, Rk(RkSecond, k), w.(lock := w.lock.(waiters := true)), Nothing);
  }

  /** In the second loop it takes the word over from a dead process. */
  lemma TakesOver(s0: State, s: State, t: Tid, w: Words)
    requires Present(s, t) && Comes(s0, At(s, t, Rk(RkSecond, Block), w)) && w.lock != ZERO && w.lock.pid !in s.alive
    ensures Comes(s0, At(Did(s, t, Takeover), t, Rw(RwWon(true)), w.(lock := Word(s.who[t].pid, true, false))))
  {
    var k, e := Block, Go(t, Lock(Block));
    Hop(s0, s, t, Rk(RkSecond, k), w, e, Rk(RkProbe(w.lock), k), w, Nothing);
    Hop(s0, s, t, Rk(RkProbe(w.lock), k), w, e, Rk(RkTake(w.lock), k), w, Nothing);
    Hop(s0, s, t, Rk(RkTake(w.lock), k), w, e, Rw(RwWon(true)), w.(lock := Word(s.who[t].pid, true, false)), Takeover);
  }

  /** Or takes it with trylock. */
  lemma TriesOver(s0: State, s: State, t: Tid)
    requires Present(s, t) && Comes(s0, s) && s.pc[t].Out? && s.w.lock != ZERO && s.w.lock.pid !in s.alive
    requires s.w.owner != NOTRECOVERABLE_ID && s.w.owner != s.who[t].id
    ensures Comes(s0, At(Did(s, t, Takeover), t, Rw(RwWon(true)), s.w.(lock := Word(s.who[t].pid, false, false))))
  {
    var k, e, w := Try, Go(t, Lock(Try)), s.w;
    Begins(s0, s, t, k);
    Hop(s0, s, t, Rk(RkTest, k), w, e, Rt(RtLoad), w, Nothing);
    Hop(s0, s, t, Rt(RtLoad), w, e, Rt(RtProbe(w.lock)), w, Nothing);
    Hop(s0, s, t, Rt(RtProbe(w.lock)), w, e, Rt(RtTake(w.lock)), w, Nothing);
    Hop(s0, s, t, Rt(RtTake(w.lock)), w, e, Rw(RwWon(true)), w.(lock := Word(s.who[t].pid, false, false)), Takeover);
  }

  /** Then it is told that the owner died. */
  lemma OwnsTorn(s0: State, s: State, t: Tid, w: Words)
    requires Present(s, t) && Comes(s0, At(s, t, Rw(RwWon(true)), w)) && w.owner != NOTRECOVERABLE_ID
    ensures Comes(s0, At(s.(held := s.held + {t}), t, Out(EOWNERDEAD), Words(w.lock.(dead := true), s.who[t].id, 1)))
  {
    var e := Go(t, Lock(Block));
    var w1 := w.(owner := s.who[t].id);
    var w2 := w1.(cnt := 1);
    Hop(s0, s, t, Rw(RwWon(true)), w, e, Rw(RwOwn(true)), w, Nothing);
    Hop(s0, s, t, Rw(RwOwn(true)), w, e, Rw(RwOne(true)), w1, Nothing);
    Hop(s0, s, t, Rw(RwOne(true)), w1, e, Rw(RwSee), w2, Nothing);
    Hop(s0, s, t, Rw(RwSee), w2, e, Rw(RwFlag(w2.lock)), w2, Nothing);
    Hop(s0, s, t, Rw(RwFlag(w2.lock)), w2, e, Out(EOWNERDEAD), w2.(lock := w2.lock.(dead := true)), Grant);
  }

  /** The state in which thread `t` has taken over from a dead owner, the word being `w` but for the dead flag. */
  function Heir(s: State, t: Tid, w: Word): State
    requires Present(s, t)
  {
    At(s.(holder := By(t), held := s.held + {t}, torn := true, taken := s.taken + 1), t, Out(EOWNERDEAD),
       Words(w.(dead := true), s.who[t].id, 1))
  }

  /** A thread outside locks a mutex whose owner is dead. */
  lemma Inherits(s0: State, s: State, t: Tid)
    requires Present(s, t) && Comes(s0, s) && s.pc[t].Out? && s.w.lock != ZERO && s.w.lock.pid !in s.alive
    requires s.w.owner != NOTRECOVERABLE_ID && s.w.owner != s.who[t].id
    ensures Comes(s0, Heir(s, t, Word(s.who[t].pid, true, false)))
  {
    hide Next, Comes;
    Contends(s0, s, t);
    TakesOver(s0, s, t, s.w.(lock := s.w.lock.(waiters := true)));
    OwnsTorn(s0, Did(s, t, Takeover), t, s.w.(lock := Word(s.who[t].pid, true, false)));
  }

  /** The same with trylock. */
  lemma TriesAndInherits(s0: State, s: State, t: Tid)
    requires Present(s, t) && Comes(s0, s) && s.pc[t].Out? && s.w.lock != ZERO && s.w.lock.pid !in s.alive
    requires s.w.owner != NOTRECOVERABLE_ID && s.w.owner != s.who[t].id
    ensures Comes(s0, Heir(s, t, Word(s.who[t].pid, false, false)))
  {
    hide Next, Comes;
    TriesOver(s0, s, t);
    OwnsTorn(s0, Did(s, t, Takeover), t, s.w.(lock := Word(s.who[t].pid, false, false)));
  }

  /** A holder's consistent loads the word. */
  lemma AsksConsistent(s0: State, s: State, t: Tid)
    requires Present(s, t) && Comes(s0, s) && s.pc[t].Out? && t in s.held && s.w.lock.dead
    ensures Comes(s0, At(s, t, Ru(RcCas(s.w.lock)), s.w))
  {
    var e := Go(t, Consistent);
    Standing(s, t);
    Hop(s0, s, t, s.pc[t], s.w, e, Ru(RcLoad), s.w, Nothing);
    Hop(s0, s, t, Ru(RcLoad), s.w, e, Ru(RcCas(s.w.lock)), s.w, Nothing);
  }

  /** It is refused if the word has changed. */
  lemma FailsConsistent(s0: State, s: State, t: Tid)
    requires Present(s, t) && Comes(s0, s) && s.pc[t].Ru? && s.pc[t].u.RcCas? && s.w.lock != s.pc[t].u.v
    ensures Comes(s0, At(s, t, Out(EINVAL), s.w))
  {
    Standing(s, t);
    Hop(s0, s, t, s.pc[t], s.w, Go(t, Consistent), Out(EINVAL), s.w, Nothing);
  }

  /** A thread finds its own id in lock. */
  lemma FindsOwnId(s0: State, s: State, t: Tid)
    requires Present(s, t) && Comes(s0, s) && s.pc[t].Out? && s.w.owner == s.who[t].id != NOTRECOVERABLE_ID
    ensures Comes(s0, At(s, t, Rk(RkPid, Block), s.w))
  {
    Begins(s0, s, t, Block);
    Hop(s0, s, t, Rk(RkTest, Block), s.w, Go(t, Lock(Block)), Rk(RkPid, Block), s.w, Nothing);
  }

  /** Then it finds its process as well, and is told of a deadlock. */
  lemma ToldDeadlock(s0: State, s: State, t: Tid)
    requires Present(s, t) && Comes(s0, s) && s.pc[t] == Rk(RkPid, Block) && s.ty.ErrorCheck?
    requires s.w.lock.pid == s.who[t].pid
    ensures Comes(s0, At(s, t, Out(EDEADLK), s.w))
  {
    Standing(s, t);
    Hop(s0, s, t, Rk(RkPid, Block), s.w, Go(t, Lock(Block)), Out(EDEADLK), s.w, Nothing);
  }

  /** A thread on its way out of unlock releases the word. */
  lemma Releases(s0: State, s: State, t: Tid)
    requires Present(s, t) && Comes(s0, s) && s.pc[t].Ru? && (s.pc[t].u.RuLoad? || s.pc[t].u.RuWake? || s.pc[t].u.RuCas?)
    ensures Comes(s0, At(Did(s, t, Release), t, Out(OK), s.w.(lock := ZERO)))
  {
    var w, e, u, fail := s.w, Go(t, Unlock), s.pc[t].u, Act(t, Unlock, true, false);
    Standing(s, t);
    if u.RuCas? { Hop(s0, s, t, s.pc[t], w, fail, Ru(RuLoad), w, Nothing); }
    if u.RuWake? || w.lock.waiters {
      if !u.RuWake? { Hop(s0, s, t, Ru(RuLoad), w, e, Ru(RuWake), w, Nothing); }
      Hop(s0, s, t, Ru(RuWake), w, e, Out(OK), w.(lock := ZERO), Release);
    } else {
      Hop(s0, s, t, Ru(RuLoad), w, e, Ru(RuCas(w.lock)), w, Nothing);
      Hop(s0, s, t, Ru(RuCas(w.lock)), w, e, Out(OK), w.(lock := ZERO), Release);
    }
  }

  /** A holder's unlock passes the tests. */
  lemma PassesTests(s0: State, s: State, t: Tid)
    requires Present(s, t) && Comes(s0, s) && s.pc[t].Out? && t in s.held
    requires s.w.owner == s.who[t].id != NOTRECOVERABLE_ID && s.w.lock.pid == s.who[t].pid
    ensures Comes(s0, At(s, t, Ru(RuDec), s.w))
  {
    var e, w := Go(t, Unlock), s.w;
    Standing(s, t);
    Hop(s0, s, t, s.pc[t], w, e, Ru(RuTest), w, Nothing);
    Hop(s0, s, t, Ru(RuTest), w, e, Ru(RuPid), w, Nothing);
    Hop(s0, s, t, Ru(RuPid), w, e, Ru(RuDec), w, Nothing);
  }

  /** The state after an unlock. */
  function Unlocked(s: State, t: Tid, dead: bool): State
    requires t in s.pc
  {
    At(s.(holder := Nobody, held := s.held - {t}, torn := false, doomed := s.doomed || s.torn), t, Out(OK),
       Words(ZERO, if dead then NOTRECOVERABLE_ID else 0, 0))
  }

  /** Past the tests, it releases the mutex; with the dead flag still set, that is past recovery. */
  lemma UnlocksOn(s0: State, s: State, t: Tid)
    requires Present(s, t) && Comes(s0, s) && s.pc[t] == Ru(RuDec) && s.w.cnt == 1
    ensures Comes(s0, Unlocked(s, t, s.w.lock.dead))
  {
    var e, w, w1, dead := Go(t, Unlock), s.w, s.w.(cnt := 0), s.w.lock.dead;
    var w2 := w1.(owner := if dead then NOTRECOVERABLE_ID else 0);
    Standing(s, t);
    Hop(s0, s, t, Ru(RuDec), w, e, Ru(RuSee), w1, Nothing);
    Hop(s0, s, t, Ru(RuSee), w1, e, Ru(RuMark(dead)), w1, Nothing);
    Hop(s0, s, t, Ru(RuMark(dead)), w1, e, Ru(RuLoad), w2, Drop);
    ReleasesAs(s0, s, t, w2, dead);
  }

  lemma ReleasesAs(s0: State, s: State, t: Tid, w: Words, dead: bool)
    requires Present(s, t) && Comes(s0, At(Did(s, t, Drop), t, Ru(RuLoad), w))
    requires w.owner == (if dead then NOTRECOVERABLE_ID else 0) && w.cnt == 0
    ensures Comes(s0, Unlocked(s, t, dead))
  {
    hide Next, Comes;
    var m := At(Did(s, t, Drop), t, Ru(RuLoad), w);
    Releases(s0, m, t);
    assert s.pc[t := Ru(RuLoad)][t := Out(OK)] == s.pc[t := Out(OK)];
    assert At(Did(m, t, Release), t, Out(OK), w.(lock := ZERO)) == Unlocked(s, t, dead);
  }

  /** A holder's whole unlock. */
  lemma Unlocks(s0: State, s: State, t: Tid)
    requires Present(s, t) && Comes(s0, s) && s.pc[t].Out? && t in s.held
    requires s.w.owner == s.who[t].id != NOTRECOVERABLE_ID && s.w.lock.pid == s.who[t].pid && s.w.cnt == 1
    ensures Comes(s0, Unlocked(s, t, s.w.lock.dead))
  {
    hide Next, Comes;
    PassesTests(s0, s, t);
    var m := At(s, t, Ru(RuDec), s.w);
    UnlocksOn(s0, m, t);
    assert s.pc[t := Ru(RuDec)][t := Out(OK)] == s.pc[t := Out(OK)];
    assert Unlocked(m, t, m.w.lock.dead) == Unlocked(s, t, s.w.lock.dead);
  }

  /** A thread that does not hold the mutex finds its own id in unlock. */
  lemma SeesOwnId(s0: State, s: State, t: Tid)
    requires Present(s, t) && Comes(s0, s) && s.pc[t].Out? && s.w.owner == s.who[t].id != NOTRECOVERABLE_ID
    ensures Comes(s0, At(s, t, Ru(RuPid), s.w))
  {
    var e := Go(t, Unlock);
    Standing(s, t);
    Hop(s0, s, t, s.pc[t], s.w, e, Ru(RuTest), s.w, Nothing);
    Hop(s0, s, t, Ru(RuTest), s.w, e, Ru(RuPid), s.w, Nothing);
  }

  /** A blocked thread comes round to the start of its loop, and leaves the words alone. */
  lemma ComesRound(s0: State, s: State, t: Tid)
    requires Present(s, t) && Comes(s0, s) && Blocked(s.pc[t])
    ensures Comes(s0, At(s, t, Rk(RkSecond, Block), s.w))
  {
    var k, w, e, l := Block, s.w, Act(t, Unlock, true, false), s.pc[t].l;
    Standing(s, t);
    if l.RkGrabW? { Hop(s0, s, t, s.pc[t], w, e, Rk(RkPause, k), w, Nothing); }
    if l.RkProbe? && l.v.pid in s.alive { Hop(s0, s, t, s.pc[t], w, e, Rk(RkPause, k), w, Nothing); }
    if l.RkProbe? && l.v.pid !in s.alive {
      Hop(s0, s, t, s.pc[t], w, e, Rk(RkTake(l.v), k), w, Nothing);
      Hop(s0, s, t, Rk(RkTake(l.v), k), w, e, Rk(RkSecond, k), w, Nothing);
    }
    if l.RkTake? { Hop(s0, s, t, s.pc[t], w, e, Rk(RkSecond, k), w, Nothing); }
    if l.RkGrabW? || l.RkPause? || (l.RkProbe? && l.v.pid in s.alive) {
      Hop(s0, s, t, Rk(RkPause, k), w, e, Rk(RkSecond, k), w, Nothing);
    }
  }

  /** Having won a mutex that is past recovery, it is told. */
  lemma IsTold(s0: State, s: State, t: Tid, dead: bool, w: Words)
    requires Present(s, t) && Comes(s0, At(s, t, Rw(RwWon(dead)), w)) && w.owner == NOTRECOVERABLE_ID
    ensures Comes(s0, At(s, t, Out(ENOTRECOVERABLE), w))
  {
    Hop(s0, s, t, Rw(RwWon(dead)), w, Go(t, Unlock), Out(ENOTRECOVERABLE), w, Nothing);
  }

  /** As it is when the word is free. */
  lemma ToldOfFree(s0: State, s: State, t: Tid, w: Words)
    requires Present(s, t) && Comes(s0, At(s, t, Rk(RkSecond, Block), w))
    requires w.lock == ZERO && w.owner == NOTRECOVERABLE_ID
    ensures Comes(s0, At(s.(holder := By(t)), t, Out(ENOTRECOVERABLE), w.(lock := Word(s.who[t].pid, true, false))))
  {
    var k, e := Block, Go(t, Unlock);
    var w1 := w.(lock := Word(s.who[t].pid, true, false));
    Hop(s0, s, t, Rk(RkSecond, k), w, e, Rk(RkGrabW, k), w, Nothing);
    Hop(s0, s, t, Rk(RkGrabW, k), w, e, Rw(RwWon(false)), w1, Acquire);
    IsTold(s0, s.(holder := By(t)), t, false, w1);
  }
}
