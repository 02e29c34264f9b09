/** Two threads and what each of them can do while the other stands still (pthread/cond.c, pthread/lowlevellock.c). */
module CondScenes {
  import opened Threads
  import opened Cond
  import opened CondProofs
  import opened CondRuns
  import opened Runs

  datatype Scene = Scene(w: Words, a: Pc, b: Pc, holders: set<Tid>, leaked: nat)

  function Of(x: Scene): State { State(x.w, map[1 := x.a, 2 := x.b], x.holders, x.leaked) }

  const START: Scene := Scene(Words(0, 0, 0, false), Out(OK), Out(OK), {}, 0)

  ghost predicate Comes(x0: Scene, x: Scene) { Reaches(Attempt, Of(x0), Of(x)) }

  lemma Starts(x: Scene)
    ensures Comes(x, x)
  {
    Stays(Attempt, Of(x));
  }

  function Go(t: Tid, op: Op): Event { Event(t, op, false, false, NoCut, t) }

  predicate Wakes(d: Deed) { d.WakeLock? || d.WakeCond? || d.WakeAllCond? || d.Requeue? }

  /** The rules of the interface; wakes are made only while nobody sleeps. */
  predicate Able(x: Scene, p: Pc, e: Event, d: Deed) {
    && (Wakes(d) || p.UlWake? || p.Mx? ==> !Asleep(x.a) && !Asleep(x.b))
    && (p.Out? && (e.op.Unlock? || e.op.Wait?) ==> e.t in x.holders)
    && (p.Cw? && p.c.CwEnter? ==> x.w.nw + 1 < LIMB)
  }

  lemma WakesNobody(x: Scene, d: Deed, pick: Tid)
    requires Wakes(d) ==> !Asleep(x.a) && !Asleep(x.b)
    ensures Wake(Of(x).pc, d, pick) == Of(x).pc
  {
    var pc := Of(x).pc;
    if Wakes(d) {
      assert All(pc, CondWoken) == pc && All(pc, CondMoved) == pc;
      if pick in pc { assert pc[pick := pc[pick]] == pc; }
    }
  }

  lemma AbleIsEnabled(x: Scene, e: Event, d: Deed)
    requires (e.t == 1 && Able(x, x.a, e, d)) || (e.t == 2 && Able(x, x.b, e, d))
    ensures Enabled(Of(x), e)
  {}

  /** A step of thread 1. */
  lemma First(x0: Scene, x: Scene, e: Event, p: Pc, w: Words, d: Deed)
    requires Comes(x0, x) && e.t == 1 && Able(x, x.a, e, d) && Next(x.a, x.w, e) == Move(p, w, d)
    ensures Comes(x0, Scene(w, p, x.b, Holders(x.holders, d, 1), x.leaked + Leaks(d)))
  {
    var y := Scene(w, p, x.b, Holders(x.holders, d, 1), x.leaked + Leaks(d));
    AbleIsEnabled(x, e, d);
    WakesNobody(x, d, e.pick);
    assert Of(x).pc[1 := p] == Of(y).pc;
    assert Step(Of(x), e) == Of(y);
    ReachesOn(Attempt, Of(x0), Of(x), e);
  }

  /** A step of thread 2. */
  lemma Second(x0: Scene, x: Scene, e: Event, p: Pc, w: Words, d: Deed)
    requires Comes(x0, x) && e.t == 2 && Able(x, x.b, e, d) && Next(x.b, x.w, e) == Move(p, w, d)
    ensures Comes(x0, Scene(w, x.a, p, Holders(x.holders, d, 2), x.leaked + Leaks(d)))
    ensures Of(Scene(w, x.a, p, Holders(x.holders, d, 2), x.leaked + Leaks(d))) == Step(Of(x), e)
  {
    var y := Scene(w, x.a, p, Holders(x.holders, d, 2), x.leaked + Leaks(d));
    AbleIsEnabled(x, e, d);
    WakesNobody(x, d, e.pick);
    assert Of(x).pc[2 := p] == Of(y).pc;
    assert Step(Of(x), e) == Of(y);
    ReachesOn(Attempt, Of(x0), Of(x), e);
  }

  /** Thread 1 locks the mutex, calls wait, and has released the mutex, but not yet registered as a waiter. */
  const RELEASED: Scene := Scene(Words(0, 0, 0, true), Cw(CwEnter(Block)), Out(OK), {}, 0)

  lemma Locks()
    ensures Comes(START, Scene(Words(1, 0, 0, false), Out(OK), Out(OK), {1}, 0))
  {
    hide Comes, Enabled, Step, Of;
    Starts(START);
    var e, x := Go(1, Lock(Block)), START;
    First(START, x, e, Lk(LkPeek, Plain(Block)), x.w, Nothing);
    First(START, x.(a := Lk(LkPeek, Plain(Block))), e, Lk(LkCas, Plain(Block)), x.w, Nothing);
    First(START, x.(a := Lk(LkCas, Plain(Block))), e, Out(OK), Words(1, 0, 0, false), Grant);
    assert x.holders + {1} == {1};
  }

  lemma Releases()
    ensures Comes(START, RELEASED)
  {
    hide Comes, Enabled, Step, Of;
    Locks();
    var e, x := Go(1, Wait(Block)), Scene(Words(1, 0, 0, false), Out(OK), Out(OK), {1}, 0);
    var w := Words(1, 0, 0, true);
    First(START, x, e, Cw(CwSee(Block)), x.w, Nothing);
    First(START, x.(a := Cw(CwSee(Block))), e, Cw(CwBind(Block)), x.w, Nothing);
    First(START, x.(a := Cw(CwBind(Block))), e, UlSwap(ThenWait(Block)), w, Nothing);
    First(START, x.(a := UlSwap(ThenWait(Block)), w := w), e, Cw(CwEnter(Block)), Words(0, 0, 0, true), Drop);
    assert x.holders - {1} == {};
  }
}
