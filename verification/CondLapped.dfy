/** Runs of pthread/cond.c in which a waiter sleeps through 2^32 broadcasts, or any multiple of them. */
module CondLapped {
  import opened Threads
  import opened Cond
  import opened CondRuns
  import opened CondScenes
  import opened Runs

  /** Thread 1 has registered as a waiter, and not yet compared its number, which is 0; `gen` bumps have gone by. */
  function Delayed(gen: nat): Scene { Scene(Words(0, gen, 1, true), Cw(CwWait(Block, 0)), Out(OK), {}, 0) }

  lemma Registers()
    ensures Comes(START, Delayed(0))
  {
    hide Comes, Enabled, Step, Of;
    Releases();
    First(START, RELEASED, Go(1, Wait(Block)), Cw(CwWait(Block, 0)), Words(0, 0, 1, true), Nothing);
  }

  /** Thread 2 is about to requeue the waiters. */
  function Moving(gen: nat): Scene { Scene(Words(0, gen, 1, true), Cw(CwWait(Block, 0)), Mx(BcMove(gen)), {}, 0) }

  lemma MovesNext(gen: nat)
    ensures var s, e := Of(Moving(gen)), Go(2, Broadcast); 2 in s.pc && Next(s.pc[2], s.w, e).deed == Requeue(gen)
  {}

  lemma Broadcasts(gen: nat)
    requires Comes(START, Delayed(gen))
    ensures Comes(START, Moving(gen + 1)) && Comes(START, Delayed(gen + 1))
    ensures var s, e := Of(Moving(gen + 1)), Go(2, Broadcast);
      && Enabled(s, e) && Next(s.pc[2], s.w, e).deed == Requeue(gen + 1) && Step(s, e) == Of(Delayed(gen + 1))
  {
    hide Comes, Enabled, Step, Of;
    AbleIsEnabled(Moving(gen + 1), Go(2, Broadcast), Requeue(gen + 1));
    MovesNext(gen + 1);
    var x, w := Delayed(gen), Words(0, gen + 1, 1, true);
    Second(START, x, Go(2, Broadcast), Mx(BcAdd), x.w, Nothing);
    Second(START, x.(b := Mx(BcAdd)), Go(2, Broadcast), Mx(BcPeek(gen + 1)), w, Nothing);
    Second(START, x.(b := Mx(BcPeek(gen + 1)), w := w), Go(2, Broadcast), Mx(BcMove(gen + 1)), w, Nothing);
    Second(START, Moving(gen + 1), Go(2, Broadcast), Out(OK), w, Requeue(gen + 1));
  }

  lemma {:induction false} ManyBroadcasts(gen: nat)
    ensures Comes(START, Delayed(gen))
  {
    if gen == 0 {
      Registers();
    } else {
      ManyBroadcasts(gen - 1);
      Broadcasts(gen - 1);
    }
  }

  function Missed(gen: nat): Scene { Scene(Words(0, gen, 1, true), Cw(CwAsleep(Block, 0)), Out(OK), {}, 0) }

  lemma FallsAsleep(gen: nat)
    requires gen > 0 && Limb(gen) == 0
    ensures var e := Go(1, Wait(Block));
      Run(Of(Delayed(gen)), [e], Of(Missed(gen))) && !NeverEarly(Of(Delayed(gen)), [e], gen) && Quiet(Of(Missed(gen)))
  {
    var s, e, s' := Of(Delayed(gen)), Go(1, Wait(Block)), Of(Missed(gen));
    AbleIsEnabled(Delayed(gen), e, Nothing);
    assert s.pc[1 := Cw(CwAsleep(Block, 0))] == s'.pc;
    assert Step(s, e) == s';
    assert Leads(Attempt, s', [], s');
    assert Early(s'.pc[1], gen) && Any(s'.pc, EarlyTo(gen));
  }

  /** Thread 1 registers and is delayed while thread 2 carries out `turns * 2^32` broadcasts; then it goes to sleep, and
      nobody is left to wake it. */
  lemma BroadcastsMissed(turns: nat) returns (before: seq<Event>, s: State, e: Event, after: seq<Event>, s': State)
    requires turns > 0
    ensures Initial(Of(START)) && Run(Of(START), before, s) && Enabled(s, e)
    ensures Next(s.pc[e.t], s.w, e).deed == Requeue(turns * LIMB) && Run(Step(s, e), after, s')
    ensures s' == Of(Missed(turns * LIMB)) && Quiet(s')
    ensures !NeverEarly(Step(s, e), after, turns * LIMB)
  {
    hide Enabled, Step, NeverEarly, Quiet, Next;
    var gen := turns * LIMB;
    assert Limb(gen) == 0;
    ManyBroadcasts(gen - 1);
    Broadcasts(gen - 1);
    s, e := Of(Moving(gen)), Go(2, Broadcast);
    before :| Leads(Attempt, Of(START), before, s);
    FallsAsleep(gen);
    after, s' := [Go(1, Wait(Block))], Of(Missed(gen));
  }
}
