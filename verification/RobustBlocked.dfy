/** Who is told that a robust mutex is past recovery, and runs in which its calls answer otherwise than promised. */
module RobustBlocked {
  import opened Threads
  import opened Robust
  import opened RobustRuns
  import opened RobustAlone
  import opened Runs

  /** Some run without intrusion, in which neither the holder's process nor that of `u` dies, has `u` told. */
  ghost predicate CanBeTold(s: State, u: Tid)
    requires u in s.who && (s.holder.By? ==> s.holder.t in s.who)
  {
    exists es, s' :: OrderlyRun(s, es, s') && u in s'.pc && s'.pc[u] == Out(ENOTRECOVERABLE) && Spared(s, es, u)
  }

  predicate Spared(s: State, es: seq<Event>, u: Tid)
    requires u in s.who && (s.holder.By? ==> s.holder.t in s.who)
  {
    Die(s.who[u].pid) !in es && (s.holder.By? ==> Die(s.who[s.holder.t].pid) !in es)
  }

  lemma Tells(s: State, u: Tid, s': State)
    requires u in s.who && (s.holder.By? ==> s.holder.t in s.who)
    requires Comes(s, s') && u in s'.pc && s'.pc[u] == Out(ENOTRECOVERABLE)
    ensures CanBeTold(s, u)
  {
    var es := LivingRuns(s, s');
    assert Spared(s, es, u);
  }

  /** The word is free, or its owner's process is dead: the thread takes it and is told. */
  lemma TakesAndIsTold(s: State, s1: State, u: Tid)
    requires u in s.who && (s.holder.By? ==> s.holder.t in s.who)
    requires Comes(s, s1) && Present(s1, u) && Blocked(s1.pc[u]) && s1.w.owner == NOTRECOVERABLE_ID
    requires s1.w.lock == ZERO || s1.w.lock.pid !in s1.alive
    ensures CanBeTold(s, u)
  {
    ComesRound(s, s1, u);
    if s1.w.lock == ZERO {
      ToldOfFree(s, s1, u, s1.w);
      Tells(s, u, At(s1.(holder := By(u)), u, Out(ENOTRECOVERABLE), s1.w.(lock := Word(s1.who[u].pid, true, false))));
    } else {
      var w := s1.w.(lock := Word(s1.who[u].pid, true, false));
      TakesOver(s, s1, u, s1.w);
      IsTold(s, Did(s1, u, Takeover), u, true, w);
      Tells(s, u, At(Did(s1, u, Takeover), u, Out(ENOTRECOVERABLE), w));
    }
  }

  /** A thread blocked in the lock of an unrecoverable mutex can be told so, without the death of the holder's process
      or its own, exactly if no live thread keeps the word: the word is free, its owner dead, or about to be released. */
  lemma ToldUnlessKept(s0: State, es: seq<Event>, s: State, u: Tid)
    requires Initial(s0) && OrderlyRun(s0, es, s) && s.doomed && u in s.pc && Blocked(s.pc[u])
    ensures u in s.who && (s.holder.By? ==> s.holder.t in s.who)
    ensures CanBeTold(s, u) <==> !Kept(s)
  {
    InitialHolds(s0);
    RunKeeps(s0, es, s);
    if Kept(s) {
      if CanBeTold(s, u) {
        var more, s' :| OrderlyRun(s, more, s') && u in s'.pc && s'.pc[u] == Out(ENOTRECOVERABLE) && Spared(s, more, u);
        BlockedAreNotTold(s, more, s', u);
      }
    } else {
      Stays(Living, s);
      if s.holder.By? && !s.pc[s.holder.t].Dead? {
        var h := s.holder.t;
        Releases(s, s, h);
        TakesAndIsTold(s, At(Did(s, h, Release), h, Out(OK), s.w.(lock := ZERO)), u);
      } else {
        TakesAndIsTold(s, s, u);
      }
    }
  }

  /** The thread that wins the lock of such a mutex is told, and keeps the word as long as its process lives: no other
      that is blocked by then can be told after it. */
  lemma TheToldKeep(s0: State, es: seq<Event>, s: State, e: Event, u: Tid)
    requires Initial(s0) && OrderlyRun(s0, es, s) && Enabled(s, e) && e.Act? && s.pc[e.t].Rw?
    requires Step(s, e).pc[e.t] == Out(ENOTRECOVERABLE) && u in s.pc && u != e.t && Blocked(s.pc[u])
    ensures s.doomed && Kept(Step(s, e)) && Step(s, e).holder == By(e.t)
    ensures e.t in s.who && u in s.who && !CanBeTold(Step(s, e), u)
  {
    InitialHolds(s0);
    RunKeeps(s0, es, s);
    assert Here(s.pc[e.t], Self(s, e.t), Seen(s));
    Extend(Orderly, s0, es, s, e);
    ToldUnlessKept(s0, es + [e], Step(s, e), u);
  }

  // Runs. A process dies in each of them.

  lemma Dies(s0: State, s: State, es: seq<Event>, pid: nat) returns (es': seq<Event>)
    requires OrderlyRun(s0, es, s) && pid in s.alive
    ensures OrderlyRun(s0, es', Step(s, Die(pid)))
  {
    es' := es + [Die(pid)];
    Extend(Orderly, s0, es, s, Die(pid));
  }

  /** Threads 1, 2, … of the processes and with the ids that `who` says, on a new mutex. */
  function New(ty: Type, who: map<Tid, Who>): State {
    State(Words(ZERO, 0, 0), ty, who, map t | t in who :: Out(OK), set t | t in who :: who[t].pid,
          Nobody, {}, false, false, 0, 0)
  }

  /** Thread 1, the only one of its process, locks the mutex and dies. */
  function Orphaned(s: State): State
    requires 1 in s.who
  {
    s.(w := Words(Word(s.who[1].pid, false, false), s.who[1].id, 1), pc := s.pc[1 := Dead],
       alive := s.alive - {s.who[1].pid}, holder := By(1), orphaned := 1)
  }

  predicate OneOfItsProcess(who: map<Tid, Who>) {
    1 in who && forall t :: t in who && t != 1 ==> who[t].pid != who[1].pid
  }

  lemma LocksAndDies(ty: Type, who: map<Tid, Who>) returns (es: seq<Event>)
    requires OneOfItsProcess(who) && 0 < who[1].id < NOTRECOVERABLE_ID
    ensures OrderlyRun(New(ty, who), es, Orphaned(New(ty, who)))
  {
    var s := New(ty, who);
    Stays(Living, s);
    LocksFree(s, s, 1);
    var w := Words(Word(who[1].pid, false, false), who[1].id, 1);
    var s1 := At(s.(holder := By(1), held := s.held + {1}), 1, Out(OK), w);
    es := LivingRuns(s, s1);
    es := Dies(s, s1, es, who[1].pid);
    assert Mourn(s1.pc, who, who[1].pid) == s.pc[1 := Dead];
    assert Survivors(s1.held, who, who[1].pid) == {};
  }

  /** From there on nobody else dies. */
  lemma Completes(ty: Type, who: map<Tid, Who>, s: State) returns (es: seq<Event>)
    requires OneOfItsProcess(who) && 0 < who[1].id < NOTRECOVERABLE_ID
    requires Comes(Orphaned(New(ty, who)), s)
    ensures OrderlyRun(New(ty, who), es, s)
  {
    var before := LocksAndDies(ty, who);
    var after := LivingRuns(Orphaned(New(ty, who)), s);
    Join(Orderly, New(ty, who), before, Orphaned(New(ty, who)), after, s);
    es := before + after;
  }

  const FOUR: map<Tid, Who> := map[1 := Who(1, 1), 2 := Who(2, 2), 3 := Who(3, 3), 4 := Who(4, 4)]

  /** Thread 2 has taken the mutex over, and threads 3 and 4 are blocked. */
  function Crowded(s: State): State
    requires Present(s, 2)
  {
    var s' := Heir(s, 2, Word(s.who[2].pid, true, false));
    At(At(s', 3, Rk(RkSecond, Block), s'.w), 4, Rk(RkSecond, Block), s'.w)
  }

  lemma Crowds(ty: Type)
    ensures var s := Orphaned(New(ty, FOUR)); Comes(s, Crowded(s))
  {
    hide Comes;
    var s := Orphaned(New(ty, FOUR));
    Starts(s);
    Inherits(s, s, 2);
    var s' := Heir(s, 2, Word(2, true, false));
    Contends(s, s', 3);
    Contends(s, At(s', 3, Rk(RkSecond, Block), s'.w), 4);
  }

  lemma Starts(s: State)
    ensures Comes(s, s)
  {
    Stays(Living, s);
  }

  /** Then thread 2 has unlocked it as it is, and thread 3 has been told. */
  function Settled(s: State): State
    requires 2 in s.pc
  {
    At(Unlocked(s, 2, true).(holder := By(3)), 3, Out(ENOTRECOVERABLE), Words(Word(3, true, false), NOTRECOVERABLE_ID, 0))
  }

  lemma Settles(s0: State, s: State)
    requires Comes(s0, s) && s.who == FOUR && 2 in s.pc && 3 in s.pc && s.pc[2].Out? && 2 in s.held && s.torn
    requires s.pc[3] == Rk(RkSecond, Block) && s.w == Words(Word(2, true, true), 2, 1)
    ensures Comes(s0, Settled(s))
  {
    hide Comes, Next;
    Unlocks(s0, s, 2);
    var s' := Unlocked(s, 2, true);
    Standing(s', 3);
    ToldOfFree(s0, s', 3, s'.w);
  }

  lemma CrowdedIs(ty: Type)
    ensures var s := Crowded(Orphaned(New(ty, FOUR)));
      && s.who == FOUR
      && s.pc == map[1 := Dead, 2 := Out(EOWNERDEAD), 3 := Rk(RkSecond, Block), 4 := Rk(RkSecond, Block)]
      && s.w == Words(Word(2, true, true), 2, 1) && s.held == {2} && s.torn && s.alive == {2, 3, 4}
  {
    forall q | q in {1, 2, 3, 4}
      ensures q in New(ty, FOUR).alive
    {
      assert q in FOUR && FOUR[q].pid == q;
    }
    assert New(ty, FOUR).alive == {1, 2, 3, 4};
  }

  /** Thread 1 dies holding the mutex; thread 2 takes it over, threads 3 and 4 block; thread 2 unlocks it as it is. Thread
      3 is told, and keeps the word; thread 4 is never told, as long as thread 3's process lives. */
  lemma OneToldOneBlocked(ty: Type) returns (es: seq<Event>, s: State)
    ensures Initial(New(ty, FOUR)) && OrderlyRun(New(ty, FOUR), es, s)
    ensures s.who == FOUR && s.doomed && 3 in s.pc && s.pc[3] == Out(ENOTRECOVERABLE) && s.alive == {2, 3, 4}
    ensures 4 in s.pc && Blocked(s.pc[4]) && Kept(s) && s.holder == By(3)
    ensures !CanBeTold(s, 4)
  {
    hide Comes, CanBeTold, Crowded, OrderlyRun, Initial;
    var s0 := Orphaned(New(ty, FOUR));
    Crowds(ty);
    CrowdedIs(ty);
    Settles(s0, Crowded(s0));
    s := Settled(Crowded(s0));
    es := Completes(ty, FOUR, s);
    StartsNew(ty, FOUR);
    ToldUnlessKept(New(ty, FOUR), es, s, 4);
  }

  lemma StartsNew(ty: Type, who: map<Tid, Who>)
    requires forall t :: t in who ==> 0 < who[t].pid < PID_LIMIT && 0 < who[t].id < NOTRECOVERABLE_ID
    requires forall t, u :: t in who && u in who && who[t] == who[u] ==> t == u
    ensures Initial(New(ty, who))
  {
    assert New(ty, who).pc.Keys == who.Keys;
  }

  const SAME_ID: map<Tid, Who> := map[1 := Who(1, 5), 2 := Who(2, 6), 3 := Who(2, 5)]

  /** Thread 5 of process 1 dies holding an error-checking mutex; thread 6 of process 2 takes it over, and has not yet
      stored its id when thread 5 of process 2 calls lock: that is told of a deadlock, though it holds nothing. */
  lemma StrangerToldDeadlock() returns (es: seq<Event>, s: State)
    ensures Initial(New(ErrorCheck, SAME_ID)) && OrderlyRun(New(ErrorCheck, SAME_ID), es, s)
    ensures 3 in s.pc && s.pc[3] == Out(EDEADLK) && s.holder == By(2) && 3 !in s.held
  {
    hide Comes, Next, OrderlyRun, Initial;
    var s0 := Orphaned(New(ErrorCheck, SAME_ID));
    Starts(s0);
    Contends(s0, s0, 2);
    TakesOver(s0, s0, 2, s0.w.(lock := Word(1, true, false)));
    var s1 := At(Did(s0, 2, Takeover), 2, Rw(RwWon(true)), Words(Word(2, true, false), 5, 1));
    FindsOwnId(s0, s1, 3);
    TellsStranger(s0, s1);
    s := At(s1, 3, Out(EDEADLK), s1.w);
    es := Completes(ErrorCheck, SAME_ID, s);
    StartsNew(ErrorCheck, SAME_ID);
  }

  lemma TellsStranger(s0: State, s: State)
    requires Present(s, 3) && Comes(s0, At(s, 3, Rk(RkPid, Block), s.w))
    requires s.ty.ErrorCheck? && s.w.lock.pid == s.who[3].pid
    ensures Comes(s0, At(s, 3, Out(EDEADLK), s.w))
  {
    var m := At(s, 3, Rk(RkPid, Block), s.w);
    ToldDeadlock(s0, m, 3);
    assert s.pc[3 := Rk(RkPid, Block)][3 := Out(EDEADLK)] == s.pc[3 := Out(EDEADLK)];
    assert At(m, 3, Out(EDEADLK), s.w) == At(s, 3, Out(EDEADLK), s.w);
  }

  /** Nobody dies: thread 5 of process 1 has an error-checking mutex when its namesake of process 2 compares the owner id;
      it unlocks, and thread 6 of process 2 locks, before the namesake compares the process id. */
  lemma StrangerToldDeadlockAlive() returns (es: seq<Event>, s: State)
    ensures Initial(New(ErrorCheck, SAME_ID)) && OrderlyRun(New(ErrorCheck, SAME_ID), es, s)
    ensures forall e :: e in es ==> e.Act?
    ensures 3 in s.pc && s.pc[3] == Out(EDEADLK) && s.held == {2} && s.w.owner == 6 && s.orphaned == 0 && s.taken == 0
  {
    hide Comes, Next, OrderlyRun, Initial;
    var s0 := New(ErrorCheck, SAME_ID);
    Starts(s0);
    LocksFree(s0, s0, 1);
    var s1 := At(s0.(holder := By(1), held := s0.held + {1}), 1, Out(OK), Words(Word(1, false, false), 5, 1));
    FindsOwnId(s0, s1, 3);
    var s2 := At(s1, 3, Rk(RkPid, Block), s1.w);
    Unlocks(s0, s2, 1);
    var s3 := Unlocked(s2, 1, false);
    LocksFree(s0, s3, 2);
    var s4 := At(s3.(holder := By(2), held := s3.held + {2}), 2, Out(OK), Words(Word(2, false, false), 6, 1));
    assert s4.held == {2};
    ToldDeadlock(s0, s4, 3);
    s := At(s4, 3, Out(EDEADLK), s4.w);
    es := LivingRuns(s0, s);
    StartsNew(ErrorCheck, SAME_ID);
  }

  const NAMESAKES: map<Tid, Who> := map[1 := Who(1, 1), 2 := Who(2, 2), 3 := Who(2, 1)]

  /** Thread 1 has the mutex when its namesake, thread 3 of another process, calls unlock and finds its own id; thread 1
      unlocks and thread 2, of thread 3's process, locks. */
  function Misled(ty: Type): State {
    var s := New(ty, NAMESAKES);
    s.(w := Words(Word(2, false, false), 2, 1), pc := map[1 := Out(OK), 2 := Out(OK), 3 := Ru(RuPid)],
       holder := By(2), held := {2})
  }

  lemma Misleads(ty: Type)
    ensures Comes(New(ty, NAMESAKES), Misled(ty))
  {
    hide Comes, Next;
    var s0 := New(ty, NAMESAKES);
    Starts(s0);
    LocksFree(s0, s0, 1);
    var s1 := At(s0.(holder := By(1), held := s0.held + {1}), 1, Out(OK), Words(Word(1, false, false), 1, 1));
    SeesOwnId(s0, s1, 3);
    var s2 := At(s1, 3, Ru(RuPid), s1.w);
    Unlocks(s0, s2, 1);
    var s3 := Unlocked(s2, 1, false);
    LocksFree(s0, s3, 2);
    var s4 := At(s3.(holder := By(2), held := s3.held + {2}), 2, Out(OK), Words(Word(2, false, false), 2, 1));
    assert s4.held == {2};
    assert s4.pc == Misled(ty).pc;
    assert s4 == Misled(ty);
  }

  /** Then thread 3 intrudes, and releases thread 2's lock; thread 1 locks. */
  function Shared(ty: Type): State {
    var s := New(ty, NAMESAKES);
    s.(w := Words(Word(1, false, false), 1, 1), pc := map[1 := Out(OK), 2 := Out(OK), 3 := Out(OK)],
       holder := By(1), held := {1, 2})
  }

  lemma Shares(ty: Type)
    ensures var s := At(Misled(ty), 3, Ru(RuDec), Misled(ty).w); Comes(s, Shared(ty))
  {
    hide Comes, Next;
    var s := At(Misled(ty), 3, Ru(RuDec), Misled(ty).w);
    Starts(s);
    UnlocksOn(s, s, 3);
    var s1 := Unlocked(s, 3, false);
    LocksFree(s, s1, 1);
    var s2 := At(s1.(holder := By(1), held := s1.held + {1}), 1, Out(OK), Words(Word(1, false, false), 1, 1));
    assert s2.held == {1, 2};
    assert s2.pc == Shared(ty).pc;
    assert s2 == Shared(ty);
  }

  lemma IntrudesOnce(ty: Type)
    ensures var s, e := Misled(ty), Go(3, Unlock);
      Enabled(s, e) && Intrudes(s, e) && Step(s, e) == At(s, 3, Ru(RuDec), s.w)
  {}

  /** So two live threads have the mutex. */
  lemma IntruderLetsTwoIn(ty: Type) returns (es: seq<Event>, s: State)
    ensures Initial(New(ty, NAMESAKES)) && Run(New(ty, NAMESAKES), es, s) && forall e :: e in es ==> e.Act?
    ensures s.held == {1, 2} && s.who == NAMESAKES && 1 in s.alive && 2 in s.alive
  {
    var s0, m, e := New(ty, NAMESAKES), Misled(ty), Go(3, Unlock);
    Misleads(ty);
    Shares(ty);
    IntrudesOnce(ty);
    StartsNew(ty, NAMESAKES);
    s := Shared(ty);
    assert 1 in s.alive && 2 in s.alive by { assert NAMESAKES[1].pid == 1 && NAMESAKES[2].pid == 2; }
    var before := LivingRuns(s0, m);
    var after := LivingRuns(Step(m, e), s);
    es := ThroughIntrusion(s0, before, m, e, after, s);
  }

  lemma ThroughIntrusion(s0: State, before: seq<Event>, m: State, e: Event, after: seq<Event>, s: State)
    returns (es: seq<Event>)
    requires OrderlyRun(s0, before, m) && Enabled(m, e) && e.Act? && OrderlyRun(Step(m, e), after, s)
    requires (forall x :: x in before ==> x.Act?) && (forall x :: x in after ==> x.Act?)
    ensures Run(s0, es, s) && forall x :: x in es ==> x.Act?
  {
    OrderlyIsRun(s0, before, m);
    OrderlyIsRun(Step(m, e), after, s);
    Extend(Attempt, s0, before, m, e);
    Join(Attempt, s0, before + [e], Step(m, e), after, s);
    es := before + [e] + after;
  }

  /** Thread 2 has taken a dead owner's mutex with trylock, and is inside consistent. */
  function Asking(s: State): State
    requires Present(s, 2)
  {
    var s' := Heir(s, 2, Word(2, false, false));
    At(s', 2, Ru(RcCas(Word(2, false, true))), s'.w)
  }

  lemma ComesToAsk(ty: Type)
    ensures var s := Orphaned(New(ty, FOUR)); Comes(s, Asking(s))
  {
    hide Comes, Next;
    var s := Orphaned(New(ty, FOUR));
    Starts(s);
    TriesAndInherits(s, s, 2);
    AsksConsistent(s, Heir(s, 2, Word(2, false, false)), 2);
  }

  /** Between that call's two accesses thread 3 sets the waiters flag: the call is refused, though the mutex is
      inconsistent and thread 2 holds it. */
  lemma HolderRefusedConsistent(ty: Type) returns (es: seq<Event>, s: State)
    ensures Initial(New(ty, FOUR)) && OrderlyRun(New(ty, FOUR), es, s)
    ensures 2 in s.pc && s.pc[2] == Out(EINVAL) && 2 in s.held && s.torn
  {
    hide Comes, Next, OrderlyRun, Initial;
    var s0 := Orphaned(New(ty, FOUR));
    ComesToAsk(ty);
    var s2 := Asking(s0);
    Contends(s0, s2, 3);
    var s3 := At(s2, 3, Rk(RkSecond, Block), s2.w.(lock := Word(2, true, true)));
    FailsConsistent(s0, s3, 2);
    s := At(s3, 2, Out(EINVAL), s3.w);
    es := Completes(ty, FOUR, s);
    StartsNew(ty, FOUR);
  }
}
