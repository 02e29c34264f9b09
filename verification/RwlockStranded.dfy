/** A run of pthread/rwlock.c with a timed reader after which a writer sleeps on a lock that nobody holds. */
module RwlockStranded {
  import opened Threads
  import opened Rwlock
  import opened RwlockAlone
  import opened RwlockDeserted
  import opened RwlockProofs
  import opened RwlockRuns
  import opened Runs

  /** A lock with three threads. */
  function Lock(w: Words, a: Pc, b: Pc, c: Pc): State { State(w, map[1 := a, 2 := b, 3 := c], multiset{}, {}) }

  const START: State := Lock(Words(UNOWNED, 0, 0), Out(OK), Out(OK), Out(OK))

  const LATE: Pc := Rd(RdLeave(Timed(true), true))

  /** Thread 1 has had the lock for writing; thread 2, a timed reader, has slept on it until its deadline. */
  const RELEASED: State := Lock(Words(UNOWNED, 1, 0), Out(OK), LATE, Out(OK))

  lemma Releases()
    ensures Comes(START, RELEASED)
  {
    hide Comes, Next;
    Starts(START);
    Writes(START, START, 1);
    var s1 := At(Did(START, 1, GrantWrite), 1, Out(OK), Words(1, 0, 0));
    QueuesTooLong(START, s1, 2);
    var s2 := At(s1, 2, LATE, Words(1, 1, 0));
    UnlocksWrite(START, s2, 1);
    var s3 := At(Did(s2, 1, DropWrite), 1, Out(OK), Words(UNOWNED, 1, 0));
    assert s3.pc == RELEASED.pc && s3.writers == {};
    assert s3 == RELEASED;
  }

  /** Thread 3 has read and unlocked; the count said 2, so the word still says "readers". */
  const LEFT: State := Lock(Words(RO, 1, 0), Out(OK), LATE, Out(OK))

  lemma PassesBy()
    requires Comes(START, RELEASED)
    ensures Comes(START, LEFT)
  {
    hide Comes, Next;
    Reads(START, RELEASED, 3);
    var s1 := At(Did(RELEASED, 3, GrantRead), 3, Out(OK), Words(RO, 2, 0));
    UnlocksRead(START, s1, 3);
    var s2 := At(Did(s1, 3, DropRead), 3, Out(OK), Words(RO, 1, 0));
    assert s2.pc == LEFT.pc && s2.readers == multiset{};
    assert s2 == LEFT;
  }

  /** The timed reader has deserted the lock, and a writer has come. */
  const LOST: State := Lock(Words(RO, 0, 1), Wr(WrAsleep(Block)), Out(ETIMEDOUT), Out(OK))

  lemma Deserts()
    requires Comes(START, LEFT)
    ensures Comes(START, LOST)
  {
    hide Comes, Next;
    GivesUp(START, LEFT, 2);
    var s1 := At(LEFT, 2, Out(ETIMEDOUT), Words(RO, 0, 0));
    QueuesToWrite(START, s1, 1);
    var s2 := At(s1, 1, Wr(WrAsleep(Block)), Words(RO, 0, 1));
    assert s2.pc == LOST.pc;
    assert s2 == LOST;
  }

  lemma Ends()
    ensures Initial(START) && Quiet(LOST) && !Held(LOST) && Deserted(LOST)
  {
    assert START.pc.Keys == {1, 2, 3};
  }

  /** Three threads can bring the lock to rest with a writer asleep and nobody holding it; there it stays until a reader
      comes. */
  lemma TimedReaderStrandsWriter() returns (es: seq<Event>, s: State)
    ensures Initial(START) && Run(START, es, s) && Quiet(s)
    ensures 1 in s.pc && WrSleeping(s.pc[1]) && !Held(s) && Deserted(s)
  {
    hide Initial, Quiet, Held, Deserted;
    Releases();
    PassesBy();
    Deserts();
    Ends();
    s := LOST;
    es :| Leads(Attempt, START, es, s);
  }
}
