/** What every run of a read-write lock keeps (pthread/rwlock.c). */
module RwlockRuns {
  import opened Threads
  import opened Rwlock
  import opened RwlockProofs
  import opened Runs

  /** The state after a step, if it is possible. */
  function Attempt(s: State, e: Event): Option<State> { if Enabled(s, e) then Some(Step(s, e)) else None }

  /** `es` leads from `s` to `s'`. */
  ghost predicate Run(s: State, es: seq<Event>, s': State) { Leads(Attempt, s, es, s') }

  /** No step of the run is a timed reader deserting the lock. */
  ghost predicate NoDeserter(s: State, es: seq<Event>)
    decreases |es|
  {
    es == [] || (Enabled(s, es[0]) && !Deserts(s, es[0]) && NoDeserter(Step(s, es[0]), es[1..]))
  }

  lemma {:induction false} RunKeeps(s: State, es: seq<Event>, s': State)
    requires Safe(s) && Covered(s) && Run(s, es, s')
    ensures Safe(s') && Covered(s')
    ensures Backed(s) && NoDeserter(s, es) ==> Backed(s')
    decreases |es|
  {
    if es != [] {
      StepSafe(s, es[0]);
      StepCovered(s, es[0]);
      if Backed(s) && NoDeserter(s, es) { StepBacked(s, es[0]); }
      RunKeeps(Step(s, es[0]), es[1..], s');
    }
  }

  lemma InitialHolds(s: State)
    requires Initial(s)
    ensures Safe(s) && Covered(s) && Backed(s)
  {
    TallyAny(s.pc, RdQueued);
    TallyAny(s.pc, WrQueued);
  }

  predicate Held(s: State) { s.readers != multiset{} || s.writers != {} }

  predicate Asleep(p: Pc) { RdSleeping(p) || WrSleeping(p) }

  /** Every thread is outside the lock code or asleep in it. */
  predicate Quiet(s: State) { forall t :: t in s.pc ==> s.pc[t].Out? || Asleep(s.pc[t]) }

  /** Mutual exclusion and exact accounting, for every mix of plain, `try` and timed calls. */
  lemma ExclusionAndAccounting(s0: State, es: seq<Event>, s: State)
    requires Initial(s0) && Run(s0, es, s)
    ensures |s.writers| <= 1 && (s.writers != {} ==> s.readers == multiset{})
    ensures forall t :: t in s.pc ==> (s.w.oid == t <==> t in s.writers)
    ensures s.w.nrd == |s.readers| + Tally(s.pc, RdQueued)
    ensures s.w.qwr == Tally(s.pc, WrQueued)
    ensures s.readers != multiset{} ==> s.w.oid == RO
  {
    InitialHolds(s0);
    RunKeeps(s0, es, s);
  }

  /** Clearing the owner word on `nrd == 1` never takes the lock from a reader, though queued readers are counted too. */
  lemma LastReaderIsAlone(s0: State, es: seq<Event>, s: State, e: Event)
    requires Initial(s0) && Run(s0, es, s) && Enabled(s, e)
    requires Next(s.pc[e.t], s.w, e).deed.DropRead? && Step(s, e).w.oid == UNOWNED
    ensures s.readers == multiset{e.t} && Tally(s.pc, RdQueued) == 0
  {
    InitialHolds(s0);
    RunKeeps(s0, es, s);
    Room(s, e.t);
    MoveFits(s.pc[e.t], s.w, e, Self(s, e.t), |s.readers|);
    OnlyOne(s.readers, e.t);
  }

  lemma OnlyOne(r: multiset<Tid>, t: Tid)
    requires t in r
    ensures |r| <= 1 ==> r == multiset{t}
  {
    assert r == (r - multiset{t}) + multiset{t};
  }

  /** A holder's unlock is never refused, and the deadlock error is given to the write holder and nobody else. */
  lemma Verdicts(s0: State, es: seq<Event>, s: State, e: Event)
    requires Initial(s0) && Run(s0, es, s) && Enabled(s, e)
    ensures Step(s, e).pc[e.t] != Out(EPERM)
    ensures s.pc[e.t].Rd? && s.pc[e.t].r.RdEntry? ==> (Step(s, e).pc[e.t] == Out(EDEADLK) <==> e.t in s.writers)
    ensures s.pc[e.t].Wr? && (s.pc[e.t].w.WrEntry? || s.pc[e.t].w.WrPeeked?) ==>
              (Step(s, e).pc[e.t] == Out(EDEADLK) <==> e.t in s.writers)
  {
    InitialHolds(s0);
    RunKeeps(s0, es, s);
    Room(s, e.t);
    MoveVerdict(s.pc[e.t], s.w, e, Self(s, e.t), |s.readers|);
  }

  lemma MoveVerdict(p: Pc, w: Words, e: Event, me: Me, nr: nat)
    requires Local(p, w, me, nr) && e.t == me.t
    ensures Next(p, w, e).p != Out(EPERM)
    ensures p.Rd? && p.r.RdEntry? ==> (Next(p, w, e).p == Out(EDEADLK) <==> me.writer)
    ensures p.Wr? && (p.w.WrEntry? || p.w.WrPeeked?) ==> (Next(p, w, e).p == Out(EDEADLK) <==> me.writer)
  {
    match p
    case Out(_) =>
    case Rd(_) =>
    case Wr(_) =>
    case Un(_) =>
  }

  /** At rest, whoever sleeps sleeps on a held lock, or on one that a timed reader left marked as read-owned;
      a sleeping reader always has a writer to wait for. */
  lemma SleepersAtRest(s0: State, es: seq<Event>, s: State)
    requires Initial(s0) && Run(s0, es, s) && Quiet(s) && Any(s.pc, Asleep)
    ensures Held(s) <==> !(s.w.oid == RO && s.w.nrd == 0)
    ensures Any(s.pc, RdSleeping) ==> s.writers != {}
  {
    InitialHolds(s0);
    RunKeeps(s0, es, s);
    RestingQueue(s);
  }

  lemma RestingQueue(s: State)
    requires Safe(s) && Covered(s) && Quiet(s) && Any(s.pc, Asleep)
    ensures s.w.oid != UNOWNED
    ensures s.w.oid == RO ==> s.w.nrd == |s.readers|
    ensures Any(s.pc, RdSleeping) ==> s.w.oid != RO
  {
    NobodyAwake(s);
    TallyAny(s.pc, RdQueued);
    if Any(s.pc, RdQueued) {
      var t :| t in s.pc && RdQueued(s.pc[t]);
      assert RdSleeping(s.pc[t]);
    }
  }

  lemma NobodyAwake(s: State)
    requires Quiet(s)
    ensures !Any(s.pc, Sharing) && !Any(s.pc, WakesWriter) && !Any(s.pc, WakesReader) && !Any(s.pc, Probing)
    ensures Any(s.pc, Asleep) ==> Any(s.pc, RdSleeping) || Any(s.pc, WrSleeping)
  {}

  /** No lost wake-up: when no timed reader has deserted the lock, a thread asleep at rest sleeps on a held lock. */
  lemma NoLostWakeup(s0: State, es: seq<Event>, s: State)
    requires Initial(s0) && Run(s0, es, s) && NoDeserter(s0, es) && Quiet(s) && Any(s.pc, Asleep)
    ensures Held(s)
    ensures Any(s.pc, RdSleeping) ==> s.writers != {}
  {
    InitialHolds(s0);
    RunKeeps(s0, es, s);
    RestingQueue(s);
    NobodyAwake(s);
  }

  /** No thread is inside a timed read. */
  ghost predicate NoTimedRead(s: State) {
    forall t :: t in s.pc && s.pc[t].Rd? ==> Untimed(s.pc[t].r)
  }

  predicate Untimed(r: RdPc) {
    match r
    case RdShare => true
    case RdLeave(k, late) => !k.Timed? && !late
    case RdEntry(k) => !k.Timed?
    case RdLoad(k) => !k.Timed?
    case RdCas(k, _, _) => !k.Timed?
    case RdEnter(k, _) => !k.Timed?
    case RdWait(k, _) => !k.Timed?
    case RdAsleep(k) => !k.Timed?
  }

  lemma StaysUntimed(p: Pc, w: Words, e: Event)
    requires p.Rd? ==> Untimed(p.r)
    requires !(e.op.Read? && e.op.k.Timed?)
    ensures Next(p, w, e).p.Rd? ==> Untimed(Next(p, w, e).p.r)
  {
    match p
    case Out(_) =>
    case Rd(_) =>
    case Wr(_) =>
    case Un(_) =>
  }

  /** Only `timedrdlock` deserts: a run of all the other calls, `timedwrlock` included, has no deserter. */
  lemma {:induction false} OnlyTimedReadersDesert(s: State, es: seq<Event>, s': State)
    requires NoTimedRead(s) && Run(s, es, s')
    requires forall e :: e in es ==> !(e.op.Read? && e.op.k.Timed?)
    ensures NoDeserter(s, es)
    decreases |es|
  {
    if es != [] {
      var e := es[0];
      assert e in es;
      StaysUntimed(s.pc[e.t], s.w, e);
      forall u | u in Step(s, e).pc && Step(s, e).pc[u].Rd?
        ensures Untimed(Step(s, e).pc[u].r)
      {
        if u != e.t {
          Sleepers(s, e, u);
          assert s.pc[u].Rd?;
        }
      }
      OnlyTimedReadersDesert(Step(s, e), es[1..], s');
    }
  }

  /** No lost wake-up, for all calls but `timedrdlock`. */
  lemma NoLostWakeupUntimed(s0: State, es: seq<Event>, s: State)
    requires Initial(s0) && Run(s0, es, s) && Quiet(s) && Any(s.pc, Asleep)
    requires forall e :: e in es ==> !(e.op.Read? && e.op.k.Timed?)
    ensures Held(s)
    ensures Any(s.pc, RdSleeping) ==> s.writers != {}
  {
    OnlyTimedReadersDesert(s0, es, s);
    NoLostWakeup(s0, es, s);
  }
}
