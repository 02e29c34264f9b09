/** What a wait on a barrier comes to when its thread moves alone (pthread/barrier.c). */
module BarrierProgress {
  import opened Threads
  import opened Barrier
  import opened BarrierProofs
  import opened BarrierRuns
  import opened Runs

  /** An upper bound on the steps that a thread at `p` makes alone before it is outside or asleep. */
  function Rank(p: Pc, w: Words): nat {
    match p
    case Idle => 0
    case BaLoad => 8
    case BaAdd(_) => 7
    case BaTest(sq) => if w.lo == sq then 2 else 3
    case BaWait(sq) => if w.lo == sq then 1 else 4
    case BaAsleep(_) => 0
    case BaSee => 6
    case BaStore(_) => 5
    case BaWake => 4
    case BaStray(_) => 3
    case BaOut(_) => 2
    case BaLast(_) => 1
  }

  predicate Moves(s: State, t: Tid) { t in s.pc && t in s.arrivals }

  predicate Rests(s: State, t: Tid) { Moves(s, t) && (s.pc[t].Idle? || Sleeping(s.pc[t])) }

  function RankOf(s: State, t: Tid): nat { if t in s.pc then Rank(s.pc[t], s.w) else 0 }

  lemma RankBound(s: State, t: Tid)
    ensures RankOf(s, t) <= 8
  {}

  lemma AloneWinds(s: State, t: Tid)
    requires Moves(s, t) && !Rests(s, t)
    ensures Enabled(s, Waiter(t)) && var s' := Step(s, Waiter(t)); Moves(s', t) && RankOf(s', t) < RankOf(s, t)
  {}

  /** No wait spins: a thread that moves alone is outside or asleep after at most 8 steps. */
  lemma NeverSpins(s: State, t: Tid) returns (es: seq<Event>, s': State)
    requires Moves(s, t)
    ensures Run(s, es, s') && Rests(s', t) && |es| <= 8 && forall e :: e in es ==> e == Waiter(t)
  {
    RankBound(s, t);
    hide Rank, Step, RankOf, Rests, Moves;
    forall x | Moves(x, t) && !Rests(x, t)
      ensures Enabled(x, Waiter(t)) && var x' := Step(x, Waiter(t)); Moves(x', t) && RankOf(x', t) < RankOf(x, t)
    {
      AloneWinds(x, t);
    }
    es, s' := Winds(Attempt, _ => Waiter(t), e => e == Waiter(t), x => Moves(x, t), x => Rests(x, t),
                    x => RankOf(x, t), s);
  }

  /** A thread that waits for nobody any more. */
  predicate Passing(p: Pc, lo: nat) {
    || ((p.BaTest? || p.BaWait?) && p.sq != lo)
    || p.BaSee? || p.BaStore? || p.BaWake? || p.BaOut? || p.BaLast?
  }

  /** On the way out of its `k`-th wait, or out of it. */
  predicate Leaves(s: State, t: Tid, k: nat) {
    && Moves(s, t) && s.arrivals[t] == k
    && if s.pc[t].Idle? then (t, k) in s.log else Passing(s.pc[t], s.w.lo)
  }

  predicate DoneIn(s: State, t: Tid) { t in s.pc && s.pc[t].Idle? }

  lemma AloneLeaves(s: State, t: Tid, k: nat)
    requires Leaves(s, t, k) && !DoneIn(s, t)
    ensures Enabled(s, Waiter(t)) && var s' := Step(s, Waiter(t)); Leaves(s', t, k) && RankOf(s', t) < RankOf(s, t)
  {}

  lemma GoesOn(s: State, t: Tid, k: nat) returns (es: seq<Event>, s': State)
    requires Leaves(s, t, k)
    ensures Run(s, es, s') && Leaves(s', t, k) && DoneIn(s', t) && |es| <= 8 && forall e :: e in es ==> e == Waiter(t)
  {
    RankBound(s, t);
    hide Rank, Step, RankOf, Leaves, DoneIn;
    forall x | Leaves(x, t, k) && !DoneIn(x, t)
      ensures Enabled(x, Waiter(t)) && var x' := Step(x, Waiter(t)); Leaves(x', t, k) && RankOf(x', t) < RankOf(x, t)
    {
      AloneLeaves(x, t, k);
    }
    es, s' := Winds(Attempt, _ => Waiter(t), e => e == Waiter(t), x => Leaves(x, t, k), x => DoneIn(x, t),
                    x => RankOf(x, t), s);
  }

  /** A thread that is awake in a wait whose round has been opened, or is about to open it, returns when it moves alone. */
  lemma Returns(s0: State, es: seq<Event>, s: State, t: Tid) returns (more: seq<Event>, s': State)
    requires Initial(s0) && Run(s0, es, s) && t in s.pc && t in s.arrivals
    requires !s.pc[t].Idle? && !s.pc[t].BaLoad? && !s.pc[t].BaAdd? && !Sleeping(s.pc[t])
    requires s.arrivals[t] == s.gen || Opening(s.pc[t])
    ensures Run(s, more, s') && |more| <= 8 && forall e :: e in more ==> e == Waiter(t)
    ensures t in s'.pc && s'.pc[t].Idle? && (t, s.arrivals[t]) in s'.log
  {
    StrayUnreachable(s0, es, s, t);
    more, s' := GoesOn(s, t, s.arrivals[t]);
  }

  /** An upper bound on the steps of the destroyer alone. */
  function DestroyRank(d: DPc, nrefs: nat): nat {
    match d
    case DIdle => 0
    case DSub => 4
    case DWait(r) => if r == nrefs then 1 else 3
    case DAsleep => 0
    case DLoad => 2
    case DDone => 0
  }

  function DestroyRankOf(s: State): nat { DestroyRank(s.d, s.w.nrefs) }

  lemma DestroyStarts(s: State)
    requires Safe(s) && !DestroyRests(s)
    ensures DestroyGoes(s, s) && DestroyRankOf(s) <= 4
  {
    hide Claimed, Counted, Logged, Covered, Referenced;
  }

  predicate DestroyRests(s: State) { s.d.DIdle? || s.d.DAsleep? || s.d.DDone? }

  /** Nor does the destroyer spin: alone, it is done or asleep after at most 4 steps; done if nobody is inside. */
  lemma DestroyNeverSpins(s0: State, es: seq<Event>, s: State) returns (more: seq<Event>, s': State)
    requires Initial(s0) && Run(s0, es, s) && !DestroyRests(s)
    ensures Run(s, more, s') && |more| <= 4 && forall e :: e in more ==> e == Destroyer
    ensures if Any(s.pc, Inside) then s'.d.DAsleep? else s'.d.DDone?
  {
    Reached(s0, es, s);
    DestroyStarts(s);
    hide *;
    forall x: State | DestroyGoes(x, s) && !DestroyRests(x)
      ensures Enabled(x, Destroyer) && DestroyGoes(Step(x, Destroyer), s)
      ensures DestroyRankOf(Step(x, Destroyer)) < DestroyRankOf(x)
    {
      DestroyWinds(x, s);
    }
    more, s' := Winds(Attempt, _ => Destroyer, e => e == Destroyer, x => DestroyGoes(x, s), DestroyRests,
                      DestroyRankOf, s);
    DestroyEnds(s', s);
  }

  ghost predicate DestroyGoes(x: State, s: State) {
    Safe(x) && x.pc == s.pc && !x.d.DIdle? && (x.d.DAsleep? ==> x.w.nrefs > 0)
  }

  lemma DestroyWinds(x: State, s: State)
    requires DestroyGoes(x, s) && !DestroyRests(x)
    ensures Enabled(x, Destroyer) && DestroyGoes(Step(x, Destroyer), s)
    ensures DestroyRankOf(Step(x, Destroyer)) < DestroyRankOf(x)
  {
    hide Claimed, Counted, Logged, Covered, Tally;
    StepSafe(x, Destroyer);
  }

  lemma DestroyEnds(x: State, s: State)
    requires DestroyGoes(x, s) && DestroyRests(x)
    ensures if Any(s.pc, Inside) then x.d.DAsleep? else x.d.DDone?
  {
    hide Claimed, Counted, Logged, Covered;
    TallyAny(x.pc, Inside);
  }

  /** The destroyer is woken by the last thread to leave, when nobody is inside and destruction has begun. */
  lemma LastIsLast(s0: State, es: seq<Event>, s: State, t: Tid)
    requires Initial(s0) && Run(s0, es, s) && Enabled(s, Waiter(t)) && Step(s, Waiter(t)).pc[t].BaLast?
    ensures !Any(Step(s, Waiter(t)).pc, Inside) && !s.d.DIdle? && !s.d.DSub?
  {
    hide Claimed, Counted, Logged, Covered, Initial;
    Reached(s0, es, s);
    StepSafe(s, Waiter(t));
    LastLeaves(s, t);
    NoReferences(Step(s, Waiter(t)));
  }

  lemma LastLeaves(s: State, t: Tid)
    requires Enabled(s, Waiter(t)) && Step(s, Waiter(t)).pc[t].BaLast?
    ensures Step(s, Waiter(t)).w.nrefs == 0 && Base(Step(s, Waiter(t)).d) == Base(s.d)
  {}

  lemma NoReferences(s: State)
    requires Referenced(s) && s.w.nrefs == 0
    ensures !Any(s.pc, Inside) && Base(s.d) == 0
  {
    TallyAny(s.pc, Inside);
  }
}
