/** What the calls of a robust mutex come to when their thread moves alone: a free word is taken, a dead owner's is taken
    over, by lock, timedlock and trylock alike (pthread/lowlevellock.c). */
module RobustTakeover {
  import opened Threads
  import opened Robust
  import opened RobustRuns
  import opened RobustAnswers
  import opened Runs

  /** The word can be had: it is free, or its owner's process is dead. */
  predicate Available(w: Words, alive: set<nat>) { w.lock == ZERO || w.lock.pid !in alive }

  /** An upper bound on the steps that a thread at `p` makes alone before it is outside, or polls a live owner's word. */
  function Rank(p: Pc, w: Words, alive: set<nat>): nat {
    match p
    case Out(_) => 0
    case Dead => 0
    case Rk(l, _) => RankLock(l, w, alive)
    case Rt(r) => RankTry(r)
    case Rw(x) => RankWon(x)
    case Ru(u) => RankUnlock(u, w)
  }

  function RankLock(l: RkPc, w: Words, alive: set<nat>): nat {
    match l
    case RkTest => 14
    case RkPid => 13
    case RkFirst => 11
    case RkGrab => if w.lock == ZERO then 10 else 12
    case RkMark(v) => if w.lock == v then 10 else 12
    case RkSecond => 8
    case RkGrabW => if w.lock == ZERO then 7 else 10
    case RkProbe(v) => if w.lock == v then 7 else 10
    case RkTake(v) => if w.lock == v then 6 else 9
    case RkPause => if w.lock == ZERO || w.lock.pid !in alive then 9 else 0
  }

  function RankTry(r: RtPc): nat {
    match r
    case RtLoad => 8
    case RtGrab => 6
    case RtProbe(_) => 7
    case RtTake(_) => 6
  }

  function RankWon(x: RwPc): nat {
    match x
    case RwWon(_) => 5
    case RwOwn(_) => 4
    case RwOne(_) => 3
    case RwSee => 2
    case RwFlag(_) => 1
  }

  function RankUnlock(u: RuPc, w: Words): nat {
    match u
    case RuTest => 10
    case RuPid => 9
    case RuDec => 8
    case RuSee => 7
    case RuMark(_) => 6
    case RuLoad => 3
    case RuWake => 1
    case RuCas(v) => if w.lock == v then 2 else 4
    case RcLoad => 4
    case RcCas(_) => 3
    case RcOwn => 2
    case RcOne => 1
  }

  /** A value that was loaded as not free is not. */
  predicate Loaded(p: Pc) {
    && (p.Rk? && (p.l.RkMark? || p.l.RkProbe? || p.l.RkTake?) ==> p.l.v != ZERO)
    && (p.Rt? && (p.r.RtProbe? || p.r.RtTake?) ==> p.r.v != ZERO)
  }

  predicate Polls(p: Pc, w: Words, alive: set<nat>) { p.Rk? && p.l.RkPause? && !Available(w, alive) }

  lemma MoveWinds(p: Pc, w: Words, ty: Type, me: Who, alive: set<nat>, e: Event)
    requires e.Act? && !p.Out? && !p.Dead? && !Polls(p, w, alive) && Loaded(p) && !e.fail && !e.late
    ensures var m := Next(p, w, ty, me, alive, e); Loaded(m.p) && Rank(m.p, m.w, alive) < Rank(p, w, alive)
  {
    match p
    case Out(_) =>
    case Dead =>
    case Rk(_, _) =>
    case Rt(_) =>
    case Rw(_) =>
    case Ru(_) =>
  }

  function Alone(t: Tid): Event { Act(t, Unlock, false, false) }

  ghost predicate Steady(e: Event, t: Tid) { e.Act? && e.t == t && !e.fail && !e.late }

  predicate Moves(s: State, t: Tid) { t in s.pc && t in s.who && Loaded(s.pc[t]) }

  /** Outside or dead, polling a live owner's word, or about to intrude. */
  predicate Rests(s: State, t: Tid) {
    Moves(s, t) && (s.pc[t].Out? || s.pc[t].Dead? || Polls(s.pc[t], s.w, s.alive) || Intrudes(s, Alone(t)))
  }

  function RankOf(s: State, t: Tid): nat { if t in s.pc then Rank(s.pc[t], s.w, s.alive) else 0 }

  lemma RankBound(s: State, t: Tid)
    ensures RankOf(s, t) <= 14
  {}

  lemma AloneWinds(s: State, t: Tid)
    requires Moves(s, t) && !Rests(s, t)
    ensures Steady(Alone(t), t) && Within(t)(s, Alone(t)).Some?
    ensures var s' := Within(t)(s, Alone(t)).value; Moves(s', t) && RankOf(s', t) < RankOf(s, t)
  {
    hide Rank, Next, Loaded;
    MoveWinds(s.pc[t], s.w, s.ty, s.who[t], s.alive, Alone(t));
  }

  lemma Winding(s: State, t: Tid) returns (es: seq<Event>, s': State)
    requires Moves(s, t)
    ensures Leads(Within(t), s, es, s') && Rests(s', t) && |es| <= 14 && forall e :: e in es ==> Steady(e, t)
  {
    RankBound(s, t);
    hide *;
    forall x | Moves(x, t) && !Rests(x, t)
      ensures Steady(Alone(t), t) && Within(t)(x, Alone(t)).Some?
      ensures var x' := Within(t)(x, Alone(t)).value; Moves(x', t) && RankOf(x', t) < RankOf(x, t)
    {
      AloneWinds(x, t);
    }
    es, s' := Winds(Within(t), _ => Alone(t), e => Steady(e, t), x => Moves(x, t), x => Rests(x, t),
                    x => RankOf(x, t), s);
  }

  lemma HasLoaded(s: State, t: Tid)
    requires Safe(s) && t in s.pc
    ensures Moves(s, t)
  {
    assert Here(s.pc[t], Self(s, t), Seen(s));
  }

  /** No call spins but to poll a live owner's word: a thread that moves alone is outside after at most 14 steps, or polls
      such a word, or is about to intrude. */
  lemma NeverSpins(s0: State, es: seq<Event>, s: State, t: Tid) returns (more: seq<Event>, s': State)
    requires Initial(s0) && OrderlyRun(s0, es, s) && t in s.pc
    ensures Leads(Within(t), s, more, s') && Rests(s', t) && |more| <= 14 && forall e :: e in more ==> Steady(e, t)
  {
    InitialHolds(s0);
    RunKeeps(s0, es, s);
    HasLoaded(s, t);
    more, s' := Winding(s, t);
  }

  /** What a lock that comes to have the word is to answer. */
  function Promise(v: View): Code {
    if v.doomed then ENOTRECOVERABLE else if v.w.lock == ZERO then OK else EOWNERDEAD
  }

  /** Where a thread gets the word when it moves alone; a trylock must not have found it otherwise before. */
  predicate Hopes(p: Pc, w: Words) {
    match p
    case Out(_) => false
    case Dead => false
    case Rk(l, k) => k.Try? ==> l.RkTest? || l.RkPid?
    case Rt(r) => if r.RtGrab? then w.lock == ZERO else r.RtLoad? || r.v == w.lock
    case Rw(_) => false
    case Ru(_) => false
  }

  /** On the way to the answer `want`. */
  predicate Coming(p: Pc, me: Who, v: View, want: Code) {
    && (v.doomed <==> v.w.owner == NOTRECOVERABLE_ID)
    && me.pid in v.alive && 0 < me.id < NOTRECOVERABLE_ID && me.pid != 0
    && Loaded(p)
    && match p
       case Out(last) => last == want
       case Dead => false
       case Rk(_, _) => Hopes(p, v.w) && Available(v.w, v.alive) && want == Promise(v)
       case Rt(_) => Hopes(p, v.w) && Available(v.w, v.alive) && want == Promise(v)
       case Rw(x) =>
         if v.doomed then x.RwWon? && want == ENOTRECOVERABLE
         else want == if x.RwSee? || x.RwFlag? || x.dead then EOWNERDEAD else OK
       case Ru(_) => false
  }

  /** What the next access on that way brings about. */
  predicate ComesOn(p: Pc, me: Who, v: View, want: Code, m: Move) {
    Coming(m.p, me, ViewAfter(v, m), want) && Rank(m.p, m.w, v.alive) < Rank(p, v.w, v.alive)
  }

  lemma LockComes(p: Pc, ty: Type, me: Who, v: View, want: Code, e: Event)
    requires e.Act? && p.Rk? && Coming(p, me, v, want) && !e.fail && !e.late
    ensures ComesOn(p, me, v, want, LockMove(p.l, p.k, v.w, ty, me, v.alive, e))
  {}

  lemma TryComes(p: Pc, me: Who, v: View, want: Code, e: Event)
    requires e.Act? && p.Rt? && Coming(p, me, v, want) && !e.fail
    ensures ComesOn(p, me, v, want, TryMove(p.r, v.w, me, v.alive, e))
  {}

  lemma WonComes(p: Pc, me: Who, v: View, want: Code)
    requires p.Rw? && Coming(p, me, v, want)
    ensures ComesOn(p, me, v, want, WonMove(p.x, v.w, me))
  {}

  lemma MoveComes(p: Pc, ty: Type, me: Who, v: View, want: Code, e: Event)
    requires e.Act? && !p.Out? && Coming(p, me, v, want) && !e.fail && !e.late
    ensures ComesOn(p, me, v, want, Next(p, v.w, ty, me, v.alive, e))
  {
    hide ComesOn;
    match p
    case Out(_) =>
    case Dead =>
    case Rk(_, _) => LockComes(p, ty, me, v, want, e);
    case Rt(_) => TryComes(p, me, v, want, e);
    case Rw(_) => WonComes(p, me, v, want);
    case Ru(_) =>
  }

  predicate ComingIn(s: State, t: Tid, want: Code) {
    t in s.pc && t in s.who && Coming(s.pc[t], s.who[t], Seen(s), want)
  }

  predicate DoneIn(s: State, t: Tid) { t in s.pc && s.pc[t].Out? }

  lemma AloneComes(s: State, t: Tid, want: Code)
    requires ComingIn(s, t, want) && !DoneIn(s, t)
    ensures Steady(Alone(t), t) && Within(t)(s, Alone(t)).Some?
    ensures var s' := Within(t)(s, Alone(t)).value; ComingIn(s', t, want) && RankOf(s', t) < RankOf(s, t)
  {
    hide Rank, Next;
    MoveComes(s.pc[t], s.ty, s.who[t], Seen(s), want, Alone(t));
  }

  lemma GoesOn(s: State, t: Tid, want: Code) returns (es: seq<Event>, s': State)
    requires ComingIn(s, t, want)
    ensures Leads(Within(t), s, es, s') && ComingIn(s', t, want) && DoneIn(s', t) && |es| <= 14
    ensures forall e :: e in es ==> Steady(e, t)
  {
    RankBound(s, t);
    hide *;
    forall x | ComingIn(x, t, want) && !DoneIn(x, t)
      ensures Steady(Alone(t), t) && Within(t)(x, Alone(t)).Some?
      ensures var x' := Within(t)(x, Alone(t)).value; ComingIn(x', t, want) && RankOf(x', t) < RankOf(x, t)
    {
      AloneComes(x, t, want);
    }
    es, s' := Winds(Within(t), _ => Alone(t), e => Steady(e, t), x => ComingIn(x, t, want), x => DoneIn(x, t),
                    x => RankOf(x, t), s);
  }

  lemma IsComing(s: State, t: Tid)
    requires Safe(s) && t in s.pc && !s.pc[t].Dead? && Hopes(s.pc[t], s.w) && Available(s.w, s.alive)
    ensures ComingIn(s, t, Promise(Seen(s)))
  {
    HasLoaded(s, t);
  }

  /** In every state reached without intrusion, a thread anywhere in lock or timedlock, or in a trylock that has not found
      the word otherwise before, that finds the word a dead process's and moves alone, is told so: it comes to EOWNERDEAD,
      or to ENOTRECOVERABLE if the mutex is past recovery. If the word is free, it comes to 0 or ENOTRECOVERABLE. */
  lemma TakesOver(s0: State, es: seq<Event>, s: State, t: Tid) returns (more: seq<Event>, s': State)
    requires Initial(s0) && OrderlyRun(s0, es, s) && t in s.pc && !s.pc[t].Dead?
    requires Hopes(s.pc[t], s.w) && Available(s.w, s.alive)
    ensures Leads(Within(t), s, more, s') && |more| <= 14 && forall e :: e in more ==> Steady(e, t)
    ensures t in s'.pc
    ensures s'.pc[t] == Out(if s.doomed then ENOTRECOVERABLE else if s.w.lock == ZERO then OK else EOWNERDEAD)
  {
    InitialHolds(s0);
    RunKeeps(s0, es, s);
    IsComing(s, t);
    more, s' := GoesOn(s, t, Promise(Seen(s)));
  }
}
