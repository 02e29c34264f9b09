/** What every run of a robust mutex keeps, through the deaths of processes. */
module RobustRuns {
  import opened Threads
  import opened Robust
  import opened Runs

  /** Words are distinct as numbers, and the masks pick out the fields. */
  lemma BitsExact(v: Word, w: Word)
    requires v.pid < PID_LIMIT && w.pid < PID_LIMIT
    ensures Bits(v) == Bits(w) <==> v == w
    ensures Bits(v) < LIMB && (Bits(v) == 0 <==> v == ZERO)
    ensures v.pid == Bits(v) % 0x4000_0000 && (v.waiters <==> Bits(v) >= 0x8000_0000)
  {}

  function After(me: Me, d: Deed): Me {
    Me(me.who, !d.Release? && (me.holds || d.Acquire? || d.Takeover?), !d.Drop? && (me.has || d.Grant?))
  }

  /** The state's view after a move. */
  function ViewAfter(v: View, m: Move): View {
    View(m.w, v.alive, TornAfter(v.torn, m.deed), v.doomed || (m.deed.Drop? && v.torn))
  }

  /** What a step of a live thread may rely on, beside its own claims. */
  predicate Local(me: Me, v: View) {
    && 0 < me.who.pid && 0 < me.who.id < NOTRECOVERABLE_ID && me.who.pid in v.alive
    && (v.doomed <==> v.w.owner == NOTRECOVERABLE_ID)
    && (me.holds ==> v.w.lock.pid == me.who.pid)
    && (v.w.lock == ZERO ==> !v.torn && (v.w.owner == 0 || v.doomed))
  }

  /** What it establishes: it writes the owner id and the count only while the word is its own, takes the word only
      when it is free or its owner dead, and otherwise adds no more than the waiters flag. */
  predicate Fits(p: Pc, me: Me, v: View, m: Move) {
    && Here(m.p, After(me, m.deed), ViewAfter(v, m))
    && (!m.p.Dead? || p.Dead?)
    && (!me.holds ==> m.w.owner == v.w.owner && m.w.cnt == v.w.cnt)
    && (m.deed.Acquire? ==> v.w.lock == ZERO && m.w.lock.pid == me.who.pid)
    && (m.deed.Takeover? ==> v.w.lock != ZERO && v.w.lock.pid !in v.alive && m.w.lock.pid == me.who.pid)
    && (m.deed.Release? ==> me.holds && m.w.lock == ZERO)
    && (m.deed.Grant? || m.deed.Drop? || m.deed.Mend? ==> me.holds)
    && (m.deed.Grant? ==> !v.doomed)
    && (!me.holds && m.deed.Nothing? ==> m.w.lock == v.w.lock || m.w.lock == v.w.lock.(waiters := true))
    && (!m.deed.Acquire? && !m.deed.Takeover? && !m.deed.Release? ==>
          m.w.lock.pid == v.w.lock.pid && (m.w.lock == ZERO <==> v.w.lock == ZERO))
    && (m.w.owner == NOTRECOVERABLE_ID <==> ViewAfter(v, m).doomed)
  }

  lemma LockFits(l: RkPc, k: Kind, me: Me, v: View, ty: Type, e: Event)
    requires e.Act? && Local(me, v) && Here(Rk(l, k), me, v)
    ensures Fits(Rk(l, k), me, v, LockMove(l, k, v.w, ty, me.who, v.alive, e))
  {}

  lemma TryFits(r: RtPc, me: Me, v: View, e: Event)
    requires e.Act? && Local(me, v) && Here(Rt(r), me, v)
    ensures Fits(Rt(r), me, v, TryMove(r, v.w, me.who, v.alive, e))
  {}

  lemma WonFits(x: RwPc, me: Me, v: View)
    requires Local(me, v) && Here(Rw(x), me, v)
    ensures Fits(Rw(x), me, v, WonMove(x, v.w, me.who))
  {}

  lemma UnlockFits(u: RuPc, me: Me, v: View, e: Event)
    requires e.Act? && Local(me, v) && Here(Ru(u), me, v)
    requires u.RuPid? ==> me.has || v.w.lock.pid != me.who.pid
    ensures Fits(Ru(u), me, v, UnlockMove(u, v.w, me.who, e))
  {}

  lemma BeginFits(last: Code, me: Me, v: View, e: Event)
    requires e.Act? && Local(me, v) && Here(Out(last), me, v)
    requires e.op.Consistent? ==> me.has
    ensures Fits(Out(last), me, v, Move(Begin(e.op), v.w, Nothing))
  {}

  lemma MoveFits(p: Pc, me: Me, v: View, ty: Type, e: Event)
    requires e.Act? && Local(me, v) && Here(p, me, v) && !p.Dead?
    requires p == Ru(RuPid) ==> me.has || v.w.lock.pid != me.who.pid
    requires p.Out? && e.op.Consistent? ==> me.has
    ensures Fits(p, me, v, Next(p, v.w, ty, me.who, v.alive, e))
  {
    match p
    case Out(last) => BeginFits(last, me, v, e);
    case Dead =>
    case Rk(l, k) => LockFits(l, k, me, v, ty, e);
    case Rt(r) => TryFits(r, me, v, e);
    case Rw(x) => WonFits(x, me, v);
    case Ru(u) => UnlockFits(u, me, v, e);
  }

  /** A bystander's claims survive what others do to the lock word, and the deaths of other processes. */
  lemma BystanderKeeps(q: Pc, me: Me, v: View, v': View)
    requires Here(q, me, v)
    requires me.holds ==> v'.w == v.w.(lock := v'.w.lock)
    requires me.holds ==> v'.w.lock == v.w.lock || v'.w.lock == v.w.lock.(waiters := true)
    requires me.holds ==> v'.torn == v.torn && v'.doomed == v.doomed
    requires v.doomed ==> v'.doomed
    requires v'.alive <= v.alive
    ensures Here(q, me, v')
  {}

  /** The claims of a thread other than the one that moves. */
  lemma OthersKeep(s: State, e: Event, u: Tid)
    requires Safe(s) && Enabled(s, e) && !Intrudes(s, e) && e.Act? && u in s.pc && u != e.t && !s.pc[e.t].Dead?
    requires Fits(s.pc[e.t], Self(s, e.t), Seen(s), MoveOf(s, e))
    ensures Here(s.pc[u], Self(Step(s, e), u), Seen(Step(s, e)))
  {
    var me, me' := Self(s, u), Self(Step(s, e), u);
    assert Here(s.pc[u], me, Seen(s));
    assert me'.has == me.has && me'.who == me.who;
    if !s.pc[u].Dead? {
      assert me.holds ==> !MoveOf(s, e).deed.Takeover?;
      BystanderKeeps(s.pc[u], me, Seen(s), Seen(Step(s, e)));
    }
  }

  lemma ActSafe(s: State, e: Event)
    requires Safe(s) && Enabled(s, e) && !Intrudes(s, e) && e.Act?
    ensures Safe(Step(s, e))
  {
    var t, s' := e.t, Step(s, e);
    if !s.pc[t].Dead? {
      MoveFits(s.pc[t], Self(s, t), Seen(s), s.ty, e);
      assert Here(s'.pc[t], Self(s', t), Seen(s'));
      forall u | u in s.pc && u != t
        ensures Here(s'.pc[u], Self(s', u), Seen(s'))
      {
        OthersKeep(s, e, u);
      }
    } else {
      assert s'.pc == s.pc;
    }
  }

  lemma DieSafe(s: State, e: Event)
    requires Safe(s) && Enabled(s, e) && e.Die?
    ensures Safe(Step(s, e))
  {
    var s' := Step(s, e);
    forall u | u in s.pc
      ensures Here(s'.pc[u], Self(s', u), Seen(s'))
    {
      if s.who[u].pid != e.pid {
        BystanderKeeps(s.pc[u], Self(s, u), Seen(s), Seen(s'));
      }
    }
  }

  /** The state after a step, if it is possible. */
  function Attempt(s: State, e: Event): Option<State> { if Enabled(s, e) then Some(Step(s, e)) else None }

  /** `es` leads from `s` to `s'`. */
  ghost predicate Run(s: State, es: seq<Event>, s': State) { Leads(Attempt, s, es, s') }

  /** A step that is possible, and not an intrusion. */
  function Orderly(s: State, e: Event): Option<State> { if Intrudes(s, e) then None else Attempt(s, e) }

  /** A run without an intruding step. */
  ghost predicate OrderlyRun(s: State, es: seq<Event>, s': State) { Leads(Orderly, s, es, s') }

  lemma {:induction false} OrderlyIsRun(s: State, es: seq<Event>, s': State)
    requires OrderlyRun(s, es, s')
    ensures Run(s, es, s')
    decreases |es|
  {
    if es != [] { OrderlyIsRun(Step(s, es[0]), es[1..], s'); }
  }

  lemma StepSafe(s: State, e: Event)
    requires Safe(s) && Enabled(s, e) && !Intrudes(s, e)
    ensures Safe(Step(s, e)) && Step(s, e).who == s.who && (s.doomed ==> Step(s, e).doomed)
  {
    if e.Act? { ActSafe(s, e); } else { DieSafe(s, e); }
  }

  lemma RunKeeps(s: State, es: seq<Event>, s': State)
    requires Safe(s) && OrderlyRun(s, es, s')
    ensures Safe(s') && s'.who == s.who
    ensures s.doomed ==> s'.doomed
  {
    hide Step, Safe;
    forall x, e | Safe(x) && x.who == s.who && (s.doomed ==> x.doomed) && Enabled(x, e) && !Intrudes(x, e)
      ensures var x' := Step(x, e); Safe(x') && x'.who == s.who && (s.doomed ==> x'.doomed)
    {
      StepSafe(x, e);
    }
    Keeps(Orderly, x => Safe(x) && x.who == s.who && (s.doomed ==> x.doomed), s, es, s');
  }

  lemma InitialHolds(s: State)
    requires Initial(s)
    ensures Safe(s)
  {}

  lemma HeldHolds(s: State, t: Tid)
    requires Safe(s) && t in s.held
    ensures s.holder == By(t) && s.who[t].pid in s.alive && !s.doomed
  {
    assert Here(s.pc[t], Self(s, t), Seen(s));
  }

  /** At most one live thread has the mutex; the owner field of the word is the process of the thread, live or dead,
      whose lock it is; takeovers and deaths of holders pair off. */
  lemma Handover(s0: State, es: seq<Event>, s: State)
    requires Initial(s0) && OrderlyRun(s0, es, s)
    ensures forall t, u :: t in s.held && u in s.held ==> t == u
    ensures forall t :: t in s.held ==> s.holder == By(t) && t in s.who && s.who[t].pid in s.alive
                                            && s.w.lock.pid == s.who[t].pid
    ensures s.w.lock == ZERO <==> s.holder.Nobody?
    ensures s.holder.By? ==> s.holder.t in s.who && s.w.lock.pid == s.who[s.holder.t].pid
    ensures s.orphaned == s.taken + (if HolderDead(s) then 1 else 0)
  {
    InitialHolds(s0);
    RunKeeps(s0, es, s);
    forall t | t in s.held
      ensures s.holder == By(t) && s.who[t].pid in s.alive
    {
      HeldHolds(s, t);
    }
  }

  /** A thread that is not the holder takes the word when it is 0, or over from a dead process; else the most it does
      is to set the waiters flag. */
  lemma OnlyWaitersFlag(s0: State, es: seq<Event>, s: State, e: Event)
    requires Initial(s0) && OrderlyRun(s0, es, s) && Enabled(s, e) && !Intrudes(s, e) && e.Act? && s.holder != By(e.t)
    ensures var w, w', m := s.w.lock, Step(s, e).w.lock, MoveOf(s, e);
      if m.deed.Acquire? then w == ZERO && w'.pid == s.who[e.t].pid
      else if m.deed.Takeover? then w != ZERO && w.pid !in s.alive && w'.pid == s.who[e.t].pid && Step(s, e).torn
      else w' == w || w' == w.(waiters := true)
  {
    InitialHolds(s0);
    RunKeeps(s0, es, s);
    if !s.pc[e.t].Dead? { MoveFits(s.pc[e.t], Self(s, e.t), Seen(s), s.ty, e); }
  }

  /** The answers of the calls. Lock, timedlock and trylock return EOWNERDEAD exactly if the state is inconsistent, and 0
      otherwise. The holder's unlock is never refused; anybody else's is refused at the first test unless the owner id is
      the caller's, and then at the second unless that intrudes. The holder's consistent is refused when the state is
      consistent, or when the compare-and-swap fails: for no reason, or because a contender has set the waiters flag that
      the call did not see. An error-checking mutex refuses a relock to its holder, and to any thread that has seen its
      own id and now finds the holder in its own process. */
  lemma Verdicts(s0: State, es: seq<Event>, s: State, e: Event)
    requires Initial(s0) && OrderlyRun(s0, es, s) && Enabled(s, e) && e.Act?
    ensures var p, m := s.pc[e.t], MoveOf(s, e);
      && (m.deed.Grant? ==> m.p == Out(if s.torn then EOWNERDEAD else OK))
      && (p == Ru(RuTest) && e.t in s.held ==> m.p == Ru(RuPid))
      && (p == Ru(RuPid) && e.t in s.held ==> m.p == Ru(RuDec))
      && (p == Ru(RuDec) ==> m.p == Ru(RuSee))
      && (p == Ru(RuTest) && e.t !in s.held && !s.doomed ==>
            m.p == (if s.w.owner == s.who[e.t].id then Ru(RuPid) else Out(EPERM)))
      && (p == Ru(RuTest) && s.doomed ==> m.p == Out(OK))
      && (p == Ru(RuPid) && e.t !in s.held ==> m.p == (if Intrudes(s, e) then Ru(RuDec) else Out(EPERM)))
      && (p == Ru(RcLoad) ==> (m.p == Out(EINVAL) <==> !s.torn))
      && (p.Rk? && p.l.RkTest? && e.t in s.held ==> m.p == Rk(RkPid, p.k))
      && (p.Rk? && p.l.RkPid? && e.t in s.held ==> (m.p == Out(EDEADLK) <==> s.ty.ErrorCheck?))
      && (p.Rk? && p.l.RkPid? ==>
            (m.p == Out(EDEADLK) <==>
             s.ty.ErrorCheck? && s.holder.By? && s.holder.t in s.who && s.who[s.holder.t].pid == s.who[e.t].pid))
      && (p.Ru? && p.u.RcCas? ==>
            (m.deed.Mend? <==> s.w.lock == p.u.v && !e.fail) && (m.p == Out(EINVAL) <==> !m.deed.Mend?))
      && (p.Ru? && p.u.RcCas? && !e.fail ==> (m.p == Out(EINVAL) <==> s.w.lock.waiters && !p.u.v.waiters))
  {
    InitialHolds(s0);
    RunKeeps(s0, es, s);
    assert Here(s.pc[e.t], Self(s, e.t), Seen(s));
    Answers(s.pc[e.t], Self(s, e.t), Seen(s), s.ty, e);
  }

  lemma Answers(p: Pc, me: Me, v: View, ty: Type, e: Event)
    requires e.Act? && Here(p, me, v) && 0 < me.who.id < NOTRECOVERABLE_ID && (me.holds ==> v.w.lock.pid == me.who.pid)
    ensures var m := Next(p, v.w, ty, me.who, v.alive, e);
      && (m.deed.Grant? ==> m.p == Out(if v.torn then EOWNERDEAD else OK))
      && (p == Ru(RuTest) && me.has ==> m.p == Ru(RuPid))
      && (p == Ru(RuPid) ==> m.p == (if v.w.lock.pid == me.who.pid then Ru(RuDec) else Out(EPERM)))
      && (p == Ru(RuDec) ==> m.p == Ru(RuSee))
      && (p == Ru(RcLoad) ==> (m.p == Out(EINVAL) <==> !v.torn))
      && (p.Rk? && p.l.RkTest? && me.has ==> m.p == Rk(RkPid, p.k))
      && (p.Rk? && p.l.RkPid? && me.has ==> (m.p == Out(EDEADLK) <==> ty.ErrorCheck?))
      && (p.Rk? && p.l.RkPid? ==> (m.p == Out(EDEADLK) <==> ty.ErrorCheck? && v.w.lock.pid == me.who.pid))
      && (p.Ru? && p.u.RcCas? && !e.fail ==> (m.p == Out(EINVAL) <==> v.w.lock.waiters && !p.u.v.waiters))
  {}

  /** A thread that makes no step stays where it is, and gains and loses no lock, unless its process dies. */
  lemma {:induction false} Idles(s: State, es: seq<Event>, s': State, t: Tid)
    requires OrderlyRun(s, es, s') && t in s.pc && t in s'.pc && !s'.pc[t].Dead?
    requires forall e :: e in es && e.Act? ==> e.t != t
    ensures s'.pc[t] == s.pc[t] && (t in s'.held <==> t in s.held) && s'.ty == s.ty && s'.who == s.who
    decreases |es|
  {
    if es != [] {
      assert es[0] in es && forall e :: e in es[1..] ==> e in es;
      if s.pc[t].Dead? || (es[0].Die? && t in s.who && s.who[t].pid == es[0].pid) {
        StaysDead(Step(s, es[0]), es[1..], s', t);
      } else {
        Idles(Step(s, es[0]), es[1..], s', t);
      }
    }
  }

  lemma {:induction false} StaysDead(s: State, es: seq<Event>, s': State, t: Tid)
    requires OrderlyRun(s, es, s') && t in s.pc && s.pc[t].Dead?
    ensures t in s'.pc && s'.pc[t].Dead?
    decreases |es|
  {
    if es != [] { StaysDead(Step(s, es[0]), es[1..], s', t); }
  }

  /** A thread that does not hold the mutex compares the owner id with its own, and later, after any steps of others, the
      process id. It is told of a deadlock exactly if the mutex is error-checking, the first comparison found its id, and
      at the second the holder is another thread of its process. */
  lemma WrongDeadlock(s0: State, es: seq<Event>, s: State, t: Tid, k: Kind, e: Event, more: seq<Event>, s1: State,
                      e': Event)
    requires Initial(s0) && OrderlyRun(s0, es, s) && t in s.pc && s.pc[t] == Rk(RkTest, k) && t !in s.held
    requires e.Act? && e.t == t && Enabled(s, e) && OrderlyRun(Step(s, e), more, s1)
    requires t in s1.pc && !s1.pc[t].Dead? && forall x :: x in more && x.Act? ==> x.t != t
    requires e'.Act? && e'.t == t && Enabled(s1, e')
    ensures t in s.who && t in s1.who
    ensures Step(s1, e').pc[t] == Out(EDEADLK) <==>
      && s.w.owner == s.who[t].id && s.ty.ErrorCheck?
      && s1.holder.By? && s1.holder.t in s1.who && s1.who[s1.holder.t].pid == s1.who[t].pid && s1.holder.t != t
  {
    hide Next, Here, Seen;
    InitialHolds(s0);
    RunKeeps(s0, es, s);
    StepSafe(s, e);
    RunKeeps(Step(s, e), more, s1);
    Idles(Step(s, e), more, s1, t);
    TwoTests(k, s.who[t], s.w, s.alive, s1.w, s1.alive, s.ty, e, e');
    if s.w.owner == s.who[t].id { SecondTest(s1, t, k); }
  }

  /** The word has a thread's process exactly if the holder is one of that. */
  lemma SecondTest(s: State, t: Tid, k: Kind)
    requires Safe(s) && t in s.pc && s.pc[t] == Rk(RkPid, k) && t !in s.held
    ensures s.w.lock.pid == s.who[t].pid <==>
      s.holder.By? && s.holder.t in s.who && s.who[s.holder.t].pid == s.who[t].pid && s.holder.t != t
  {
    assert Here(s.pc[t], Self(s, t), Seen(s));
  }

  lemma TwoTests(k: Kind, who: Who, w: Words, alive: set<nat>, w': Words, alive': set<nat>, ty: Type, e: Event, e': Event)
    requires e.Act? && e'.Act? && 0 < who.id < NOTRECOVERABLE_ID
    ensures var m := Next(Rk(RkTest, k), w, ty, who, alive, e);
      && m.deed.Nothing? && (m.p == Rk(RkPid, k) <==> w.owner == who.id)
      && (Next(m.p, w', ty, who, alive', e').p == Out(EDEADLK) <==>
          w.owner == who.id && ty.ErrorCheck? && w'.lock.pid == who.pid)
  {}

  /** Without a step of another thread in between, it is told so exactly if it finds both ids its own; and that is so
      exactly while a thread of its process has taken over from a dead one with its id, and not yet stored its own. */
  lemma WrongDeadlockAtOnce(s0: State, es: seq<Event>, s: State, t: Tid, k: Kind, e: Event, e': Event)
    requires Initial(s0) && OrderlyRun(s0, es, s) && t in s.pc && s.pc[t] == Rk(RkTest, k)
    requires e.Act? && e'.Act? && e.t == t == e'.t && Enabled(s, e) && Enabled(Step(s, e), e')
    requires Step(s, e).pc[t] == Rk(RkPid, k) && t !in s.held
    ensures t in s.who && s.w.owner == s.who[t].id
    ensures Step(Step(s, e), e').pc[t] == Out(EDEADLK) <==> s.ty.ErrorCheck? && s.w.lock.pid == s.who[t].pid
    ensures s.w.lock.pid == s.who[t].pid <==>
      && s.holder.By? && s.holder.t != t && s.holder.t in s.pc && s.holder.t in s.who
      && s.who[s.holder.t].pid == s.who[t].pid
      && (s.pc[s.holder.t] == Rw(RwWon(true)) || s.pc[s.holder.t] == Rw(RwOwn(true)))
  {
    InitialHolds(s0);
    RunKeeps(s0, es, s);
    assert Here(s.pc[t], Self(s, t), Seen(s));
    if s.w.lock.pid == s.who[t].pid {
      var h := s.holder.t;
      assert Here(s.pc[h], Self(s, h), Seen(s)) && s.who[h] != s.who[t];
      StaleOwner(s.pc[h], Self(s, h), Seen(s), s.who[t].id);
    }
  }

  lemma StaleOwner(p: Pc, me: Me, v: View, id: nat)
    requires Here(p, me, v) && !p.Dead? && me.holds && v.w.owner == id && id != me.who.id && id != 0 && !v.doomed
    ensures p == Rw(RwWon(true)) || p == Rw(RwOwn(true))
  {}

  /** The same for unlock: called without holding a mutex that can be recovered, it is refused at the first comparison
      unless that finds the caller's id, and then at the second unless the holder is another thread of its process. */
  lemma WrongUnlock(s0: State, es: seq<Event>, s: State, t: Tid, e: Event, more: seq<Event>, s1: State, e': Event)
    requires Initial(s0) && OrderlyRun(s0, es, s) && t in s.pc && s.pc[t] == Ru(RuTest) && t !in s.held && !s.doomed
    requires e.Act? && e.t == t && Enabled(s, e) && OrderlyRun(Step(s, e), more, s1)
    requires t in s1.pc && !s1.pc[t].Dead? && forall x :: x in more && x.Act? ==> x.t != t
    requires e'.Act? && e'.t == t && Enabled(s1, e')
    ensures t in s.who && t in s1.who
    ensures Step(s, e).pc[t] == (if s.w.owner == s.who[t].id then Ru(RuPid) else Out(EPERM))
    ensures s.w.owner == s.who[t].id ==>
      && Step(s1, e').pc[t] == (if Intrudes(s1, e') then Ru(RuDec) else Out(EPERM))
      && (Intrudes(s1, e') <==>
          s1.holder.By? && s1.holder.t in s1.who && s1.who[s1.holder.t].pid == s1.who[t].pid && s1.holder.t != t)
  {
    hide Here, Seen;
    InitialHolds(s0);
    RunKeeps(s0, es, s);
    Verdicts(s0, es, s, e);
    StepSafe(s, e);
    RunKeeps(Step(s, e), more, s1);
    Idles(Step(s, e), more, s1, t);
    if s.w.owner == s.who[t].id { SecondUnlockTest(s1, t, e'); }
  }

  lemma SecondUnlockTest(s: State, t: Tid, e: Event)
    requires Safe(s) && t in s.pc && s.pc[t] == Ru(RuPid) && t !in s.held && e.Act? && e.t == t && Enabled(s, e)
    ensures s.w.lock.pid == s.who[t].pid <==>
      s.holder.By? && s.holder.t in s.who && s.who[s.holder.t].pid == s.who[t].pid && s.holder.t != t
    ensures Step(s, e).pc[t] == (if s.w.lock.pid == s.who[t].pid then Ru(RuDec) else Out(EPERM))
  {
    assert Here(s.pc[t], Self(s, t), Seen(s));
  }

  // Without namesakes.

  /** No two threads, of any processes, have the same id. */
  predicate NoNamesakes(who: map<Tid, Who>) {
    forall t, u :: t in who && u in who && who[t].id == who[u].id ==> t == u
  }

  /** A live thread that finds its own id has the word; one that has found it in unlock holds the mutex. */
  ghost predicate OwnId(s: State) {
    && (forall t :: t in s.pc && t in s.who && !s.pc[t].Dead? && s.w.owner == s.who[t].id ==> s.holder == By(t))
    && (forall t :: t in s.pc && s.pc[t] == Ru(RuPid) ==> t in s.held)
  }

  /** The owner id changes by the holder's storing its own, or clearing it. */
  lemma MoveOwnId(p: Pc, me: Me, v: View, ty: Type, e: Event)
    requires e.Act? && Local(me, v) && Here(p, me, v) && !p.Dead? && (p == Ru(RuPid) ==> me.has)
    requires v.w.owner == me.who.id ==> me.holds
    ensures var m := Next(p, v.w, ty, me.who, v.alive, e);
      && (m.w.owner == v.w.owner || m.w.owner == 0 || m.w.owner == NOTRECOVERABLE_ID || (m.w.owner == me.who.id && me.holds))
      && (m.deed.Release? ==> m.w.owner == 0 || m.w.owner == NOTRECOVERABLE_ID)
      && (m.deed.Acquire? ==> m.w.owner == 0 || m.w.owner == NOTRECOVERABLE_ID)
      && (m.p == Ru(RuPid) ==> me.has && !m.deed.Drop?)
      && (p == Ru(RuPid) ==> m.deed.Nothing?)
  {
    match p
    case Out(_) =>
    case Dead =>
    case Rk(_, _) =>
    case Rt(_) =>
    case Rw(_) =>
    case Ru(_) =>
  }

  lemma StepOwnId(s: State, e: Event)
    requires Safe(s) && OwnId(s) && NoNamesakes(s.who) && Enabled(s, e)
    ensures !Intrudes(s, e) && OwnId(Step(s, e))
  {
    var s' := Step(s, e);
    if e.Act? && !s.pc[e.t].Dead? {
      assert Here(s.pc[e.t], Self(s, e.t), Seen(s));
      MoveOwnId(s.pc[e.t], Self(s, e.t), Seen(s), s.ty, e);
      MoveFits(s.pc[e.t], Self(s, e.t), Seen(s), s.ty, e);
    }
  }

  /** If no two threads share an id, every run is without intrusion. */
  lemma {:induction false} NoIntrusion(s: State, es: seq<Event>, s': State)
    requires Safe(s) && OwnId(s) && NoNamesakes(s.who) && Run(s, es, s')
    ensures OrderlyRun(s, es, s')
    decreases |es|
  {
    if es != [] {
      StepOwnId(s, es[0]);
      StepSafe(s, es[0]);
      NoIntrusion(Step(s, es[0]), es[1..], s');
    }
  }

  /** So then all that holds without intrusion holds in every run. */
  lemma NoNamesakesNoIntrusion(s0: State, es: seq<Event>, s: State)
    requires Initial(s0) && NoNamesakes(s0.who) && Run(s0, es, s)
    ensures OrderlyRun(s0, es, s)
  {
    InitialHolds(s0);
    NoIntrusion(s0, es, s);
  }

  /** The owner id says that the mutex is past recovery exactly if it was unlocked in an inconsistent state. From then
      on no call of lock, timedlock or trylock returns 0 or EOWNERDEAD, in any continuation, not even those that were
      blocked in it at that moment. */
  lemma UnrecoverableForGood(s0: State, es: seq<Event>, s: State, more: seq<Event>, s': State, e: Event)
    requires Initial(s0) && OrderlyRun(s0, es, s) && s.doomed
    requires OrderlyRun(s, more, s') && Enabled(s', e) && e.Act?
    ensures s'.doomed && s'.w.owner == NOTRECOVERABLE_ID && s'.held == {}
    ensures !MoveOf(s', e).deed.Grant?
    ensures var p := s'.pc[e.t]; p.Rk? || p.Rt? || p.Rw? ==>
      Step(s', e).pc[e.t] != Out(OK) && Step(s', e).pc[e.t] != Out(EOWNERDEAD)
  {
    InitialHolds(s0);
    RunKeeps(s0, es, s);
    RunKeeps(s, more, s');
    if t :| t in s'.held { HeldHolds(s', t); }
    var p, me := s'.pc[e.t], Self(s', e.t);
    assert Here(p, me, Seen(s'));
    if !p.Dead? && !Intrudes(s', e) { MoveFits(p, me, Seen(s'), s'.ty, e); }
    GrantsAreReturns(p, me, Seen(s'), s'.ty, e);
  }

  /** The robust lock returns 0 or EOWNERDEAD only through a grant. */
  lemma GrantsAreReturns(p: Pc, me: Me, v: View, ty: Type, e: Event)
    requires e.Act?
    ensures var m := Next(p, v.w, ty, me.who, v.alive, e);
      (p.Rk? || p.Rt? || p.Rw?) && (m.p == Out(OK) || m.p == Out(EOWNERDEAD)) ==> m.deed.Grant?
  {
    match p
    case Out(_) =>
    case Dead =>
    case Rk(l, k) =>
    case Rt(r) =>
    case Rw(x) =>
    case Ru(u) =>
  }

  /** A mutex past recovery whose word a live thread has, beyond any release. */
  predicate Kept(s: State) {
    && s.doomed && s.holder.By? && s.holder.t in s.pc && !s.pc[s.holder.t].Dead?
    && !(s.pc[s.holder.t].Ru? && (s.pc[s.holder.t].u.RuLoad? || s.pc[s.holder.t].u.RuWake? || s.pc[s.holder.t].u.RuCas?))
  }

  /** In the second loop of `lll_robust_lock`. */
  predicate Blocked(p: Pc) {
    p.Rk? && p.k.Block? && (p.l.RkSecond? || p.l.RkGrabW? || p.l.RkProbe? || p.l.RkTake? || p.l.RkPause?)
  }

  lemma HolderKeepsWord(p: Pc, me: Me, v: View, ty: Type, e: Event)
    requires e.Act? && Local(me, v) && Here(p, me, v) && !p.Dead? && me.holds && v.doomed
    requires !(p.Ru? && (p.u.RuLoad? || p.u.RuWake? || p.u.RuCas?))
    requires p.Out? ==> !e.op.Consistent?
    ensures var m := Next(p, v.w, ty, me.who, v.alive, e);
      !m.deed.Release? && !m.p.Dead? && !(m.p.Ru? && (m.p.u.RuLoad? || m.p.u.RuWake? || m.p.u.RuCas?))
  {
    match p
    case Out(_) =>
    case Dead =>
    case Rk(l, k) =>
    case Rt(r) =>
    case Rw(x) =>
    case Ru(u) =>
  }

  lemma BlockedStays(p: Pc, me: Me, v: View, ty: Type, e: Event)
    requires e.Act? && Here(p, me, v) && Blocked(p) && v.w.lock != ZERO && v.w.lock.pid in v.alive
    ensures var m := Next(p, v.w, ty, me.who, v.alive, e); Blocked(m.p) && m.deed.Nothing? && m.w == v.w
  {}

  lemma KeptStep(s: State, e: Event, u: Tid)
    requires Safe(s) && Enabled(s, e) && !Intrudes(s, e) && Kept(s) && u in s.pc && Blocked(s.pc[u])
    requires e.Die? ==> e.pid != s.who[s.holder.t].pid && e.pid != s.who[u].pid
    ensures Kept(Step(s, e)) && Step(s, e).holder == s.holder && Blocked(Step(s, e).pc[u])
  {
    var h := s.holder.t;
    assert Here(s.pc[h], Self(s, h), Seen(s)) && Here(s.pc[u], Self(s, u), Seen(s));
    assert s.w.lock != ZERO && s.w.lock.pid in s.alive;
    if e.Act? && !s.pc[e.t].Dead? {
      assert Here(s.pc[e.t], Self(s, e.t), Seen(s));
      MoveFits(s.pc[e.t], Self(s, e.t), Seen(s), s.ty, e);
      if e.t == u { BlockedStays(s.pc[u], Self(s, u), Seen(s), s.ty, e); }
      if e.t == h { HolderKeepsWord(s.pc[h], Self(s, h), Seen(s), s.ty, e); }
    }
  }

  /** One of the threads blocked when the mutex becomes unrecoverable is told so, and keeps the word; as long as its
      process lives the others are never told: they wait on, whatever else happens. */
  lemma {:induction false} BlockedAreNotTold(s: State, es: seq<Event>, s': State, u: Tid)
    requires Safe(s) && Kept(s) && OrderlyRun(s, es, s') && u in s.pc && Blocked(s.pc[u])
    requires Die(s.who[s.holder.t].pid) !in es && Die(s.who[u].pid) !in es
    ensures Kept(s') && u in s'.pc && Blocked(s'.pc[u])
    decreases |es|
  {
    if es != [] {
      KeptStep(s, es[0], u);
      StepSafe(s, es[0]);
      BlockedAreNotTold(Step(s, es[0]), es[1..], s', u);
    }
  }
}
