/** What the calls of a robust mutex answer, and that they come to an answer (pthread/mutex.c, pthread/lowlevellock.c). */
module RobustAnswers {
  import opened Threads
  import opened Robust
  import opened RobustRuns
  import opened Runs

  /** What decides a call. Lock: the word was free and is taken, or taken over from a dead process; the mutex is past
      recovery; it is the caller's process's own; a trylock did not get it; a poll timed out. Unlock: the word was
      released, or the mutex is past recovery, or not the caller's. Consistent: the state was inconsistent and is mended,
      or was consistent, or the word has changed. */
  datatype Cause = Took | TookOver | Lost | Own | Refused | Late | Released | Past | NotOwner | Mended | Sound | Stale

  function Answer(c: Cause): Code {
    match c
    case Took | Released | Past | Mended => OK
    case TookOver => EOWNERDEAD
    case Lost => ENOTRECOVERABLE
    case Own => EDEADLK
    case Refused => EBUSY
    case Late => ETIMEDOUT
    case NotOwner => EPERM
    case Sound | Stale => EINVAL
  }

  /** The calls that a cause may decide. */
  predicate Apt(c: Cause, op: Op) {
    match c
    case Took | TookOver | Lost | Own => op.Lock?
    case Refused => op == Lock(Try)
    case Late => op == Lock(Timed)
    case Released | Past | NotOwner => op.Unlock?
    case Mended | Sound | Stale => op.Consistent?
  }

  /** What turns down call `op` of thread `me` at point `p`. */
  function Turned(p: Pc, op: Op, e: Event, me: Who, v: View, ty: Type): Option<Cause>
    requires e.Act?
  {
    match op
    case Lock(k) =>
      if p.Rk? && p.l.RkTest? && v.doomed then Some(Lost)
      else if p.Rk? && p.l.RkPid? && ty.ErrorCheck? && v.w.lock.pid == me.pid then Some(Own)
      else if p.Rk? && p.l.RkPause? && k.Timed? && e.late then Some(Late)
      else if p.Rt? && (p.r.RtGrab? || p.r.RtTake? || (p.r.RtProbe? && p.r.v.pid in v.alive)) then Some(Refused)
      else None
    case Unlock =>
      if p == Ru(RuTest) && v.doomed then Some(Past)
      else if p == Ru(RuTest) && v.w.owner != me.id then Some(NotOwner)
      else if p == Ru(RuPid) && v.w.lock.pid != me.pid then Some(NotOwner)
      else None
    case Consistent =>
      if p == Ru(RcLoad) && !v.torn then Some(Sound) else if p.Ru? && p.u.RcCas? then Some(Stale) else None
  }

  /** What a thread that comes to have the word has come by. */
  function Gained(s: State): Option<Cause> {
    if s.doomed then Some(Lost)
    else if s.holder.Nobody? then Some(Took)
    else if HolderDead(s) then Some(TookOver)
    else None
  }

  /** What a step decides of call `op` of thread `t`. */
  function CauseOf(s: State, e: Event, t: Tid, op: Op): Option<Cause> {
    if !Enabled(s, e) || !e.Act? || e.t != t then None
    else
      var s' := Step(s, e);
      if s.holder != By(t) && s'.holder == By(t) then Gained(s)
      else if s.holder == By(t) && s'.holder.Nobody? then Some(Released)
      else if s.torn && !s'.torn then Some(Mended)
      else Turned(s.pc[t], op, e, s.who[t], Seen(s), s.ty)
  }

  /** The machine, without intruding unlocks, while thread `t` is in a call. */
  function Within(t: Tid): (State, Event) -> Option<State> {
    (s: State, e: Event) => if e.Act? && e.t == t && t in s.pc && s.pc[t].Out? then None else Orderly(s, e)
  }

  /** What decides the call that thread `e.t` begins with `e`, in the run `es` that follows. */
  function Decided(s: State, e: Event, es: seq<Event>): seq<Cause>
    requires e.Act?
  {
    if Enabled(s, e) then Collect(Within(e.t), (x, f) => CauseOf(x, f, e.t, e.op), Step(s, e), es) else []
  }

  /** Where call `op` may be, and whether its caller has the mutex there, if it did (`was`) when it began. */
  predicate Serves(p: Pc, op: Op, me: Me, was: Me) {
    match p
    case Out(_) => true
    case Dead => true
    case Rk(_, k) => op == Lock(k) && (me.has <==> was.has)
    case Rt(_) => op == Lock(Try) && (me.has <==> was.has)
    case Rw(_) => op.Lock? && (me.has <==> was.has)
    case Ru(u) =>
      if u.RcLoad? || u.RcCas? || u.RcOwn? || u.RcOne? then op.Consistent?
      else op.Unlock? && (u.RuTest? || u.RuPid? ==> (me.has <==> was.has))
  }

  /** What must have been decided of call `op` at point `p`. */
  predicate Told(p: Pc, op: Op, v: View, ns: seq<Cause>) {
    match p
    case Out(last) => |ns| == 1 && last == Answer(ns[0]) && Apt(ns[0], op)
    case Dead => true
    case Rk(_, _) => ns == []
    case Rt(_) => ns == []
    case Rw(x) =>
      if x.RwWon? && v.doomed then ns == [Lost]
      else if x.RwSee? || x.RwFlag? || x.dead then ns == [TookOver] else ns == [Took]
    case Ru(u) => ns == if u.RcOwn? || u.RcOne? then [Mended] else []
  }

  /** Whether the caller has the mutex when a call is back. */
  predicate Having(me: Me, was: Me, ns: seq<Cause>) {
    me.has <==> ns == [Took] || ns == [TookOver] || (was.has && ns != [Released])
  }

  ghost predicate Fits(s: State, t: Tid, op: Op, was: Me, ns: seq<Cause>) {
    && t in s.pc && t in s.who
    && Told(s.pc[t], op, Seen(s), ns) && Serves(s.pc[t], op, Self(s, t), was)
    && (s.pc[t].Out? ==> Having(Self(s, t), was, ns)) && (op.Consistent? ==> was.has)
  }

  /** The scalar form of what a step of the caller decides. */
  function Note(p: Pc, op: Op, e: Event, me: Me, v: View, ty: Type, d: Deed): Option<Cause>
    requires e.Act?
  {
    if (d.Acquire? || d.Takeover?) && v.doomed then Some(Lost)
    else if d.Acquire? then Some(Took)
    else if d.Takeover? then Some(TookOver)
    else if d.Release? then Some(Released)
    else if d.Mend? then Some(Mended)
    else Turned(p, op, e, me.who, v, ty)
  }

  predicate Tells(op: Op, me: Me, v: View, was: Me, m: Move, ns: seq<Cause>) {
    && Told(m.p, op, ViewAfter(v, m), ns) && Serves(m.p, op, After(me, m.deed), was)
    && (m.p.Out? ==> Having(After(me, m.deed), was, ns)) && (m.deed.Mend? ==> v.torn)
  }

  lemma LockTells(p: Pc, op: Op, e: Event, me: Me, v: View, ty: Type, was: Me, ns: seq<Cause>)
    requires e.Act? && p.Rk? && Local(me, v) && Here(p, me, v) && Serves(p, op, me, was) && Told(p, op, v, ns)
    ensures var m := LockMove(p.l, p.k, v.w, ty, me.who, v.alive, e);
      Tells(op, me, v, was, m, ns + One(Note(p, op, e, me, v, ty, m.deed)))
  {}

  lemma TryTells(p: Pc, op: Op, e: Event, me: Me, v: View, ty: Type, was: Me, ns: seq<Cause>)
    requires e.Act? && p.Rt? && Local(me, v) && Here(p, me, v) && Serves(p, op, me, was) && Told(p, op, v, ns)
    ensures var m := TryMove(p.r, v.w, me.who, v.alive, e);
      Tells(op, me, v, was, m, ns + One(Note(p, op, e, me, v, ty, m.deed)))
  {}

  lemma WonTells(p: Pc, op: Op, e: Event, me: Me, v: View, ty: Type, was: Me, ns: seq<Cause>)
    requires e.Act? && p.Rw? && Local(me, v) && Here(p, me, v) && Serves(p, op, me, was) && Told(p, op, v, ns)
    ensures var m := WonMove(p.x, v.w, me.who);
      Tells(op, me, v, was, m, ns + One(Note(p, op, e, me, v, ty, m.deed)))
  {}

  lemma UnlockTells(p: Pc, op: Op, e: Event, me: Me, v: View, ty: Type, was: Me, ns: seq<Cause>)
    requires e.Act? && p.Ru? && Local(me, v) && Here(p, me, v) && Serves(p, op, me, was) && Told(p, op, v, ns)
    requires p == Ru(RuPid) ==> me.has || v.w.lock.pid != me.who.pid
    requires op.Consistent? ==> was.has
    ensures var m := UnlockMove(p.u, v.w, me.who, e);
      Tells(op, me, v, was, m, ns + One(Note(p, op, e, me, v, ty, m.deed)))
  {}

  lemma MoveTells(p: Pc, op: Op, e: Event, me: Me, v: View, ty: Type, was: Me, ns: seq<Cause>)
    requires e.Act? && !p.Out? && !p.Dead?
    requires Local(me, v) && Here(p, me, v) && Serves(p, op, me, was) && Told(p, op, v, ns)
    requires p == Ru(RuPid) ==> me.has || v.w.lock.pid != me.who.pid
    requires op.Consistent? ==> was.has
    ensures var m := Next(p, v.w, ty, me.who, v.alive, e);
      Tells(op, me, v, was, m, ns + One(Note(p, op, e, me, v, ty, m.deed)))
  {
    hide Local, Here, Serves, Told, Tells, Note;
    match p
    case Out(_) =>
    case Dead =>
    case Rk(_, _) => LockTells(p, op, e, me, v, ty, was, ns);
    case Rt(_) => TryTells(p, op, e, me, v, ty, was, ns);
    case Rw(_) => WonTells(p, op, e, me, v, ty, was, ns);
    case Ru(_) => UnlockTells(p, op, e, me, v, ty, was, ns);
  }

  lemma Lives(s: State, t: Tid)
    requires Safe(s) && t in s.pc && !s.pc[t].Dead?
    ensures t in s.who && Local(Self(s, t), Seen(s)) && Here(s.pc[t], Self(s, t), Seen(s))
    ensures s.w.lock == ZERO <==> s.holder.Nobody?
    ensures s.w.lock != ZERO && s.w.lock.pid !in s.alive ==> s.holder != By(t) && HolderDead(s)
  {}

  /** A step shows in who has the word, and in the state's being consistent. */
  lemma CauseIsNote(s: State, e: Event, op: Op)
    requires e.Act? && Enabled(s, e) && (MoveOf(s, e).deed.Mend? ==> s.torn)
    requires s.w.lock == ZERO <==> s.holder.Nobody?
    requires s.w.lock != ZERO && s.w.lock.pid !in s.alive ==> s.holder != By(e.t) && HolderDead(s)
    requires var d := MoveOf(s, e).deed;
      && (d.Acquire? ==> s.w.lock == ZERO) && (d.Takeover? ==> s.w.lock != ZERO && s.w.lock.pid !in s.alive)
      && (d.Release? ==> s.holder == By(e.t))
    ensures CauseOf(s, e, e.t, op) == Note(s.pc[e.t], op, e, Self(s, e.t), Seen(s), s.ty, MoveOf(s, e).deed)
  {
    hide Turned, Next;
  }

  lemma OwnStepFits(s: State, e: Event, op: Op, was: Me, ns: seq<Cause>)
    requires Safe(s) && e.Act? && Enabled(s, e) && !Intrudes(s, e) && Fits(s, e.t, op, was, ns) && !s.pc[e.t].Out?
    ensures Fits(Step(s, e), e.t, op, was, ns + One(CauseOf(s, e, e.t, op)))
  {
    var t := e.t;
    if !s.pc[t].Dead? {
      hide Safe, Local, Here, Told, Serves, Having, Note, CauseOf, Next;
      var me, v, m := Self(s, t), Seen(s), MoveOf(s, e);
      Lives(s, t);
      MoveTells(s.pc[t], op, e, me, v, s.ty, was, ns);
      MoveFits(s.pc[t], me, v, s.ty, e);
      CauseIsNote(s, e, op);
      assert Self(Step(s, e), t) == After(me, m.deed);
      assert Seen(Step(s, e)) == ViewAfter(v, m);
    }
  }

  /** While a thread has the word, no other dooms the mutex. */
  lemma OthersDoom(s: State, e: Event, t: Tid)
    requires Safe(s) && e.Act? && Enabled(s, e) && !Intrudes(s, e) && e.t != t && s.holder == By(t)
    ensures Step(s, e).doomed == s.doomed
  {
    hide Next;
    if !s.pc[e.t].Dead? {
      Lives(s, e.t);
      MoveFits(s.pc[e.t], Self(s, e.t), Seen(s), s.ty, e);
    } else {
      assert MoveOf(s, e).deed.Nothing? by { DeadMoves(s, e); }
    }
  }

  lemma DeadMoves(s: State, e: Event)
    requires e.Act? && e.t in s.pc && e.t in s.who && s.pc[e.t].Dead?
    ensures MoveOf(s, e) == Move(Dead, s.w, Nothing)
  {}

  lemma WonHolds(s: State, t: Tid)
    requires Safe(s) && t in s.pc && s.pc[t].Rw?
    ensures s.holder == By(t)
  {
    assert Here(s.pc[t], Self(s, t), Seen(s));
  }

  lemma OthersStepFits(s: State, e: Event, t: Tid, op: Op, was: Me, ns: seq<Cause>)
    requires Safe(s) && Enabled(s, e) && !Intrudes(s, e) && (e.Act? ==> e.t != t) && Fits(s, t, op, was, ns)
    ensures Fits(Step(s, e), t, op, was, ns)
  {
    hide Next, Safe, Intrudes;
    if e.Act? && s.pc[t].Rw? {
      WonHolds(s, t);
      OthersDoom(s, e, t);
    }
  }

  lemma WithinFits(s: State, e: Event, t: Tid, op: Op, was: Me, ns: seq<Cause>)
    requires Safe(s) && Fits(s, t, op, was, ns) && Within(t)(s, e).Some?
    ensures var s' := Within(t)(s, e).value; Safe(s') && Fits(s', t, op, was, ns + One(CauseOf(s, e, t, op)))
  {
    hide Safe, Told, Serves, Having, Next, Intrudes, Turned;
    StepSafe(s, e);
    if e.Act? && e.t == t {
      OwnStepFits(s, e, op, was, ns);
    } else {
      OthersStepFits(s, e, t, op, was, ns);
      assert ns + [] == ns;
    }
  }

  lemma CallFits(s: State, t: Tid, op: Op, was: Me, es: seq<Event>, s': State)
    requires Safe(s) && Fits(s, t, op, was, []) && Leads(Within(t), s, es, s')
    ensures Fits(s', t, op, was, Collect(Within(t), (x, f) => CauseOf(x, f, t, op), s, es))
  {
    hide *;
    forall x, f, g | (Safe(x) && Fits(x, t, op, was, g)) && Within(t)(x, f).Some?
      ensures var x' := Within(t)(x, f).value; Safe(x') && Fits(x', t, op, was, g + One(CauseOf(x, f, t, op)))
    {
      WithinFits(x, f, t, op, was, g);
    }
    Gathers(Within(t), (x, f) => CauseOf(x, f, t, op), (x, g) => Safe(x) && Fits(x, t, op, was, g), s, es, s', []);
    var ns := Collect(Within(t), (x, f) => CauseOf(x, f, t, op), s, es);
    assert [] + ns == ns;
  }

  lemma BeginFits(s: State, e: Event)
    requires e.Act? && Enabled(s, e) && s.pc[e.t].Out?
    ensures Fits(Step(s, e), e.t, e.op, Self(s, e.t), [])
  {}

  /** A call that is back was decided by one event, and answers accordingly. A lock of any kind answers OK if and only if
      it took the word when nobody had it, and EOWNERDEAD if and only if it took it over from a dead process; in those
      cases, and no others, it gives the caller the mutex. */
  lemma Answered(s0: State, es: seq<Event>, s: State, e: Event, more: seq<Event>, s': State)
    requires Initial(s0) && OrderlyRun(s0, es, s) && e.Act? && Enabled(s, e) && s.pc[e.t].Out?
    requires Leads(Within(e.t), Step(s, e), more, s') && e.t in s'.pc && s'.pc[e.t].Out?
    ensures var ns := Decided(s, e, more);
      && |ns| == 1 && s'.pc[e.t].last == Answer(ns[0]) && Apt(ns[0], e.op)
      && e.t in s'.who && Having(Self(s', e.t), Self(s, e.t), ns)
  {
    hide Safe, CauseOf, Next, Serves;
    InitialHolds(s0);
    RunKeeps(s0, es, s);
    StepSafe(s, e);
    BeginFits(s, e);
    CallFits(Step(s, e), e.t, e.op, Self(s, e.t), more, s');
  }
}
