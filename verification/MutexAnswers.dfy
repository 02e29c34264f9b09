/** What the calls of a recursive or error-checking mutex answer, and that they come to an answer (pthread/mutex.c). */
module MutexAnswers {
  import opened Threads
  import opened Mutex
  import opened MutexRuns
  import opened Runs

  /** What decides a call: what it does to the abstract mutex, or what it finds it to be. */
  datatype Cause =
    | Acquired
    | Deepened
    | Surfaced
    | Released
    | Given
    | Own
    | TooDeep
    | Refused
    | Malformed
    | Late
    | NotOwner
    | Nowhere
    | ToSelf

  function Answer(c: Cause): Code {
    match c
    case Acquired | Deepened | Surfaced | Released | Given | ToSelf => OK
    case Own => EDEADLK
    case TooDeep => EAGAIN
    case Refused => EBUSY
    case Malformed => EINVAL
    case Late => ETIMEDOUT
    case NotOwner => EPERM
    case Nowhere => ESRCH
  }

  /** The calls that a cause may decide. */
  predicate Apt(c: Cause, op: Op, t: Tid) {
    match c
    case Acquired | Deepened | Own | TooDeep => op.Lock?
    case Refused => op == Lock(Try)
    case Malformed => op == Lock(Timed(false))
    case Late => op.Lock? && op.k.Timed?
    case Surfaced | Released => op.Unlock?
    case NotOwner => op.Unlock? || op.Transfer?
    case Given => op.Transfer? && op.to != 0 && op.to != t
    case Nowhere => op == Transfer(0)
    case ToSelf => op == Transfer(t)
  }

  predicate Mine(a: Abs, t: Tid) { a.Owned? && a.t == t }

  /** What thread `t` did to the abstract mutex in call `op`. */
  function Done(a: Abs, a': Abs, t: Tid, op: Op): Option<Cause> {
    if a.Free? && a' == Owned(t, 1) then Some(Acquired)
    else if !Mine(a, t) then None
    else if a'.Free? && a.depth == 1 then Some(Released)
    else if a' == Owned(t, a.depth + 1) then Some(Deepened)
    else if a.depth > 1 && a' == Owned(t, a.depth - 1) then Some(Surfaced)
    else if op.Transfer? && op.to != t && a' == Owned(op.to, a.depth) then Some(Given)
    else None
  }

  /** What turns down call `op` of thread `t` at point `p`, when the abstract mutex is `a`. */
  function Turned(p: Pc, op: Op, t: Tid, e: Event, a: Abs, ty: Type): Option<Cause> {
    match op
    case Lock(k) => if p.Lk? then TurnedLock(p.l, k, t, e, a, ty) else None
    case Unlock => if p == Un(UnTest) && !Mine(a, t) then Some(NotOwner) else None
    case Transfer(to) =>
      if p.Out? then (if to == 0 then Some(Nowhere) else if to == t then Some(ToSelf) else None)
      else if p.Un? && p.u.TxTest? && !Mine(a, t) then Some(NotOwner)
      else None
  }

  function TurnedLock(l: LkPc, k: Kind, t: Tid, e: Event, a: Abs, ty: Type): Option<Cause> {
    if l.LkTest? && Mine(a, t) && ty.ErrorCheck? then Some(Own)
    else if l.LkCount? && a == Owned(t, LIMB - 1) then Some(TooDeep)
    else if k.Try? && ((l.LkPeek? && a.Owned?) || l.LkCas?) then Some(Refused)
    else if l.LkSwap? && a.Owned? && k == Timed(false) then Some(Malformed)
    else if l.LkWait? && k.Timed? && e.late then Some(Late)
    else None
  }

  /** What a step decides of call `op` of thread `t`. */
  function CauseOf(s: State, e: Event, t: Tid, op: Op): Option<Cause> {
    if !Enabled(s, e) || e.t != t then None else Decides(s.pc[t], op, t, e, s.abs, Step(s, e).abs, s.ty)
  }

  function Decides(p: Pc, op: Op, t: Tid, e: Event, a: Abs, a': Abs, ty: Type): Option<Cause> {
    if a' != a then Done(a, a', t, op) else Turned(p, op, t, e, a, ty)
  }

  /** The machine while thread `t` is in a call. */
  function Within(t: Tid): (State, Event) -> Option<State> {
    (s: State, e: Event) => if e.t == t && t in s.pc && s.pc[t].Out? then None else Attempt(s, e)
  }

  /** What decides the call that thread `e.t` begins with `e`, at once or in the run `es` that follows. */
  function Decided(s: State, e: Event, es: seq<Event>): seq<Cause> {
    if !Enabled(s, e) then []
    else One(CauseOf(s, e, e.t, e.op)) + Collect(Within(e.t), (x, f) => CauseOf(x, f, e.t, e.op), Step(s, e), es)
  }

  /** Where call `op` of thread `t` may be. */
  predicate Serves(p: Pc, op: Op, t: Tid) {
    match p
    case Out(_) => true
    case Lk(_, k) => op == Lock(k)
    case Un(u) => if u.TxTest? || u.TxOwn? then op == Transfer(u.to) && u.to != 0 && u.to != t else op.Unlock?
  }

  predicate Settled(c: Code, op: Op, t: Tid, ns: seq<Cause>) { |ns| == 1 && c == Answer(ns[0]) && Apt(ns[0], op, t) }

  /** What must have been decided of call `op` at point `p`; a lock that was granted is the caller's. */
  predicate Told(p: Pc, op: Op, t: Tid, a: Abs, ns: seq<Cause>) {
    match p
    case Out(last) =>
      && Settled(last, op, t, ns)
      && (ns == [Acquired] ==> a == Owned(t, 1))
      && (ns == [Deepened] ==> Mine(a, t) && a.depth > 1)
    case Lk(l, _) => ns == if l.LkOwn? || l.LkOne? then [Acquired] else []
    case Un(u) => ns == if u.UnWake? then [Released] else []
  }

  ghost predicate Fits(s: State, t: Tid, op: Op, ns: seq<Cause>) {
    t in s.pc && Serves(s.pc[t], op, t) && Told(s.pc[t], op, t, s.abs, ns)
  }

  /** What a step of thread `t` at `p` may rely on. */
  predicate Local(p: Pc, w: Words, ty: Type, t: Tid, a: Abs) {
    && t > 0 && (w.lock == 0 <==> a.Free?)
    && if Mine(a, t) then Agrees(p, w, ty, t, a.depth) else !OwnersOnly(p) && w.owner != t
  }

  lemma Localised(s: State, t: Tid)
    requires Safe(s) && t in s.pc
    ensures Local(s.pc[t], s.w, s.ty, t, s.abs)
  {}

  lemma LockTells(p: Pc, w: Words, ty: Type, e: Event, a: Abs, op: Op, ns: seq<Cause>)
    requires p.Lk? && Local(p, w, ty, e.t, a) && Serves(p, op, e.t) && Told(p, op, e.t, a, ns)
    ensures var m := LockMove(p.l, p.k, w, ty, e); var a' := Do(a, m.deed, e.t);
      Serves(m.p, op, e.t) && Told(m.p, op, e.t, a', ns + One(Decides(p, op, e.t, e, a, a', ty)))
  {}

  lemma UnlockTells(p: Pc, w: Words, ty: Type, e: Event, a: Abs, op: Op, ns: seq<Cause>)
    requires p.Un? && Local(p, w, ty, e.t, a) && Serves(p, op, e.t) && Told(p, op, e.t, a, ns)
    ensures var m := UnlockMove(p.u, w, ty, e); var a' := Do(a, m.deed, e.t);
      Serves(m.p, op, e.t) && Told(m.p, op, e.t, a', ns + One(Decides(p, op, e.t, e, a, a', ty)))
  {}

  lemma OwnStepFits(s: State, e: Event, op: Op, ns: seq<Cause>)
    requires Safe(s) && Enabled(s, e) && Fits(s, e.t, op, ns) && !s.pc[e.t].Out?
    ensures Fits(Step(s, e), e.t, op, ns + One(CauseOf(s, e, e.t, op)))
  {
    hide Serves, Told, Decides, Local, Safe;
    var p := s.pc[e.t];
    Localised(s, e.t);
    match p
    case Out(_) =>
    case Lk(_, _) => LockTells(p, s.w, s.ty, e, s.abs, op, ns);
    case Un(_) => UnlockTells(p, s.w, s.ty, e, s.abs, op, ns);
  }

  /** Others leave a mutex that the caller owns alone. */
  lemma OthersStepFits(s: State, e: Event, t: Tid, op: Op, ns: seq<Cause>)
    requires Safe(s) && Enabled(s, e) && e.t != t && Fits(s, t, op, ns)
    ensures Fits(Step(s, e), t, op, ns)
  {
    hide Safe, Next;
    StepSafe(s, e);
    assert Mine(s.abs, t) ==> Step(s, e).abs == s.abs;
  }

  lemma WithinFits(s: State, e: Event, t: Tid, op: Op, ns: seq<Cause>)
    requires Safe(s) && Fits(s, t, op, ns) && Within(t)(s, e).Some?
    ensures var s' := Within(t)(s, e).value; Safe(s') && Fits(s', t, op, ns + One(CauseOf(s, e, t, op)))
  {
    hide Safe, Told, Serves, Decides, Next;
    StepSafe(s, e);
    if e.t == t {
      OwnStepFits(s, e, op, ns);
    } else {
      OthersStepFits(s, e, t, op, ns);
      assert ns + [] == ns;
    }
  }

  lemma CallFits(s: State, t: Tid, op: Op, es: seq<Event>, s': State, ns: seq<Cause>)
    requires Safe(s) && Fits(s, t, op, ns) && Leads(Within(t), s, es, s')
    ensures Fits(s', t, op, ns + Collect(Within(t), (x, f) => CauseOf(x, f, t, op), s, es))
  {
    hide *;
    forall x, f, g | (Safe(x) && Fits(x, t, op, g)) && Within(t)(x, f).Some?
      ensures var x' := Within(t)(x, f).value; Safe(x') && Fits(x', t, op, g + One(CauseOf(x, f, t, op)))
    {
      WithinFits(x, f, t, op, g);
    }
    Gathers(Within(t), (x, f) => CauseOf(x, f, t, op), (x, g) => Safe(x) && Fits(x, t, op, g), s, es, s', ns);
  }

  lemma InitialHolds(s: State)
    requires Initial(s)
    ensures Safe(s)
  {}

  lemma BeginFits(s: State, e: Event)
    requires Enabled(s, e) && s.pc[e.t].Out?
    ensures Fits(Step(s, e), e.t, e.op, One(CauseOf(s, e, e.t, e.op)))
  {}

  /** A call that is back was decided by one event, and answers accordingly. A lock, timedlock or trylock answers OK if and
      only if it took a free mutex, which is then the caller's with depth 1, or made the caller's deeper by one. */
  lemma Answered(s0: State, es: seq<Event>, s: State, e: Event, more: seq<Event>, s': State)
    requires Initial(s0) && Run(s0, es, s) && Enabled(s, e) && s.pc[e.t].Out?
    requires Leads(Within(e.t), Step(s, e), more, s') && e.t in s'.pc && s'.pc[e.t].Out?
    ensures var ns := Decided(s, e, more);
      && |ns| == 1 && s'.pc[e.t].last == Answer(ns[0]) && Apt(ns[0], e.op, e.t)
      && (ns == [Acquired] ==> s'.abs == Owned(e.t, 1))
      && (ns == [Deepened] ==> Mine(s'.abs, e.t) && s'.abs.depth > 1)
  {
    hide Safe, CauseOf, Next;
    InitialHolds(s0);
    RunKeeps(s0, es, s);
    StepSafe(s, e);
    BeginFits(s, e);
    CallFits(Step(s, e), e.t, e.op, more, s', One(CauseOf(s, e, e.t, e.op)));
  }

  /** An unlock that releases the word goes on to a wake exactly if the word says that others may sleep on it. */
  lemma ReleaseWakes(s0: State, es: seq<Event>, s: State, e: Event)
    requires Initial(s0) && Run(s0, es, s) && Enabled(s, e) && s.abs.Owned? && Step(s, e).abs.Free?
    ensures Step(s, e).w.lock == 0 && (Step(s, e).pc[e.t] == Un(UnWake) <==> s.w.lock == 2)
  {
    InitialHolds(s0);
    RunKeeps(s0, es, s);
    StepSafe(s, e);
    Localised(s, e.t);
    MoveReleases(s.pc[e.t], s.w, s.ty, e, s.abs);
  }

  lemma MoveReleases(p: Pc, w: Words, ty: Type, e: Event, a: Abs)
    requires Local(p, w, ty, e.t, a) && a.Owned? && Do(a, Next(p, w, ty, e).deed, e.t).Free?
    ensures var m := Next(p, w, ty, e); m.w.lock == 0 && m.p == if w.lock == 1 then Out(OK) else Un(UnWake)
  {
    match p
    case Out(_) =>
    case Lk(_, _) =>
    case Un(_) =>
  }

  // Progress: what a thread comes to when it moves alone, no compare-and-swap fails for no reason and no deadline passes.

  /** An upper bound on the steps that a thread at `p` makes alone before it is outside, or waits for another to unlock. */
  function Rank(p: Pc, w: Words): nat {
    match p
    case Out(_) => 0
    case Lk(l, _) => RankLock(l, w)
    case Un(u) => RankUnlock(u)
  }

  function RankLock(l: LkPc, w: Words): nat {
    match l
    case LkTest => 9
    case LkCount => 2
    case LkBump => 1
    case LkPeek => 8
    case LkCas => 7
    case LkSwap => 5
    case LkWait => if w.lock == 0 then 6 else 0
    case LkOwn => 2
    case LkOne => 1
  }

  function RankUnlock(u: UnPc): nat {
    match u
    case UnTest => 5
    case UnDec => 4
    case UnClear => 3
    case UnSwap => 2
    case UnWake => 1
    case TxTest(_) => 2
    case TxOwn(_) => 1
  }

  function Alone(t: Tid): Event { Event(t, Unlock, false, false) }

  ghost predicate Steady(e: Event, t: Tid) { e.t == t && !e.fail && !e.late }

  /** Outside, or waiting on a lock word that is not free. */
  predicate Rests(s: State, t: Tid) {
    t in s.pc && (s.pc[t].Out? || (s.pc[t].Lk? && s.pc[t].l.LkWait? && s.w.lock != 0))
  }

  function RankOf(s: State, t: Tid): nat { if t in s.pc then Rank(s.pc[t], s.w) else 0 }

  lemma RankBound(s: State, t: Tid)
    ensures RankOf(s, t) <= 9
  {}

  lemma MoveWinds(p: Pc, w: Words, ty: Type, e: Event)
    requires !p.Out? && !(p.Lk? && p.l.LkWait? && w.lock != 0) && !e.fail && !e.late
    ensures Rank(Next(p, w, ty, e).p, Next(p, w, ty, e).w) < Rank(p, w)
  {
    match p
    case Out(_) =>
    case Lk(_, _) =>
    case Un(_) =>
  }

  lemma AloneWinds(s: State, t: Tid)
    requires t in s.pc && !Rests(s, t)
    ensures Steady(Alone(t), t) && Within(t)(s, Alone(t)).Some?
    ensures var s' := Within(t)(s, Alone(t)).value; t in s'.pc && RankOf(s', t) < RankOf(s, t)
  {
    hide Rank, Next;
    MoveWinds(s.pc[t], s.w, s.ty, Alone(t));
  }

  /** No call spins: a thread that moves alone is outside, or waits on a lock word that is not free, after at most 9
      steps. */
  lemma NeverSpins(s: State, t: Tid) returns (es: seq<Event>, s': State)
    requires t in s.pc
    ensures Leads(Within(t), s, es, s') && Rests(s', t) && |es| <= 9 && forall e :: e in es ==> Steady(e, t)
  {
    RankBound(s, t);
    hide *;
    forall x: State | t in x.pc && !Rests(x, t)
      ensures Steady(Alone(t), t) && Within(t)(x, Alone(t)).Some?
      ensures var x' := Within(t)(x, Alone(t)).value; t in x'.pc && RankOf(x', t) < RankOf(x, t)
    {
      AloneWinds(x, t);
    }
    es, s' := Winds(Within(t), _ => Alone(t), e => Steady(e, t), (x: State) => t in x.pc, x => Rests(x, t),
                    x => RankOf(x, t), s);
  }

  /** Nothing stands in the way of call `op` of thread `t`. */
  predicate Clear(a: Abs, ty: Type, op: Op, t: Tid) {
    match op
    case Lock(_) => a.Free? || (Mine(a, t) && ty.Recursive? && a.depth + 1 < LIMB)
    case Unlock => Mine(a, t)
    case Transfer(to) => to == t || (to != 0 && Mine(a, t))
  }

  /** On the way to the answer OK. */
  predicate Succeeding(p: Pc, w: Words, ty: Type, t: Tid) {
    match p
    case Out(last) => last == OK
    case Lk(l, _) =>
      if l.LkTest? then (if w.owner == t then ty.Recursive? && w.cnt + 1 < LIMB else w.lock == 0)
      else if l.LkCount? then w.cnt + 1 < LIMB
      else l.LkBump? || l.LkOwn? || l.LkOne? || w.lock == 0
    case Un(u) => u.UnTest? || u.TxTest? ==> w.owner == t
  }

  predicate SucceedingIn(s: State, t: Tid) { t in s.pc && Succeeding(s.pc[t], s.w, s.ty, t) }

  predicate DoneIn(s: State, t: Tid) { t in s.pc && s.pc[t].Out? }

  lemma MoveSucceeds(p: Pc, w: Words, ty: Type, e: Event)
    requires !p.Out? && Succeeding(p, w, ty, e.t) && !e.fail && !e.late
    ensures Succeeding(Next(p, w, ty, e).p, Next(p, w, ty, e).w, ty, e.t)
    ensures Rank(Next(p, w, ty, e).p, Next(p, w, ty, e).w) < Rank(p, w)
  {}

  lemma AloneSucceeds(s: State, t: Tid)
    requires SucceedingIn(s, t) && !DoneIn(s, t)
    ensures Steady(Alone(t), t) && Within(t)(s, Alone(t)).Some?
    ensures var s' := Within(t)(s, Alone(t)).value; SucceedingIn(s', t) && RankOf(s', t) < RankOf(s, t)
  {
    hide Rank, Next;
    MoveSucceeds(s.pc[t], s.w, s.ty, Alone(t));
  }

  lemma GoesOnToSucceed(s: State, t: Tid) returns (es: seq<Event>, s': State)
    requires SucceedingIn(s, t)
    ensures Leads(Within(t), s, es, s') && |es| <= 9 && forall e :: e in es ==> Steady(e, t)
    ensures SucceedingIn(s', t) && DoneIn(s', t)
  {
    RankBound(s, t);
    hide *;
    forall x: State | SucceedingIn(x, t) && !DoneIn(x, t)
      ensures Steady(Alone(t), t) && Within(t)(x, Alone(t)).Some?
      ensures var x' := Within(t)(x, Alone(t)).value; SucceedingIn(x', t) && RankOf(x', t) < RankOf(x, t)
    {
      AloneSucceeds(x, t);
    }
    es, s' := Winds(Within(t), _ => Alone(t), e => Steady(e, t), x => SucceedingIn(x, t), x => DoneIn(x, t),
                    x => RankOf(x, t), s);
  }

  /** A lock of any kind of a free mutex or deeper of the caller's own, and an unlock or transfer by the owner, answer OK
      when the caller moves alone. */
  lemma Succeeds(s0: State, es: seq<Event>, s: State, e: Event) returns (more: seq<Event>, s': State)
    requires Initial(s0) && Run(s0, es, s) && Enabled(s, e) && s.pc[e.t].Out? && Clear(s.abs, s.ty, e.op, e.t)
    ensures Leads(Within(e.t), Step(s, e), more, s') && |more| <= 9 && forall f :: f in more ==> Steady(f, e.t)
    ensures e.t in s'.pc && s'.pc[e.t] == Out(OK)
  {
    InitialHolds(s0);
    RunKeeps(s0, es, s);
    assert SucceedingIn(Step(s, e), e.t);
    more, s' := GoesOnToSucceed(Step(s, e), e.t);
  }
}
