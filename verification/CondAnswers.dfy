/** What the calls of a mutex and its condition variable answer, and that they come to an answer
    (pthread/lowlevellock.c, pthread/cond.c). */
module CondAnswers {
  import opened Threads
  import opened Cond
  import opened CondProofs
  import opened CondRuns
  import opened Runs

  /** What decides a call. Lock and trylock: the mutex was granted, or found held. Unlock: it was given back. Signal and
      broadcast: the sequence was bumped. Wait: the sequence was found changed, another's wake took the waiter off the
      queue, or its sleep ended by itself or was cut short. All timed calls: the deadline passed, or is malformed. */
  datatype Cause =
    | Granted
    | Refused
    | GivenBack
    | Notified
    | Changed
    | Woken
    | Ended
    | Interrupted
    | Cancelled
    | Late
    | Malformed

  function Answer(c: Cause, op: Op): Code {
    match c
    case Granted | GivenBack | Notified | Changed | Woken | Ended => OK
    case Refused => EBUSY
    case Interrupted => if op.Wait? && op.k.Timed? then EINTERRUPTED else OK
    case Cancelled => CANCELED
    case Late => ETIMEDOUT
    case Malformed => EINVAL
  }

  /** The calls that a cause may decide. */
  predicate Apt(c: Cause, op: Op) {
    match c
    case Granted => op.Lock? || op.TryLock?
    case Refused => op.TryLock?
    case GivenBack => op.Unlock?
    case Notified => op.Signal? || op.Broadcast?
    case Changed | Woken | Ended | Interrupted | Cancelled => op.Wait?
    case Late => (op.Lock? || op.Wait?) && op.k.Timed?
    case Malformed => (op.Lock? || op.Wait?) && op.k == Timed(false)
  }

  /** Whether somebody holds the mutex. */
  datatype Sight = Sight(held: bool)

  function Look(s: State): Sight { Sight(s.holders != {}) }

  /** What turns down or ends call `op` at point `p`, by a step of the caller; `gen` is the sequence. */
  function Turned(p: Pc, op: Op, e: Event, see: Sight, gen: nat): Option<Cause> {
    match op
    case Lock(k) =>
      if p.Lk? && p.l.LkSwap? && see.held && k == Timed(false) then Some(Malformed)
      else if p.Lk? && (p.l.LkWait? || p.l.LkAsleep?) && Expired(k, e) then Some(Late)
      else None
    case TryLock => if p.Mx? && ((p.x.TrPeek? && see.held) || p.x.TrCas?) then Some(Refused) else None
    case Wait(k) =>
      if p.Out? && k == Timed(false) then Some(Malformed)
      else if p.Cw? && p.c.CwWait? then
        if Expired(k, e) then Some(Late) else if Limb(gen) != Limb(p.c.sw) then Some(Changed) else None
      else if Parked(p) then Some(SleepOver(k, e))
      else None
    case Unlock => None
    case Signal => None
    case Broadcast => None
  }

  /** Asleep in a condition wait, on the condition variable or moved to the mutex word. */
  predicate Parked(p: Pc) { p.Cw? && (p.c.CwAsleep? || p.c.CwMoved?) }

  function SleepOver(k: Kind, e: Event): Cause {
    match e.cut
    case Cancel => Cancelled
    case Interrupt => Interrupted
    case NoCut => if Expired(k, e) then Late else Ended
  }

  /** What a step decides of call `op` of thread `t`, with what it does to the mutex and to the sequence. */
  function CauseOf(s: State, e: Event, t: Tid, op: Op): Option<Cause> {
    if !Enabled(s, e) || t !in s.pc then None
    else if e.t != t then if Parked(s.pc[t]) && !Parked(Step(s, e).pc[t]) then Some(Woken) else None
    else if Apt(Granted, op) && t !in s.holders && t in Step(s, e).holders then Some(Granted)
    else if Apt(GivenBack, op) && t in s.holders && t !in Step(s, e).holders then Some(GivenBack)
    else if Apt(Notified, op) && Step(s, e).w.gen > s.w.gen then Some(Notified)
    else Turned(s.pc[t], op, e, Look(s), s.w.gen)
  }

  /** The machine while thread `t` is in a call. */
  function Within(t: Tid): (State, Event) -> Option<State> {
    (s: State, e: Event) => if e.t == t && t in s.pc && s.pc[t].Out? then None else Attempt(s, e)
  }

  /** What decides the call that thread `e.t` begins with `e`, at once or in the run `es` that follows. */
  function Decided(s: State, e: Event, es: seq<Event>): seq<Cause> {
    if !Enabled(s, e) then []
    else One(CauseOf(s, e, e.t, e.op)) + Collect(Within(e.t), (x, f) => CauseOf(x, f, e.t, e.op), Step(s, e), es)
  }

  /** Where call `op` may be, and whether its caller `me` holds the mutex there, if `was` when it began. */
  predicate Serves(p: Pc, op: Op, me: Me, was: Me) {
    match p
    case Out(_) => true
    case Lk(_, v) => if v.Plain? then op == Lock(v.k) && me == was else op.Wait? && !me.holder
    case UlSwap(n) => me.holder && if n.Done? then op.Unlock? else op == Wait(n.k)
    case UlWake(n) => !me.holder && if n.Done? then op.Unlock? else op == Wait(n.k)
    case Cw(c) =>
      && op.Wait?
      && (c.CwSee? || c.CwBind? || c.CwEnter? || c.CwWait? || c.CwAsleep? || c.CwMoved? ==> c.k == op.k)
      && (me.holder <==> c.CwSee? || c.CwBind? || c.CwMark?)
    case Mx(x) =>
      && me == was
      && (x.TrPeek? || x.TrCas? ==> op.TryLock?) && (x.SgAdd? || x.SgWake? ==> op.Signal?)
      && (x.BcAdd? || x.BcPeek? || x.BcMove? || x.BcWake? ==> op.Broadcast?)
  }

  /** What must have been decided of call `op` at point `p`. */
  predicate Told(p: Pc, op: Op, ns: seq<Cause>) {
    match p
    case Out(last) => Settled(last, op, ns)
    case Lk(_, v) => if v.Plain? then ns == [] else Settled(v.code, op, ns)
    case UlSwap(n) => ns == []
    case UlWake(n) => ns == if n.Done? then [GivenBack] else []
    case Cw(c) =>
      if c.CwLeave? || c.CwMark? then Settled(c.code, op, ns)
      else if c.CxLeave? || c.CxWake? then ns == [Cancelled]
      else ns == []
    case Mx(x) => ns == if x.TrPeek? || x.TrCas? || x.SgAdd? || x.BcAdd? then [] else [Notified]
  }

  predicate Settled(c: Code, op: Op, ns: seq<Cause>) { |ns| == 1 && c == Answer(ns[0], op) && Apt(ns[0], op) }

  /** Whether the caller holds the mutex when call `op` is back. */
  function Holding(op: Op, was: Me, ns: seq<Cause>): Me {
    match op
    case Lock(_) | TryLock => Me(was.holder || ns == [Granted])
    case Unlock => Me(false)
    case Wait(_) => Me(true)
    case Signal | Broadcast => was
  }

  ghost predicate Fits(s: State, t: Tid, op: Op, was: Me, ns: seq<Cause>) {
    && t in s.pc && Told(s.pc[t], op, ns)
    && Serves(s.pc[t], op, Me(t in s.holders), was)
    && (s.pc[t].Out? ==> Me(t in s.holders) == Holding(op, was, ns))
  }

  /** The scalar form of what a step of the caller decides. */
  function Note(p: Pc, op: Op, e: Event, see: Sight, w: Words, m: Move): Option<Cause> {
    if Apt(Granted, op) && m.deed.Grant? then Some(Granted)
    else if Apt(GivenBack, op) && m.deed.Drop? then Some(GivenBack)
    else if Apt(Notified, op) && m.w.gen > w.gen then Some(Notified)
    else Turned(p, op, e, see, w.gen)
  }

  predicate Tells(p: Pc, op: Op, e: Event, see: Sight, w: Words, me: Me, was: Me, m: Move, ns: seq<Cause>) {
    && Told(m.p, op, ns) && Serves(m.p, op, After(me, m.deed), was)
    && (m.p.Out? ==> After(me, m.deed) == Holding(op, was, ns))
    && (m.deed.Grant? ==> !me.holder) && (m.deed.Drop? ==> me.holder)
  }

  lemma LockTells(p: Pc, op: Op, e: Event, see: Sight, w: Words, me: Me, was: Me, ns: seq<Cause>)
    requires p.Lk? && Local(p, w, me) && Serves(p, op, me, was) && Told(p, op, ns) && (see.held <==> w.lock != 0)
    ensures var m := LockMove(p.l, p.v, w, e); Tells(p, op, e, see, w, me, was, m, ns + One(Note(p, op, e, see, w, m)))
  {}

  lemma UnlockTells(p: Pc, op: Op, e: Event, see: Sight, w: Words, me: Me, was: Me, ns: seq<Cause>)
    requires p.UlSwap? || p.UlWake?
    requires Local(p, w, me) && Serves(p, op, me, was) && Told(p, op, ns) && (see.held <==> w.lock != 0)
    ensures Tells(p, op, e, see, w, me, was, Next(p, w, e), ns + One(Note(p, op, e, see, w, Next(p, w, e))))
  {}

  lemma WaitTells(p: Pc, op: Op, e: Event, see: Sight, w: Words, me: Me, was: Me, ns: seq<Cause>)
    requires p.Cw? && Local(p, w, me) && Serves(p, op, me, was) && Told(p, op, ns) && (see.held <==> w.lock != 0)
    ensures var m := WaitMove(p.c, w, e); Tells(p, op, e, see, w, me, was, m, ns + One(Note(p, op, e, see, w, m)))
  {}

  lemma MixedTells(p: Pc, op: Op, e: Event, see: Sight, w: Words, me: Me, was: Me, ns: seq<Cause>)
    requires p.Mx? && Local(p, w, me) && Serves(p, op, me, was) && Told(p, op, ns) && (see.held <==> w.lock != 0)
    ensures var m := MixedMove(p.x, w, e); Tells(p, op, e, see, w, me, was, m, ns + One(Note(p, op, e, see, w, m)))
  {}

  /** The caller's next access in a call. */
  lemma MoveTells(p: Pc, op: Op, e: Event, see: Sight, w: Words, me: Me, was: Me, ns: seq<Cause>)
    requires Local(p, w, me) && Serves(p, op, me, was) && Told(p, op, ns) && !p.Out? && (see.held <==> w.lock != 0)
    ensures Tells(p, op, e, see, w, me, was, Next(p, w, e), ns + One(Note(p, op, e, see, w, Next(p, w, e))))
  {
    hide Local, Serves, Told, Tells, Note;
    match p
    case Out(_) =>
    case Lk(_, _) => LockTells(p, op, e, see, w, me, was, ns);
    case UlSwap(_) => UnlockTells(p, op, e, see, w, me, was, ns);
    case UlWake(_) => UnlockTells(p, op, e, see, w, me, was, ns);
    case Cw(_) => WaitTells(p, op, e, see, w, me, was, ns);
    case Mx(_) => MixedTells(p, op, e, see, w, me, was, ns);
  }

  lemma OwnStepFits(s: State, e: Event, op: Op, was: Me, ns: seq<Cause>)
    requires Safe(s) && Enabled(s, e) && Fits(s, e.t, op, was, ns) && !s.pc[e.t].Out?
    ensures Fits(Step(s, e), e.t, op, was, ns + One(CauseOf(s, e, e.t, op)))
  {
    hide Safe, Next, Told, Serves, Note, Turned, Wake, Local;
    var t, p, me, see, m := e.t, s.pc[e.t], Me(e.t in s.holders), Look(s), Next(s.pc[e.t], s.w, e);
    Sighted(s, t);
    MoveTells(p, op, e, see, s.w, me, was, ns);
    assert Me(t in Step(s, e).holders) == After(me, m.deed);
    CauseIsNote(s, e, op);
  }

  lemma Sighted(s: State, t: Tid)
    requires Safe(s) && t in s.pc
    ensures Local(s.pc[t], s.w, Me(t in s.holders)) && (Look(s).held <==> s.w.lock != 0)
  {
    Room(s, t);
  }

  lemma CauseIsNote(s: State, e: Event, op: Op)
    requires Enabled(s, e)
    requires var m := Next(s.pc[e.t], s.w, e);
      (m.deed.Grant? ==> e.t !in s.holders) && (m.deed.Drop? ==> e.t in s.holders)
    ensures CauseOf(s, e, e.t, op) == Note(s.pc[e.t], op, e, Look(s), s.w, Next(s.pc[e.t], s.w, e))
  {
    hide Next, Turned, Wake, Apt;
  }

  /** What the steps of others do to a thread. */
  lemma Aside(s: State, e: Event, t: Tid)
    requires e.t in s.pc && t in s.pc && t != e.t
    ensures t in Step(s, e).pc
    ensures var p, q := s.pc[t], Step(s, e).pc[t];
      || q == p
      || (p.Lk? && p.l.LkAsleep? && q == Lk(LkSwap, p.v))
      || (Parked(p) && (q == Cw(CwLeave(OK)) || q == Cw(CwMoved(p.c.k, p.c.sw))))
  {}

  lemma OthersStepFits(s: State, e: Event, t: Tid, op: Op, was: Me, ns: seq<Cause>)
    requires Enabled(s, e) && e.t != t && Fits(s, t, op, was, ns)
    ensures Fits(Step(s, e), t, op, was, ns + One(CauseOf(s, e, t, op)))
  {
    hide Next, Wake;
    Aside(s, e, t);
    var ns' := ns + One(CauseOf(s, e, t, op));
    assert CauseOf(s, e, t, op).None? ==> ns' == ns;
    assert CauseOf(s, e, t, op).Some? ==> ns' == [Woken];
  }

  lemma WithinFits(s: State, e: Event, t: Tid, op: Op, was: Me, ns: seq<Cause>)
    requires Good(s) && Fits(s, t, op, was, ns) && Within(t)(s, e).Some?
    ensures var s' := Within(t)(s, e).value; Good(s') && Fits(s', t, op, was, ns + One(CauseOf(s, e, t, op)))
  {
    hide Safe, Covered, Dating, Next, Told, Serves, CauseOf;
    StepGood(s, e);
    if e.t == t { OwnStepFits(s, e, op, was, ns); } else { OthersStepFits(s, e, t, op, was, ns); }
  }

  lemma BeginFits(s: State, e: Event)
    requires Enabled(s, e) && s.pc[e.t].Out?
    ensures Fits(Step(s, e), e.t, e.op, Me(e.t in s.holders), One(CauseOf(s, e, e.t, e.op)))
  {}

  lemma CallFits(s: State, t: Tid, op: Op, was: Me, es: seq<Event>, s': State, ns: seq<Cause>)
    requires Good(s) && Fits(s, t, op, was, ns) && Leads(Within(t), s, es, s')
    ensures Good(s') && Fits(s', t, op, was, ns + Collect(Within(t), (x, f) => CauseOf(x, f, t, op), s, es))
  {
    hide *;
    forall x, f, g | (Good(x) && Fits(x, t, op, was, g)) && Within(t)(x, f).Some?
      ensures var x' := Within(t)(x, f).value; Good(x') && Fits(x', t, op, was, g + One(CauseOf(x, f, t, op)))
    {
      WithinFits(x, f, t, op, was, g);
    }
    Gathers(Within(t), (x, f) => CauseOf(x, f, t, op), (x, g) => Good(x) && Fits(x, t, op, was, g), s, es, s', ns);
  }

  /** A call that is back was decided by one event, and answers accordingly. A lock or trylock answers OK if and only if
      it was granted the mutex; a wait is back with the mutex held, whatever it answers. */
  lemma Answered(s0: State, es: seq<Event>, s: State, e: Event, more: seq<Event>, s': State)
    requires Initial(s0) && Run(s0, es, s) && Enabled(s, e) && s.pc[e.t].Out?
    requires Leads(Within(e.t), Step(s, e), more, s') && e.t in s'.pc && s'.pc[e.t].Out?
    ensures var ns := Decided(s, e, more);
      && |ns| == 1 && s'.pc[e.t].last == Answer(ns[0], e.op) && Apt(ns[0], e.op)
      && Me(e.t in s'.holders) == Holding(e.op, Me(e.t in s.holders), ns)
  {
    hide Good, Fits, CauseOf, Initial, Next, Wake;
    InitialHolds(s0);
    RunKeeps(s0, es, s);
    StepGood(s, e);
    BeginFits(s, e);
    CallFits(Step(s, e), e.t, e.op, Me(e.t in s.holders), more, s', One(CauseOf(s, e, e.t, e.op)));
    BackFits(s', e.t, e.op, Me(e.t in s.holders), Decided(s, e, more));
  }

  lemma BackFits(s: State, t: Tid, op: Op, was: Me, ns: seq<Cause>)
    requires Fits(s, t, op, was, ns) && s.pc[t].Out?
    ensures |ns| == 1 && s.pc[t].last == Answer(ns[0], op) && Apt(ns[0], op)
    ensures Me(t in s.holders) == Holding(op, was, ns)
  {}

  // Progress: what a thread comes to when it moves alone, no compare-and-swap fails for no reason and no deadline passes.

  /** An upper bound on the steps that a thread at `p` makes alone before it is outside or asleep. */
  function Rank(p: Pc, w: Words): nat {
    match p
    case Out(_) => 0
    case Lk(l, _) => RankLock(l, w)
    case UlSwap(n) => if n.Done? then 2 else 10
    case UlWake(n) => if n.Done? then 1 else 9
    case Cw(c) => RankWait(c, w)
    case Mx(x) => if x.BcAdd? then 3 else if x.TrPeek? || x.SgAdd? || x.BcPeek? then 2 else 1
  }

  function RankLock(l: LkPc, w: Words): nat {
    match l
    case LkPeek => 5
    case LkCas => 4
    case LkSwap => 3
    case LkWait => if w.lock == 2 then 1 else 4
    case LkAsleep => 0
  }

  function RankWait(c: CwPc, w: Words): nat {
    match c
    case CwSee(_) => 12
    case CwBind(_) => 11
    case CwEnter(_) => 8
    case CwWait(_, _) => 7
    case CwAsleep(_, _) => 0
    case CwMoved(_, _) => 0
    case CwLeave(_) => 6
    case CxLeave(_) => 7
    case CxWake => 6
    case CwMark(_) => 1
  }

  lemma MoveWinds(p: Pc, w: Words, e: Event)
    requires !p.Out? && !Asleep(p) && !e.fail && !e.late
    ensures Rank(Next(p, w, e).p, Next(p, w, e).w) < Rank(p, w)
  {
    match p
    case Out(_) =>
    case Lk(_, _) =>
    case UlSwap(_) =>
    case UlWake(_) =>
    case Cw(_) =>
    case Mx(_) =>
  }

  ghost function SomeOf(pc: map<Tid, Pc>, f: Pc -> bool, t: Tid): (u: Tid)
    ensures Any(pc, f) ==> u in pc && f(pc[u])
  {
    if Any(pc, f) then (var u :| u in pc && f(pc[u]); u) else t
  }

  /** What thread `t` does next, alone; a wake picks a sleeper if there is one. */
  ghost function Alone(s: State, t: Tid): Event {
    Event(t, Unlock, false, false, NoCut,
          if t in s.pc && s.pc[t].UlWake? then SomeOf(s.pc, LockSleeping, t) else SomeOf(s.pc, CondSleeping, t))
  }

  ghost predicate Steady(e: Event, t: Tid) { e.t == t && !e.fail && !e.late && e.cut.NoCut? }

  /** The waiter count is at its limit, which the interface rules out for a thread that would be counted. */
  predicate Full(s: State, t: Tid)
    requires t in s.pc
  {
    s.pc[t].Cw? && s.pc[t].c.CwEnter? && s.w.nw + 1 >= LIMB
  }

  predicate Rests(s: State, t: Tid) { t in s.pc && (s.pc[t].Out? || Asleep(s.pc[t]) || Full(s, t)) }

  function RankOf(s: State, t: Tid): nat { if t in s.pc then Rank(s.pc[t], s.w) else 0 }

  lemma RankBound(s: State, t: Tid)
    ensures RankOf(s, t) <= 12
  {}

  lemma AloneWinds(s: State, t: Tid)
    requires t in s.pc && !Rests(s, t)
    ensures Steady(Alone(s, t), t) && Within(t)(s, Alone(s, t)).Some?
    ensures var s' := Within(t)(s, Alone(s, t)).value; t in s'.pc && RankOf(s', t) < RankOf(s, t)
  {
    hide Rank, Next, Wake;
    MoveWinds(s.pc[t], s.w, Alone(s, t));
  }

  /** No call spins: a thread that moves alone is outside or asleep after at most 12 steps. */
  lemma NeverSpins(s: State, t: Tid) returns (es: seq<Event>, s': State)
    requires t in s.pc
    ensures Leads(Within(t), s, es, s') && Rests(s', t) && |es| <= 12 && forall e :: e in es ==> Steady(e, t)
  {
    RankBound(s, t);
    hide *;
    forall x: State | t in x.pc && !Rests(x, t)
      ensures Steady(Alone(x, t), t) && Within(t)(x, Alone(x, t)).Some?
      ensures var x' := Within(t)(x, Alone(x, t)).value; t in x'.pc && RankOf(x', t) < RankOf(x, t)
    {
      AloneWinds(x, t);
    }
    es, s' := Winds(Within(t), x => Alone(x, t), e => Steady(e, t), (x: State) => t in x.pc, x => Rests(x, t),
                    x => RankOf(x, t), s);
  }

  /** On the way to having the mutex, or to being back from a wait with it. */
  predicate Taking(p: Pc, w: Words, op: Op) {
    match p
    case Out(last) => w.lock != 0 && (op.Wait? || last == OK)
    case Lk(l, v) => w.lock == 0 && (l.LkPeek? || l.LkCas? || l.LkSwap?) && (v.FromWait? ==> op.Wait?)
    case UlSwap(_) => false
    case UlWake(_) => false
    case Cw(c) => op.Wait? && (c.CwMark? || (w.lock == 0 && (c.CwLeave? || c.CxLeave? || c.CxWake?)))
    case Mx(x) => w.lock == 0 && (x.TrPeek? || x.TrCas?)
  }

  predicate TakingIn(s: State, t: Tid, op: Op) { t in s.pc && Taking(s.pc[t], s.w, op) }

  predicate DoneIn(s: State, t: Tid) { t in s.pc && s.pc[t].Out? }

  lemma MoveTakes(p: Pc, w: Words, op: Op, e: Event)
    requires !p.Out? && Taking(p, w, op) && !e.fail && !e.late
    ensures Taking(Next(p, w, e).p, Next(p, w, e).w, op)
    ensures Rank(Next(p, w, e).p, Next(p, w, e).w) < Rank(p, w)
  {}

  lemma AloneTakes(s: State, t: Tid, op: Op)
    requires TakingIn(s, t, op) && !DoneIn(s, t)
    ensures Steady(Alone(s, t), t) && Within(t)(s, Alone(s, t)).Some?
    ensures var s' := Within(t)(s, Alone(s, t)).value; TakingIn(s', t, op) && RankOf(s', t) < RankOf(s, t)
  {
    hide Rank, Next, Wake;
    MoveTakes(s.pc[t], s.w, op, Alone(s, t));
  }

  /** A thread that contends for a free mutex, or is on its way out of a wait while the mutex is free, and moves alone, is
      outside after at most 12 steps, and the mutex taken. */
  lemma GoesOnToTake(s: State, t: Tid, op: Op) returns (es: seq<Event>, s': State)
    requires TakingIn(s, t, op)
    ensures Leads(Within(t), s, es, s') && DoneIn(s', t) && TakingIn(s', t, op) && |es| <= 12
    ensures forall e :: e in es ==> Steady(e, t)
  {
    RankBound(s, t);
    hide *;
    forall x: State | TakingIn(x, t, op) && !DoneIn(x, t)
      ensures Steady(Alone(x, t), t) && Within(t)(x, Alone(x, t)).Some?
      ensures var x' := Within(t)(x, Alone(x, t)).value; TakingIn(x', t, op) && RankOf(x', t) < RankOf(x, t)
    {
      AloneTakes(x, t, op);
    }
    es, s' := Winds(Within(t), x => Alone(x, t), e => Steady(e, t), x => TakingIn(x, t, op), x => DoneIn(x, t),
                    x => RankOf(x, t), s);
  }

  /** Lock of any kind and trylock, if nobody holds the mutex and the caller moves alone, are granted it and answer OK. */
  lemma TakesFree(s0: State, es: seq<Event>, s: State, e: Event) returns (more: seq<Event>, s': State)
    requires Initial(s0) && Run(s0, es, s) && Enabled(s, e) && s.pc[e.t].Out?
    requires (e.op.Lock? || e.op.TryLock?) && s.holders == {}
    ensures Leads(Within(e.t), Step(s, e), more, s') && |more| <= 12 && forall f :: f in more ==> Steady(f, e.t)
    ensures e.t in s'.pc && s'.pc[e.t] == Out(OK) && e.t in s'.holders
  {
    ExclusionAndAccounting(s0, es, s);
    assert TakingIn(Step(s, e), e.t, e.op);
    hide Rank, Decided, Within, Next, Wake, Taking;
    more, s' := GoesOnToTake(Step(s, e), e.t, e.op);
    Answered(s0, es, s, e, more, s');
    assert Taking(s'.pc[e.t], s'.w, e.op);
    TakenIsOK(s'.pc[e.t], s'.w, e.op);
  }

  lemma TakenIsOK(p: Pc, w: Words, op: Op)
    requires p.Out? && Taking(p, w, op) && !op.Wait?
    ensures p == Out(OK)
  {}
}
