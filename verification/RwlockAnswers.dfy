/** What the calls of a read-write lock answer, and that they come to an answer (pthread/rwlock.c). */
module RwlockAnswers {
  import opened Threads
  import opened Rwlock
  import opened RwlockProofs
  import opened RwlockRuns
  import opened Runs

  /** What decides a call: the lock was granted or given back; the caller has it for writing already; it was found
      taken by a `try` call, or by a call with a malformed deadline; the deadline passed while the call was queued. */
  datatype Cause = Granted | GivenBack | Own | Refused | Malformed | Late

  function Answer(c: Cause): Code {
    match c
    case Granted | GivenBack => OK
    case Own => EDEADLK
    case Refused => EBUSY
    case Malformed => EINVAL
    case Late => ETIMEDOUT
  }

  /** What a thread holds. */
  datatype Hold = Hold(rd: nat, wr: bool)

  function HoldOf(s: State, t: Tid): Hold { Hold(s.readers[t], t in s.writers) }

  function HoldAfter(h: Hold, d: Deed): Hold {
    match d
    case GrantRead => h.(rd := h.rd + 1)
    case DropRead => h.(rd := if h.rd > 0 then h.rd - 1 else 0)
    case GrantWrite => h.(wr := true)
    case DropWrite => h.(wr := false)
    case Nothing | WakeWriter | WakeReaders => h
  }

  /** What a thread may find: the lock its own for writing, anybody's for writing, or not free. */
  datatype Sight = Sight(mine: bool, written: bool, taken: bool)

  function Look(s: State, t: Tid): Sight { Sight(t in s.writers, s.writers != {}, s.w.oid != UNOWNED) }

  /** What turns a call `op` down at point `p`. */
  function Turned(p: Pc, op: Op, e: Event, see: Sight): Option<Cause> {
    match p
    case Out(_) => None
    case Rd(r) => if op.Read? then TurnedReader(r, op.k, e, see) else None
    case Wr(q) => if op.Write? then TurnedWriter(q, op.k, e, see) else None
    case Un(_) => None
  }

  function TurnedReader(r: RdPc, k: Kind, e: Event, see: Sight): Option<Cause> {
    if r.RdEntry? && see.mine then Some(Own)
    else if r.RdLoad? && see.written && k.Try? then Some(Refused)
    else if r.RdLoad? && see.written && k == Timed(false) then Some(Malformed)
    else if (r.RdWait? || r.RdAsleep?) && Expired(k, e) then Some(Late)
    else None
  }

  /** `trywrlock` is turned down by what it finds at its first look, or where it fails to take the lock. */
  function TurnedWriter(q: WrPc, k: Kind, e: Event, see: Sight): Option<Cause> {
    if (q.WrEntry? || q.WrPeek?) && see.mine then Some(Own)
    else if q.WrPeek? && see.taken then Some(Refused)
    else if q.WrCas? && k.Try? then Some(Refused)
    else if q.WrLoad? && see.taken && k == Timed(false) then Some(Malformed)
    else if (q.WrWait? || q.WrAsleep?) && Expired(k, e) then Some(Late)
    else None
  }

  /** What a step decides of call `op` of thread `t`. A grant is one if the thread holds more afterwards. */
  function CauseOf(s: State, e: Event, t: Tid, op: Op): Option<Cause> {
    if !Enabled(s, e) || e.t != t then None
    else
      var h, h' := HoldOf(s, t), HoldOf(Step(s, e), t);
      if h'.rd > h.rd || (h'.wr && !h.wr) then Some(Granted)
      else if h' != h then Some(GivenBack)
      else Turned(s.pc[t], op, e, Look(s, t))
  }

  /** The machine while thread `t` is in a call. */
  function Within(t: Tid): (State, Event) -> Option<State> {
    (s: State, e: Event) => if e.t == t && t in s.pc && s.pc[t].Out? then None else Attempt(s, e)
  }

  /** What decides the call that thread `e.t` begins with `e`, in the run `es` that follows. */
  function Decided(s: State, e: Event, es: seq<Event>): seq<Cause> {
    if Enabled(s, e) then Collect(Within(e.t), (x, f) => CauseOf(x, f, e.t, e.op), Step(s, e), es) else []
  }

  /** Where call `op` may be. */
  predicate Serves(p: Pc, op: Op) {
    match p
    case Out(_) => true
    case Rd(r) => op.Read? && (r.RdShare? || r.k == op.k) && (r.RdLeave? && r.late ==> op.k.Timed?)
    case Wr(q) =>
      && op.Write?
      && (if q.WrPeek? || q.WrPeeked? then op.k.Try?
          else if q.WrRecheck? || q.WrHand? then op.k.Timed?
          else q.k == op.k && (q.WrLeave? && q.late ==> op.k.Timed?))
    case Un(_) => op.Unlock?
  }

  /** What has been decided at point `p`; `mine` as at the first look of trywrlock. */
  function Due(p: Pc, see: Sight): seq<Cause> {
    match p
    case Out(_) => []
    case Rd(r) => if r.RdShare? then [Granted] else if r.RdLeave? && r.late then [Late] else []
    case Wr(q) =>
      if q.WrPeeked? then (if see.mine then [Own] else if q.o != UNOWNED then [Refused] else [])
      else if q.WrRecheck? || q.WrHand? || (q.WrLeave? && q.late) then [Late] else []
    case Un(u) => if u.UnSeeWr? || u.UnSeeRd? || u.UnWakeWr? || u.UnWakeRd? || u.UnLastSee? then [GivenBack] else []
  }

  /** The calls that a cause may decide. */
  predicate Apt(c: Cause, op: Op) {
    match c
    case Granted | Own => !op.Unlock?
    case GivenBack => op.Unlock?
    case Refused => !op.Unlock? && op.k.Try?
    case Malformed => !op.Unlock? && op.k == Timed(false)
    case Late => !op.Unlock? && op.k.Timed?
  }

  predicate Told(p: Pc, op: Op, see: Sight, ns: seq<Cause>) {
    if p.Out? then |ns| == 1 && p.last == Answer(ns[0]) && Apt(ns[0], op) else ns == Due(p, see)
  }

  /** What the caller holds once `ns` has been decided of call `op`. */
  function Holding(h: Hold, op: Op, ns: seq<Cause>): Hold {
    if ns == [Granted] && op.Read? then HoldAfter(h, GrantRead)
    else if ns == [Granted] then HoldAfter(h, GrantWrite)
    else if ns == [GivenBack] then HoldAfter(h, if h.wr then DropWrite else DropRead)
    else h
  }

  ghost predicate Fits(s: State, t: Tid, op: Op, h: Hold, ns: seq<Cause>) {
    && t in s.pc && Serves(s.pc[t], op) && Told(s.pc[t], op, Look(s, t), ns)
    && HoldOf(s, t) == Holding(h, op, ns)
    && (ns == [Granted] || ns == [GivenBack] ==> HoldOf(s, t) != h)
  }

  /** The scalar form of what a step decides. */
  function Note(p: Pc, op: Op, e: Event, see: Sight, d: Deed): Option<Cause> {
    if d.GrantRead? || d.GrantWrite? then Some(Granted)
    else if d.DropRead? || d.DropWrite? then Some(GivenBack)
    else Turned(p, op, e, see)
  }

  predicate Sees(w: Words, me: Me, see: Sight) {
    && (see.mine <==> me.writer) && (see.taken <==> w.oid != UNOWNED)
    && (see.written <==> w.oid != UNOWNED && w.oid != RO)
  }

  /** What the next access of a call must bring about. */
  predicate Tells(p: Pc, op: Op, e: Event, see: Sight, see': Sight, m: Move) {
    && Serves(m.p, op) && Told(m.p, op, see', Due(p, see) + One(Note(p, op, e, see, m.deed)))
    && (m.deed.GrantRead? || m.deed.GrantWrite? || m.deed.DropRead? || m.deed.DropWrite? ==> Due(p, see) == [])
    && (m.deed.GrantRead? ==> op.Read?) && (m.deed.GrantWrite? ==> op.Write? && !see.mine)
    && (m.deed.DropRead? ==> op.Unlock? && !see.mine) && (m.deed.DropWrite? ==> op.Unlock? && see.mine)
  }

  predicate Goes(see: Sight, d: Deed, see': Sight) { see'.mine == (!d.DropWrite? && (see.mine || d.GrantWrite?)) }

  lemma ReadTells(p: Pc, w: Words, e: Event, me: Me, op: Op, see: Sight, see': Sight)
    requires p.Rd? && Here(p, me) && e.t == me.t && Sees(w, me, see) && Serves(p, op)
    requires w.oid < ID_LIMIT || w.oid == RO
    requires me.t > 0 && (me.writer <==> w.oid == me.t) && Goes(see, ReadMove(p.r, w, e).deed, see')
    ensures Tells(p, op, e, see, see', ReadMove(p.r, w, e))
  {}

  lemma WriteTells(p: Pc, w: Words, e: Event, me: Me, op: Op, see: Sight, see': Sight)
    requires p.Wr? && Here(p, me) && e.t == me.t && Sees(w, me, see) && Serves(p, op)
    requires me.t > 0 && (me.writer <==> w.oid == me.t) && Goes(see, WriteMove(p.w, w, e).deed, see')
    ensures Tells(p, op, e, see, see', WriteMove(p.w, w, e))
  {}

  lemma UnlockTells(p: Pc, w: Words, e: Event, me: Me, op: Op, see: Sight, see': Sight)
    requires p.Un? && Here(p, me) && e.t == me.t && Sees(w, me, see) && Serves(p, op)
    requires 0 < me.t < ID_LIMIT && (me.writer <==> w.oid == me.t) && (w.oid < ID_LIMIT || w.oid == RO)
    requires (me.reader ==> w.oid == RO && w.nrd > 0) && Goes(see, UnlockMove(p.u, w, e).deed, see')
    ensures Tells(p, op, e, see, see', UnlockMove(p.u, w, e))
  {}

  /** A step of the caller shows in what it holds. */
  lemma HoldMoves(s: State, e: Event)
    requires e.t in s.pc
    requires var d := Next(s.pc[e.t], s.w, e).deed; d.DropRead? ==> e.t in s.readers
    ensures HoldOf(Step(s, e), e.t) == HoldAfter(HoldOf(s, e.t), Next(s.pc[e.t], s.w, e).deed)
  {}

  lemma Seeing(s: State, t: Tid)
    requires Safe(s) && t in s.pc
    ensures Sees(s.w, Self(s, t), Look(s, t)) && Local(s.pc[t], s.w, Self(s, t), |s.readers|)
  {
    Room(s, t);
  }

  lemma MoveTells(p: Pc, w: Words, e: Event, me: Me, nr: nat, op: Op, see: Sight, see': Sight)
    requires Local(p, w, me, nr) && e.t == me.t && Sees(w, me, see) && Serves(p, op) && !p.Out?
    requires Goes(see, Next(p, w, e).deed, see')
    ensures Tells(p, op, e, see, see', Next(p, w, e))
    ensures Next(p, w, e).deed.DropRead? ==> me.reader
  {
    hide Tells, Told, Serves, Due, Note;
    match p
    case Out(_) =>
    case Rd(_) => ReadTells(p, w, e, me, op, see, see');
    case Wr(_) => WriteTells(p, w, e, me, op, see, see');
    case Un(_) => UnlockTells(p, w, e, me, op, see, see');
  }

  lemma HoldTells(p: Pc, op: Op, e: Event, see: Sight, see': Sight, m: Move, h: Hold, g: Hold)
    requires Tells(p, op, e, see, see', m) && !p.Out? && g == Holding(h, op, Due(p, see)) && g.wr == see.mine
    requires (m.deed.DropRead? ==> g.rd > 0) && (Due(p, see) == [Granted] || Due(p, see) == [GivenBack] ==> g != h)
    ensures var ns := Due(p, see) + One(Note(p, op, e, see, m.deed));
      HoldAfter(g, m.deed) == Holding(h, op, ns) && (ns == [Granted] || ns == [GivenBack] ==> HoldAfter(g, m.deed) != h)
  {
    var ns, n := Due(p, see), Note(p, op, e, see, m.deed);
    assert n.Some? ==> ns == [] && ns + One(n) == [n.value] by {
      assert |ns + One(n)| == |ns| + |One(n)| && |Due(m.p, see')| <= 1;
    }
    assert n.None? ==> ns + One(n) == ns;
  }

  lemma OwnStepFits(s: State, e: Event, op: Op, h: Hold, ns: seq<Cause>)
    requires Safe(s) && Enabled(s, e) && Fits(s, e.t, op, h, ns) && !s.pc[e.t].Out?
    ensures Fits(Step(s, e), e.t, op, h, ns + One(CauseOf(s, e, e.t, op)))
  {
    hide Safe, Turned, Here, Next, Due, Holding;
    var t, s', m := e.t, Step(s, e), Next(s.pc[e.t], s.w, e);
    Seeing(s, t);
    MoveTells(s.pc[t], s.w, e, Self(s, t), |s.readers|, op, Look(s, t), Look(s', t));
    HoldMoves(s, e);
    HoldTells(s.pc[t], op, e, Look(s, t), Look(s', t), m, h, HoldOf(s, t));
    assert CauseOf(s, e, t, op) == Note(s.pc[t], op, e, Look(s, t), m.deed);
  }

  lemma OthersStepFits(s: State, e: Event, t: Tid, op: Op, h: Hold, ns: seq<Cause>)
    requires Enabled(s, e) && e.t != t && Fits(s, t, op, h, ns)
    ensures Fits(Step(s, e), t, op, h, ns)
  {
    Sleepers(s, e, t);
  }

  lemma BeginFits(s: State, e: Event)
    requires Enabled(s, e) && s.pc[e.t].Out?
    ensures Fits(Step(s, e), e.t, e.op, HoldOf(s, e.t), [])
  {}

  lemma WithinFits(s: State, e: Event, t: Tid, op: Op, h: Hold, ns: seq<Cause>)
    requires Safe(s) && Fits(s, t, op, h, ns) && Within(t)(s, e).Some?
    ensures var s' := Within(t)(s, e).value; Safe(s') && Fits(s', t, op, h, ns + One(CauseOf(s, e, t, op)))
  {
    hide Safe, Next, Told, Serves, Holding;
    StepSafe(s, e);
    if e.t == t {
      OwnStepFits(s, e, op, h, ns);
    } else {
      OthersStepFits(s, e, t, op, h, ns);
      assert ns + [] == ns;
    }
  }

  lemma BackFits(s: State, t: Tid, op: Op, h: Hold, ns: seq<Cause>)
    requires Fits(s, t, op, h, ns) && s.pc[t].Out?
    ensures |ns| == 1 && s.pc[t].last == Answer(ns[0]) && Apt(ns[0], op) && HoldOf(s, t) == Holding(h, op, ns)
    ensures s.pc[t].last == OK <==> HoldOf(s, t) != h
  {}
  lemma CallFits(s: State, t: Tid, op: Op, h: Hold, es: seq<Event>, s': State)
    requires Safe(s) && Fits(s, t, op, h, []) && Leads(Within(t), s, es, s')
    ensures Safe(s') && Fits(s', t, op, h, Collect(Within(t), (x, f) => CauseOf(x, f, t, op), s, es))
  {
    hide *;
    forall x, f, g | (Safe(x) && Fits(x, t, op, h, g)) && Within(t)(x, f).Some?
      ensures Safe(Within(t)(x, f).value) && Fits(Within(t)(x, f).value, t, op, h, g + One(CauseOf(x, f, t, op)))
    {
      WithinFits(x, f, t, op, h, g);
    }
    Gathers(Within(t), (x, f) => CauseOf(x, f, t, op), (x, g) => Safe(x) && Fits(x, t, op, h, g), s, es, s', []);
    var ns := Collect(Within(t), (x, f) => CauseOf(x, f, t, op), s, es);
    assert [] + ns == ns;
  }

  /** A call that is back was decided by one event, and answers accordingly: OK if and only if the lock was granted or
      given back, and then the caller's holds say so; otherwise they are what they were. */
  lemma Answered(s0: State, es: seq<Event>, s: State, e: Event, more: seq<Event>, s': State)
    requires Initial(s0) && Run(s0, es, s) && Enabled(s, e) && s.pc[e.t].Out?
    requires Leads(Within(e.t), Step(s, e), more, s') && e.t in s'.pc && s'.pc[e.t].Out?
    ensures var ns := Decided(s, e, more);
      && |ns| == 1 && s'.pc[e.t].last == Answer(ns[0]) && Apt(ns[0], e.op)
      && HoldOf(s', e.t) == Holding(HoldOf(s, e.t), e.op, ns)
    ensures s'.pc[e.t].last == OK <==> HoldOf(s', e.t) != HoldOf(s, e.t)
  {
    hide Safe, Fits, CauseOf, Initial, Covered, Backed, Next, Wake, Readers, Writers;
    InitialHolds(s0);
    RunKeeps(s0, es, s);
    StepSafe(s, e);
    BeginFits(s, e);
    CallFits(Step(s, e), e.t, e.op, HoldOf(s, e.t), more, s');
    BackFits(s', e.t, e.op, HoldOf(s, e.t), Decided(s, e, more));
  }

  /** An unlock by a thread that does not have the lock is refused, and changes nothing, while another has it for writing
      or no reader is counted. */
  lemma StrangersRefused(last: Code, w: Words, e: Event)
    requires e.op.Unlock? && 0 < e.t < ID_LIMIT && w.oid != e.t && (IdBits(w.oid) != 0 || w.nrd == 0)
    ensures var m1 := Next(Out(last), w, e); var m2 := Next(m1.p, w, e); var m3 := Next(m2.p, w, e);
      && m3.p == Out(EPERM) && m1.w == m2.w == m3.w == w
      && m1.deed.Nothing? && m2.deed.Nothing? && m3.deed.Nothing?
  {
    assert Next(Out(last), w, e).p == Un(UnLoad);
  }

  /** Nobody goes to a wake in vain: an unlock wakes a writer only if one is queued and readers only if some are counted; a
      late writer hands the wake on only as the last one, of a free lock that readers are queued for. */
  lemma NoIdleWakes(s0: State, es: seq<Event>, s: State, e: Event)
    requires Initial(s0) && Run(s0, es, s) && Enabled(s, e)
    ensures var q := Step(s, e).pc[e.t];
      && (q == Un(UnWakeWr) ==> Any(s.pc, WrQueued))
      && (q == Un(UnWakeRd) ==> s.readers != multiset{} || Any(s.pc, RdQueued))
      && (q == Wr(WrHand) ==> s.w.oid == UNOWNED && Any(s.pc, RdQueued) && s.pc[e.t] == Wr(WrRecheck(1)))
      && (q == Rd(RdShare) ==> s.w.oid == UNOWNED && Any(s.pc, RdQueued))
  {
    hide Claimed, Covered, Backed, Initial, Next, Wake;
    InitialHolds(s0);
    RunKeeps(s0, es, s);
    MoveWakes(s.pc[e.t], s.w, e);
    TallyAny(s.pc, RdQueued);
    TallyAny(s.pc, WrQueued);
  }

  lemma MoveWakes(p: Pc, w: Words, e: Event)
    ensures var q := Next(p, w, e).p;
      && (q == Un(UnWakeWr) ==> w.qwr > 0) && (q == Un(UnWakeRd) ==> w.nrd > 0)
      && (q == Wr(WrHand) ==> w.oid == UNOWNED && w.nrd > 0 && p == Wr(WrRecheck(1)))
      && (q == Rd(RdShare) ==> w.oid == UNOWNED && w.nrd > 0)
  {
    match p
    case Out(_) =>
    case Rd(_) =>
    case Wr(_) =>
    case Un(_) =>
  }

  // Progress: what a thread comes to when it moves alone, no compare-and-swap fails for no reason and no deadline passes.

  /** An upper bound on the steps that a thread at `p` makes alone before it is outside or asleep. */
  function Rank(p: Pc, w: Words): nat {
    match p
    case Out(_) => 0
    case Rd(r) => RankRd(r, w)
    case Wr(q) => RankWr(q, w)
    case Un(u) => RankUn(u, w)
  }

  function RankRd(r: RdPc, w: Words): nat {
    match r
    case RdEntry(_) => 20
    case RdLoad(_) => 10
    case RdCas(_, o, n) => if o == w.oid && n == w.nrd then 5 else 15
    case RdShare => 1
    case RdEnter(_, o) => if o == w.oid then 4 else 13
    case RdWait(_, o) => if o == w.oid then 3 else 12
    case RdAsleep(_) => 0
    case RdLeave(_, _) => 11
  }

  function RankWr(q: WrPc, w: Words): nat {
    match q
    case WrEntry(_) => 20
    case WrPeek => 20
    case WrPeeked(_) => 19
    case WrLoad(_) => 10
    case WrCas(_) => if w.oid == UNOWNED then 5 else 11
    case WrEnter(_, o) => if o == w.oid then 8 else 14
    case WrWait(_, n, o) => if o == w.oid && n == w.qwr then 7 else 13
    case WrAsleep(_) => 0
    case WrLeave(_, _) => 12
    case WrRecheck(_) => 4
    case WrHand => 3
  }

  function RankUn(u: UnPc, w: Words): nat {
    match u
    case UnLoad => 20
    case UnOwner => 19
    case UnStore => 18
    case UnSeeWr => 10
    case UnSeeRd => 9
    case UnWakeWr => 5
    case UnWakeRd => 5
    case UnCount => 19
    case UnRdLoad => 16
    case UnRdCas(o, n) => if o == w.oid && n == w.nrd then 15 else 17
    case UnLastSee => 10
  }

  lemma MoveWinds(p: Pc, w: Words, e: Event)
    requires !p.Out? && !Asleep(p) && !e.fail && !e.late
    ensures Rank(Next(p, w, e).p, Next(p, w, e).w) < Rank(p, w)
  {
    match p
    case Out(_) =>
    case Rd(_) =>
    case Wr(_) =>
    case Un(_) =>
  }

  /** What thread `t` does next, alone; a wake picks a sleeping writer if there is one. */
  ghost function Alone(s: State, t: Tid): Event {
    var u := if Any(s.pc, WrSleeping) then (var x :| x in s.pc && WrSleeping(s.pc[x]); x) else t;
    Event(t, Unlock, false, false, u)
  }

  ghost predicate Steady(e: Event, t: Tid) { e.t == t && !e.fail && !e.late }

  /** The reader count is at its limit, which the interface rules out for a thread that would be counted. */
  predicate Full(s: State, t: Tid)
    requires t in s.pc
  {
    s.pc[t].Rd? && (s.pc[t].r.RdCas? || s.pc[t].r.RdEnter?) && s.w.nrd + 1 >= LIMB
  }

  predicate Rests(s: State, t: Tid)
    requires t in s.pc
  {
    s.pc[t].Out? || Asleep(s.pc[t]) || Full(s, t)
  }

  function RankOf(s: State, t: Tid): nat { if t in s.pc then Rank(s.pc[t], s.w) else 0 }

  lemma AloneWinds(s: State, t: Tid)
    requires t in s.pc && !Rests(s, t)
    ensures Steady(Alone(s, t), t) && Within(t)(s, Alone(s, t)).Some?
    ensures var s' := Within(t)(s, Alone(s, t)).value; t in s'.pc && RankOf(s', t) < RankOf(s, t)
  {
    hide Rank, Next, Wake;
    MoveWinds(s.pc[t], s.w, Alone(s, t));
  }

  /** No call spins: a thread that moves alone is outside or asleep after at most 20 steps. */
  lemma NeverSpins(s: State, t: Tid) returns (es: seq<Event>, s': State)
    requires t in s.pc
    ensures Leads(Within(t), s, es, s') && t in s'.pc && Rests(s', t) && |es| <= 20
    ensures forall e :: e in es ==> Steady(e, t)
  {
    RankBound(s, t);
    hide *;
    forall x: State | t in x.pc && !(t in x.pc && Rests(x, t))
      ensures Steady(Alone(x, t), t) && Within(t)(x, Alone(x, t)).Some?
      ensures var x' := Within(t)(x, Alone(x, t)).value; t in x'.pc && RankOf(x', t) < RankOf(x, t)
    {
      AloneWinds(x, t);
    }
    es, s' := Winds(Within(t), x => Alone(x, t), e => Steady(e, t), (x: State) => t in x.pc,
                    (x: State) => t in x.pc && Rests(x, t), x => RankOf(x, t), s);
  }

  lemma RankBound(s: State, t: Tid)
    ensures RankOf(s, t) <= 20
  {}

  /** The lock can be had by call `op`. */
  predicate Available(w: Words, op: Op) {
    match op
    case Read(_) => (w.oid == UNOWNED || w.oid == RO) && w.nrd + 1 < LIMB
    case Write(_) => w.oid == UNOWNED
    case Unlock => false
  }

  /** On the way to having it. */
  predicate Taking(p: Pc, w: Words, op: Op) {
    match p
    case Out(last) => last == OK
    case Rd(r) => r.RdShare? || (op.Read? && Available(w, op)
                                 && (r.RdEntry? || r.RdLoad? || (r.RdCas? && r.o == w.oid && r.n == w.nrd)))
    case Wr(q) =>
      op.Write? && Available(w, op) && (q.WrEntry? || q.WrPeek? || q == WrPeeked(UNOWNED) || q.WrLoad? || q.WrCas?)
    case Un(_) => false
  }

  lemma MoveTakes(p: Pc, w: Words, op: Op, e: Event)
    requires !p.Out? && Taking(p, w, op) && 0 < e.t < ID_LIMIT && !e.fail && !e.late
    ensures var m := Next(p, w, e); Taking(m.p, m.w, op) && Rank(m.p, m.w) < Rank(p, w) && !m.deed.WakeWriter?
  {}

  predicate TakingIn(s: State, t: Tid, op: Op) { t in s.pc && Taking(s.pc[t], s.w, op) }

  predicate DoneIn(s: State, t: Tid) { t in s.pc && s.pc[t].Out? }

  lemma AloneTakes(s: State, t: Tid, op: Op)
    requires TakingIn(s, t, op) && !DoneIn(s, t) && 0 < t < ID_LIMIT
    ensures Steady(Alone(s, t), t) && Within(t)(s, Alone(s, t)).Some?
    ensures var s' := Within(t)(s, Alone(s, t)).value; TakingIn(s', t, op) && RankOf(s', t) < RankOf(s, t)
  {
    hide Rank, Next, Wake;
    MoveTakes(s.pc[t], s.w, op, Alone(s, t));
  }

  lemma GoesOnToTake(s: State, t: Tid, op: Op) returns (es: seq<Event>, s': State)
    requires TakingIn(s, t, op) && 0 < t < ID_LIMIT
    ensures Leads(Within(t), s, es, s') && TakingIn(s', t, op) && DoneIn(s', t) && |es| <= 20
    ensures forall e :: e in es ==> Steady(e, t)
  {
    RankBound(s, t);
    hide *;
    forall x: State | TakingIn(x, t, op) && !DoneIn(x, t)
      ensures Steady(Alone(x, t), t) && Within(t)(x, Alone(x, t)).Some?
      ensures var x' := Within(t)(x, Alone(x, t)).value; TakingIn(x', t, op) && RankOf(x', t) < RankOf(x, t)
    {
      AloneTakes(x, t, op);
    }
    es, s' := Winds(Within(t), x => Alone(x, t), e => Steady(e, t), x => TakingIn(x, t, op), x => DoneIn(x, t),
                    x => RankOf(x, t), s);
  }

  /** A call of any kind that finds the lock available, and moves alone, is granted it and answers OK. */
  lemma TakesFree(s0: State, es: seq<Event>, s: State, e: Event) returns (more: seq<Event>, s': State)
    requires Initial(s0) && Run(s0, es, s) && Enabled(s, e) && s.pc[e.t].Out? && Available(s.w, e.op)
    ensures Leads(Within(e.t), Step(s, e), more, s') && |more| <= 20 && forall f :: f in more ==> Steady(f, e.t)
    ensures e.t in s'.pc && s'.pc[e.t] == Out(OK)
    ensures HoldOf(s', e.t) == HoldAfter(HoldOf(s, e.t), if e.op.Read? then GrantRead else GrantWrite)
  {
    hide Rank, Covered, Backed, Fits, Decided, Counted, Owned;
    InitialHolds(s0);
    RunKeeps(s0, es, s);
    more, s' := GoesOnToTake(Step(s, e), e.t, e.op);
    Answered(s0, es, s, e, more, s');
  }
}
