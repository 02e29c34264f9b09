/** What the calls of a semaphore answer, and that they come to an answer (pthread/sem.c). */
module SemAnswers {
  import opened Threads
  import opened Sem
  import opened SemRuns
  import opened Runs

  /** What decides a call: a unit was put in or taken out; the semaphore was found full or empty; the deadline is
      malformed or passed while the call was waiting; the sleep was cut short. */
  datatype Cause = Put | Got | Full | Empty | Malformed | Late | Interrupted | Cancelled

  function Answer(c: Cause): Code {
    match c
    case Put | Got => OK
    case Full => EOVERFLOW
    case Empty => EAGAIN
    case Malformed | Late => ETIMEDOUT
    case Interrupted => EINTR
    case Cancelled => CANCELED
  }

  /** The calls that a cause may decide. */
  predicate Apt(c: Cause, op: Op) {
    match c
    case Put | Full => op.Post?
    case Got => op.TryWait? || op.Wait?
    case Empty => op.TryWait?
    case Malformed => op == Wait(MALFORMED)
    case Late => op.Wait? && op.k.Timed?
    case Interrupted | Cancelled => op.Wait?
  }

  /** What is in the semaphore, by what was put in and taken out. */
  function Units(s: State): int { s.init + s.posts - s.takes }

  /** What turns down or ends call `op` at point `p`, with `units` in the semaphore. */
  function Turned(p: Pc, op: Op, e: Event, units: int): Option<Cause> {
    match op
    case Post => if p == Po(PoLoad) && units == SEM_VALUE_MAX then Some(Full) else None
    case TryWait => if p.Tw? && p.y.TwLoad? && units == 0 then Some(Empty) else None
    case Wait(k) =>
      if !p.Sw? then None
      else if p.x.SwLoad? && units == 0 && k == MALFORMED then Some(Malformed)
      else if p.x.SwAsleep? && e.cut.Cancel? then Some(Cancelled)
      else if p.x.SwAsleep? && e.cut.Interrupt? then Some(Interrupted)
      else if (p.x.SwWait? || p.x.SwAsleep?) && k.Timed? && e.late then Some(Late)
      else None
  }

  /** What a step decides of call `op` of thread `t`. */
  function CauseOf(s: State, e: Event, t: Tid, op: Op): Option<Cause> {
    if !Enabled(s, e) || e.t != t then None
    else if Step(s, e).posts > s.posts then Some(Put)
    else if Step(s, e).takes > s.takes then Some(Got)
    else Turned(s.pc[t], op, e, Units(s))
  }

  /** The machine while thread `t` is in a call. */
  function Within(t: Tid): (State, Event) -> Option<State> {
    (s: State, e: Event) => if e.t == t && t in s.pc && s.pc[t].Out? then None else Attempt(s, e)
  }

  /** What decides the call that thread `e.t` begins with `e`, in the run `es` that follows. */
  function Decided(s: State, e: Event, es: seq<Event>): seq<Cause> {
    if Enabled(s, e) then Collect(Within(e.t), (x, f) => CauseOf(x, f, e.t, e.op), Step(s, e), es) else []
  }

  /** Where call `op` may be. */
  predicate Serves(p: Pc, op: Op) {
    match p
    case Out(_) => true
    case Po(_) => op.Post?
    case Tw(_, from) => if from.TryOnly? then op.TryWait? else op == Wait(from.k)
    case Sw(x) => op.Wait? && (x.LvLoad? || x.LvCas? || x.k == op.k)
  }

  predicate Settled(c: Code, op: Op, ns: seq<Cause>) { |ns| == 1 && c == Answer(ns[0]) && Apt(ns[0], op) }

  /** What must have been decided of call `op` at point `p`. */
  predicate Told(p: Pc, op: Op, ns: seq<Cause>) {
    match p
    case Out(last) => Settled(last, op, ns)
    case Po(q) => ns == if q.PoWake? then [Put] else []
    case Tw(_, _) => ns == []
    case Sw(x) => if x.LvLoad? || x.LvCas? then Settled(x.code, op, ns) && x.code != OK else ns == []
  }

  ghost predicate Fits(s: State, t: Tid, op: Op, ns: seq<Cause>) {
    t in s.pc && Serves(s.pc[t], op) && Told(s.pc[t], op, ns)
  }

  /** The scalar form of what a step of the caller decides. */
  function Note(p: Pc, op: Op, e: Event, w: Words, d: Deed): Option<Cause> {
    if d.Posted? then Some(Put) else if d.Taken? then Some(Got) else Turned(p, op, e, w.val)
  }

  lemma PostTells(p: Pc, op: Op, e: Event, w: Words, ns: seq<Cause>)
    requires p.Po? && Serves(p, op) && Told(p, op, ns)
    ensures var m := PostMove(p.p, w, e); Serves(m.p, op) && Told(m.p, op, ns + One(Note(p, op, e, w, m.deed)))
  {}

  lemma TryTells(p: Pc, op: Op, e: Event, w: Words, ns: seq<Cause>)
    requires p.Tw? && Serves(p, op) && Told(p, op, ns)
    ensures var m := TryMove(p.y, p.from, w, e); Serves(m.p, op) && Told(m.p, op, ns + One(Note(p, op, e, w, m.deed)))
  {}

  lemma SlowTells(p: Pc, op: Op, e: Event, w: Words, ns: seq<Cause>)
    requires p.Sw? && Serves(p, op) && Told(p, op, ns)
    ensures var m := SlowMove(p.x, w, e); Serves(m.p, op) && Told(m.p, op, ns + One(Note(p, op, e, w, m.deed)))
  {}

  lemma OwnStepFits(s: State, e: Event, op: Op, ns: seq<Cause>)
    requires Conserved(s) && Enabled(s, e) && Fits(s, e.t, op, ns) && !s.pc[e.t].Out?
    ensures Fits(Step(s, e), e.t, op, ns + One(CauseOf(s, e, e.t, op)))
  {
    hide Serves, Told, Turned, Wake;
    var p := s.pc[e.t];
    assert CauseOf(s, e, e.t, op) == Note(p, op, e, s.w, Next(p, s.w, e).deed);
    match p
    case Out(_) =>
    case Po(_) => PostTells(p, op, e, s.w, ns);
    case Tw(_, _) => TryTells(p, op, e, s.w, ns);
    case Sw(_) => SlowTells(p, op, e, s.w, ns);
  }

  lemma OthersStepFits(s: State, e: Event, t: Tid, op: Op, ns: seq<Cause>)
    requires Enabled(s, e) && e.t != t && Fits(s, t, op, ns)
    ensures Fits(Step(s, e), t, op, ns)
  {}

  lemma WithinFits(s: State, e: Event, t: Tid, op: Op, ns: seq<Cause>)
    requires Conserved(s) && Fits(s, t, op, ns) && Within(t)(s, e).Some?
    ensures var s' := Within(t)(s, e).value; Conserved(s') && Fits(s', t, op, ns + One(CauseOf(s, e, t, op)))
  {
    hide Conserved, Told, Serves, Turned, Next, Wake;
    StepConserves(s, e);
    if e.t == t {
      OwnStepFits(s, e, op, ns);
    } else {
      OthersStepFits(s, e, t, op, ns);
      assert ns + [] == ns;
    }
  }

  lemma CallFits(s: State, t: Tid, op: Op, es: seq<Event>, s': State)
    requires Conserved(s) && Fits(s, t, op, []) && Leads(Within(t), s, es, s')
    ensures Fits(s', t, op, Collect(Within(t), (x, f) => CauseOf(x, f, t, op), s, es))
  {
    hide *;
    forall x, f, g | (Conserved(x) && Fits(x, t, op, g)) && Within(t)(x, f).Some?
      ensures var x' := Within(t)(x, f).value; Conserved(x') && Fits(x', t, op, g + One(CauseOf(x, f, t, op)))
    {
      WithinFits(x, f, t, op, g);
    }
    Gathers(Within(t), (x, f) => CauseOf(x, f, t, op), (x, g) => Conserved(x) && Fits(x, t, op, g), s, es, s', []);
    var ns := Collect(Within(t), (x, f) => CauseOf(x, f, t, op), s, es);
    assert [] + ns == ns;
  }

  /** A call that is back was decided by one event, and answers accordingly: OK if and only if it put a unit in or took
      one out. */
  lemma Answered(s0: State, es: seq<Event>, s: State, e: Event, more: seq<Event>, s': State)
    requires Initial(s0) && Run(s0, es, s) && Enabled(s, e) && s.pc[e.t].Out?
    requires Leads(Within(e.t), Step(s, e), more, s') && e.t in s'.pc && s'.pc[e.t].Out?
    ensures var ns := Decided(s, e, more); |ns| == 1 && s'.pc[e.t].last == Answer(ns[0]) && Apt(ns[0], e.op)
  {
    hide Conserved, Promised, CauseOf, Initial, Wake;
    InitialHolds(s0);
    RunKeeps(s0, es, s);
    StepConserves(s, e);
    CallFits(Step(s, e), e.t, e.op, more, s');
  }

  // Conservation in the answers given.

  /** The step brings a wait or trywait to the answer OK. */
  predicate WaitSucceeds(s: State, e: Event) {
    Enabled(s, e) && (s.pc[e.t].Tw? || s.pc[e.t].Sw?) && Step(s, e).pc[e.t] == Out(OK)
  }

  /** The step brings a post to the answer OK. */
  predicate PostSucceeds(s: State, e: Event) { Enabled(s, e) && s.pc[e.t].Po? && Step(s, e).pc[e.t] == Out(OK) }

  /** How often something happens in a run. */
  function Times(what: (State, Event) -> bool, s: State, es: seq<Event>): nat
    decreases |es|
  {
    if es == [] then 0
    else (if what(s, es[0]) then 1 else 0) + if Enabled(s, es[0]) then Times(what, Step(s, es[0]), es[1..]) else 0
  }

  /** A post that has put its unit in and has a wake to do. */
  predicate Unsaid(p: Pc) { p == Po(PoWake) }

  /** Nobody gives up with the answer OK. */
  predicate Honest(p: Pc) { p.Sw? && (p.x.LvLoad? || p.x.LvCas?) ==> p.x.code != OK }

  ghost predicate AllHonest(s: State) { forall t :: t in s.pc ==> Honest(s.pc[t]) }

  lemma MoveSays(p: Pc, w: Words, e: Event)
    requires Honest(p)
    ensures var m := Next(p, w, e);
      && Honest(m.p)
      && (m.deed.Taken? <==> (p.Tw? || p.Sw?) && m.p == Out(OK))
      && (m.deed.Posted? <==> p.Po? && !Unsaid(p) && (Unsaid(m.p) || m.p == Out(OK)))
      && (Unsaid(p) ==> m.p == Out(OK)) && (Unsaid(m.p) ==> p.Po? && w.nw > 0)
  {
    match p
    case Out(_) =>
    case Po(_) =>
    case Tw(_, _) =>
    case Sw(_) =>
  }

  /** A wait or trywait answers OK with the step that takes a unit out, and with no other. A post goes on to a wake only if
      somebody is registered. */
  lemma StepSays(s: State, e: Event)
    requires AllHonest(s) && Enabled(s, e)
    ensures var s' := Step(s, e);
      && AllHonest(s') && s'.init == s.init && (Unsaid(s'.pc[e.t]) ==> s.w.nw > 0)
      && s'.takes == s.takes + (if WaitSucceeds(s, e) then 1 else 0)
      && s'.posts + Tally(s.pc, Unsaid) == s.posts + Tally(s'.pc, Unsaid) + (if PostSucceeds(s, e) then 1 else 0)
  {
    var m := Next(s.pc[e.t], s.w, e);
    var pc' := Wake(s.pc, m.deed, e.pick);
    MoveSays(s.pc[e.t], s.w, e);
    assert m.deed.WakeOne? ==> s.pc[e.t] == Po(PoWake);
    assert Where(pc', Unsaid) == Where(s.pc, Unsaid);
    TallyStep(pc', Unsaid, e.t, m.p);
    forall u | u in Step(s, e).pc
      ensures Honest(Step(s, e).pc[u])
    {
      if u != e.t { assert Honest(s.pc[u]); }
    }
  }

  lemma {:induction false} RunSays(s: State, es: seq<Event>, s': State)
    requires AllHonest(s) && Run(s, es, s')
    ensures s'.takes == s.takes + Times(WaitSucceeds, s, es) && s'.init == s.init
    ensures s'.posts + Tally(s.pc, Unsaid) == s.posts + Tally(s'.pc, Unsaid) + Times(PostSucceeds, s, es)
    decreases |es|
  {
    hide AllHonest, Step, WaitSucceeds, PostSucceeds;
    if es != [] {
      StepSays(s, es[0]);
      RunSays(Step(s, es[0]), es[1..], s');
    }
  }

  /** Conservation by the answers: the value, and the waits and trywaits that have answered OK, make up the initial value,
      the posts that have answered OK and those that are about to. */
  lemma AnswersBalance(s0: State, es: seq<Event>, s: State)
    requires Initial(s0) && Run(s0, es, s)
    ensures s.w.val + Times(WaitSucceeds, s0, es) == s0.init + Times(PostSucceeds, s0, es) + Tally(s.pc, Unsaid)
  {
    TallyAny(s0.pc, Unsaid);
    RunSays(s0, es, s);
    Conservation(s0, es, s);
  }

  // Progress: what a thread comes to when it moves alone, no compare-and-swap fails for no reason and no deadline passes.

  /** An upper bound on the steps that a thread at `p` makes alone before it is outside or asleep. */
  function Rank(p: Pc, w: Words): nat {
    match p
    case Out(_) => 0
    case Po(q) => if q.PoWake? then 1 else if q.PoLoad? then 3 else if q.v == w.val && q.n == w.nw then 2 else 4
    case Tw(y, _) => if y.TwLoad? then 12 else if y.v == w.val then 11 else 13
    case Sw(x) => RankSlow(x, w)
  }

  function RankSlow(x: SwPc, w: Words): nat {
    match x
    case EnLoad(_) => 10
    case EnCas(_, v, n) => if v == w.val && n == w.nw then 9 else 11
    case SwLoad(_) => 5
    case SwCas(_, v, n) => if v == w.val && n == w.nw then 4 else 6
    case SwWait(_) => if w.val == 0 then 1 else 6
    case SwAsleep(_) => 0
    case LvLoad(_) => 3
    case LvCas(_, v, n) => if v == w.val && n == w.nw then 2 else 4
  }

  lemma MoveWinds(p: Pc, w: Words, e: Event)
    requires !p.Out? && !Sleeping(p) && !e.fail && !e.late
    ensures Rank(Next(p, w, e).p, Next(p, w, e).w) < Rank(p, w)
  {
    match p
    case Out(_) =>
    case Po(_) =>
    case Tw(_, _) =>
    case Sw(_) =>
  }

  /** What thread `t` does next, alone; a wake picks a sleeper if there is one. */
  ghost function Alone(s: State, t: Tid): Event {
    Event(t, Post, false, false, NoCut,
          if Any(s.pc, Sleeping) then (var u :| u in s.pc && Sleeping(s.pc[u]); u) else t)
  }

  ghost predicate Steady(e: Event, t: Tid) { e.t == t && !e.fail && !e.late && e.cut.NoCut? }

  predicate Rests(s: State, t: Tid) { t in s.pc && (s.pc[t].Out? || Sleeping(s.pc[t])) }

  function RankOf(s: State, t: Tid): nat { if t in s.pc then Rank(s.pc[t], s.w) else 0 }

  lemma RankBound(s: State, t: Tid)
    ensures RankOf(s, t) <= 13
  {}

  lemma AloneWinds(s: State, t: Tid)
    requires t in s.pc && !Rests(s, t)
    ensures Steady(Alone(s, t), t) && Within(t)(s, Alone(s, t)).Some?
    ensures var s' := Within(t)(s, Alone(s, t)).value; t in s'.pc && RankOf(s', t) < RankOf(s, t)
  {
    hide Rank, Next, Wake;
    MoveWinds(s.pc[t], s.w, Alone(s, t));
  }

  /** No call spins: a thread that moves alone is outside or asleep after at most 13 steps. */
  lemma NeverSpins(s: State, t: Tid) returns (es: seq<Event>, s': State)
    requires t in s.pc
    ensures Leads(Within(t), s, es, s') && Rests(s', t) && |es| <= 13 && forall e :: e in es ==> Steady(e, t)
  {
    RankBound(s, t);
    hide *;
    forall x: State | t in x.pc && !Rests(x, t)
      ensures Steady(Alone(x, t), t) && Within(t)(x, Alone(x, t)).Some?
      ensures var x' := Within(t)(x, Alone(x, t)).value; t in x'.pc && RankOf(x', t) < RankOf(x, t)
    {
      AloneWinds(x, t);
    }
    es, s' := Winds(Within(t), x => Alone(x, t), e => Steady(e, t), (x: State) => t in x.pc, x => Rests(x, t),
                    x => RankOf(x, t), s);
  }

  /** On the way to putting a unit in, or to taking one out. */
  predicate Succeeding(p: Pc, w: Words) {
    match p
    case Out(last) => last == OK
    case Po(q) => q.PoWake? || (w.val < SEM_VALUE_MAX && (q.PoCas? ==> q.v == w.val && q.n == w.nw))
    case Tw(y, _) => w.val > 0 && (y.TwCas? ==> y.v == w.val)
    case Sw(x) => w.val > 0 && (x.SwLoad? || (x.SwCas? && x.v == w.val && x.n == w.nw))
  }

  predicate SucceedingIn(s: State, t: Tid) { t in s.pc && Succeeding(s.pc[t], s.w) }

  predicate DoneIn(s: State, t: Tid) { t in s.pc && s.pc[t].Out? }

  lemma MoveSucceeds(p: Pc, w: Words, e: Event)
    requires !p.Out? && Succeeding(p, w) && !e.fail && !e.late
    ensures Succeeding(Next(p, w, e).p, Next(p, w, e).w)
    ensures Rank(Next(p, w, e).p, Next(p, w, e).w) < Rank(p, w)
  {}

  lemma AloneSucceeds(s: State, t: Tid)
    requires SucceedingIn(s, t) && !DoneIn(s, t)
    ensures Steady(Alone(s, t), t) && Within(t)(s, Alone(s, t)).Some?
    ensures var s' := Within(t)(s, Alone(s, t)).value; SucceedingIn(s', t) && RankOf(s', t) < RankOf(s, t)
  {
    hide Rank, Next, Wake;
    MoveSucceeds(s.pc[t], s.w, Alone(s, t));
  }

  /** A thread that has been woken, or is about to try, and moves alone, takes a unit if there is one. */
  lemma GoesOnToSucceed(s: State, t: Tid) returns (es: seq<Event>, s': State)
    requires SucceedingIn(s, t)
    ensures Leads(Within(t), s, es, s') && |es| <= 13 && forall e :: e in es ==> Steady(e, t)
    ensures t in s'.pc && s'.pc[t] == Out(OK)
  {
    RankBound(s, t);
    Winding(s, t);
    hide Rank, Within, Next, Wake;
    es, s' := Winds(Within(t), x => Alone(x, t), e => Steady(e, t), x => SucceedingIn(x, t), x => DoneIn(x, t),
                    x => RankOf(x, t), s);
  }

  lemma Winding(s: State, t: Tid)
    ensures forall x: State :: SucceedingIn(x, t) && !DoneIn(x, t) ==>
      && Steady(Alone(x, t), t) && Within(t)(x, Alone(x, t)).Some?
      && var x' := Within(t)(x, Alone(x, t)).value; SucceedingIn(x', t) && RankOf(x', t) < RankOf(x, t)
  {
    hide *;
    forall x: State | SucceedingIn(x, t) && !DoneIn(x, t)
      ensures Steady(Alone(x, t), t) && Within(t)(x, Alone(x, t)).Some?
      ensures var x' := Within(t)(x, Alone(x, t)).value; SucceedingIn(x', t) && RankOf(x', t) < RankOf(x, t)
    {
      AloneSucceeds(x, t);
    }
  }

  /** A post to a semaphore that is not full, and a wait or trywait on one that is not empty, answer OK when the caller
      moves alone, having put a unit in or taken one out. */
  lemma Succeeds(s0: State, es: seq<Event>, s: State, e: Event) returns (more: seq<Event>, s': State)
    requires Initial(s0) && Run(s0, es, s) && Enabled(s, e) && s.pc[e.t].Out?
    requires if e.op.Post? then Units(s) < SEM_VALUE_MAX else Units(s) > 0
    ensures Leads(Within(e.t), Step(s, e), more, s') && |more| <= 13 && forall f :: f in more ==> Steady(f, e.t)
    ensures e.t in s'.pc && s'.pc[e.t] == Out(OK)
    ensures Decided(s, e, more) == [if e.op.Post? then Put else Got]
  {
    InitialHolds(s0);
    RunKeeps(s0, es, s);
    assert SucceedingIn(Step(s, e), e.t);
    hide Rank, Decided, Within, Next, Wake, Succeeding;
    more, s' := GoesOnToSucceed(Step(s, e), e.t);
    Answered(s0, es, s, e, more, s');
  }
}
