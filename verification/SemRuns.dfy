/** What every run of a semaphore keeps (pthread/sem.c). */
module SemRuns {
  import opened Threads
  import opened Sem
  import opened Runs

  function Share(p: Pc): nat { if Registered(p) then 1 else 0 }
  function Hope(p: Pc): nat { if Hopeful(p) then 1 else 0 }

  lemma MoveConserves(p: Pc, w: Words, e: Event)
    requires Here(p) && w.val <= SEM_VALUE_MAX && Share(p) <= w.nw < LIMB - 1 + Share(p)
    ensures var m := Next(p, w, e);
      && Here(m.p) && m.w.val <= SEM_VALUE_MAX
      && m.w.val == (if m.deed.Posted? then w.val + 1 else if m.deed.Taken? then w.val - 1 else w.val)
      && m.w.nw - Share(m.p) == w.nw - Share(p)
  {
    match p
    case Out(_) =>
    case Po(_) =>
    case Tw(_, _) =>
    case Sw(_) =>
  }

  lemma WakeKeepsCounts(s: State, e: Event)
    requires e.t in s.pc
    ensures var pc' := Wake(s.pc, Next(s.pc[e.t], s.w, e).deed, e.pick);
      pc'.Keys == s.pc.Keys && pc'[e.t] == s.pc[e.t] && Tally(pc', Registered) == Tally(s.pc, Registered)
  {
    var d := Next(s.pc[e.t], s.w, e).deed;
    var pc' := Wake(s.pc, d, e.pick);
    assert d.WakeOne? ==> s.pc[e.t] == Po(PoWake);
    assert Where(pc', Registered) == Where(s.pc, Registered);
  }

  lemma StepConserves(s: State, e: Event)
    requires Conserved(s) && Enabled(s, e)
    ensures Conserved(Step(s, e))
  {
    var t, m := e.t, Next(s.pc[e.t], s.w, e);
    var pc' := Wake(s.pc, m.deed, e.pick);
    Room(s.pc, t);
    MoveConserves(s.pc[t], s.w, e);
    WakeKeepsCounts(s, e);
    TallyStep(pc', Registered, t, m.p);
    assert pc'[t := m.p].Keys == s.pc.Keys;
  }

  lemma Room(pc: map<Tid, Pc>, t: Tid)
    requires t in pc && |pc| < LIMB
    ensures Share(pc[t]) <= Tally(pc, Registered) < LIMB - 1 + Share(pc[t])
  {
    var q := Sw(LvLoad(OK));
    TallyAny(pc, Registered);
    TallyStep(pc, Registered, t, q);
    TallyBound(pc[t := q], Registered);
    assert pc[t := q].Keys == pc.Keys;
  }

  /** The value never gains on the hopeful, except by a post that found no waiter; it is 0 when a hope is given up or
      a thread goes to sleep. */
  lemma MoveHopes(p: Pc, w: Words, e: Event)
    requires Here(p)
    ensures var m := Next(p, w, e);
      && (m.w.val <= w.val + Hope(m.p) - Hope(p)
          || m.w.val == 0 || (m.deed.Posted? && w.nw == 0) || m.deed.WakeOne?)
      && (Sleeping(m.p) ==> m.w.val == 0)
      && (m.deed.WakeOne? ==> p == Po(PoWake) && m.w == w && m.p == Out(OK))
  {
    match p
    case Out(_) =>
    case Po(_) =>
    case Tw(_, _) =>
    case Sw(_) =>
  }

  lemma StepPromises(s: State, e: Event)
    requires Conserved(s) && Promised(s) && Enabled(s, e)
    ensures Promised(Step(s, e))
  {
    var t, m, s' := e.t, Next(s.pc[e.t], s.w, e), Step(s, e);
    MoveHopes(s.pc[t], s.w, e);
    if u :| u in s'.pc && Sleeping(s'.pc[u]) && s'.w.val > 0 {
      assert u != t && u in s.pc && Sleeping(s.pc[u]);
      if m.deed.WakeOne? {
        var woken := s.pc[e.pick := Woken(s.pc[e.pick])];
        TallyStep(s.pc, Hopeful, e.pick, Woken(s.pc[e.pick]));
        TallyStep(woken, Hopeful, t, m.p);
      } else {
        assert Registered(s.pc[u]);
        TallyAny(s.pc, Registered);
        TallyStep(s.pc, Hopeful, t, m.p);
      }
    }
  }

  /** The state after a step, if it is possible. */
  function Attempt(s: State, e: Event): Option<State> { if Enabled(s, e) then Some(Step(s, e)) else None }

  /** `es` leads from `s` to `s'`. */
  ghost predicate Run(s: State, es: seq<Event>, s': State) { Leads(Attempt, s, es, s') }

  lemma RunKeeps(s: State, es: seq<Event>, s': State)
    requires Conserved(s) && Promised(s) && Run(s, es, s')
    ensures Conserved(s') && Promised(s') && s'.init == s.init
  {
    hide Conserved, Promised;
    forall x, e | Conserved(x) && Promised(x) && x.init == s.init && Enabled(x, e)
      ensures Conserved(Step(x, e)) && Promised(Step(x, e)) && Step(x, e).init == s.init
    {
      StepConserves(x, e);
      StepPromises(x, e);
    }
    Keeps(Attempt, x => Conserved(x) && Promised(x) && x.init == s.init, s, es, s');
  }

  lemma InitialHolds(s: State)
    requires Initial(s)
    ensures Conserved(s) && Promised(s)
  {
    TallyAny(s.pc, Registered);
  }

  /** Conservation: value plus successful waits is the initial value plus successful posts, within range; the waiter
      limb is exact although one path compares half the word and the others all of it. */
  lemma Conservation(s0: State, es: seq<Event>, s: State)
    requires Initial(s0) && Run(s0, es, s)
    ensures s.w.val + s.takes == s0.init + s.posts && s.w.val <= SEM_VALUE_MAX
    ensures s.w.nw == Tally(s.pc, Registered)
  {
    InitialHolds(s0);
    RunKeeps(s0, es, s);
  }

  predicate Quiet(s: State) { forall t :: t in s.pc ==> s.pc[t].Out? || Sleeping(s.pc[t]) }

  /** The wake-up bound, through timeouts, interruptions and cancellations; at rest, a sleeper means an empty
      semaphore. */
  lemma WakeUpBound(s0: State, es: seq<Event>, s: State)
    requires Initial(s0) && Run(s0, es, s) && Any(s.pc, Sleeping)
    ensures s.w.val <= Tally(s.pc, Hopeful)
    ensures Quiet(s) ==> s.w.val == 0 && s.takes == s0.init + s.posts
  {
    InitialHolds(s0);
    RunKeeps(s0, es, s);
    TallyAny(s.pc, Hopeful);
  }

  // A wait with a malformed deadline.

  const MALFORMED: Kind := Timed(false)

  /** Inside such a wait, before it gives up. */
  predicate Trying(p: Pc) {
    match p
    case Out(_) => false
    case Po(_) => false
    case Tw(_, from) => from == FastPath(MALFORMED)
    case Sw(x) => !x.LvLoad? && !x.LvCas? && !x.SwWait? && !x.SwAsleep? && x.k == MALFORMED
  }

  /** Giving up with the answer `code`, or back with it. */
  predicate Over(p: Pc, code: Code) {
    p == Out(code) || (p.Sw? && (p.x.LvLoad? || p.x.LvCas?) && p.x.code == code)
  }

  predicate Asks(p: Pc) { p == Sw(SwLoad(MALFORMED)) }

  /** Thread `t` does not begin another call in the run. */
  ghost predicate OneCall(s: State, es: seq<Event>, t: Tid)
    decreases |es|
  {
    es == [] || (Enabled(s, es[0]) && (es[0].t == t ==> !s.pc[t].Out?) && OneCall(Step(s, es[0]), es[1..], t))
  }

  /** At some step of the run thread `t`, registered as a waiter, reads the value 0. */
  ghost predicate ReadZero(s: State, es: seq<Event>, t: Tid)
    decreases |es|
  {
    && es != [] && Enabled(s, es[0])
    && ((es[0].t == t && Asks(s.pc[t]) && s.w.val == 0) || ReadZero(Step(s, es[0]), es[1..], t))
  }

  lemma MoveMalformed(p: Pc, w: Words, e: Event)
    ensures Trying(p) ==> var m := Next(p, w, e);
      if Asks(p) && w.val == 0 then Over(m.p, ETIMEDOUT) && !m.p.Out? else Trying(m.p) || m.p == Out(OK)
    ensures Over(p, ETIMEDOUT) && !p.Out? ==> Over(Next(p, w, e).p, ETIMEDOUT)
  {
    match p
    case Out(_) =>
    case Po(_) =>
    case Tw(_, _) =>
    case Sw(_) =>
  }

  lemma {:induction false} StaysOver(s: State, es: seq<Event>, s': State, t: Tid)
    requires Run(s, es, s') && OneCall(s, es, t) && t in s.pc && (s.pc[t] == Out(OK) || Over(s.pc[t], ETIMEDOUT))
    ensures t in s'.pc && (if s.pc[t] == Out(OK) then s'.pc[t] == Out(OK) else Over(s'.pc[t], ETIMEDOUT))
    decreases |es|
  {
    if es != [] {
      MoveMalformed(s.pc[t], s.w, es[0]);
      StaysOver(Step(s, es[0]), es[1..], s', t);
    }
  }

  /** Reading 0 decides the call. */
  lemma {:induction false} ReadZeroEnds(s: State, es: seq<Event>, s': State, t: Tid)
    requires Run(s, es, s') && OneCall(s, es, t) && t in s.pc && Trying(s.pc[t]) && ReadZero(s, es, t)
    ensures t in s'.pc && Over(s'.pc[t], ETIMEDOUT)
    decreases |es|
  {
    var m := Step(s, es[0]);
    MoveMalformed(s.pc[t], s.w, es[0]);
    if es[0].t == t && Asks(s.pc[t]) && s.w.val == 0 {
      StaysOver(m, es[1..], s', t);
    } else if Trying(m.pc[t]) {
      ReadZeroEnds(m, es[1..], s', t);
    } else {
      NeverAsks(m, es[1..], t);
    }
  }

  /** A call that has taken the semaphore reads no more. */
  lemma {:induction false} NeverAsks(s: State, es: seq<Event>, t: Tid)
    requires OneCall(s, es, t) && t in s.pc && s.pc[t] == Out(OK)
    ensures !ReadZero(s, es, t)
    decreases |es|
  {
    if es != [] { NeverAsks(Step(s, es[0]), es[1..], t); }
  }

  /** `sem_timedwait` with a malformed deadline answers ETIMEDOUT or takes the semaphore, and never sleeps; it answers
      ETIMEDOUT if and only if it reads the value 0 as a registered waiter. */
  lemma {:induction false} MalformedDeadline(s: State, es: seq<Event>, s': State, t: Tid)
    requires Run(s, es, s') && OneCall(s, es, t) && t in s.pc && Trying(s.pc[t])
    ensures t in s'.pc && !Sleeping(s'.pc[t])
    ensures Trying(s'.pc[t]) || s'.pc[t] == Out(OK) || Over(s'.pc[t], ETIMEDOUT)
    ensures Over(s'.pc[t], ETIMEDOUT) <==> ReadZero(s, es, t)
    decreases |es|
  {
    if ReadZero(s, es, t) {
      ReadZeroEnds(s, es, s', t);
    } else if es != [] {
      var m := Step(s, es[0]);
      MoveMalformed(s.pc[t], s.w, es[0]);
      if Trying(m.pc[t]) { MalformedDeadline(m, es[1..], s', t); } else { StaysOver(m, es[1..], s', t); }
    }
  }

  predicate Waits(p: Pc) { p.Sw? && (p.x.SwWait? || p.x.SwAsleep?) && p.x.k == MALFORMED }

  lemma MoveAwake(p: Pc, w: Words, e: Event)
    requires !Waits(p)
    ensures !Waits(Next(p, w, e).p)
  {
    match p
    case Out(_) =>
    case Po(_) =>
    case Tw(_, _) =>
    case Sw(_) =>
  }

  /** In no state of any run is a thread asleep, or about to be, in a wait with a malformed deadline. */
  lemma NeverSleepsMalformed(s0: State, es: seq<Event>, s: State)
    requires Initial(s0) && Run(s0, es, s)
    ensures !Any(s.pc, Waits)
  {
    forall x: State, e | !Any(x.pc, Waits) && Enabled(x, e)
      ensures !Any(Step(x, e).pc, Waits)
    {
      MoveAwake(x.pc[e.t], x.w, e);
      assert forall u :: u in Step(x, e).pc && u != e.t && Waits(Step(x, e).pc[u]) ==> u in x.pc && Waits(x.pc[u]);
    }
    Keeps(Attempt, (x: State) => !Any(x.pc, Waits), s0, es, s);
  }

  /** One thread, at `p`. */
  function Only(p: Pc, w: Words): State { State(w, map[1 := p], 0, 0, 0) }

  ghost predicate Comes(p: Pc, w: Words) { Reaches(Attempt, Only(Out(OK), Words(0, 0)), Only(p, w)) }

  lemma Hop(p: Pc, w: Words, p': Pc, w': Words)
    requires Comes(p, w) && p != Po(PoWake)
    requires Next(p, w, Event(1, Wait(MALFORMED), false, false, NoCut, 1)) == Move(p', w', Nothing)
    ensures Comes(p', w')
  {
    var e := Event(1, Wait(MALFORMED), false, false, NoCut, 1);
    assert Only(p, w).pc[1 := p'] == Only(p', w').pc;
    assert Step(Only(p, w), e) == Only(p', w');
    ReachesOn(Attempt, Only(Out(OK), Words(0, 0)), Only(p, w), e);
  }

  lemma TimesOut()
    requires Comes(Out(OK), Words(0, 0))
    ensures Comes(Out(ETIMEDOUT), Words(0, 0))
  {
    hide Comes;
    var k, w, w1 := MALFORMED, Words(0, 0), Words(0, 1);
    Hop(Out(OK), w, Tw(TwLoad, FastPath(k)), w);
    Hop(Tw(TwLoad, FastPath(k)), w, Sw(EnLoad(k)), w);
    Hop(Sw(EnLoad(k)), w, Sw(EnCas(k, 0, 0)), w);
    Hop(Sw(EnCas(k, 0, 0)), w, Sw(SwLoad(k)), w1);
    Hop(Sw(SwLoad(k)), w1, Sw(LvLoad(ETIMEDOUT)), w1);
    Hop(Sw(LvLoad(ETIMEDOUT)), w1, Sw(LvCas(ETIMEDOUT, 0, 1)), w1);
    Hop(Sw(LvCas(ETIMEDOUT, 0, 1)), w1, Out(ETIMEDOUT), w);
  }

  /** So it does on an empty semaphore that nobody posts. */
  lemma MalformedTimesOut() returns (es: seq<Event>)
    ensures Initial(Only(Out(OK), Words(0, 0)))
    ensures Run(Only(Out(OK), Words(0, 0)), es, Only(Out(ETIMEDOUT), Words(0, 0)))
  {
    Stays(Attempt, Only(Out(OK), Words(0, 0)));
    TimesOut();
    es :| Leads(Attempt, Only(Out(OK), Words(0, 0)), es, Only(Out(ETIMEDOUT), Words(0, 0)));
  }
}
