/** What every run of pthread_once keeps (pthread/once.c). */
module OnceRuns {
  import opened Threads
  import opened Once
  import opened Runs

  /** Tokens of different processes differ, and from the other two values of the variable. */
  lemma TokensAreUnique(p: nat, q: nat)
    ensures Token(p) == Token(q) <==> p == q
    ensures Token(p) != INIT && Token(p) != DONE
  {
    assert Token(p) % 4 == 1;
  }

  /** A bystander keeps its part in the protocol. */
  lemma Bystander(s: State, e: Event, u: Tid)
    requires Enabled(s, e) && u in s.pc && u != e.t
    ensures u in Step(s, e).pc
    ensures Step(s, e).pc[u] == s.pc[u] || (Sleeping(s.pc[u]) && Step(s, e).pc[u] == OnTop)
    ensures Sleeping(Step(s, e).pc[u]) ==> Sleeping(s.pc[u]) && !Next(s.pc[e.t], s.w, s.pid, e).deed.WakeAll?
  {}

  /** The token is taken by the thread that becomes active, and put back by it alone. */
  lemma MoveExclusive(p: Pc, w: nat, pid: nat, e: Event)
    requires p.OnCas? ==> p.v != DONE && p.v != Token(pid)
    requires Active(p) ==> w == Token(pid)
    ensures var m := Next(p, w, pid, e);
      && (Active(m.p) && !Active(p) ==> w != Token(pid))
      && (if Active(p) || Active(m.p) then (m.w == Token(pid) <==> Active(m.p)) else m.w == w)
      && (m.p.OnCas? ==> m.p.v != DONE && m.p.v != Token(pid))
  {
    TokensAreUnique(pid, pid);
  }

  lemma StepExclusive(s: State, e: Event)
    requires Exclusive(s) && Enabled(s, e)
    ensures Exclusive(Step(s, e))
  {
    var t, s' := e.t, Step(s, e);
    MoveExclusive(s.pc[t], s.w, s.pid, e);
    forall u | u in s.pc && u != t
      ensures u in s'.pc && (Active(s'.pc[u]) <==> Active(s.pc[u])) && (s'.pc[u].OnCas? ==> s'.pc[u] == s.pc[u])
    {
      Bystander(s, e, u);
    }
    assert t in s'.pc;
    assert Any(s'.pc, Active) <==> Active(s'.pc[t]) || (exists u :: u in s.pc && u != t && Active(s.pc[u]));
  }

  lemma StepCompletedOnce(s: State, e: Event)
    requires Exclusive(s) && CompletedOnce(s) && Enabled(s, e)
    ensures CompletedOnce(Step(s, e))
  {
    var t, s', m := e.t, Step(s, e), Next(s.pc[e.t], s.w, s.pid, e);
    TokensAreUnique(s.pid, s.pid);
    forall u | u in s.pc && u != t
      ensures u in s'.pc && (Finishing(s'.pc[u]) <==> Finishing(s.pc[u]))
    {
      Bystander(s, e, u);
    }
    assert t in s'.pc && s'.pc[t] == m.p;
    if Active(s.pc[t]) {
      assert Any(s.pc, Active);
      assert forall u :: u in s.pc && u != t ==> !Finishing(s.pc[u]);
    }
    if u :| u in s.pc && u != t && Finishing(s.pc[u]) {
      assert Active(s.pc[u]) && u in s'.pc && Finishing(s'.pc[u]);
    }
  }

  lemma StepCovered(s: State, e: Event)
    requires Exclusive(s) && Covered(s) && Enabled(s, e)
    ensures Covered(Step(s, e))
  {
    var t, s', m := e.t, Step(s, e), Next(s.pc[e.t], s.w, s.pid, e);
    if u :| u in s'.pc && Sleeping(s'.pc[u]) {
      assert t in s'.pc && s'.pc[t] == m.p;
      if u != t {
        Bystander(s, e, u);
        if s.w != Token(s.pid) {
          var x :| x in s.pc && Notifying(s.pc[x]);
          if x != t { Bystander(s, e, x); }
        }
      }
    }
  }

  /** The state after a step, if it is possible. */
  function Attempt(s: State, e: Event): Option<State> { if Enabled(s, e) then Some(Step(s, e)) else None }

  /** `es` leads from `s` to `s'`. */
  ghost predicate Run(s: State, es: seq<Event>, s': State) { Leads(Attempt, s, es, s') }

  lemma StepSafe(s: State, e: Event)
    requires Safe(s) && Enabled(s, e)
    ensures Safe(Step(s, e)) && Step(s, e).pid == s.pid
  {
    StepExclusive(s, e);
    StepCompletedOnce(s, e);
    StepCovered(s, e);
  }

  lemma RunKeeps(s: State, es: seq<Event>, s': State)
    requires Safe(s) && Run(s, es, s')
    ensures Safe(s') && s'.pid == s.pid
  {
    hide Step, Safe;
    forall x, e | Safe(x) && x.pid == s.pid && Enabled(x, e)
      ensures Safe(Step(x, e)) && Step(x, e).pid == s.pid
    {
      StepSafe(x, e);
    }
    Keeps(Attempt, x => Safe(x) && x.pid == s.pid, s, es, s');
  }

  lemma InitialHolds(s: State)
    requires Initial(s)
    ensures Safe(s)
  {
    TokensAreUnique(s.pid, s.pid);
    if s.w != INIT && s.w != DONE {
      var q: nat :| q < PID_LIMIT && q != s.pid && s.w == Token(q);
      TokensAreUnique(q, s.pid);
    }
  }

  /** However often initialisers are cancelled, never two are active, and at most one ever completes. */
  lemma AtMostOnce(s0: State, es: seq<Event>, s: State)
    requires Initial(s0) && Run(s0, es, s)
    ensures forall t, u :: t in s.pc && u in s.pc && Active(s.pc[t]) && Active(s.pc[u]) ==> t == u
    ensures s.completed <= 1
    ensures s.completed == 1 ==> forall t :: t in s.pc ==> !s.pc[t].OnRun?
  {
    InitialHolds(s0);
    RunKeeps(s0, es, s);
    TokensAreUnique(s.pid, s.pid);
    if t :| t in s.pc && s.pc[t].OnRun? {
      assert Active(s.pc[t]) && Any(s.pc, Active);
      assert !Any(s.pc, Finishing);
    }
  }

  /** A thread returns only after an initialiser has completed, and none starts after that. */
  lemma ReturnsAfterCompletion(s0: State, es: seq<Event>, s: State, e: Event)
    requires Initial(s0) && Run(s0, es, s) && Enabled(s, e)
    ensures Step(s, e).pc[e.t].Out? ==> s.completed == 1
    ensures Next(s.pc[e.t], s.w, s.pid, e).deed.Start? ==> s.completed == 0
  {
    InitialHolds(s0);
    RunKeeps(s0, es, s);
    TokensAreUnique(s.pid, s.pid);
    if s.pc[e.t].OnSet? { assert Finishing(s.pc[e.t]); }
    if s.pc[e.t].OnCas? && Any(s.pc, Finishing) {
      var x :| x in s.pc && Finishing(s.pc[x]);
      assert Active(s.pc[x]) && Any(s.pc, Active);
    }
  }

  predicate Quiet(s: State) {
    forall t :: t in s.pc ==> s.pc[t].Out? || s.pc[t].Gone? || Sleeping(s.pc[t]) || s.pc[t].OnRun?
  }

  /** When nothing but initialisers runs, a sleeper sleeps because one does. */
  lemma SleepersAtRest(s0: State, es: seq<Event>, s: State)
    requires Initial(s0) && Run(s0, es, s) && Any(s.pc, Sleeping)
    ensures Any(s.pc, Active) || Any(s.pc, Notifying)
    ensures Quiet(s) ==> exists t :: t in s.pc && s.pc[t].OnRun?
  {
    InitialHolds(s0);
    RunKeeps(s0, es, s);
    if Quiet(s) {
      assert !Any(s.pc, Notifying);
      var t :| t in s.pc && Active(s.pc[t]);
      assert s.pc[t].OnRun?;
    }
  }
}
