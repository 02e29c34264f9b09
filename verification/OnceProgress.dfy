/** What a call of pthread_once comes to when its thread moves alone (pthread/once.c). */
module OnceProgress {
  import opened Threads
  import opened Once
  import opened OnceRuns
  import opened Runs

  /** An upper bound on the steps that a thread at `p` makes alone before it is outside or asleep. */
  function Rank(p: Pc, w: nat, pid: nat): nat {
    match p
    case Out => 0
    case Gone => 0
    case OnEntry => 10
    case OnTop => 8
    case OnWait => if w == Token(pid) then 5 else 9
    case OnAsleep => 0
    case OnCas(v) => if v == w then 4 else 9
    case OnRun => 3
    case OnSet => 2
    case OnReset => 2
    case OnNotify => 1
  }

  /** No compare-and-swap fails for no reason, and the initialiser is not cancelled. */
  function Alone(t: Tid): Event { Event(t, false, false) }

  predicate Rests(s: State, t: Tid) { t in s.pc && (s.pc[t].Out? || s.pc[t].Gone? || Sleeping(s.pc[t])) }

  function RankOf(s: State, t: Tid): nat { if t in s.pc then Rank(s.pc[t], s.w, s.pid) else 0 }

  lemma RankBound(s: State, t: Tid)
    ensures RankOf(s, t) <= 10
  {}

  lemma AloneWinds(s: State, t: Tid)
    requires t in s.pc && !Rests(s, t)
    ensures var s' := Step(s, Alone(t)); t in s'.pc && RankOf(s', t) < RankOf(s, t)
  {}

  /** No call spins: a thread that moves alone is outside or asleep after at most 10 steps. */
  lemma NeverSpins(s: State, t: Tid) returns (es: seq<Event>, s': State)
    requires t in s.pc
    ensures Run(s, es, s') && Rests(s', t) && |es| <= 10 && forall e :: e in es ==> e == Alone(t)
  {
    RankBound(s, t);
    hide Rank, Step, RankOf, Rests;
    forall x: State | t in x.pc && !Rests(x, t)
      ensures var x' := Step(x, Alone(t)); t in x'.pc && RankOf(x', t) < RankOf(x, t)
    {
      AloneWinds(x, t);
    }
    es, s' := Winds(Attempt, _ => Alone(t), e => e == Alone(t), (x: State) => t in x.pc, x => Rests(x, t),
                    x => RankOf(x, t), s);
  }

  /** No initialiser is at work: the variable is fresh, was put back, or carries the token of another process. */
  predicate Unattended(w: nat, pid: nat) { w != DONE && w != Token(pid) }

  /** On the way to running the initialiser and to being back with `n` completed. */
  predicate Coming(p: Pc, w: nat, pid: nat, completed: nat, n: nat) {
    match p
    case Out => w == DONE && completed == n
    case Gone => false
    case OnEntry => Unattended(w, pid) && completed + 1 == n
    case OnTop => Unattended(w, pid) && completed + 1 == n
    case OnWait => Unattended(w, pid) && completed + 1 == n
    case OnAsleep => false
    case OnCas(_) => Unattended(w, pid) && completed + 1 == n
    case OnRun => completed + 1 == n
    case OnSet => completed == n
    case OnReset => false
    case OnNotify => false
  }

  predicate ComingIn(s: State, t: Tid, n: nat) { t in s.pc && Coming(s.pc[t], s.w, s.pid, s.completed, n) }

  predicate DoneIn(s: State, t: Tid) { t in s.pc && s.pc[t].Out? }

  lemma AloneComes(s: State, t: Tid, n: nat)
    requires ComingIn(s, t, n) && !DoneIn(s, t)
    ensures var s' := Step(s, Alone(t)); ComingIn(s', t, n) && RankOf(s', t) < RankOf(s, t)
  {}

  lemma GoesOn(s: State, t: Tid, n: nat) returns (es: seq<Event>, s': State)
    requires ComingIn(s, t, n)
    ensures Run(s, es, s') && ComingIn(s', t, n) && DoneIn(s', t) && |es| <= 10 && forall e :: e in es ==> e == Alone(t)
  {
    RankBound(s, t);
    ComingWinds(t, n);
    hide Rank, Step, RankOf, Coming;
    es, s' := Winds(Attempt, _ => Alone(t), e => e == Alone(t), x => ComingIn(x, t, n), x => DoneIn(x, t),
                    x => RankOf(x, t), s);
  }

  lemma ComingWinds(t: Tid, n: nat)
    ensures forall x :: ComingIn(x, t, n) && !DoneIn(x, t) ==>
      Enabled(x, Alone(t)) && ComingIn(Step(x, Alone(t)), t, n) && RankOf(Step(x, Alone(t)), t) < RankOf(x, t)
  {
    hide Rank, Step, RankOf, Coming;
    forall x | ComingIn(x, t, n) && !DoneIn(x, t)
      ensures Enabled(x, Alone(t)) && ComingIn(Step(x, Alone(t)), t, n) && RankOf(Step(x, Alone(t)), t) < RankOf(x, t)
    {
      AloneComes(x, t, n);
    }
  }

  /** A thread in the call, before it sleeps, that finds nobody at the initialiser takes the variable over, be it fresh or
      inherited from another process in the middle of its own initialisation: it runs the initialiser and returns, with the
      variable done. It runs it for the first time. */
  lemma TakesOver(s0: State, es: seq<Event>, s: State, t: Tid) returns (more: seq<Event>, s': State)
    requires Initial(s0) && Run(s0, es, s) && t in s.pc && Unattended(s.w, s.pid)
    requires s.pc[t].OnEntry? || s.pc[t].OnTop? || s.pc[t].OnWait? || s.pc[t].OnCas?
    ensures Run(s, more, s') && |more| <= 10 && forall e :: e in more ==> e == Alone(t)
    ensures t in s'.pc && s'.pc[t].Out? && s'.w == DONE && s.completed == 0 && s'.completed == 1
  {
    InitialHolds(s0);
    RunKeeps(s0, es, s);
    NobodyFinishing(s);
    more, s' := GoesOn(s, t, 1);
  }

  lemma NobodyFinishing(s: State)
    requires Exclusive(s) && CompletedOnce(s) && Unattended(s.w, s.pid)
    ensures s.completed == 0
  {
    if x :| x in s.pc && Finishing(s.pc[x]) { assert Active(s.pc[x]); }
  }

  /** A cancelled initialiser puts the variable back, whatever it was before, and wakes everybody; its thread is gone. */
  lemma CancelPutsBack(s: State, t: Tid) returns (es: seq<Event>, s': State)
    requires t in s.pc && s.pc[t].OnRun?
    ensures Run(s, es, s') && |es| == 3 && forall e :: e in es ==> e.t == t
    ensures s'.w == INIT && s'.aborted == s.aborted + 1 && s'.completed == s.completed
    ensures t in s'.pc && s'.pc[t].Gone? && !Any(s'.pc, Sleeping)
  {
    var a, e := Event(t, false, true), Alone(t);
    var s1 := Step(s, a);
    var s2 := Step(s1, e);
    es, s' := [a, e, e], Step(s2, e);
    assert Leads(Attempt, s2, [e], s') by { assert Leads(Attempt, s', [], s'); }
    assert Leads(Attempt, s1, [e, e], s') by { assert [e, e][1..] == [e]; }
    assert es[1..] == [e, e];
  }
}
