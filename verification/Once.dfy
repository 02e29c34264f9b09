/**
 Once-only initialisation (pthread/once.c) by the threads of one process; the control variable may have been
 inherited from another process in the middle of its own initialisation. One access to the variable, one `gsync`
 call or one run of the initialiser is one step.
 */
module Once {
  import opened Threads

  const INIT: nat := 0
  const DONE: nat := 2

  /** Process ids that `pid << ONCE_SHIFT` keeps within an `int`. */
  const PID_LIMIT: nat := 0x2000_0000

  /** `pid << ONCE_SHIFT | ONCE_WIP`. */
  function Token(pid: nat): nat { 4 * pid + 1 }

  /** Inside pthread_once; `OnReset` and `OnNotify` are the cancellation handler. */
  datatype Pc =
    | Out
    | Gone
    | OnEntry
    | OnTop
    | OnWait
    | OnAsleep
    | OnCas(v: nat)
    | OnRun
    | OnSet
    | OnReset
    | OnNotify

  /** `completed` and `aborted` count the initialisers that ran to their end and those that were cancelled. */
  datatype State = State(w: nat, pid: nat, pc: map<Tid, Pc>, completed: nat, aborted: nat)

  /** Who moves, whether a compare-and-swap fails for no reason, and whether the initialiser is cancelled. */
  datatype Event = Event(t: Tid, fail: bool, cancel: bool)

  datatype Deed = Nothing | Start | Complete | Abort | WakeAll

  datatype Move = Move(p: Pc, w: nat, deed: Deed)

  predicate Active(p: Pc) { p.OnRun? || p.OnSet? || p.OnReset? }
  predicate Finishing(p: Pc) { p.OnSet? }
  predicate Sleeping(p: Pc) { p.OnAsleep? }
  predicate Notifying(p: Pc) { p.OnNotify? }

  /** `pthread_once` and its cleanup handler. `lll_set_wake` stores and wakes in one step. */
  function Next(p: Pc, w: nat, pid: nat, e: Event): Move {
    match p
    case Out => Move(OnEntry, w, Nothing)
    case Gone => Move(Gone, w, Nothing)
    case OnEntry => Move(if w == DONE then Out else OnTop, w, Nothing)
    case OnTop => Move(if w == DONE then Out else if w == Token(pid) then OnWait else OnCas(w), w, Nothing)
    case OnWait => Move(if w == Token(pid) then OnAsleep else OnTop, w, Nothing)
    case OnAsleep => Move(OnTop, w, Nothing)
    case OnCas(v) =>
      if w == v && !e.fail then Move(OnRun, Token(pid), Start) else Move(OnTop, w, Nothing)
    case OnRun => if e.cancel then Move(OnReset, w, Abort) else Move(OnSet, w, Complete)
    case OnSet => Move(Out, DONE, WakeAll)
    case OnReset => Move(OnNotify, INIT, Nothing)
    case OnNotify => Move(Gone, w, WakeAll)
  }

  function Woken(p: Pc): Pc { if p.OnAsleep? then OnTop else p }

  function Step(s: State, e: Event): State
    requires e.t in s.pc
  {
    var m := Next(s.pc[e.t], s.w, s.pid, e);
    State(m.w, s.pid, (if m.deed.WakeAll? then All(s.pc, Woken) else s.pc)[e.t := m.p],
          if m.deed.Complete? then s.completed + 1 else s.completed,
          if m.deed.Abort? then s.aborted + 1 else s.aborted)
  }

  predicate Enabled(s: State, e: Event) { e.t in s.pc }

  /** A fresh variable, a finished one, or one that carries the token of another process. */
  predicate Initial(s: State) {
    && s.pid < PID_LIMIT
    && (s.w == INIT || s.w == DONE || exists q: nat :: q < PID_LIMIT && q != s.pid && s.w == Token(q))
    && (forall t :: t in s.pc ==> s.pc[t].Out?)
    && s.completed == (if s.w == DONE then 1 else 0) && s.aborted == 0
  }

  /** The word carries this process's token exactly while one thread, and only one, has charge of the initialiser. */
  ghost predicate Exclusive(s: State) {
    && (s.w == Token(s.pid) <==> Any(s.pc, Active))
    && (forall t, u :: t in s.pc && u in s.pc && Active(s.pc[t]) && Active(s.pc[u]) ==> t == u)
    && (forall t :: t in s.pc && s.pc[t].OnCas? ==> s.pc[t].v != DONE && s.pc[t].v != Token(s.pid))
  }

  /** At most one initialiser has run to its end, and the word says so as soon as its thread has stored it. */
  ghost predicate CompletedOnce(s: State) {
    s.completed == (if s.w == DONE || Any(s.pc, Finishing) then 1 else 0)
  }

  /** Sleepers have a running initialiser or a broadcast to wait for. */
  ghost predicate Covered(s: State) {
    Any(s.pc, Sleeping) ==> s.w == Token(s.pid) || Any(s.pc, Notifying)
  }

  ghost predicate Safe(s: State) { Exclusive(s) && CompletedOnce(s) && Covered(s) }
}
