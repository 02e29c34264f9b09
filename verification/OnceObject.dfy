/** The once-control variable as the C object, changed in place by one access at a time. */
module OnceObject {
  import opened Threads
  import opened Once
  import opened OnceRuns

  class OnceT {
    var control: nat
    const pid: nat
    var pc: map<Tid, Pc>
    var completed: nat
    var aborted: nat

    function View(): State
      reads this
    {
      State(control, pid, pc, completed, aborted)
    }

    ghost predicate Valid()
      reads this
    {
      Safe(View())
    }

    /** A variable that a new process finds with the value `found`: fresh, finished, or in another's progress. */
    constructor (pid: nat, found: nat, users: set<Tid>)
      requires pid < PID_LIMIT
      requires found == INIT || found == DONE || exists q: nat :: q < PID_LIMIT && q != pid && found == Token(q)
      ensures Initial(View()) && pc.Keys == users && control == found && Valid()
    {
      control := found;
      this.pid := pid;
      pc := map t | t in users :: Out;
      completed, aborted := if found == DONE then 1 else 0, 0;
      new;
      assert pc.Keys == users;
      InitialHolds(View());
    }

    /** The next access of pthread_once or of its cancellation handler. */
    method OnceAccess(p: Pc, e: Event) returns (next: Pc, deed: Deed)
      modifies this`control
      ensures Move(next, control, deed) == Next(p, old(control), pid, e)
    {
      deed := Nothing;
      match p {
        case Out =>
          next := OnEntry;
        case Gone =>
          next := Gone;
        case OnEntry =>
          next := if control == DONE then Out else OnTop;
        case OnTop =>
          if control == DONE {
            next := Out;
          } else {
            next := if control == Token(pid) then OnWait else OnCas(control);
          }
        case OnWait =>
          next := if control == Token(pid) then OnAsleep else OnTop;
        case OnAsleep =>
          next := OnTop;
        case OnCas(v) =>
          if control == v && !e.fail {
            control := Token(pid);
            next, deed := OnRun, Start;
          } else {
            next := OnTop;
          }
        case OnRun =>
          if e.cancel {
            next, deed := OnReset, Abort;
          } else {
            next, deed := OnSet, Complete;
          }
        case OnSet =>
          control := DONE;
          next, deed := Out, WakeAll;
        case OnReset =>
          control := INIT;
          next := OnNotify;
        case OnNotify =>
          next, deed := Gone, WakeAll;
      }
    }

    /** One access of thread `e.t`. */
    method Access(e: Event)
      requires e.t in pc
      modifies this
      ensures View() == Step(old(View()), e)
    {
      var next, deed := OnceAccess(pc[e.t], e);
      if deed.WakeAll? { pc := All(pc, Woken); }
      if deed.Complete? { completed := completed + 1; }
      if deed.Abort? { aborted := aborted + 1; }
      pc := pc[e.t := next];
    }

    /** Any run of the machine, carried out on the object. */
    method Interleave(schedule: seq<Event>, ghost end: State)
      requires Valid() && Run(View(), schedule, end)
      modifies this
      ensures Valid() && View() == end
    {
      hide Step, Safe;
      var n := 0;
      while n < |schedule|
        invariant n <= |schedule| && Run(View(), schedule[n..], end)
      {
        var e := schedule[n];
        assert schedule[n..][0] == e && schedule[n..][1..] == schedule[n + 1..];
        Access(e);
        n := n + 1;
      }
      RunKeeps(old(View()), schedule, end);
    }
  }
}
