/** The barrier as a C object, changed in place by one access at a time. */
module BarrierObject {
  import opened Threads
  import opened Barrier
  import opened BarrierProofs
  import opened BarrierRuns

  class BarrierT {
    var lo: nat
    var cnt: nat
    var nrefs: nat
    const total: nat
    var pc: map<Tid, Pc>
    var d: DPc
    var gen: nat
    var arrivals: map<Tid, nat>
    var winners: seq<Tid>
    var log: map<(Tid, nat), bool>

    function BarrierWords(): Words
      reads this
    {
      Words(lo, cnt, nrefs)
    }

    function View(): State
      reads this
    {
      State(BarrierWords(), total, pc, d, gen, arrivals, winners, log)
    }

    ghost predicate Valid()
      reads this
    {
      Safe(View())
    }

    /** `pthread_barrier_init` with the number of the threads in `users`, which it refuses when it is 0. */
    constructor (users: set<Tid>)
      requires users != {} && |users| + 1 < LIMB
      ensures Initial(View()) && pc.Keys == users && Valid()
    {
      lo, cnt, nrefs, total := 0, 0, 1, |users| - 1;
      pc := map t | t in users :: Idle;
      arrivals := map t | t in users :: 0;
      d, gen, winners, log := DIdle, 0, [], map[];
      new;
      assert pc.Keys == users && arrivals.Keys == users;
      InitialHolds(View());
    }

    /** The next access of pthread_barrier_wait. */
    method WaitAccess(p: Pc) returns (next: Pc, deed: Deed)
      modifies this`lo, this`cnt, this`nrefs
      ensures Move(next, BarrierWords(), deed) == WaitMove(p, old(BarrierWords()), total)
    {
      deed := Nothing;
      match p {
        case Idle =>
          nrefs := Inc(nrefs);
          next := BaLoad;
        case BaLoad =>
          next := BaAdd(lo);
        case BaAdd(sq) =>
          var c := cnt;
          cnt := Inc(cnt);
          next, deed := if c < total then BaTest(sq) else if c == total then BaSee else BaStray(sq), Arrive;
        case BaTest(sq) =>
          next := if lo == sq then BaWait(sq) else BaOut(false);
        case BaWait(sq) =>
          next := if lo == sq then BaAsleep(sq) else BaTest(sq);
        case BaAsleep(sq) =>
          next := BaTest(sq);
        case BaSee =>
          next := BaStore(Inc(lo));
        case BaStore(v) =>
          lo, cnt := v, 0;
          next, deed := BaWake, Open;
        case BaWake =>
          next, deed := BaOut(true), WakeAll;
        case BaStray(sq) =>
          next := BaOut(false);
        case BaOut(serial) =>
          var was := nrefs;
          nrefs := Dec(nrefs);
          if was == 1 {
            next := BaLast(serial);
          } else {
            next, deed := Idle, Return(serial);
          }
        case BaLast(serial) =>
          next, deed := Idle, WakeAndReturn(serial);
      }
    }

    /** The next access of pthread_barrier_destroy. */
    method DestroyAccess()
      modifies this`nrefs, this`d
      ensures (d, nrefs) == DestroyMove(old(d), old(nrefs))
    {
      match d {
        case DIdle => d := DSub;
        case DSub =>
          nrefs := Dec(nrefs);
          d := if nrefs == 0 then DDone else DWait(nrefs);
        case DWait(r) => d := if nrefs == r then DAsleep else DLoad;
        case DAsleep => d := DLoad;
        case DLoad => d := if nrefs == 0 then DDone else DWait(nrefs);
        case DDone =>
      }
    }

    /** One access of a waiting thread or of the destroying one. */
    method Access(e: Event)
      requires e.Waiter? ==> e.t in pc && e.t in arrivals
      modifies this
      ensures View() == Step(old(View()), e)
    {
      match e
      case Destroyer => DestroyAccess();
      case Waiter(t) =>
        var next, deed := WaitAccess(pc[t]);
        if deed.Return? || deed.WakeAndReturn? { log := log[(t, arrivals[t]) := deed.serial]; }
        if deed.WakeAndReturn? && d.DAsleep? { d := DLoad; }
        if deed.Open? { gen, winners := gen + 1, winners + [t]; }
        if deed.Arrive? { arrivals := arrivals[t := arrivals[t] + 1]; }
        if deed.WakeAll? { pc := All(pc, Woken); }
        pc := pc[t := next];
    }

    /** Any run of the machine, carried out on the object. */
    method Interleave(schedule: seq<Event>, ghost end: State)
      requires Valid() && Run(View(), schedule, end)
      modifies this
      ensures Valid() && View() == end
    {
      hide Step, Safe;
      var n := 0;
      while n < |schedule|
        invariant n <= |schedule| && Run(View(), schedule[n..], end)
      {
        var e := schedule[n];
        assert schedule[n..][0] == e && schedule[n..][1..] == schedule[n + 1..];
        Access(e);
        n := n + 1;
      }
      RunKeeps(old(View()), schedule, end);
    }
  }
}
