/** The lock as the C object: its words change in place, one method call per atomic access. */
module RwlockObject {
  import opened Threads
  import opened Rwlock
  import opened RwlockProofs
  import opened RwlockRuns

  class RwlockT {
    var oid: nat
    var nrd: nat
    var qwr: nat
    var pc: map<Tid, Pc>
    var readers: multiset<Tid>
    var writers: set<Tid>

    function LockWords(): Words
      reads this
    {
      Words(oid, nrd, qwr)
    }

    function View(): State
      reads this
    {
      State(LockWords(), pc, readers, writers)
    }

    ghost predicate Valid()
      reads this
    {
      Safe(View()) && Covered(View())
    }

    /** `pthread_rwlock_init`, used by the threads in `users`. */
    constructor (users: set<Tid>)
      requires forall t :: t in users ==> 0 < t < ID_LIMIT
      requires |users| < LIMB
      ensures Initial(View()) && pc.Keys == users && Valid()
    {
      oid, nrd, qwr := UNOWNED, 0, 0;
      pc := map t | t in users :: Out(OK);
      readers, writers := multiset{}, {};
      new;
      assert pc.Keys == users;
      InitialHolds(View());
    }

    /** The next access of rdlock, tryrdlock or timedrdlock. */
    method Rdlock(p: RdPc, e: Event) returns (next: Pc, deed: Deed)
      modifies this`oid, this`nrd
      ensures Move(next, LockWords(), deed) == ReadMove(p, old(LockWords()), e)
    {
      deed := Nothing;
      match p {
        case RdEntry(k) =>
          next := if oid == e.t then Out(EDEADLK) else Rd(RdLoad(k));
        case RdLoad(k) =>
          if IdBits(oid) == 0 {
            next := Rd(RdCas(k, oid, nrd));
          } else if k.Try? {
            next := Out(EBUSY);
          } else if k.Timed? && !k.valid {
            next := Out(EINVAL);
          } else {
            next := Rd(RdEnter(k, oid));
          }
        case RdCas(k, o, n) =>
          if oid == o && nrd == n && !e.fail {
            oid, nrd := RO, Inc(n);
            next := if o == UNOWNED && n > 0 then Rd(RdShare) else Out(OK);
            deed := GrantRead;
          } else {
            next := Rd(RdLoad(k));
          }
        case RdShare =>
          next, deed := Out(OK), WakeReaders;
        case RdEnter(k, o) =>
          nrd := Inc(nrd);
          next := Rd(RdWait(k, o));
        case RdWait(k, o) =>
          if Expired(k, e) {
            next := Rd(RdLeave(k, true));
          } else if oid == o {
            next := Rd(RdAsleep(k));
          } else {
            next := Rd(RdLeave(k, false));
          }
        case RdAsleep(k) =>
          next := Rd(RdLeave(k, Expired(k, e)));
        case RdLeave(k, late) =>
          nrd := Dec(nrd);
          next := if late then Out(ETIMEDOUT) else Rd(RdLoad(k));
      }
    }

    /** The next access of wrlock, trywrlock or timedwrlock. */
    method Wrlock(p: WrPc, e: Event) returns (next: Pc, deed: Deed)
      modifies this`oid, this`qwr
      ensures Move(next, LockWords(), deed) == WriteMove(p, old(LockWords()), e)
    {
      deed := Nothing;
      match p {
        case WrEntry(k) =>
          next := if oid == e.t then Out(EDEADLK) else Wr(WrLoad(k));
        case WrPeek =>
          next := Wr(WrPeeked(oid));
        case WrPeeked(o) =>
          if oid == e.t {
            next := Out(EDEADLK);
          } else {
            next := if o == UNOWNED then Wr(WrCas(Try)) else Out(EBUSY);
          }
        case WrLoad(k) =>
          if oid == UNOWNED {
            next := Wr(WrCas(k));
          } else {
            next := if k.Timed? && !k.valid then Out(EINVAL) else Wr(WrEnter(k, oid));
          }
        case WrCas(k) =>
          if oid == UNOWNED && !e.fail {
            oid := e.t;
            next, deed := Out(OK), GrantWrite;
          } else {
            next := if k.Try? then Out(EBUSY) else Wr(WrLoad(k));
          }
        case WrEnter(k, o) =>
          qwr := Inc(qwr);
          next := Wr(WrWait(k, qwr, o));
        case WrWait(k, n, o) =>
          if Expired(k, e) {
            next := Wr(WrLeave(k, true));
          } else if qwr == n && oid == o {
            next := Wr(WrAsleep(k));
          } else {
            next := Wr(WrLeave(k, false));
          }
        case WrAsleep(k) =>
          next := Wr(WrLeave(k, Expired(k, e)));
        case WrLeave(k, late) =>
          next := Wr(if late then WrRecheck(qwr) else WrLoad(k));
          qwr := Dec(qwr);
        case WrRecheck(n) =>
          next := if n == 1 && nrd > 0 && oid == UNOWNED then Wr(WrHand) else Out(ETIMEDOUT);
        case WrHand =>
          next, deed := Out(ETIMEDOUT), WakeReaders;
      }
    }

    /** The next access of unlock. */
    method Unlock(p: UnPc, e: Event) returns (next: Pc, deed: Deed)
      modifies this`oid, this`nrd
      ensures Move(next, LockWords(), deed) == UnlockMove(p, old(LockWords()), e)
    {
      deed := Nothing;
      match p {
        case UnLoad =>
          next := Un(if IdBits(oid) != 0 then UnOwner else UnCount);
        case UnOwner =>
          next := if oid == e.t then Un(UnStore) else Out(EPERM);
        case UnStore =>
          oid := UNOWNED;
          next, deed := Un(UnSeeWr), DropWrite;
        case UnSeeWr =>
          next := Un(if qwr > 0 then UnWakeWr else UnSeeRd);
        case UnSeeRd =>
          next := if nrd > 0 then Un(UnWakeRd) else Out(OK);
        case UnWakeWr =>
          next, deed := Out(OK), WakeWriter;
        case UnWakeRd =>
          next, deed := Out(OK), WakeReaders;
        case UnCount =>
          next := if nrd == 0 then Out(EPERM) else Un(UnRdLoad);
        case UnRdLoad =>
          next := Un(UnRdCas(oid, nrd));
        case UnRdCas(o, n) =>
          if oid == o && nrd == n && !e.fail {
            oid, nrd := if n == 1 then UNOWNED else o, Dec(n);
            next, deed := if n == 1 then Un(UnLastSee) else Out(OK), DropRead;
          } else {
            next := Un(UnRdLoad);
          }
        case UnLastSee =>
          next := if qwr > 0 then Un(UnWakeWr) else Out(OK);
      }
    }

    /** One access of thread `e.t`. */
    method Access(e: Event)
      requires e.t in pc
      modifies this
      ensures View() == Step(old(View()), e)
    {
      var next, deed;
      match pc[e.t] {
        case Out(_) => next, deed := Begin(e.op), Nothing;
        case Rd(r) => next, deed := Rdlock(r, e);
        case Wr(w) => next, deed := Wrlock(w, e);
        case Un(u) => next, deed := Unlock(u, e);
      }
      pc := Wake(pc, deed, e.pick)[e.t := next];
      readers := Readers(readers, deed, e.t);
      writers := Writers(writers, deed, e.t);
    }

    /** Any run of the machine, carried out on the object. */
    method Interleave(schedule: seq<Event>, ghost end: State)
      requires Valid() && Run(View(), schedule, end)
      modifies this
      ensures Valid() && View() == end
    {
      hide Step, Safe, Covered;
      var n := 0;
      while n < |schedule|
        invariant n <= |schedule| && Run(View(), schedule[n..], end)
      {
        var e := schedule[n];
        assert schedule[n..][0] == e && schedule[n..][1..] == schedule[n + 1..];
        Access(e);
        n := n + 1;
      }
      RunKeeps(old(View()), schedule, end);
    }
  }
}
