/** The semaphore as a C object, changed in place by one access at a time. */
module SemObject {
  import opened Threads
  import opened Sem
  import opened SemRuns

  class SemT {
    var val: nat
    var nw: nat
    var pc: map<Tid, Pc>
    const init: nat
    var posts: nat
    var takes: nat

    function Word(): Words
      reads this
    {
      Words(val, nw)
    }

    function View(): State
      reads this
    {
      State(Word(), pc, init, posts, takes)
    }

    ghost predicate Valid()
      reads this
    {
      Conserved(View()) && Promised(View())
    }

    /** A `sem_init` with a value in range, for the threads in `users`. */
    constructor (value: nat, users: set<Tid>)
      requires value <= SEM_VALUE_MAX && |users| < LIMB
      ensures Initial(View()) && pc.Keys == users && init == value && Valid()
    {
      val, nw := value, 0;
      init, posts, takes := value, 0, 0;
      pc := map t | t in users :: Out(OK);
      new;
      assert pc.Keys == users;
      InitialHolds(View());
    }

    /** The next access of sem_post. */
    method SemPost(p: PoPc, e: Event) returns (next: Pc, deed: Deed)
      modifies this`val
      ensures Move(next, Word(), deed) == PostMove(p, old(Word()), e)
    {
      deed := Nothing;
      match p {
        case PoLoad =>
          next := if val == SEM_VALUE_MAX then Out(EOVERFLOW) else Po(PoCas(val, nw));
        case PoCas(v, n) =>
          if val == v && nw == n && !e.fail {
            val := Inc(v);
            next, deed := if n > 0 then Po(PoWake) else Out(OK), Posted;
          } else {
            next := Po(PoLoad);
          }
        case PoWake =>
          next, deed := Out(OK), WakeOne;
      }
    }

    /** The next access of `__sem_trywait`. */
    method TryOnce(y: TwPc, from: From, e: Event) returns (next: Pc, deed: Deed)
      modifies this`val
      ensures Move(next, Word(), deed) == TryMove(y, from, old(Word()), e)
    {
      deed := Nothing;
      match y {
        case TwLoad =>
          if val != 0 {
            next := Tw(TwCas(val), from);
          } else if from.TryOnly? {
            next := Out(EAGAIN);
          } else {
            next := Sw(EnLoad(from.k));
          }
        case TwCas(v) =>
          if val == v && !e.fail {
            val := Dec(v);
            next, deed := Out(OK), Taken;
          } else {
            next := Tw(TwLoad, from);
          }
      }
    }

    /** The next access of the slow path of sem_wait or sem_timedwait. */
    method SlowWait(x: SwPc, e: Event) returns (next: Pc, deed: Deed)
      modifies this`val, this`nw
      ensures Move(next, Word(), deed) == SlowMove(x, old(Word()), e)
    {
      deed := Nothing;
      match x {
        case EnLoad(k) =>
          next := Sw(EnCas(k, val, nw));
        case EnCas(k, v, n) =>
          if val == v && nw == n && !e.fail {
            nw := Inc(n);
            next := Sw(SwLoad(k));
          } else {
            next := Sw(EnLoad(k));
          }
        case SwLoad(k) =>
          if val > 0 {
            next := Sw(SwCas(k, val, nw));
          } else {
            next := Sw(if k.Timed? && !k.valid then LvLoad(ETIMEDOUT) else SwWait(k));
          }
        case SwCas(k, v, n) =>
          if val == v && nw == n && !e.fail {
            val, nw := Dec(v), Dec(n);
            next, deed := Out(OK), Taken;
          } else {
            next := Sw(SwLoad(k));
          }
        case SwWait(k) =>
          if k.Timed? && e.late {
            next := Sw(LvLoad(ETIMEDOUT));
          } else {
            next := Sw(if val == 0 then SwAsleep(k) else SwLoad(k));
          }
        case SwAsleep(k) =>
          if e.cut.Cancel? {
            next := Sw(LvLoad(CANCELED));
          } else if e.cut.Interrupt? {
            next := Sw(LvLoad(EINTR));
          } else {
            next := Sw(if k.Timed? && e.late then LvLoad(ETIMEDOUT) else SwLoad(k));
          }
        case LvLoad(code) =>
          next := Sw(LvCas(code, val, nw));
        case LvCas(code, v, n) =>
          if val == v && nw == n && !e.fail {
            nw := Dec(n);
            next := Out(code);
          } else {
            next := Sw(LvLoad(code));
          }
      }
    }

    /** One access of thread `e.t`. */
    method Access(e: Event)
      requires e.t in pc
      modifies this
      ensures View() == Step(old(View()), e)
    {
      var next, deed;
      match pc[e.t] {
        case Out(_) => next, deed := Begin(e.op), Nothing;
        case Po(p) => next, deed := SemPost(p, e);
        case Tw(y, from) => next, deed := TryOnce(y, from, e);
        case Sw(x) => next, deed := SlowWait(x, e);
      }
      pc := Wake(pc, deed, e.pick)[e.t := next];
      posts := Tick(posts, deed, Posted);
      takes := Tick(takes, deed, Taken);
    }

    /** Any run of the machine, carried out on the object. */
    method Interleave(schedule: seq<Event>, ghost end: State)
      requires Valid() && Run(View(), schedule, end)
      modifies this
      ensures Valid() && View() == end
    {
      hide Step, Conserved, Promised;
      var n := 0;
      while n < |schedule|
        invariant n <= |schedule| && Run(View(), schedule[n..], end)
      {
        var e := schedule[n];
        assert schedule[n..][0] == e && schedule[n..][1..] == schedule[n + 1..];
        Access(e);
        n := n + 1;
      }
      RunKeeps(old(View()), schedule, end);
    }
  }
}
